/**
 * The groups of OS_FAMILIES, looked up by hand. `GroupOfCode` is written out
 * independently of the table and finds the group that lists a code. The
 * `GroupsOfCodes` lemmas evaluate it on every listed code, a few codes at a
 * time, and the `Group` lemmas show that it finds each group again from each
 * of its codes. This is what shows that no code is listed under two families.
 * `GroupOfLabel` does the same for the family labels, which shows that no
 * label opens two groups.
 */
module FamilyFacts {
  import opened Registry

  /** The group of OS_FAMILIES that lists `code`, or `FamilyCount` for none. */
  function GroupOfCode(code: string): nat {
    if |code| == 0 then FamilyCount
    else match code[0]
      case 'A' => (
        match code
        case "AND" => 0 case "AMG" => 1 case "ATV" => 10 case "ARL" => 12 case "AIX" => 18
        case _ => FamilyCount)
      case 'B' => (
        match code
        case "BLB" => 2 case "BMP" => 3 case "BEO" => 4 case "BTR" => 12 case "BSD" => 18
        case _ => FamilyCount)
      case 'C' => (
        match code
        case "CYN" => 0 case "COS" => 5 case "CES" => 12 case "CAI" => 12
        case _ => FamilyCount)
      case 'D' => (
        match code
        case "DEB" => 12 case "DEE" => 12 case "DVK" => 12 case "DFB" => 18
        case _ => FamilyCount)
      case 'F' => (
        match code
        case "FIR" => 0 case "FYD" => 5 case "FOS" => 6 case "FED" => 12 case "FRE" => 12
        case "FEN" => 12
        case _ => FamilyCount)
      case 'G' => (
        match code
        case "GRI" => 0 case "GTV" => 8 case "GNT" => 12
        case _ => FamilyCount)
      case 'H' => (
        match code
        case "HAR" => 0 case "HAI" => 4 case "HAS" => 12 case "HPX" => 18
        case _ => FamilyCount)
      case 'I' => (
        match code
        case "IOS" => 10 case "IPA" => 10 case "IRI" => 18 case "INF" => 18
        case _ => FamilyCount)
      case 'J' => (
        match code
        case "JME" => 15
        case _ => FamilyCount)
      case 'K' => (
        match code
        case "KOS" => 6 case "KNO" => 12 case "KBT" => 12
        case _ => FamilyCount)
      case 'L' => (
        match code
        case "LIN" => 12 case "LBT" => 12 case "LOS" => 12
        case _ => FamilyCount)
      case 'M' => (
        match code
        case "MLD" => 0 case "MCD" => 0 case "MOR" => 1 case "MIN" => 12 case "MDR" => 12
        case "MAG" => 12 case "MAC" => 13 case "MTK" => 15 case "MRE" => 15 case "MAE" => 16
        case _ => FamilyCount)
      case 'N' => (
        match code
        case "NDS" => 14 case "NBS" => 18
        case _ => FamilyCount)
      case 'O' => (
        match code
        case "OS2" => 9 case "ORD" => 12 case "OBS" => 18
        case _ => FamilyCount)
      case 'P' => (
        match code
        case "PS3" => 7 case "PCL" => 12 case "PSP" => 14 case "POS" => 16
        case _ => FamilyCount)
      case 'Q' => (
        match code
        case "QNX" => 2
        case _ => FamilyCount)
      case 'R' => (
        match code
        case "REM" => 0 case "RZD" => 0 case "ROS" => 11 case "RHT" => 12 case "RSO" => 12
        case "REX" => 15
        case _ => FamilyCount)
      case 'S' => (
        match code
        case "SEE" => 5 case "SAB" => 12 case "SLW" => 12 case "SSE" => 12 case "SAF" => 12
        case "SBA" => 16 case "SMG" => 16 case "SYM" => 17 case "SYS" => 17 case "SY3" => 17
        case "S60" => 17 case "S40" => 17 case "SOS" => 18 case "SYL" => 18
        case _ => FamilyCount)
      case 'T' => (
        match code
        case "TOS" => 12 case "TDX" => 15 case "TIZ" => 16 case "T64" => 18
        case _ => FamilyCount)
      case 'U' => (
        match code
        case "UBT" => 12
        case _ => FamilyCount)
      case 'V' => (
        match code
        case "VLN" => 12
        case _ => FamilyCount)
      case 'W' => (
        match code
        case "WII" => 7 case "WAS" => 10 case "WOS" => 16 case "WTV" => 19 case "WIN" => 20
        case "WPH" => 21 case "WMO" => 21 case "WCE" => 21 case "WRT" => 21 case "WIO" => 21
        case "WHS" => 22
        case _ => FamilyCount)
      case 'X' => (
        match code
        case "XBT" => 12 case "XBX" => 14
        case _ => FamilyCount)
      case 'Y' => (
        match code
        case "YNS" => 0
        case _ => FamilyCount)
      case _ => FamilyCount
  }

  /** The group of OS_FAMILIES labelled `family`, or `FamilyCount` for none. */
  function GroupOfLabel(family: string): nat {
    match family
    case "Android" => 0 case "AmigaOS" => 1 case "BlackBerry" => 2 case "Brew" => 3
    case "BeOS" => 4 case "Chrome OS" => 5 case "Firefox OS" => 6 case "Gaming Console" => 7
    case "Google TV" => 8 case "IBM" => 9 case "iOS" => 10 case "RISC OS" => 11
    case "GNU/Linux" => 12 case "Mac" => 13 case "Mobile Gaming Console" => 14
    case "Real-time OS" => 15 case "Other Mobile" => 16 case "Symbian" => 17 case "Unix" => 18
    case "WebTV" => 19 case "Windows" => 20 case "Windows Mobile" => 21 case "Other Smart TV" => 22
    case _ => FamilyCount
  }

  lemma GroupsOfCodes0()
    ensures GroupOfCode("AND") == 0
      && GroupOfCode("CYN") == 0
      && GroupOfCode("FIR") == 0
      && GroupOfCode("REM") == 0
      && GroupOfCode("RZD") == 0
      && GroupOfCode("MLD") == 0
      && GroupOfCode("MCD") == 0
      && GroupOfCode("YNS") == 0
  {
  }

  lemma GroupsOfCodes8()
    ensures GroupOfCode("GRI") == 0
      && GroupOfCode("HAR") == 0
      && GroupOfCode("AMG") == 1
      && GroupOfCode("MOR") == 1
      && GroupOfCode("BLB") == 2
      && GroupOfCode("QNX") == 2
      && GroupOfCode("BMP") == 3
      && GroupOfCode("BEO") == 4
  {
  }

  lemma GroupsOfCodes16()
    ensures GroupOfCode("HAI") == 4
      && GroupOfCode("COS") == 5
      && GroupOfCode("FYD") == 5
      && GroupOfCode("SEE") == 5
      && GroupOfCode("FOS") == 6
      && GroupOfCode("KOS") == 6
      && GroupOfCode("WII") == 7
      && GroupOfCode("PS3") == 7
  {
  }

  lemma GroupsOfCodes24()
    ensures GroupOfCode("GTV") == 8
      && GroupOfCode("OS2") == 9
      && GroupOfCode("IOS") == 10
      && GroupOfCode("ATV") == 10
      && GroupOfCode("WAS") == 10
      && GroupOfCode("IPA") == 10
      && GroupOfCode("ROS") == 11
      && GroupOfCode("LIN") == 12
  {
  }

  lemma GroupsOfCodes32()
    ensures GroupOfCode("ARL") == 12
      && GroupOfCode("DEB") == 12
      && GroupOfCode("KNO") == 12
      && GroupOfCode("MIN") == 12
      && GroupOfCode("UBT") == 12
      && GroupOfCode("KBT") == 12
      && GroupOfCode("XBT") == 12
      && GroupOfCode("LBT") == 12
  {
  }

  lemma GroupsOfCodes40()
    ensures GroupOfCode("FED") == 12
      && GroupOfCode("RHT") == 12
      && GroupOfCode("VLN") == 12
      && GroupOfCode("MDR") == 12
      && GroupOfCode("GNT") == 12
      && GroupOfCode("SAB") == 12
      && GroupOfCode("SLW") == 12
      && GroupOfCode("SSE") == 12
  {
  }

  lemma GroupsOfCodes48()
    ensures GroupOfCode("CES") == 12
      && GroupOfCode("BTR") == 12
      && GroupOfCode("SAF") == 12
      && GroupOfCode("ORD") == 12
      && GroupOfCode("TOS") == 12
      && GroupOfCode("RSO") == 12
      && GroupOfCode("DEE") == 12
      && GroupOfCode("FRE") == 12
  {
  }

  lemma GroupsOfCodes56()
    ensures GroupOfCode("MAG") == 12
      && GroupOfCode("FEN") == 12
      && GroupOfCode("CAI") == 12
      && GroupOfCode("PCL") == 12
      && GroupOfCode("HAS") == 12
      && GroupOfCode("LOS") == 12
      && GroupOfCode("DVK") == 12
      && GroupOfCode("MAC") == 13
  {
  }

  lemma GroupsOfCodes64()
    ensures GroupOfCode("PSP") == 14
      && GroupOfCode("NDS") == 14
      && GroupOfCode("XBX") == 14
      && GroupOfCode("MTK") == 15
      && GroupOfCode("TDX") == 15
      && GroupOfCode("MRE") == 15
      && GroupOfCode("JME") == 15
      && GroupOfCode("REX") == 15
  {
  }

  lemma GroupsOfCodes72()
    ensures GroupOfCode("WOS") == 16
      && GroupOfCode("POS") == 16
      && GroupOfCode("SBA") == 16
      && GroupOfCode("TIZ") == 16
      && GroupOfCode("SMG") == 16
      && GroupOfCode("MAE") == 16
      && GroupOfCode("SYM") == 17
      && GroupOfCode("SYS") == 17
  {
  }

  lemma GroupsOfCodes80()
    ensures GroupOfCode("SY3") == 17
      && GroupOfCode("S60") == 17
      && GroupOfCode("S40") == 17
      && GroupOfCode("SOS") == 18
      && GroupOfCode("AIX") == 18
      && GroupOfCode("HPX") == 18
      && GroupOfCode("BSD") == 18
      && GroupOfCode("NBS") == 18
  {
  }

  lemma GroupsOfCodes88()
    ensures GroupOfCode("OBS") == 18
      && GroupOfCode("DFB") == 18
      && GroupOfCode("SYL") == 18
      && GroupOfCode("IRI") == 18
      && GroupOfCode("T64") == 18
      && GroupOfCode("INF") == 18
      && GroupOfCode("WTV") == 19
      && GroupOfCode("WIN") == 20
  {
  }

  lemma GroupsOfCodes96()
    ensures GroupOfCode("WPH") == 21
      && GroupOfCode("WMO") == 21
      && GroupOfCode("WCE") == 21
      && GroupOfCode("WRT") == 21
      && GroupOfCode("WIO") == 21
      && GroupOfCode("WHS") == 22
  {
  }

  /** Group 0 (Android) is found again from its label and from each of its codes. */
  lemma Group0()
    ensures GroupOfLabel(FamilyRow(0).0) == 0
    ensures forall k :: 0 <= k < |FamilyRow(0).1| ==> GroupOfCode(FamilyRow(0).1[k]) == 0
  {
    assert FamilyRow(0).0 == "Android";
    assert FamilyRow(0).1 == [
      "AND", "CYN", "FIR", "REM", "RZD", "MLD", "MCD", "YNS", "GRI", "HAR"];
    GroupsOfCodes0();
    GroupsOfCodes8();
  }

  /** Group 1 (AmigaOS) is found again from its label and from each of its codes. */
  lemma Group1()
    ensures GroupOfLabel(FamilyRow(1).0) == 1
    ensures forall k :: 0 <= k < |FamilyRow(1).1| ==> GroupOfCode(FamilyRow(1).1[k]) == 1
  {
    assert FamilyRow(1).0 == "AmigaOS";
    assert FamilyRow(1).1 == [
      "AMG", "MOR"];
    GroupsOfCodes8();
  }

  /** Group 2 (BlackBerry) is found again from its label and from each of its codes. */
  lemma Group2()
    ensures GroupOfLabel(FamilyRow(2).0) == 2
    ensures forall k :: 0 <= k < |FamilyRow(2).1| ==> GroupOfCode(FamilyRow(2).1[k]) == 2
  {
    assert FamilyRow(2).0 == "BlackBerry";
    assert FamilyRow(2).1 == [
      "BLB", "QNX"];
    GroupsOfCodes8();
  }

  /** Group 3 (Brew) is found again from its label and from each of its codes. */
  lemma Group3()
    ensures GroupOfLabel(FamilyRow(3).0) == 3
    ensures forall k :: 0 <= k < |FamilyRow(3).1| ==> GroupOfCode(FamilyRow(3).1[k]) == 3
  {
    assert FamilyRow(3).0 == "Brew";
    assert FamilyRow(3).1 == [
      "BMP"];
    GroupsOfCodes8();
  }

  /** Group 4 (BeOS) is found again from its label and from each of its codes. */
  lemma Group4()
    ensures GroupOfLabel(FamilyRow(4).0) == 4
    ensures forall k :: 0 <= k < |FamilyRow(4).1| ==> GroupOfCode(FamilyRow(4).1[k]) == 4
  {
    assert FamilyRow(4).0 == "BeOS";
    assert FamilyRow(4).1 == [
      "BEO", "HAI"];
    GroupsOfCodes8();
    GroupsOfCodes16();
  }

  /** Group 5 (Chrome OS) is found again from its label and from each of its codes. */
  lemma Group5()
    ensures GroupOfLabel(FamilyRow(5).0) == 5
    ensures forall k :: 0 <= k < |FamilyRow(5).1| ==> GroupOfCode(FamilyRow(5).1[k]) == 5
  {
    assert FamilyRow(5).0 == "Chrome OS";
    assert FamilyRow(5).1 == [
      "COS", "FYD", "SEE"];
    GroupsOfCodes16();
  }

  /** Group 6 (Firefox OS) is found again from its label and from each of its codes. */
  lemma Group6()
    ensures GroupOfLabel(FamilyRow(6).0) == 6
    ensures forall k :: 0 <= k < |FamilyRow(6).1| ==> GroupOfCode(FamilyRow(6).1[k]) == 6
  {
    assert FamilyRow(6).0 == "Firefox OS";
    assert FamilyRow(6).1 == [
      "FOS", "KOS"];
    GroupsOfCodes16();
  }

  /** Group 7 (Gaming Console) is found again from its label and from each of its codes. */
  lemma Group7()
    ensures GroupOfLabel(FamilyRow(7).0) == 7
    ensures forall k :: 0 <= k < |FamilyRow(7).1| ==> GroupOfCode(FamilyRow(7).1[k]) == 7
  {
    assert FamilyRow(7).0 == "Gaming Console";
    assert FamilyRow(7).1 == [
      "WII", "PS3"];
    GroupsOfCodes16();
  }

  /** Group 8 (Google TV) is found again from its label and from each of its codes. */
  lemma Group8()
    ensures GroupOfLabel(FamilyRow(8).0) == 8
    ensures forall k :: 0 <= k < |FamilyRow(8).1| ==> GroupOfCode(FamilyRow(8).1[k]) == 8
  {
    assert FamilyRow(8).0 == "Google TV";
    assert FamilyRow(8).1 == [
      "GTV"];
    GroupsOfCodes24();
  }

  /** Group 9 (IBM) is found again from its label and from each of its codes. */
  lemma Group9()
    ensures GroupOfLabel(FamilyRow(9).0) == 9
    ensures forall k :: 0 <= k < |FamilyRow(9).1| ==> GroupOfCode(FamilyRow(9).1[k]) == 9
  {
    assert FamilyRow(9).0 == "IBM";
    assert FamilyRow(9).1 == [
      "OS2"];
    GroupsOfCodes24();
  }

  /** Group 10 (iOS) is found again from its label and from each of its codes. */
  lemma Group10()
    ensures GroupOfLabel(FamilyRow(10).0) == 10
    ensures forall k :: 0 <= k < |FamilyRow(10).1| ==> GroupOfCode(FamilyRow(10).1[k]) == 10
  {
    assert FamilyRow(10).0 == "iOS";
    assert FamilyRow(10).1 == [
      "IOS", "ATV", "WAS", "IPA"];
    GroupsOfCodes24();
  }

  /** Group 11 (RISC OS) is found again from its label and from each of its codes. */
  lemma Group11()
    ensures GroupOfLabel(FamilyRow(11).0) == 11
    ensures forall k :: 0 <= k < |FamilyRow(11).1| ==> GroupOfCode(FamilyRow(11).1[k]) == 11
  {
    assert FamilyRow(11).0 == "RISC OS";
    assert FamilyRow(11).1 == [
      "ROS"];
    GroupsOfCodes24();
  }

  /** Group 12 (GNU/Linux) is found again from its label and from each of its codes. */
  lemma Group12()
    ensures GroupOfLabel(FamilyRow(12).0) == 12
    ensures forall k :: 0 <= k < |FamilyRow(12).1| ==> GroupOfCode(FamilyRow(12).1[k]) == 12
  {
    assert FamilyRow(12).0 == "GNU/Linux";
    assert FamilyRow(12).1 == [
      "LIN", "ARL", "DEB", "KNO", "MIN", "UBT", "KBT", "XBT", "LBT", "FED", "RHT", "VLN", "MDR",
      "GNT", "SAB", "SLW", "SSE", "CES", "BTR", "SAF", "ORD", "TOS", "RSO", "DEE", "FRE", "MAG",
      "FEN", "CAI", "PCL", "HAS", "LOS", "DVK"];
    GroupsOfCodes24();
    GroupsOfCodes32();
    GroupsOfCodes40();
    GroupsOfCodes48();
    GroupsOfCodes56();
  }

  /** Group 13 (Mac) is found again from its label and from each of its codes. */
  lemma Group13()
    ensures GroupOfLabel(FamilyRow(13).0) == 13
    ensures forall k :: 0 <= k < |FamilyRow(13).1| ==> GroupOfCode(FamilyRow(13).1[k]) == 13
  {
    assert FamilyRow(13).0 == "Mac";
    assert FamilyRow(13).1 == [
      "MAC"];
    GroupsOfCodes56();
  }

  /** Group 14 (Mobile Gaming Console) is found again from its label and from each of its codes. */
  lemma Group14()
    ensures GroupOfLabel(FamilyRow(14).0) == 14
    ensures forall k :: 0 <= k < |FamilyRow(14).1| ==> GroupOfCode(FamilyRow(14).1[k]) == 14
  {
    assert FamilyRow(14).0 == "Mobile Gaming Console";
    assert FamilyRow(14).1 == [
      "PSP", "NDS", "XBX"];
    GroupsOfCodes64();
  }

  /** Group 15 (Real-time OS) is found again from its label and from each of its codes. */
  lemma Group15()
    ensures GroupOfLabel(FamilyRow(15).0) == 15
    ensures forall k :: 0 <= k < |FamilyRow(15).1| ==> GroupOfCode(FamilyRow(15).1[k]) == 15
  {
    assert FamilyRow(15).0 == "Real-time OS";
    assert FamilyRow(15).1 == [
      "MTK", "TDX", "MRE", "JME", "REX"];
    GroupsOfCodes64();
  }

  /** Group 16 (Other Mobile) is found again from its label and from each of its codes. */
  lemma Group16()
    ensures GroupOfLabel(FamilyRow(16).0) == 16
    ensures forall k :: 0 <= k < |FamilyRow(16).1| ==> GroupOfCode(FamilyRow(16).1[k]) == 16
  {
    assert FamilyRow(16).0 == "Other Mobile";
    assert FamilyRow(16).1 == [
      "WOS", "POS", "SBA", "TIZ", "SMG", "MAE"];
    GroupsOfCodes72();
  }

  /** Group 17 (Symbian) is found again from its label and from each of its codes. */
  lemma Group17()
    ensures GroupOfLabel(FamilyRow(17).0) == 17
    ensures forall k :: 0 <= k < |FamilyRow(17).1| ==> GroupOfCode(FamilyRow(17).1[k]) == 17
  {
    assert FamilyRow(17).0 == "Symbian";
    assert FamilyRow(17).1 == [
      "SYM", "SYS", "SY3", "S60", "S40"];
    GroupsOfCodes72();
    GroupsOfCodes80();
  }

  /** Group 18 (Unix) is found again from its label and from each of its codes. */
  lemma Group18()
    ensures GroupOfLabel(FamilyRow(18).0) == 18
    ensures forall k :: 0 <= k < |FamilyRow(18).1| ==> GroupOfCode(FamilyRow(18).1[k]) == 18
  {
    assert FamilyRow(18).0 == "Unix";
    assert FamilyRow(18).1 == [
      "SOS", "AIX", "HPX", "BSD", "NBS", "OBS", "DFB", "SYL", "IRI", "T64", "INF"];
    GroupsOfCodes80();
    GroupsOfCodes88();
  }

  /** Group 19 (WebTV) is found again from its label and from each of its codes. */
  lemma Group19()
    ensures GroupOfLabel(FamilyRow(19).0) == 19
    ensures forall k :: 0 <= k < |FamilyRow(19).1| ==> GroupOfCode(FamilyRow(19).1[k]) == 19
  {
    assert FamilyRow(19).0 == "WebTV";
    assert FamilyRow(19).1 == [
      "WTV"];
    GroupsOfCodes88();
  }

  /** Group 20 (Windows) is found again from its label and from each of its codes. */
  lemma Group20()
    ensures GroupOfLabel(FamilyRow(20).0) == 20
    ensures forall k :: 0 <= k < |FamilyRow(20).1| ==> GroupOfCode(FamilyRow(20).1[k]) == 20
  {
    assert FamilyRow(20).0 == "Windows";
    assert FamilyRow(20).1 == [
      "WIN"];
    GroupsOfCodes88();
  }

  /** Group 21 (Windows Mobile) is found again from its label and from each of its codes. */
  lemma Group21()
    ensures GroupOfLabel(FamilyRow(21).0) == 21
    ensures forall k :: 0 <= k < |FamilyRow(21).1| ==> GroupOfCode(FamilyRow(21).1[k]) == 21
  {
    assert FamilyRow(21).0 == "Windows Mobile";
    assert FamilyRow(21).1 == [
      "WPH", "WMO", "WCE", "WRT", "WIO"];
    GroupsOfCodes96();
  }

  /** Group 22 (Other Smart TV) is found again from its label and from each of its codes. */
  lemma Group22()
    ensures GroupOfLabel(FamilyRow(22).0) == 22
    ensures forall k :: 0 <= k < |FamilyRow(22).1| ==> GroupOfCode(FamilyRow(22).1[k]) == 22
  {
    assert FamilyRow(22).0 == "Other Smart TV";
    assert FamilyRow(22).1 == [
      "WHS"];
    GroupsOfCodes96();
  }

  /**
   * Every group of OS_FAMILIES is found again from its label and from each
   * code it lists, and "UNK" leads to no group.
   */
  lemma GroupsFoundAgain()
    ensures forall g :: 0 <= g < FamilyCount ==> GroupOfLabel(FamilyRow(g).0) == g
    ensures forall g, k :: 0 <= g < FamilyCount && 0 <= k < |FamilyRow(g).1| ==> GroupOfCode(FamilyRow(g).1[k]) == g
    ensures GroupOfCode("UNK") == FamilyCount
  {
    forall g | 0 <= g < FamilyCount
      ensures GroupOfLabel(FamilyRow(g).0) == g
      ensures forall k :: 0 <= k < |FamilyRow(g).1| ==> GroupOfCode(FamilyRow(g).1[k]) == g
    {
      if g == 0 {
        Group0();
      } else if g == 1 {
        Group1();
      } else if g == 2 {
        Group2();
      } else if g == 3 {
        Group3();
      } else if g == 4 {
        Group4();
      } else if g == 5 {
        Group5();
      } else if g == 6 {
        Group6();
      } else if g == 7 {
        Group7();
      } else if g == 8 {
        Group8();
      } else if g == 9 {
        Group9();
      } else if g == 10 {
        Group10();
      } else if g == 11 {
        Group11();
      } else if g == 12 {
        Group12();
      } else if g == 13 {
        Group13();
      } else if g == 14 {
        Group14();
      } else if g == 15 {
        Group15();
      } else if g == 16 {
        Group16();
      } else if g == 17 {
        Group17();
      } else if g == 18 {
        Group18();
      } else if g == 19 {
        Group19();
      } else if g == 20 {
        Group20();
      } else if g == 21 {
        Group21();
      } else if g == 22 {
        Group22();
      }
    }
  }
}
