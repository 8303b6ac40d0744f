/**
 * The rows of OPERATING_SYSTEMS, looked up by hand. `RowOfCode` and
 * `RowOfLowered` are written out independently of the table: the first finds
 * a row by its short code, the second by its downcased long name. The `Row`
 * lemmas evaluate, for one row each, the table entry, its downcased long name
 * and both lookups; the `RowsFrom` lemmas gather a block of rows each. Each
 * row being found again by both lookups is what shows that no two rows share
 * a short code and no two long names differ only in letter case.
 */
module TableFacts {
  import opened RubyStrings
  import opened Registry

  /** The row of OPERATING_SYSTEMS whose short code is `code`, or `OsCount` for none. */
  function RowOfCode(code: string): nat {
    if |code| == 0 then OsCount
    else match code[0]
      case 'A' => (
        match code
        case "AIX" => 0 case "AND" => 1 case "AMG" => 2 case "ATV" => 3 case "ARL" => 4
        case _ => OsCount)
      case 'B' => (
        match code
        case "BTR" => 5 case "BEO" => 7 case "BLB" => 8 case "BMP" => 10 case "BSD" => 24
        case _ => OsCount)
      case 'C' => (
        match code
        case "CAI" => 11 case "CES" => 12 case "COS" => 13 case "CYN" => 14
        case _ => OsCount)
      case 'D' => (
        match code
        case "DEB" => 15 case "DEE" => 16 case "DFB" => 17 case "DVK" => 18
        case _ => OsCount)
      case 'F' => (
        match code
        case "FED" => 19 case "FEN" => 20 case "FOS" => 21 case "FIR" => 22 case "FRE" => 23
        case "FYD" => 25
        case _ => OsCount)
      case 'G' => (
        match code
        case "GNT" => 26 case "GRI" => 27 case "GTV" => 28
        case _ => OsCount)
      case 'H' => (
        match code
        case "HPX" => 29 case "HAI" => 30 case "HAR" => 32 case "HAS" => 33
        case _ => OsCount)
      case 'I' => (
        match code
        case "IPA" => 31 case "IRI" => 34 case "INF" => 35 case "IOS" => 99
        case _ => OsCount)
      case 'J' => (
        match code
        case "JME" => 36
        case _ => OsCount)
      case 'K' => (
        match code
        case "KOS" => 37 case "KNO" => 38 case "KBT" => 39
        case _ => OsCount)
      case 'L' => (
        match code
        case "LIN" => 40 case "LBT" => 41 case "LOS" => 42
        case _ => OsCount)
      case 'M' => (
        match code
        case "MAC" => 44 case "MAE" => 45 case "MAG" => 46 case "MDR" => 47 case "MCD" => 49
        case "MIN" => 50 case "MLD" => 51 case "MOR" => 52 case "MTK" => 54 case "MRE" => 55
        case _ => OsCount)
      case 'N' => (
        match code
        case "NBS" => 53 case "NDS" => 57
        case _ => OsCount)
      case 'O' => (
        match code
        case "OS2" => 58 case "OBS" => 60 case "ORD" => 61
        case _ => OsCount)
      case 'P' => (
        match code
        case "PCL" => 62 case "PSP" => 63 case "PS3" => 64 case "POS" => 100
        case _ => OsCount)
      case 'Q' => (
        match code
        case "QNX" => 9
        case _ => OsCount)
      case 'R' => (
        match code
        case "RHT" => 65 case "ROS" => 66 case "RSO" => 67 case "REM" => 68 case "REX" => 69
        case "RZD" => 70
        case _ => OsCount)
      case 'S' => (
        match code
        case "SBA" => 6 case "SMG" => 48 case "SAB" => 71 case "SSE" => 72 case "SAF" => 73
        case "SEE" => 74 case "SLW" => 75 case "SOS" => 76 case "SYL" => 77 case "SYM" => 78
        case "SYS" => 79 case "S40" => 80 case "S60" => 81 case "SY3" => 82
        case _ => OsCount)
      case 'T' => (
        match code
        case "T64" => 59 case "TDX" => 83 case "TIZ" => 84 case "TOS" => 85
        case _ => OsCount)
      case 'U' => (
        match code
        case "UBT" => 86
        case _ => OsCount)
      case 'V' => (
        match code
        case "VLN" => 43
        case _ => OsCount)
      case 'W' => (
        match code
        case "WII" => 56 case "WAS" => 87 case "WTV" => 88 case "WHS" => 89 case "WIN" => 90
        case "WCE" => 91 case "WIO" => 92 case "WMO" => 93 case "WPH" => 94 case "WRT" => 95
        case "WOS" => 101
        case _ => OsCount)
      case 'X' => (
        match code
        case "XBX" => 96 case "XBT" => 97
        case _ => OsCount)
      case 'Y' => (
        match code
        case "YNS" => 98
        case _ => OsCount)
      case _ => OsCount
  }

  /** The row of OPERATING_SYSTEMS whose downcased long name is `name`, or `OsCount` for none. */
  function RowOfLowered(name: string): nat {
    match |name|
    case 3 => (
      match name
      case "aix" => 0 case "mac" => 44 case "mre" => 55 case "rex" => 69 case "ios" => 99
      case _ => OsCount)
    case 4 => (
      match name
      case "tvos" => 3 case "bada" => 6 case "beos" => 7 case "brew" => 10 case "irix" => 34
      case "mint" => 50 case "os/2" => 58 case "osf1" => 59 case "rosa" => 67 case "suse" => 72
      case "xbox" => 96
      case _ => OsCount)
    case 5 => (
      match name
      case "fenix" => 20 case "hp-ux" => 29 case "kaios" => 37 case "maemo" => 45
      case "meego" => 48 case "tizen" => 84 case "webtv" => 88 case "yunos" => 98
      case "webos" => 101
      case _ => OsCount)
    case 6 => (
      match name
      case "centos" => 12 case "debian" => 15 case "deepin" => 16 case "fedora" => 19
      case "fydeos" => 25 case "gentoo" => 26 case "gridos" => 27 case "ipados" => 31
      case "mageia" => 46 case "netbsd" => 53 case "tmaxos" => 85 case "ubuntu" => 86
      case "palmos" => 100
      case _ => OsCount)
    case 7 => (
      match name
      case "android" => 1 case "amigaos" => 2 case "fire os" => 22 case "freebox" => 23
      case "freebsd" => 24 case "inferno" => 35 case "java me" => 36 case "knoppix" => 38
      case "kubuntu" => 39 case "lubuntu" => 41 case "morphos" => 52 case "openbsd" => 60
      case "red hat" => 65 case "risc os" => 66 case "sabayon" => 71 case "seewoos" => 74
      case "solaris" => 76 case "symbian" => 78 case "threadx" => 83 case "watchos" => 87
      case "windows" => 90 case "xubuntu" => 97
      case _ => OsCount)
    case 8 => (
      match name
      case "dvkbuntu" => 18 case "haiku os" => 30 case "lumin os" => 42 case "mandriva" => 47
      case "mildwild" => 51 case "nintendo" => 56 case "remix os" => 68 case "syllable" => 77
      case "whale os" => 89
      case _ => OsCount)
    case 9 => (
      match name
      case "backtrack" => 5 case "chrome os" => 13 case "dragonfly" => 17 case "google tv" => 28
      case "harmonyos" => 32 case "gnu/linux" => 40 case "ordissimo" => 61 case "pclinuxos" => 62
      case "razodroid" => 70 case "slackware" => 75 case "symbian^3" => 82
      case _ => OsCount)
    case 10 => (
      match name
      case "arch linux" => 4 case "firefox os" => 21 case "mocordroid" => 49
      case "symbian os" => 79 case "windows ce" => 91 case "windows rt" => 95
      case _ => OsCount)
    case 11 => (
      match name
      case "cyanogenmod" => 14 case "hascodingos" => 33 case "vectorlinux" => 43
      case "playstation" => 64 case "sailfish os" => 73 case "windows iot" => 92
      case _ => OsCount)
    case 12 => (
      match name
      case "caixa mágica" => 11
      case _ => OsCount)
    case 13 => (
      match name
      case "blackberry os" => 8 case "mtk / nucleus" => 54 case "windows phone" => 94
      case _ => OsCount)
    case 14 => (
      match name
      case "windows mobile" => 93
      case _ => OsCount)
    case 15 => (
      match name
      case "nintendo mobile" => 57
      case _ => OsCount)
    case 20 => (
      match name
      case "blackberry tablet os" => 9 case "playstation portable" => 63
      case "symbian os series 40" => 80 case "symbian os series 60" => 81
      case _ => OsCount)
    case _ => OsCount
  }

  // One lemma per row: the entry, its downcased long name, and both lookups finding it.

  lemma Row0()
    ensures OsRow(0) == ("AIX", "AIX")
    ensures RowOfCode("AIX") == 0
    ensures Downcase("AIX") == "aix"
    ensures RowOfLowered("aix") == 0
  {
  }

  lemma Row1()
    ensures OsRow(1) == ("AND", "Android")
    ensures RowOfCode("AND") == 1
    ensures Downcase("Android") == "android"
    ensures RowOfLowered("android") == 1
  {
  }

  lemma Row2()
    ensures OsRow(2) == ("AMG", "AmigaOS")
    ensures RowOfCode("AMG") == 2
    ensures Downcase("AmigaOS") == "amigaos"
    ensures RowOfLowered("amigaos") == 2
  {
  }

  lemma Row3()
    ensures OsRow(3) == ("ATV", "tvOS")
    ensures RowOfCode("ATV") == 3
    ensures Downcase("tvOS") == "tvos"
    ensures RowOfLowered("tvos") == 3
  {
  }

  lemma Row4()
    ensures OsRow(4) == ("ARL", "Arch Linux")
    ensures RowOfCode("ARL") == 4
    ensures Downcase("Arch Linux") == "arch linux"
    ensures RowOfLowered("arch linux") == 4
  {
  }

  lemma Row5()
    ensures OsRow(5) == ("BTR", "BackTrack")
    ensures RowOfCode("BTR") == 5
    ensures Downcase("BackTrack") == "backtrack"
    ensures RowOfLowered("backtrack") == 5
  {
  }

  lemma Row6()
    ensures OsRow(6) == ("SBA", "Bada")
    ensures RowOfCode("SBA") == 6
    ensures Downcase("Bada") == "bada"
    ensures RowOfLowered("bada") == 6
  {
  }

  lemma Row7()
    ensures OsRow(7) == ("BEO", "BeOS")
    ensures RowOfCode("BEO") == 7
    ensures Downcase("BeOS") == "beos"
    ensures RowOfLowered("beos") == 7
  {
  }

  lemma Row8()
    ensures OsRow(8) == ("BLB", "BlackBerry OS")
    ensures RowOfCode("BLB") == 8
    ensures Downcase("BlackBerry OS") == "blackberry os"
    ensures RowOfLowered("blackberry os") == 8
  {
  }

  lemma Row9()
    ensures OsRow(9) == ("QNX", "BlackBerry Tablet OS")
    ensures RowOfCode("QNX") == 9
    ensures Downcase("BlackBerry Tablet OS") == "blackberry tablet os"
    ensures RowOfLowered("blackberry tablet os") == 9
  {
  }

  lemma Row10()
    ensures OsRow(10) == ("BMP", "Brew")
    ensures RowOfCode("BMP") == 10
    ensures Downcase("Brew") == "brew"
    ensures RowOfLowered("brew") == 10
  {
  }

  lemma Row11()
    ensures OsRow(11) == ("CAI", "Caixa Mágica")
    ensures RowOfCode("CAI") == 11
    ensures Downcase("Caixa Mágica") == "caixa mágica"
    ensures RowOfLowered("caixa mágica") == 11
  {
  }

  lemma Row12()
    ensures OsRow(12) == ("CES", "CentOS")
    ensures RowOfCode("CES") == 12
    ensures Downcase("CentOS") == "centos"
    ensures RowOfLowered("centos") == 12
  {
  }

  lemma Row13()
    ensures OsRow(13) == ("COS", "Chrome OS")
    ensures RowOfCode("COS") == 13
    ensures Downcase("Chrome OS") == "chrome os"
    ensures RowOfLowered("chrome os") == 13
  {
  }

  lemma Row14()
    ensures OsRow(14) == ("CYN", "CyanogenMod")
    ensures RowOfCode("CYN") == 14
    ensures Downcase("CyanogenMod") == "cyanogenmod"
    ensures RowOfLowered("cyanogenmod") == 14
  {
  }

  lemma Row15()
    ensures OsRow(15) == ("DEB", "Debian")
    ensures RowOfCode("DEB") == 15
    ensures Downcase("Debian") == "debian"
    ensures RowOfLowered("debian") == 15
  {
  }

  lemma Row16()
    ensures OsRow(16) == ("DEE", "Deepin")
    ensures RowOfCode("DEE") == 16
    ensures Downcase("Deepin") == "deepin"
    ensures RowOfLowered("deepin") == 16
  {
  }

  lemma Row17()
    ensures OsRow(17) == ("DFB", "DragonFly")
    ensures RowOfCode("DFB") == 17
    ensures Downcase("DragonFly") == "dragonfly"
    ensures RowOfLowered("dragonfly") == 17
  {
  }

  lemma Row18()
    ensures OsRow(18) == ("DVK", "DVKBuntu")
    ensures RowOfCode("DVK") == 18
    ensures Downcase("DVKBuntu") == "dvkbuntu"
    ensures RowOfLowered("dvkbuntu") == 18
  {
  }

  lemma Row19()
    ensures OsRow(19) == ("FED", "Fedora")
    ensures RowOfCode("FED") == 19
    ensures Downcase("Fedora") == "fedora"
    ensures RowOfLowered("fedora") == 19
  {
  }

  lemma Row20()
    ensures OsRow(20) == ("FEN", "Fenix")
    ensures RowOfCode("FEN") == 20
    ensures Downcase("Fenix") == "fenix"
    ensures RowOfLowered("fenix") == 20
  {
  }

  lemma Row21()
    ensures OsRow(21) == ("FOS", "Firefox OS")
    ensures RowOfCode("FOS") == 21
    ensures Downcase("Firefox OS") == "firefox os"
    ensures RowOfLowered("firefox os") == 21
  {
  }

  lemma Row22()
    ensures OsRow(22) == ("FIR", "Fire OS")
    ensures RowOfCode("FIR") == 22
    ensures Downcase("Fire OS") == "fire os"
    ensures RowOfLowered("fire os") == 22
  {
  }

  lemma Row23()
    ensures OsRow(23) == ("FRE", "Freebox")
    ensures RowOfCode("FRE") == 23
    ensures Downcase("Freebox") == "freebox"
    ensures RowOfLowered("freebox") == 23
  {
  }

  lemma Row24()
    ensures OsRow(24) == ("BSD", "FreeBSD")
    ensures RowOfCode("BSD") == 24
    ensures Downcase("FreeBSD") == "freebsd"
    ensures RowOfLowered("freebsd") == 24
  {
  }

  lemma Row25()
    ensures OsRow(25) == ("FYD", "FydeOS")
    ensures RowOfCode("FYD") == 25
    ensures Downcase("FydeOS") == "fydeos"
    ensures RowOfLowered("fydeos") == 25
  {
  }

  lemma Row26()
    ensures OsRow(26) == ("GNT", "Gentoo")
    ensures RowOfCode("GNT") == 26
    ensures Downcase("Gentoo") == "gentoo"
    ensures RowOfLowered("gentoo") == 26
  {
  }

  lemma Row27()
    ensures OsRow(27) == ("GRI", "GridOS")
    ensures RowOfCode("GRI") == 27
    ensures Downcase("GridOS") == "gridos"
    ensures RowOfLowered("gridos") == 27
  {
  }

  lemma Row28()
    ensures OsRow(28) == ("GTV", "Google TV")
    ensures RowOfCode("GTV") == 28
    ensures Downcase("Google TV") == "google tv"
    ensures RowOfLowered("google tv") == 28
  {
  }

  lemma Row29()
    ensures OsRow(29) == ("HPX", "HP-UX")
    ensures RowOfCode("HPX") == 29
    ensures Downcase("HP-UX") == "hp-ux"
    ensures RowOfLowered("hp-ux") == 29
  {
  }

  lemma Row30()
    ensures OsRow(30) == ("HAI", "Haiku OS")
    ensures RowOfCode("HAI") == 30
    ensures Downcase("Haiku OS") == "haiku os"
    ensures RowOfLowered("haiku os") == 30
  {
  }

  lemma Row31()
    ensures OsRow(31) == ("IPA", "iPadOS")
    ensures RowOfCode("IPA") == 31
    ensures Downcase("iPadOS") == "ipados"
    ensures RowOfLowered("ipados") == 31
  {
  }

  lemma Row32()
    ensures OsRow(32) == ("HAR", "HarmonyOS")
    ensures RowOfCode("HAR") == 32
    ensures Downcase("HarmonyOS") == "harmonyos"
    ensures RowOfLowered("harmonyos") == 32
  {
  }

  lemma Row33()
    ensures OsRow(33) == ("HAS", "HasCodingOS")
    ensures RowOfCode("HAS") == 33
    ensures Downcase("HasCodingOS") == "hascodingos"
    ensures RowOfLowered("hascodingos") == 33
  {
  }

  lemma Row34()
    ensures OsRow(34) == ("IRI", "IRIX")
    ensures RowOfCode("IRI") == 34
    ensures Downcase("IRIX") == "irix"
    ensures RowOfLowered("irix") == 34
  {
  }

  lemma Row35()
    ensures OsRow(35) == ("INF", "Inferno")
    ensures RowOfCode("INF") == 35
    ensures Downcase("Inferno") == "inferno"
    ensures RowOfLowered("inferno") == 35
  {
  }

  lemma Row36()
    ensures OsRow(36) == ("JME", "Java ME")
    ensures RowOfCode("JME") == 36
    ensures Downcase("Java ME") == "java me"
    ensures RowOfLowered("java me") == 36
  {
  }

  lemma Row37()
    ensures OsRow(37) == ("KOS", "KaiOS")
    ensures RowOfCode("KOS") == 37
    ensures Downcase("KaiOS") == "kaios"
    ensures RowOfLowered("kaios") == 37
  {
  }

  lemma Row38()
    ensures OsRow(38) == ("KNO", "Knoppix")
    ensures RowOfCode("KNO") == 38
    ensures Downcase("Knoppix") == "knoppix"
    ensures RowOfLowered("knoppix") == 38
  {
  }

  lemma Row39()
    ensures OsRow(39) == ("KBT", "Kubuntu")
    ensures RowOfCode("KBT") == 39
    ensures Downcase("Kubuntu") == "kubuntu"
    ensures RowOfLowered("kubuntu") == 39
  {
  }

  lemma Row40()
    ensures OsRow(40) == ("LIN", "GNU/Linux")
    ensures RowOfCode("LIN") == 40
    ensures Downcase("GNU/Linux") == "gnu/linux"
    ensures RowOfLowered("gnu/linux") == 40
  {
  }

  lemma Row41()
    ensures OsRow(41) == ("LBT", "Lubuntu")
    ensures RowOfCode("LBT") == 41
    ensures Downcase("Lubuntu") == "lubuntu"
    ensures RowOfLowered("lubuntu") == 41
  {
  }

  lemma Row42()
    ensures OsRow(42) == ("LOS", "Lumin OS")
    ensures RowOfCode("LOS") == 42
    ensures Downcase("Lumin OS") == "lumin os"
    ensures RowOfLowered("lumin os") == 42
  {
  }

  lemma Row43()
    ensures OsRow(43) == ("VLN", "VectorLinux")
    ensures RowOfCode("VLN") == 43
    ensures Downcase("VectorLinux") == "vectorlinux"
    ensures RowOfLowered("vectorlinux") == 43
  {
  }

  lemma Row44()
    ensures OsRow(44) == ("MAC", "Mac")
    ensures RowOfCode("MAC") == 44
    ensures Downcase("Mac") == "mac"
    ensures RowOfLowered("mac") == 44
  {
  }

  lemma Row45()
    ensures OsRow(45) == ("MAE", "Maemo")
    ensures RowOfCode("MAE") == 45
    ensures Downcase("Maemo") == "maemo"
    ensures RowOfLowered("maemo") == 45
  {
  }

  lemma Row46()
    ensures OsRow(46) == ("MAG", "Mageia")
    ensures RowOfCode("MAG") == 46
    ensures Downcase("Mageia") == "mageia"
    ensures RowOfLowered("mageia") == 46
  {
  }

  lemma Row47()
    ensures OsRow(47) == ("MDR", "Mandriva")
    ensures RowOfCode("MDR") == 47
    ensures Downcase("Mandriva") == "mandriva"
    ensures RowOfLowered("mandriva") == 47
  {
  }

  lemma Row48()
    ensures OsRow(48) == ("SMG", "MeeGo")
    ensures RowOfCode("SMG") == 48
    ensures Downcase("MeeGo") == "meego"
    ensures RowOfLowered("meego") == 48
  {
  }

  lemma Row49()
    ensures OsRow(49) == ("MCD", "MocorDroid")
    ensures RowOfCode("MCD") == 49
    ensures Downcase("MocorDroid") == "mocordroid"
    ensures RowOfLowered("mocordroid") == 49
  {
  }

  lemma Row50()
    ensures OsRow(50) == ("MIN", "Mint")
    ensures RowOfCode("MIN") == 50
    ensures Downcase("Mint") == "mint"
    ensures RowOfLowered("mint") == 50
  {
  }

  lemma Row51()
    ensures OsRow(51) == ("MLD", "MildWild")
    ensures RowOfCode("MLD") == 51
    ensures Downcase("MildWild") == "mildwild"
    ensures RowOfLowered("mildwild") == 51
  {
  }

  lemma Row52()
    ensures OsRow(52) == ("MOR", "MorphOS")
    ensures RowOfCode("MOR") == 52
    ensures Downcase("MorphOS") == "morphos"
    ensures RowOfLowered("morphos") == 52
  {
  }

  lemma Row53()
    ensures OsRow(53) == ("NBS", "NetBSD")
    ensures RowOfCode("NBS") == 53
    ensures Downcase("NetBSD") == "netbsd"
    ensures RowOfLowered("netbsd") == 53
  {
  }

  lemma Row54()
    ensures OsRow(54) == ("MTK", "MTK / Nucleus")
    ensures RowOfCode("MTK") == 54
    ensures Downcase("MTK / Nucleus") == "mtk / nucleus"
    ensures RowOfLowered("mtk / nucleus") == 54
  {
  }

  lemma Row55()
    ensures OsRow(55) == ("MRE", "MRE")
    ensures RowOfCode("MRE") == 55
    ensures Downcase("MRE") == "mre"
    ensures RowOfLowered("mre") == 55
  {
  }

  lemma Row56()
    ensures OsRow(56) == ("WII", "Nintendo")
    ensures RowOfCode("WII") == 56
    ensures Downcase("Nintendo") == "nintendo"
    ensures RowOfLowered("nintendo") == 56
  {
  }

  lemma Row57()
    ensures OsRow(57) == ("NDS", "Nintendo Mobile")
    ensures RowOfCode("NDS") == 57
    ensures Downcase("Nintendo Mobile") == "nintendo mobile"
    ensures RowOfLowered("nintendo mobile") == 57
  {
  }

  lemma Row58()
    ensures OsRow(58) == ("OS2", "OS/2")
    ensures RowOfCode("OS2") == 58
    ensures Downcase("OS/2") == "os/2"
    ensures RowOfLowered("os/2") == 58
  {
  }

  lemma Row59()
    ensures OsRow(59) == ("T64", "OSF1")
    ensures RowOfCode("T64") == 59
    ensures Downcase("OSF1") == "osf1"
    ensures RowOfLowered("osf1") == 59
  {
  }

  lemma Row60()
    ensures OsRow(60) == ("OBS", "OpenBSD")
    ensures RowOfCode("OBS") == 60
    ensures Downcase("OpenBSD") == "openbsd"
    ensures RowOfLowered("openbsd") == 60
  {
  }

  lemma Row61()
    ensures OsRow(61) == ("ORD", "Ordissimo")
    ensures RowOfCode("ORD") == 61
    ensures Downcase("Ordissimo") == "ordissimo"
    ensures RowOfLowered("ordissimo") == 61
  {
  }

  lemma Row62()
    ensures OsRow(62) == ("PCL", "PCLinuxOS")
    ensures RowOfCode("PCL") == 62
    ensures Downcase("PCLinuxOS") == "pclinuxos"
    ensures RowOfLowered("pclinuxos") == 62
  {
  }

  lemma Row63()
    ensures OsRow(63) == ("PSP", "PlayStation Portable")
    ensures RowOfCode("PSP") == 63
    ensures Downcase("PlayStation Portable") == "playstation portable"
    ensures RowOfLowered("playstation portable") == 63
  {
  }

  lemma Row64()
    ensures OsRow(64) == ("PS3", "PlayStation")
    ensures RowOfCode("PS3") == 64
    ensures Downcase("PlayStation") == "playstation"
    ensures RowOfLowered("playstation") == 64
  {
  }

  lemma Row65()
    ensures OsRow(65) == ("RHT", "Red Hat")
    ensures RowOfCode("RHT") == 65
    ensures Downcase("Red Hat") == "red hat"
    ensures RowOfLowered("red hat") == 65
  {
  }

  lemma Row66()
    ensures OsRow(66) == ("ROS", "RISC OS")
    ensures RowOfCode("ROS") == 66
    ensures Downcase("RISC OS") == "risc os"
    ensures RowOfLowered("risc os") == 66
  {
  }

  lemma Row67()
    ensures OsRow(67) == ("RSO", "Rosa")
    ensures RowOfCode("RSO") == 67
    ensures Downcase("Rosa") == "rosa"
    ensures RowOfLowered("rosa") == 67
  {
  }

  lemma Row68()
    ensures OsRow(68) == ("REM", "Remix OS")
    ensures RowOfCode("REM") == 68
    ensures Downcase("Remix OS") == "remix os"
    ensures RowOfLowered("remix os") == 68
  {
  }

  lemma Row69()
    ensures OsRow(69) == ("REX", "REX")
    ensures RowOfCode("REX") == 69
    ensures Downcase("REX") == "rex"
    ensures RowOfLowered("rex") == 69
  {
  }

  lemma Row70()
    ensures OsRow(70) == ("RZD", "RazoDroiD")
    ensures RowOfCode("RZD") == 70
    ensures Downcase("RazoDroiD") == "razodroid"
    ensures RowOfLowered("razodroid") == 70
  {
  }

  lemma Row71()
    ensures OsRow(71) == ("SAB", "Sabayon")
    ensures RowOfCode("SAB") == 71
    ensures Downcase("Sabayon") == "sabayon"
    ensures RowOfLowered("sabayon") == 71
  {
  }

  lemma Row72()
    ensures OsRow(72) == ("SSE", "SUSE")
    ensures RowOfCode("SSE") == 72
    ensures Downcase("SUSE") == "suse"
    ensures RowOfLowered("suse") == 72
  {
  }

  lemma Row73()
    ensures OsRow(73) == ("SAF", "Sailfish OS")
    ensures RowOfCode("SAF") == 73
    ensures Downcase("Sailfish OS") == "sailfish os"
    ensures RowOfLowered("sailfish os") == 73
  {
  }

  lemma Row74()
    ensures OsRow(74) == ("SEE", "SeewoOS")
    ensures RowOfCode("SEE") == 74
    ensures Downcase("SeewoOS") == "seewoos"
    ensures RowOfLowered("seewoos") == 74
  {
  }

  lemma Row75()
    ensures OsRow(75) == ("SLW", "Slackware")
    ensures RowOfCode("SLW") == 75
    ensures Downcase("Slackware") == "slackware"
    ensures RowOfLowered("slackware") == 75
  {
  }

  lemma Row76()
    ensures OsRow(76) == ("SOS", "Solaris")
    ensures RowOfCode("SOS") == 76
    ensures Downcase("Solaris") == "solaris"
    ensures RowOfLowered("solaris") == 76
  {
  }

  lemma Row77()
    ensures OsRow(77) == ("SYL", "Syllable")
    ensures RowOfCode("SYL") == 77
    ensures Downcase("Syllable") == "syllable"
    ensures RowOfLowered("syllable") == 77
  {
  }

  lemma Row78()
    ensures OsRow(78) == ("SYM", "Symbian")
    ensures RowOfCode("SYM") == 78
    ensures Downcase("Symbian") == "symbian"
    ensures RowOfLowered("symbian") == 78
  {
  }

  lemma Row79()
    ensures OsRow(79) == ("SYS", "Symbian OS")
    ensures RowOfCode("SYS") == 79
    ensures Downcase("Symbian OS") == "symbian os"
    ensures RowOfLowered("symbian os") == 79
  {
  }

  lemma Row80()
    ensures OsRow(80) == ("S40", "Symbian OS Series 40")
    ensures RowOfCode("S40") == 80
    ensures Downcase("Symbian OS Series 40") == "symbian os series 40"
    ensures RowOfLowered("symbian os series 40") == 80
  {
  }

  lemma Row81()
    ensures OsRow(81) == ("S60", "Symbian OS Series 60")
    ensures RowOfCode("S60") == 81
    ensures Downcase("Symbian OS Series 60") == "symbian os series 60"
    ensures RowOfLowered("symbian os series 60") == 81
  {
  }

  lemma Row82()
    ensures OsRow(82) == ("SY3", "Symbian^3")
    ensures RowOfCode("SY3") == 82
    ensures Downcase("Symbian^3") == "symbian^3"
    ensures RowOfLowered("symbian^3") == 82
  {
  }

  lemma Row83()
    ensures OsRow(83) == ("TDX", "ThreadX")
    ensures RowOfCode("TDX") == 83
    ensures Downcase("ThreadX") == "threadx"
    ensures RowOfLowered("threadx") == 83
  {
  }

  lemma Row84()
    ensures OsRow(84) == ("TIZ", "Tizen")
    ensures RowOfCode("TIZ") == 84
    ensures Downcase("Tizen") == "tizen"
    ensures RowOfLowered("tizen") == 84
  {
  }

  lemma Row85()
    ensures OsRow(85) == ("TOS", "TmaxOS")
    ensures RowOfCode("TOS") == 85
    ensures Downcase("TmaxOS") == "tmaxos"
    ensures RowOfLowered("tmaxos") == 85
  {
  }

  lemma Row86()
    ensures OsRow(86) == ("UBT", "Ubuntu")
    ensures RowOfCode("UBT") == 86
    ensures Downcase("Ubuntu") == "ubuntu"
    ensures RowOfLowered("ubuntu") == 86
  {
  }

  lemma Row87()
    ensures OsRow(87) == ("WAS", "watchOS")
    ensures RowOfCode("WAS") == 87
    ensures Downcase("watchOS") == "watchos"
    ensures RowOfLowered("watchos") == 87
  {
  }

  lemma Row88()
    ensures OsRow(88) == ("WTV", "WebTV")
    ensures RowOfCode("WTV") == 88
    ensures Downcase("WebTV") == "webtv"
    ensures RowOfLowered("webtv") == 88
  {
  }

  lemma Row89()
    ensures OsRow(89) == ("WHS", "Whale OS")
    ensures RowOfCode("WHS") == 89
    ensures Downcase("Whale OS") == "whale os"
    ensures RowOfLowered("whale os") == 89
  {
  }

  lemma Row90()
    ensures OsRow(90) == ("WIN", "Windows")
    ensures RowOfCode("WIN") == 90
    ensures Downcase("Windows") == "windows"
    ensures RowOfLowered("windows") == 90
  {
  }

  lemma Row91()
    ensures OsRow(91) == ("WCE", "Windows CE")
    ensures RowOfCode("WCE") == 91
    ensures Downcase("Windows CE") == "windows ce"
    ensures RowOfLowered("windows ce") == 91
  {
  }

  lemma Row92()
    ensures OsRow(92) == ("WIO", "Windows IoT")
    ensures RowOfCode("WIO") == 92
    ensures Downcase("Windows IoT") == "windows iot"
    ensures RowOfLowered("windows iot") == 92
  {
  }

  lemma Row93()
    ensures OsRow(93) == ("WMO", "Windows Mobile")
    ensures RowOfCode("WMO") == 93
    ensures Downcase("Windows Mobile") == "windows mobile"
    ensures RowOfLowered("windows mobile") == 93
  {
  }

  lemma Row94()
    ensures OsRow(94) == ("WPH", "Windows Phone")
    ensures RowOfCode("WPH") == 94
    ensures Downcase("Windows Phone") == "windows phone"
    ensures RowOfLowered("windows phone") == 94
  {
  }

  lemma Row95()
    ensures OsRow(95) == ("WRT", "Windows RT")
    ensures RowOfCode("WRT") == 95
    ensures Downcase("Windows RT") == "windows rt"
    ensures RowOfLowered("windows rt") == 95
  {
  }

  lemma Row96()
    ensures OsRow(96) == ("XBX", "Xbox")
    ensures RowOfCode("XBX") == 96
    ensures Downcase("Xbox") == "xbox"
    ensures RowOfLowered("xbox") == 96
  {
  }

  lemma Row97()
    ensures OsRow(97) == ("XBT", "Xubuntu")
    ensures RowOfCode("XBT") == 97
    ensures Downcase("Xubuntu") == "xubuntu"
    ensures RowOfLowered("xubuntu") == 97
  {
  }

  lemma Row98()
    ensures OsRow(98) == ("YNS", "YunOs")
    ensures RowOfCode("YNS") == 98
    ensures Downcase("YunOs") == "yunos"
    ensures RowOfLowered("yunos") == 98
  {
  }

  lemma Row99()
    ensures OsRow(99) == ("IOS", "iOS")
    ensures RowOfCode("IOS") == 99
    ensures Downcase("iOS") == "ios"
    ensures RowOfLowered("ios") == 99
  {
  }

  lemma Row100()
    ensures OsRow(100) == ("POS", "palmOS")
    ensures RowOfCode("POS") == 100
    ensures Downcase("palmOS") == "palmos"
    ensures RowOfLowered("palmos") == 100
  {
  }

  lemma Row101()
    ensures OsRow(101) == ("WOS", "webOS")
    ensures RowOfCode("WOS") == 101
    ensures Downcase("webOS") == "webos"
    ensures RowOfLowered("webos") == 101
  {
  }

  /** Rows 0 to 12 are found again by both lookups. */
  lemma RowsFrom0()
    ensures forall i :: 0 <= i < 13 ==> RowOfCode(OsRow(i).0) == i && RowOfLowered(Downcase(OsRow(i).1)) == i
  {
    Row0(); Row1(); Row2(); Row3(); Row4(); Row5(); Row6(); Row7(); Row8(); Row9(); Row10();
    Row11(); Row12();
  }

  /** Rows 13 to 25 are found again by both lookups. */
  lemma RowsFrom13()
    ensures forall i :: 13 <= i < 26 ==> RowOfCode(OsRow(i).0) == i && RowOfLowered(Downcase(OsRow(i).1)) == i
  {
    Row13(); Row14(); Row15(); Row16(); Row17(); Row18(); Row19(); Row20(); Row21(); Row22();
    Row23(); Row24(); Row25();
  }

  /** Rows 26 to 38 are found again by both lookups. */
  lemma RowsFrom26()
    ensures forall i :: 26 <= i < 39 ==> RowOfCode(OsRow(i).0) == i && RowOfLowered(Downcase(OsRow(i).1)) == i
  {
    Row26(); Row27(); Row28(); Row29(); Row30(); Row31(); Row32(); Row33(); Row34(); Row35();
    Row36(); Row37(); Row38();
  }

  /** Rows 39 to 51 are found again by both lookups. */
  lemma RowsFrom39()
    ensures forall i :: 39 <= i < 52 ==> RowOfCode(OsRow(i).0) == i && RowOfLowered(Downcase(OsRow(i).1)) == i
  {
    Row39(); Row40(); Row41(); Row42(); Row43(); Row44(); Row45(); Row46(); Row47(); Row48();
    Row49(); Row50(); Row51();
  }

  /** Rows 52 to 64 are found again by both lookups. */
  lemma RowsFrom52()
    ensures forall i :: 52 <= i < 65 ==> RowOfCode(OsRow(i).0) == i && RowOfLowered(Downcase(OsRow(i).1)) == i
  {
    Row52(); Row53(); Row54(); Row55(); Row56(); Row57(); Row58(); Row59(); Row60(); Row61();
    Row62(); Row63(); Row64();
  }

  /** Rows 65 to 77 are found again by both lookups. */
  lemma RowsFrom65()
    ensures forall i :: 65 <= i < 78 ==> RowOfCode(OsRow(i).0) == i && RowOfLowered(Downcase(OsRow(i).1)) == i
  {
    Row65(); Row66(); Row67(); Row68(); Row69(); Row70(); Row71(); Row72(); Row73(); Row74();
    Row75(); Row76(); Row77();
  }

  /** Rows 78 to 89 are found again by both lookups. */
  lemma RowsFrom78()
    ensures forall i :: 78 <= i < 90 ==> RowOfCode(OsRow(i).0) == i && RowOfLowered(Downcase(OsRow(i).1)) == i
  {
    Row78(); Row79(); Row80(); Row81(); Row82(); Row83(); Row84(); Row85(); Row86(); Row87();
    Row88(); Row89();
  }

  /** Rows 90 to 101 are found again by both lookups. */
  lemma RowsFrom90()
    ensures forall i :: 90 <= i < 102 ==> RowOfCode(OsRow(i).0) == i && RowOfLowered(Downcase(OsRow(i).1)) == i
  {
    Row90(); Row91(); Row92(); Row93(); Row94(); Row95(); Row96(); Row97(); Row98(); Row99();
    Row100(); Row101();
  }

  /**
   * Every row of OPERATING_SYSTEMS is found again by its short code and by
   * its downcased long name, and "UNK" is the short code of no row.
   */
  lemma RowsFoundAgain()
    ensures forall i :: 0 <= i < OsCount ==> RowOfCode(OsRow(i).0) == i
    ensures forall i :: 0 <= i < OsCount ==> RowOfLowered(Downcase(OsRow(i).1)) == i
    ensures RowOfCode("UNK") == OsCount
  {
    forall i | 0 <= i < OsCount
      ensures RowOfCode(OsRow(i).0) == i && RowOfLowered(Downcase(OsRow(i).1)) == i
    {
      if i < 13 {
        RowsFrom0();
      } else if i < 26 {
        RowsFrom13();
      } else if i < 39 {
        RowsFrom26();
      } else if i < 52 {
        RowsFrom39();
      } else if i < 65 {
        RowsFrom52();
      } else if i < 78 {
        RowsFrom65();
      } else if i < 90 {
        RowsFrom78();
      } else if i < 102 {
        RowsFrom90();
      }
    }
  }
}
