/**
 * The frozen tables of the OS parser, row for row as they are written in
 * lib/device_detector/os.rb. Each table is a function from its row number to
 * the row, so that the verifier can look a row up by evaluating one `match`;
 * `OperatingSystems()` and `OsFamilies()` give the tables as sequences in
 * source order, which is the order in which Ruby iterates a hash literal.
 */
module Registry {
  /** Number of rows of OPERATING_SYSTEMS. */
  const OsCount := 102

  /** Row `i` of OPERATING_SYSTEMS: (short code, long name). Rows past the end are empty. */
  function OsRow(i: nat): (string, string) {
    match i
    case 0 => ("AIX", "AIX")
    case 1 => ("AND", "Android")
    case 2 => ("AMG", "AmigaOS")
    case 3 => ("ATV", "tvOS")
    case 4 => ("ARL", "Arch Linux")
    case 5 => ("BTR", "BackTrack")
    case 6 => ("SBA", "Bada")
    case 7 => ("BEO", "BeOS")
    case 8 => ("BLB", "BlackBerry OS")
    case 9 => ("QNX", "BlackBerry Tablet OS")
    case 10 => ("BMP", "Brew")
    case 11 => ("CAI", "Caixa Mágica")
    case 12 => ("CES", "CentOS")
    case 13 => ("COS", "Chrome OS")
    case 14 => ("CYN", "CyanogenMod")
    case 15 => ("DEB", "Debian")
    case 16 => ("DEE", "Deepin")
    case 17 => ("DFB", "DragonFly")
    case 18 => ("DVK", "DVKBuntu")
    case 19 => ("FED", "Fedora")
    case 20 => ("FEN", "Fenix")
    case 21 => ("FOS", "Firefox OS")
    case 22 => ("FIR", "Fire OS")
    case 23 => ("FRE", "Freebox")
    case 24 => ("BSD", "FreeBSD")
    case 25 => ("FYD", "FydeOS")
    case 26 => ("GNT", "Gentoo")
    case 27 => ("GRI", "GridOS")
    case 28 => ("GTV", "Google TV")
    case 29 => ("HPX", "HP-UX")
    case 30 => ("HAI", "Haiku OS")
    case 31 => ("IPA", "iPadOS")
    case 32 => ("HAR", "HarmonyOS")
    case 33 => ("HAS", "HasCodingOS")
    case 34 => ("IRI", "IRIX")
    case 35 => ("INF", "Inferno")
    case 36 => ("JME", "Java ME")
    case 37 => ("KOS", "KaiOS")
    case 38 => ("KNO", "Knoppix")
    case 39 => ("KBT", "Kubuntu")
    case 40 => ("LIN", "GNU/Linux")
    case 41 => ("LBT", "Lubuntu")
    case 42 => ("LOS", "Lumin OS")
    case 43 => ("VLN", "VectorLinux")
    case 44 => ("MAC", "Mac")
    case 45 => ("MAE", "Maemo")
    case 46 => ("MAG", "Mageia")
    case 47 => ("MDR", "Mandriva")
    case 48 => ("SMG", "MeeGo")
    case 49 => ("MCD", "MocorDroid")
    case 50 => ("MIN", "Mint")
    case 51 => ("MLD", "MildWild")
    case 52 => ("MOR", "MorphOS")
    case 53 => ("NBS", "NetBSD")
    case 54 => ("MTK", "MTK / Nucleus")
    case 55 => ("MRE", "MRE")
    case 56 => ("WII", "Nintendo")
    case 57 => ("NDS", "Nintendo Mobile")
    case 58 => ("OS2", "OS/2")
    case 59 => ("T64", "OSF1")
    case 60 => ("OBS", "OpenBSD")
    case 61 => ("ORD", "Ordissimo")
    case 62 => ("PCL", "PCLinuxOS")
    case 63 => ("PSP", "PlayStation Portable")
    case 64 => ("PS3", "PlayStation")
    case 65 => ("RHT", "Red Hat")
    case 66 => ("ROS", "RISC OS")
    case 67 => ("RSO", "Rosa")
    case 68 => ("REM", "Remix OS")
    case 69 => ("REX", "REX")
    case 70 => ("RZD", "RazoDroiD")
    case 71 => ("SAB", "Sabayon")
    case 72 => ("SSE", "SUSE")
    case 73 => ("SAF", "Sailfish OS")
    case 74 => ("SEE", "SeewoOS")
    case 75 => ("SLW", "Slackware")
    case 76 => ("SOS", "Solaris")
    case 77 => ("SYL", "Syllable")
    case 78 => ("SYM", "Symbian")
    case 79 => ("SYS", "Symbian OS")
    case 80 => ("S40", "Symbian OS Series 40")
    case 81 => ("S60", "Symbian OS Series 60")
    case 82 => ("SY3", "Symbian^3")
    case 83 => ("TDX", "ThreadX")
    case 84 => ("TIZ", "Tizen")
    case 85 => ("TOS", "TmaxOS")
    case 86 => ("UBT", "Ubuntu")
    case 87 => ("WAS", "watchOS")
    case 88 => ("WTV", "WebTV")
    case 89 => ("WHS", "Whale OS")
    case 90 => ("WIN", "Windows")
    case 91 => ("WCE", "Windows CE")
    case 92 => ("WIO", "Windows IoT")
    case 93 => ("WMO", "Windows Mobile")
    case 94 => ("WPH", "Windows Phone")
    case 95 => ("WRT", "Windows RT")
    case 96 => ("XBX", "Xbox")
    case 97 => ("XBT", "Xubuntu")
    case 98 => ("YNS", "YunOs")
    case 99 => ("IOS", "iOS")
    case 100 => ("POS", "palmOS")
    case 101 => ("WOS", "webOS")
    case _ => ("", "")
  }

  /** OPERATING_SYSTEMS as the sequence of its (short, long) entries. */
  function OperatingSystems(): (table: seq<(string, string)>)
    ensures |table| == OsCount
  {
    seq(OsCount, i requires 0 <= i < OsCount => OsRow(i))
  }

  /** Number of groups of OS_FAMILIES. */
  const FamilyCount := 23

  /** Group `g` of OS_FAMILIES: (family label, short codes). Groups past the end are empty. */
  function FamilyRow(g: nat): (string, seq<string>) {
    match g
    case 0 => ("Android", ["AND", "CYN", "FIR", "REM", "RZD", "MLD", "MCD", "YNS", "GRI", "HAR"])
    case 1 => ("AmigaOS", ["AMG", "MOR"])
    case 2 => ("BlackBerry", ["BLB", "QNX"])
    case 3 => ("Brew", ["BMP"])
    case 4 => ("BeOS", ["BEO", "HAI"])
    case 5 => ("Chrome OS", ["COS", "FYD", "SEE"])
    case 6 => ("Firefox OS", ["FOS", "KOS"])
    case 7 => ("Gaming Console", ["WII", "PS3"])
    case 8 => ("Google TV", ["GTV"])
    case 9 => ("IBM", ["OS2"])
    case 10 => ("iOS", ["IOS", "ATV", "WAS", "IPA"])
    case 11 => ("RISC OS", ["ROS"])
    case 12 => ("GNU/Linux", [
        "LIN", "ARL", "DEB", "KNO", "MIN", "UBT", "KBT", "XBT", "LBT", "FED",
        "RHT", "VLN", "MDR", "GNT", "SAB", "SLW", "SSE", "CES", "BTR", "SAF",
        "ORD", "TOS", "RSO", "DEE", "FRE", "MAG", "FEN", "CAI", "PCL", "HAS",
        "LOS", "DVK"
      ])
    case 13 => ("Mac", ["MAC"])
    case 14 => ("Mobile Gaming Console", ["PSP", "NDS", "XBX"])
    case 15 => ("Real-time OS", ["MTK", "TDX", "MRE", "JME", "REX"])
    case 16 => ("Other Mobile", ["WOS", "POS", "SBA", "TIZ", "SMG", "MAE"])
    case 17 => ("Symbian", ["SYM", "SYS", "SY3", "S60", "S40"])
    case 18 => ("Unix", ["SOS", "AIX", "HPX", "BSD", "NBS", "OBS", "DFB", "SYL", "IRI", "T64", "INF"])
    case 19 => ("WebTV", ["WTV"])
    case 20 => ("Windows", ["WIN"])
    case 21 => ("Windows Mobile", ["WPH", "WMO", "WCE", "WRT", "WIO"])
    case 22 => ("Other Smart TV", ["WHS"])
    case _ => ("", [])
  }

  /** OS_FAMILIES as the sequence of its (family, codes) entries. */
  function OsFamilies(): (families: seq<(string, seq<string>)>)
    ensures |families| == FamilyCount
  {
    seq(FamilyCount, g requires 0 <= g < FamilyCount => FamilyRow(g))
  }

  /** DESKTOP_OSS: the eight distinct families whose members count as desktop systems. */
  function DesktopOss(): (labels: set<string>)
    ensures |labels| == 8
  {
    {"AmigaOS", "IBM", "GNU/Linux", "Mac", "Unix", "Windows", "BeOS", "Chrome OS"}
  }
}
