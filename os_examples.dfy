/**
 * The OS parser on concrete inputs: the letter-case scenarios for Windows,
 * the desktop classification of Ubuntu and Android, and the edges of the
 * version rewriting.
 */
module OsExamples {
  import opened Wrappers
  import opened RubyStrings
  import opened Registry
  import opened OsTables
  import opened Os
  import TableFacts

  /** Any spelling of "Windows", in any letter case, resolves to `WIN`, "Windows", family "Windows". */
  lemma WindowsInAnyCase(spelling: string)
    requires Downcase(spelling) == "windows"
    ensures Canonicalize(Some(spelling)) == OsInfo(Some("Windows"), "WIN", Some("Windows"))
  {
    TableFacts.Row90();
    assert FamilyRow(20).1[0] == "WIN";
    FamilyOfListedCode(20, "WIN");
    CanonicalizeRow(90, spelling);
  }

  /** Ubuntu, in any letter case, is GNU/Linux, a desktop family. */
  lemma UbuntuIsDesktop(spelling: string)
    requires Downcase(spelling) == "ubuntu"
    ensures Canonicalize(Some(spelling)) == OsInfo(Some("Ubuntu"), "UBT", Some("GNU/Linux"))
    ensures IsDesktop(Canonicalize(Some(spelling)))
  {
    assert IsDesktop(OsInfo(Some("Ubuntu"), "UBT", Some("GNU/Linux")));
    assert FamilyRow(12).1[5] == "UBT";
    TableFacts.Row86();
    FamilyOfListedCode(12, "UBT");
    CanonicalizeRow(86, spelling);
  }

  /** Android, in any letter case, is a family of its own, which is not a desktop family. */
  lemma AndroidIsNotDesktop(spelling: string)
    requires Downcase(spelling) == "android"
    ensures Canonicalize(Some(spelling)) == OsInfo(Some("Android"), "AND", Some("Android"))
    ensures !IsDesktop(Canonicalize(Some(spelling)))
  {
    assert !IsDesktop(OsInfo(Some("Android"), "AND", Some("Android")));
    TableFacts.Row1();
    assert FamilyRow(0).1[0] == "AND";
    FamilyOfListedCode(0, "AND");
    CanonicalizeRow(1, spelling);
  }

  /** A dotted version written with underscores reads with dots. */
  lemma FullVersionDotted()
    ensures FullVersion(Some("10_15_7")) == Some("10.15.7")
  {
    assert TrimTrailing("10_15_7", '_') == "10_15_7";
    assert Replace("10_15_7", '_', '.') == "10.15.7";
  }

  /** A trailing underscore is dropped, not turned into a dot. */
  lemma FullVersionTrailing()
    ensures FullVersion(Some("10_")) == Some("10")
  {
    assert "10_"[..2] == "10";
    assert TrimTrailing("10_", '_') == "10";
    assert Replace("10", '_', '.') == "10";
  }

  /** Inner runs of underscores each become a dot, a leading one included. */
  lemma FullVersionInner()
    ensures FullVersion(Some("1__2")) == Some("1..2")
    ensures FullVersion(Some("_1")) == Some(".1")
  {
    assert TrimTrailing("1__2", '_') == "1__2";
    assert TrimTrailing("_1", '_') == "_1";
    assert Replace("1__2", '_', '.') == "1..2";
    assert Replace("_1", '_', '.') == ".1";
  }

  /** No version, an empty one and one made only of underscores all give nil. */
  lemma FullVersionNil()
    ensures FullVersion(None) == None
    ensures FullVersion(Some("")) == None
    ensures FullVersion(Some("__")) == None
  {
    assert "__"[..1] == "_" && "_"[..0] == "";
    assert TrimTrailing("__", '_') == "";
  }

  /** A version made only of blanks has no underscore to rewrite and is returned as it is. */
  lemma FullVersionBlank()
    ensures FullVersion(Some("  ")) == Some("  ")
  {
    assert TrimTrailing("  ", '_') == "  ";
    assert Replace("  ", '_', '.') == "  ";
  }
}
