/**
 * The constant tables of lib/device_detector/os.rb as hashes, and the facts
 * about them that the OS parser relies on: the two derived hashes invert and
 * partition the tables they are built from, and the sentinel code "UNK" is
 * registered nowhere.
 */
module OsTables {
  import opened Wrappers
  import opened RubyStrings
  import opened Registry
  import opened Indices
  import TableFacts
  import FamilyFacts

  /** The short code `os_info` gives a name it does not recognise. */
  const Unknown := "UNK"

  /** `hash[key]`: nil when `key` is absent, the stored value otherwise. */
  function Lookup(m: map<string, string>, key: string): (r: Option<string>)
    ensures r.None? <==> key !in m
    ensures r.Some? ==> r.value == m[key] && r.value in m.Values
  {
    if key in m then Some(m[key]) else None
  }

  /**
   * OPERATING_SYSTEMS as the hash the literal builds. It has one entry per
   * row, so no row is lost to a repeated key.
   */
  function OperatingSystemsHash(): (h: map<string, string>)
    ensures |h| == OsCount
  {
    ShortCodesDistinct();
    IndexBySize(OperatingSystems());
    IndexBy(OperatingSystems())
  }

  /**
   * DOWNCASED_OPERATING_SYSTEMS: its keys are exactly the downcased long
   * names, and it has one entry per row, so downcasing merges no two rows.
   */
  function DowncasedOperatingSystems(): (h: map<string, string>)
    ensures forall key :: key in h <==> exists i :: 0 <= i < OsCount && Downcase(OperatingSystems()[i].1) == key
    ensures |h| == OsCount
  {
    LongNamesDistinct();
    ReverseIndexSize(OperatingSystems());
    ReverseIndex(OperatingSystems())
  }

  /**
   * FAMILY_TO_OS: a code has a family exactly when some group of OS_FAMILIES
   * lists it, and that family is the label of a group listing the code.
   */
  function FamilyToOs(): (h: map<string, string>)
    ensures forall c :: c in h <==> exists g :: 0 <= g < FamilyCount && c in OsFamilies()[g].1
    ensures forall c :: c in h ==> exists g :: 0 <= g < FamilyCount && c in OsFamilies()[g].1 && h[c] == OsFamilies()[g].0
  {
    FamilyIndex(OsFamilies())
  }

  // ---------------------------------------------------------------------
  // Consistency of the tables
  // ---------------------------------------------------------------------

  /** No two rows of OPERATING_SYSTEMS share a short code. */
  lemma ShortCodesDistinct()
    ensures KeysDistinct(OperatingSystems())
  {
    var table := OperatingSystems();
    TableFacts.RowsFoundAgain();
    forall i, j | 0 <= i < j < |table| ensures table[i].0 != table[j].0 {
      assert TableFacts.RowOfCode(table[i].0) == i;
      assert TableFacts.RowOfCode(table[j].0) == j;
    }
  }

  /** No two long names of OPERATING_SYSTEMS differ only in letter case. */
  lemma LongNamesDistinct()
    ensures LongNamesDistinctIgnoringCase(OperatingSystems())
  {
    var table := OperatingSystems();
    TableFacts.RowsFoundAgain();
    forall i, j | 0 <= i < j < |table| ensures Downcase(table[i].1) != Downcase(table[j].1) {
      assert TableFacts.RowOfLowered(Downcase(table[i].1)) == i;
      assert TableFacts.RowOfLowered(Downcase(table[j].1)) == j;
    }
  }

  /** Every code listed in OS_FAMILIES belongs to the group that lists it and to no other. */
  lemma GroupOfListedCode(g: nat, c: string)
    requires g < FamilyCount && c in OsFamilies()[g].1
    ensures FamilyFacts.GroupOfCode(c) == g
  {
    FamilyFacts.GroupsFoundAgain();
    var k :| 0 <= k < |FamilyRow(g).1| && FamilyRow(g).1[k] == c;
  }

  /** No short code is listed under two families. */
  lemma FamiliesDisjoint()
    ensures CodesDisjoint(OsFamilies())
  {
    forall g1, g2, c | 0 <= g1 < g2 < FamilyCount && c in OsFamilies()[g1].1
      ensures c !in OsFamilies()[g2].1
    {
      GroupOfListedCode(g1, c);
      if c in OsFamilies()[g2].1 {
        GroupOfListedCode(g2, c);
      }
    }
  }

  /** No family label opens two groups of OS_FAMILIES, so the sequence of groups is the hash. */
  lemma FamilyLabelsDistinct()
    ensures forall g1, g2 :: 0 <= g1 < g2 < FamilyCount ==> OsFamilies()[g1].0 != OsFamilies()[g2].0
  {
    FamilyFacts.GroupsFoundAgain();
    forall g1, g2 | 0 <= g1 < g2 < FamilyCount ensures OsFamilies()[g1].0 != OsFamilies()[g2].0 {
      assert FamilyFacts.GroupOfLabel(FamilyRow(g1).0) == g1;
      assert FamilyFacts.GroupOfLabel(FamilyRow(g2).0) == g2;
    }
  }

  /** Each of the eight desktop labels is the label of a group of OS_FAMILIES. */
  lemma DesktopLabelsAreFamilies()
    ensures forall f :: f in DesktopOss() ==> exists g :: 0 <= g < FamilyCount && OsFamilies()[g].0 == f
  {
    assert OsFamilies()[1].0 == "AmigaOS" && OsFamilies()[9].0 == "IBM";
    assert OsFamilies()[12].0 == "GNU/Linux" && OsFamilies()[13].0 == "Mac";
    assert OsFamilies()[18].0 == "Unix" && OsFamilies()[20].0 == "Windows";
    assert OsFamilies()[4].0 == "BeOS" && OsFamilies()[5].0 == "Chrome OS";
  }

  /** The sentinel is neither a short code of OPERATING_SYSTEMS nor a key of FAMILY_TO_OS. */
  lemma UnknownIsUnregistered()
    ensures forall i :: 0 <= i < OsCount ==> OperatingSystems()[i].0 != Unknown
    ensures Unknown !in OperatingSystemsHash()
    ensures Unknown !in FamilyToOs()
  {
    TableFacts.RowsFoundAgain();
    forall i | 0 <= i < OsCount ensures OperatingSystems()[i].0 != Unknown {
      assert OperatingSystems()[i] == OsRow(i);
      assert TableFacts.RowOfCode(OsRow(i).0) == i;
    }
    FamilyFacts.GroupsFoundAgain();
    forall g | 0 <= g < FamilyCount ensures Unknown !in OsFamilies()[g].1 {
      assert OsFamilies()[g] == FamilyRow(g);
    }
  }

  /** OPERATING_SYSTEMS keeps the long name of every row under its short code. */
  lemma LongNameOfRow(i: nat)
    requires i < OsCount
    ensures OperatingSystems()[i].0 in OperatingSystemsHash()
    ensures OperatingSystemsHash()[OperatingSystems()[i].0] == OperatingSystems()[i].1
  {
    ShortCodesDistinct();
    IndexByInverts(OperatingSystems(), i);
  }

  /**
   * DOWNCASED_OPERATING_SYSTEMS inverts OPERATING_SYSTEMS: the downcased long
   * name of every row leads back to that row's short code.
   */
  lemma DowncasedInvertsTable(i: nat)
    requires i < OsCount
    ensures Downcase(OperatingSystems()[i].1) in DowncasedOperatingSystems()
    ensures DowncasedOperatingSystems()[Downcase(OperatingSystems()[i].1)] == OperatingSystems()[i].0
  {
    LongNamesDistinct();
    ReverseIndexInverts(OperatingSystems(), i);
  }

  /**
   * FAMILY_TO_OS partitions the listed codes: every code listed in a group
   * maps to that group's family, and the codes it maps are exactly the
   * listed ones.
   */
  lemma FamilyOfListedCode(g: nat, c: string)
    requires g < FamilyCount && c in OsFamilies()[g].1
    ensures c in FamilyToOs() && FamilyToOs()[c] == OsFamilies()[g].0
  {
    FamiliesDisjoint();
    FamilyIndexAt(OsFamilies(), g, c);
  }

  /** Every value of DOWNCASED_OPERATING_SYSTEMS is a short code other than the sentinel. */
  lemma DowncasedValueIsCode(key: string)
    requires key in DowncasedOperatingSystems()
    ensures DowncasedOperatingSystems()[key] in OperatingSystemsHash()
    ensures DowncasedOperatingSystems()[key] != Unknown
  {
    var i :| 0 <= i < OsCount && Downcase(OperatingSystems()[i].1) == key
      && OperatingSystems()[i].0 == DowncasedOperatingSystems()[key];
    LongNameOfRow(i);
    UnknownIsUnregistered();
  }

}
