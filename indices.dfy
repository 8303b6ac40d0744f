/**
 * The two derived hashes of the OS parser and the loops that build them.
 * Both are built with `each_with_object({})`, which starts from an empty
 * hash and writes `h[key] = value` once per element in iteration order, so a
 * later write to a key replaces an earlier one. The functions below are that
 * construction written as a fold; the methods are the loops themselves.
 */
module Indices {
  import opened RubyStrings

  /** The hash left by writing `h[p.0] = p.1` for each pair `p` of `pairs` in order. */
  function IndexBy<K(!new), V>(pairs: seq<(K, V)>): (h: map<K, V>)
    ensures forall k :: k in h <==> exists i :: 0 <= i < |pairs| && pairs[i].0 == k
  {
    if |pairs| == 0 then map[]
    else
      var last := pairs[|pairs| - 1];
      IndexBy(pairs[..|pairs| - 1])[last.0 := last.1]
  }

  /** Every value of the index was written by some pair with that key. */
  lemma {:induction false} IndexByValue<K(!new), V>(pairs: seq<(K, V)>, k: K)
    requires k in IndexBy(pairs)
    ensures exists i :: 0 <= i < |pairs| && pairs[i] == (k, IndexBy(pairs)[k])
  {
    var last := pairs[|pairs| - 1];
    if last.0 != k {
      IndexByValue(pairs[..|pairs| - 1], k);
      var i :| 0 <= i < |pairs| - 1 && pairs[..|pairs| - 1][i] == (k, IndexBy(pairs[..|pairs| - 1])[k]);
      assert pairs[i] == (k, IndexBy(pairs)[k]);
    } else {
      assert pairs[|pairs| - 1] == (k, IndexBy(pairs)[k]);
    }
  }

  /**
   * No overwrite: when no later pair writes a different value under the key
   * of pair `i`, the index keeps the value of pair `i`.
   */
  lemma {:induction false} IndexByKeeps<K(!new), V>(pairs: seq<(K, V)>, i: nat)
    requires i < |pairs|
    requires forall j :: i < j < |pairs| && pairs[j].0 == pairs[i].0 ==> pairs[j].1 == pairs[i].1
    ensures pairs[i].0 in IndexBy(pairs) && IndexBy(pairs)[pairs[i].0] == pairs[i].1
  {
    if i < |pairs| - 1 {
      IndexByKeeps(pairs[..|pairs| - 1], i);
    }
  }

  /** No two pairs share a key. */
  ghost predicate KeysDistinct<K(!new), V>(pairs: seq<(K, V)>) {
    forall i, j :: 0 <= i < j < |pairs| ==> pairs[i].0 != pairs[j].0
  }

  /** With distinct keys, the index maps every key to its own pair's value. */
  lemma IndexByInverts<K(!new), V>(pairs: seq<(K, V)>, i: nat)
    requires KeysDistinct(pairs)
    requires i < |pairs|
    ensures pairs[i].0 in IndexBy(pairs) && IndexBy(pairs)[pairs[i].0] == pairs[i].1
  {
    IndexByKeeps(pairs, i);
  }

  /** With distinct keys no write is lost: the index has one entry per pair. */
  lemma {:induction false} IndexBySize<K(!new), V>(pairs: seq<(K, V)>)
    requires KeysDistinct(pairs)
    ensures |IndexBy(pairs)| == |pairs|
  {
    if |pairs| > 0 {
      var prefix := pairs[..|pairs| - 1];
      var last := pairs[|pairs| - 1];
      assert KeysDistinct(prefix);
      IndexBySize(prefix);
      assert last.0 !in IndexBy(prefix);
    }
  }

  /** `IndexByValue` for every key at once. */
  lemma IndexByValues<K(!new), V>(pairs: seq<(K, V)>)
    ensures forall k :: k in IndexBy(pairs) ==> exists i :: 0 <= i < |pairs| && pairs[i] == (k, IndexBy(pairs)[k])
  {
    forall k | k in IndexBy(pairs)
      ensures exists i :: 0 <= i < |pairs| && pairs[i] == (k, IndexBy(pairs)[k])
    {
      IndexByValue(pairs, k);
    }
  }

  /** The (long.downcase, short) pairs that DOWNCASED_OPERATING_SYSTEMS writes, in order. */
  function DowncasedPairs(table: seq<(string, string)>): seq<(string, string)> {
    seq(|table|, i requires 0 <= i < |table| => (Downcase(table[i].1), table[i].0))
  }

  /**
   * DOWNCASED_OPERATING_SYSTEMS of a (short, long) table: its keys are exactly
   * the downcased long names, and each key leads to the short code of a row
   * carrying that name.
   */
  function ReverseIndex(table: seq<(string, string)>): (h: map<string, string>)
    ensures forall key :: key in h <==> exists i :: 0 <= i < |table| && Downcase(table[i].1) == key
    ensures forall key :: key in h ==>
      exists i :: 0 <= i < |table| && Downcase(table[i].1) == key && table[i].0 == h[key]
  {
    IndexByValues(DowncasedPairs(table));
    DowncasedKeys(table);
    IndexBy(DowncasedPairs(table))
  }

  /** Each row writes its own downcased long name, so those are exactly the keys written. */
  lemma DowncasedKeys(table: seq<(string, string)>)
    ensures forall key :: key in IndexBy(DowncasedPairs(table)) <==>
      exists i :: 0 <= i < |table| && Downcase(table[i].1) == key
  {
    var pairs := DowncasedPairs(table);
    forall key | exists i :: 0 <= i < |table| && Downcase(table[i].1) == key
      ensures key in IndexBy(pairs)
    {
      var i :| 0 <= i < |table| && Downcase(table[i].1) == key;
      assert pairs[i].0 == key;
    }
  }

  /** No two long names of the table are equal once downcased. */
  ghost predicate LongNamesDistinctIgnoringCase(table: seq<(string, string)>) {
    forall i, j :: 0 <= i < j < |table| ==> Downcase(table[i].1) != Downcase(table[j].1)
  }

  /** With pairwise distinct downcased long names, the reverse index has one entry per row. */
  lemma ReverseIndexSize(table: seq<(string, string)>)
    requires LongNamesDistinctIgnoringCase(table)
    ensures |ReverseIndex(table)| == |table|
  {
    var pairs := DowncasedPairs(table);
    assert KeysDistinct(pairs) by {
      forall i, j | 0 <= i < j < |pairs| ensures pairs[i].0 != pairs[j].0 {
        assert pairs[i].0 == Downcase(table[i].1) && pairs[j].0 == Downcase(table[j].1);
      }
    }
    IndexBySize(pairs);
  }

  /**
   * The reverse index inverts the forward table: when the downcased long
   * names are pairwise distinct, each of them leads back to its own short code.
   */
  lemma ReverseIndexInverts(table: seq<(string, string)>, i: nat)
    requires LongNamesDistinctIgnoringCase(table)
    requires i < |table|
    ensures Downcase(table[i].1) in ReverseIndex(table)
    ensures ReverseIndex(table)[Downcase(table[i].1)] == table[i].0
  {
    IndexByInverts(DowncasedPairs(table), i);
  }

  /** The writes of one group: each of its codes under its family. */
  function GroupIndex(family: string, oss: seq<string>): map<string, string> {
    map c | c in oss :: family
  }

  /** The `h[os] = family` writes of one group, one per code, in order. */
  function GroupWrites(family: string, oss: seq<string>): seq<(string, string)> {
    seq(|oss|, k requires 0 <= k < |oss| => (oss[k], family))
  }

  /** The writes of one group, done one after the other, leave exactly `GroupIndex`. */
  lemma {:induction false} GroupIndexWrites(family: string, oss: seq<string>)
    ensures GroupIndex(family, oss) == IndexBy(GroupWrites(family, oss))
    decreases |oss|
  {
    if |oss| > 0 {
      var n := |oss| - 1;
      assert oss[..n] + [oss[n]] == oss;
      assert GroupWrites(family, oss)[..n] == GroupWrites(family, oss[..n]);
      GroupIndexWrites(family, oss[..n]);
      GroupIndexSnoc(family, oss[..n], oss[n]);
    }
  }

  /**
   * The hash left by writing `h[code] = family` for each code of each group
   * in order. Its keys are exactly the listed codes, and each key holds the
   * family of a group that lists it.
   */
  function FamilyIndex(families: seq<(string, seq<string>)>): (h: map<string, string>)
    ensures forall c :: c in h ==> exists g :: 0 <= g < |families| && c in families[g].1 && h[c] == families[g].0
    ensures forall g, c :: 0 <= g < |families| && c in families[g].1 ==> c in h
  {
    if |families| == 0 then map[]
    else
      var last := families[|families| - 1];
      FamilyIndex(families[..|families| - 1]) + GroupIndex(last.0, last.1)
  }

  /** No short code is listed in two groups. */
  ghost predicate CodesDisjoint(families: seq<(string, seq<string>)>) {
    forall g1, g2, c :: 0 <= g1 < g2 < |families| && c in families[g1].1 ==> c !in families[g2].1
  }

  /**
   * The family index is a partition: when no code sits in two groups, each
   * listed code maps to the family of the group that lists it.
   */
  lemma {:induction false} FamilyIndexAt(families: seq<(string, seq<string>)>, g: nat, c: string)
    requires CodesDisjoint(families)
    requires g < |families| && c in families[g].1
    ensures c in FamilyIndex(families) && FamilyIndex(families)[c] == families[g].0
  {
    var n := |families|;
    if g < n - 1 {
      var prefix := families[..n - 1];
      assert prefix[g] == families[g];
      assert c !in families[n - 1].1;
      FamilyIndexAt(prefix, g, c);
    }
  }

  /** The loop behind DOWNCASED_OPERATING_SYSTEMS. */
  method BuildReverseIndex(table: seq<(string, string)>) returns (h: map<string, string>)
    ensures h == ReverseIndex(table)
  {
    ghost var pairs := DowncasedPairs(table);
    h := map[];
    var i := 0;
    while i < |table|
      invariant 0 <= i <= |table|
      invariant h == IndexBy(pairs[..i])
    {
      var (short, long) := table[i];
      assert pairs[..i + 1][..i] == pairs[..i];
      h := h[Downcase(long) := short];
      i := i + 1;
    }
    assert pairs[..|table|] == pairs;
  }

  /** One more code in a group is one more write. */
  lemma GroupIndexSnoc(family: string, oss: seq<string>, c: string)
    ensures GroupIndex(family, oss + [c]) == GroupIndex(family, oss)[c := family]
  {
  }

  /** The inner loop behind FAMILY_TO_OS: `oss.each { |os| h[os] = family }`. */
  method WriteGroup(h0: map<string, string>, family: string, oss: seq<string>) returns (h: map<string, string>)
    ensures h == h0 + GroupIndex(family, oss)
  {
    h := h0;
    var k := 0;
    while k < |oss|
      invariant 0 <= k <= |oss|
      invariant h == h0 + GroupIndex(family, oss[..k])
    {
      assert oss[..k + 1] == oss[..k] + [oss[k]];
      GroupIndexSnoc(family, oss[..k], oss[k]);
      h := h[oss[k] := family];
      k := k + 1;
    }
    assert oss[..|oss|] == oss;
  }

  /** The outer loop behind FAMILY_TO_OS, one group of OS_FAMILIES at a time. */
  method BuildFamilyIndex(families: seq<(string, seq<string>)>) returns (h: map<string, string>)
    ensures h == FamilyIndex(families)
  {
    h := map[];
    var i := 0;
    while i < |families|
      invariant 0 <= i <= |families|
      invariant h == FamilyIndex(families[..i])
    {
      var (family, oss) := families[i];
      assert families[..i + 1][..i] == families[..i];
      h := WriteGroup(h, family, oss);
      i := i + 1;
    }
    assert families[..|families|] == families;
  }
}
