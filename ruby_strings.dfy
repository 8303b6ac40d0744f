/**
 * The Ruby string operations the OS parser relies on: `String#downcase`
 * (ASCII letters only), `String#split` with a one-character separator and
 * `Array#join`, together with the plain character-level definitions they
 * are proved against.
 */
module RubyStrings {

  /** `c` with an ASCII upper-case letter folded to lower case. */
  function LowerChar(c: char): (r: char)
    ensures !('A' <= r <= 'Z')
    ensures 'A' <= c <= 'Z' ==> r as int == c as int + 32
    ensures !('A' <= c <= 'Z') ==> r == c
  {
    if 'A' <= c <= 'Z' then (c as int + 32) as char else c
  }

  /** `String#downcase` over ASCII: every letter folded, everything else kept. */
  function Downcase(s: string): (r: string)
    ensures |r| == |s|
    ensures forall i :: 0 <= i < |s| && 'A' <= s[i] <= 'Z' ==> r[i] as int == s[i] as int + 32
    ensures forall i :: 0 <= i < |s| && !('A' <= s[i] <= 'Z') ==> r[i] == s[i]
    ensures forall i :: 0 <= i < |r| ==> !('A' <= r[i] <= 'Z')
  {
    seq(|s|, i requires 0 <= i < |s| => LowerChar(s[i]))
  }

  /**
   * All pieces of `s` between occurrences of `sep`, empty pieces included:
   * `"a__b"` has the three pieces `"a"`, `""` and `"b"`, and `""` has the one
   * piece `""`.
   */
  function Fields(s: string, sep: char): (r: seq<string>)
    ensures |r| > 0
    ensures forall k :: 0 <= k < |r| ==> sep !in r[k]
    decreases |s|
  {
    if |s| == 0 then [""]
    else
      var rest := Fields(s[1..], sep);
      if s[0] == sep then [""] + rest
      else [[s[0]] + rest[0]] + rest[1..]
  }

  /** `fs` without its trailing empty strings. */
  function DropTrailingEmpty(fs: seq<string>): (r: seq<string>)
    ensures r <= fs
    ensures |r| > 0 ==> r[|r| - 1] != ""
    ensures forall k :: |r| <= k < |fs| ==> fs[k] == ""
  {
    if |fs| > 0 && fs[|fs| - 1] == "" then DropTrailingEmpty(fs[..|fs| - 1]) else fs
  }

  /**
   * `s.split(sep)` for a one-character separator other than a space and no
   * limit: the pieces between separators, with trailing empty pieces removed.
   */
  function Split(s: string, sep: char): (r: seq<string>)
    ensures forall k :: 0 <= k < |r| ==> sep !in r[k]
    ensures |r| > 0 ==> r[|r| - 1] != ""
  {
    DropTrailingEmpty(Fields(s, sep))
  }

  /**
   * `fs.join(sep)` for a one-character separator. Joining is undone by
   * cutting at the separator, as long as no piece contains it.
   */
  function Join(fs: seq<string>, sep: char): (r: string)
    ensures |fs| > 0 && (forall k :: 0 <= k < |fs| ==> sep !in fs[k]) ==> Fields(r, sep) == fs
  {
    if |fs| == 0 then ""
    else if |fs| == 1 then
      FieldsWithoutSep(fs[0], sep);
      fs[0]
    else
      FieldsCons(fs[0], sep, Join(fs[1..], sep));
      fs[0] + [sep] + Join(fs[1..], sep)
  }

  /** A string without the separator is one piece. */
  lemma {:induction false} FieldsWithoutSep(s: string, sep: char)
    ensures sep !in s ==> Fields(s, sep) == [s]
    decreases |s|
  {
    if |s| > 0 && sep !in s {
      assert sep !in s[1..];
      FieldsWithoutSep(s[1..], sep);
      assert [s[0]] + s[1..] == s;
    }
  }

  /** A piece without the separator followed by the separator is cut off as the first piece. */
  lemma {:induction false} FieldsCons(a: string, sep: char, t: string)
    ensures sep !in a ==> Fields(a + [sep] + t, sep) == [a] + Fields(t, sep)
    decreases |a|
  {
    if sep !in a {
      var s := a + [sep] + t;
      if |a| == 0 {
        assert s == [sep] + t && s[1..] == t;
      } else {
        assert s[1..] == a[1..] + [sep] + t;
        assert sep !in a[1..];
        FieldsCons(a[1..], sep, t);
        assert [a[0]] + a[1..] == a;
      }
    }
  }

  /** `s` with every `from` replaced by `to`. */
  function Replace(s: string, from: char, to: char): (r: string)
    ensures |r| == |s|
    ensures forall i :: 0 <= i < |s| && s[i] == from ==> r[i] == to
    ensures forall i :: 0 <= i < |s| && s[i] != from ==> r[i] == s[i]
    ensures from != to ==> from !in r
  {
    seq(|s|, i requires 0 <= i < |s| => if s[i] == from then to else s[i])
  }

  /** `s` without the run of `c` at its end. */
  function TrimTrailing(s: string, c: char): (r: string)
    ensures r <= s
    ensures |r| > 0 ==> r[|r| - 1] != c
    ensures forall k :: |r| <= k < |s| ==> s[k] == c
  {
    if |s| > 0 && s[|s| - 1] == c then TrimTrailing(s[..|s| - 1], c) else s
  }

  /** Joining the pieces with `to` puts `to` where every separator was. */
  lemma {:induction false} JoinFields(s: string, sep: char, to: char)
    ensures Join(Fields(s, sep), to) == Replace(s, sep, to)
    decreases |s|
  {
    if |s| > 0 {
      var rest := Fields(s[1..], sep);
      JoinFields(s[1..], sep, to);
      assert Replace(s, sep, to) == [Replace(s, sep, to)[0]] + Replace(s[1..], sep, to);
      if s[0] != sep && |rest| > 1 {
        assert Join(rest, to) == rest[0] + [to] + Join(rest[1..], to);
      }
    }
  }

  /** A separator at the end adds one empty piece and changes nothing else. */
  lemma {:induction false} FieldsSnoc(s: string, sep: char)
    ensures Fields(s + [sep], sep) == Fields(s, sep) + [""]
    decreases |s|
  {
    if |s| == 0 {
      assert Fields([sep], sep) == [""] + Fields([], sep);
    } else {
      assert (s + [sep])[1..] == s[1..] + [sep];
      FieldsSnoc(s[1..], sep);
    }
  }

  /** When `s` does not end with the separator, its last piece is not empty. */
  lemma {:induction false} LastFieldNonEmpty(s: string, sep: char)
    requires |s| > 0 && s[|s| - 1] != sep
    ensures Fields(s, sep)[|Fields(s, sep)| - 1] != ""
    decreases |s|
  {
    if |s| > 1 {
      LastFieldNonEmpty(s[1..], sep);
    }
  }

  /** Ruby's split is the full list of pieces of the trimmed string, or none at all. */
  lemma {:induction false} SplitIsFieldsOfTrimmed(s: string, sep: char)
    ensures Split(s, sep) == if TrimTrailing(s, sep) == "" then [] else Fields(TrimTrailing(s, sep), sep)
    decreases |s|
  {
    if |s| > 0 && s[|s| - 1] == sep {
      var p := s[..|s| - 1];
      assert s == p + [sep];
      FieldsSnoc(p, sep);
      var fp := Fields(p, sep);
      assert (fp + [""])[..|fp|] == fp;
      SplitIsFieldsOfTrimmed(p, sep);
    } else if |s| > 0 {
      LastFieldNonEmpty(s, sep);
    }
  }

  /**
   * `s.split(sep).join(to)` removes the separators at the end of `s` and
   * turns every other separator into `to`.
   */
  lemma JoinSplit(s: string, sep: char, to: char)
    ensures Join(Split(s, sep), to) == Replace(TrimTrailing(s, sep), sep, to)
  {
    SplitIsFieldsOfTrimmed(s, sep);
    if TrimTrailing(s, sep) != "" {
      JoinFields(TrimTrailing(s, sep), sep, to);
    }
  }
}
