/**
 * The OS parser of lib/device_detector/os.rb: the canonicalisation in
 * `os_info`, the accessors, the version rewriting of `full_version` and the
 * parser object, which memoises `os_info` through `from_cache`. The name a user agent yields under the OS
 * rules and the raw version that `Parser#full_version` extracts are inputs
 * here; the regular-expression matching that produces them is outside the
 * model.
 */
module Os {
  import opened Wrappers
  import opened RubyStrings
  import opened Registry
  import opened Indices
  import opened OsTables
  import opened Memo

  /** The record `os_info` builds: `{ name:, short:, family: }`. */
  datatype OsInfo = OsInfo(name: Option<string>, short: string, family: Option<string>)

  // ---------------------------------------------------------------------
  // os_info
  // ---------------------------------------------------------------------

  /**
   * The body of `os_info` for an extracted name `osName`: a name whose
   * downcased form is a key of DOWNCASED_OPERATING_SYSTEMS is replaced by the
   * canonical long name of its short code; any other name, nil included, is
   * kept and gets the sentinel code. The family is looked up by short code.
   */
  function Canonicalize(osName: Option<string>): (info: OsInfo)
    ensures info.short == Unknown || info.short in OperatingSystemsHash()
    ensures info.short != Unknown ==> info.name == Some(OperatingSystemsHash()[info.short])
    ensures info.short == Unknown ==> info.name == osName && info.family == None
    ensures info.family == Lookup(FamilyToOs(), info.short)
  {
    UnknownIsUnregistered();
    if osName.Some? && Downcase(osName.value) in DowncasedOperatingSystems() then
      var short := DowncasedOperatingSystems()[Downcase(osName.value)];
      DowncasedValueIsCode(Downcase(osName.value));
      OsInfo(Lookup(OperatingSystemsHash(), short), short, Lookup(FamilyToOs(), short))
    else
      OsInfo(osName, Unknown, Lookup(FamilyToOs(), Unknown))
  }

  /**
   * Case-insensitive canonicalisation: any spelling of a registered long
   * name, in any letter case, yields that row's short code, its long name as
   * written in the table and the short code's family.
   */
  lemma CanonicalizeRow(i: nat, spelling: string)
    requires i < OsCount
    requires Downcase(spelling) == Downcase(OsRow(i).1)
    ensures Canonicalize(Some(spelling))
      == OsInfo(Some(OsRow(i).1), OsRow(i).0, Lookup(FamilyToOs(), OsRow(i).0))
  {
    assert OperatingSystems()[i] == OsRow(i);
    DowncasedInvertsTable(i);
    LongNameOfRow(i);
  }

  /**
   * The fallback: the sentinel code comes out exactly when there is no name
   * or the name matches no long name of the table in any letter case.
   */
  lemma CanonicalizeUnknown(osName: Option<string>)
    ensures Canonicalize(osName).short == Unknown
      <==> osName.None? || forall i :: 0 <= i < OsCount ==> Downcase(osName.value) != Downcase(OsRow(i).1)
  {
    if osName.Some? {
      forall i | 0 <= i < OsCount ensures OperatingSystems()[i] == OsRow(i) { }
      if Downcase(osName.value) in DowncasedOperatingSystems() {
        DowncasedValueIsCode(Downcase(osName.value));
      }
    }
  }

  /**
   * Letter case never matters: two spellings that downcase alike get the same
   * short code and family, and the same record once they are recognised.
   */
  lemma CanonicalizeIgnoresCase(a: string, b: string)
    requires Downcase(a) == Downcase(b)
    ensures Canonicalize(Some(a)).short == Canonicalize(Some(b)).short
    ensures Canonicalize(Some(a)).family == Canonicalize(Some(b)).family
    ensures Canonicalize(Some(a)).short != Unknown ==> Canonicalize(Some(a)) == Canonicalize(Some(b))
  {
  }

  /** With no extracted name, `os_info` is `{ name: nil, short: 'UNK', family: nil }`. */
  lemma NoNameIsUnknown()
    ensures Canonicalize(None) == OsInfo(None, Unknown, None)
  {
  }

  // ---------------------------------------------------------------------
  // Accessors
  // ---------------------------------------------------------------------

  /**
   * `desktop?`: whether the family is one of DESKTOP_OSS; a nil family is
   * not. A desktop family is always the label of a group of OS_FAMILIES.
   */
  function IsDesktop(info: OsInfo): (desktop: bool)
    ensures desktop ==> info.family.Some? && exists g :: 0 <= g < FamilyCount && OsFamilies()[g].0 == info.family.value
    ensures info.family.None? ==> !desktop
  {
    DesktopLabelsAreFamilies();
    info.family.Some? && info.family.value in DesktopOss()
  }

  /**
   * A recognised system is a desktop system exactly when a group of
   * OS_FAMILIES with a desktop label lists its short code.
   */
  lemma DesktopByFamilyGroup(i: nat)
    requires i < OsCount
    ensures IsDesktop(Canonicalize(Some(OsRow(i).1)))
      <==> exists g :: 0 <= g < FamilyCount && OsRow(i).0 in OsFamilies()[g].1 && OsFamilies()[g].0 in DesktopOss()
  {
    var code := OsRow(i).0;
    CanonicalizeRow(i, OsRow(i).1);
    if code in FamilyToOs() {
      var g :| 0 <= g < FamilyCount && code in OsFamilies()[g].1;
      FamilyOfListedCode(g, code);
      forall g' | 0 <= g' < FamilyCount && code in OsFamilies()[g'].1 ensures g' == g {
        FamiliesDisjoint();
      }
    }
  }

  /** An unrecognised name has no family and is not a desktop system. */
  lemma UnknownIsNotDesktop(osName: Option<string>)
    requires Canonicalize(osName).short == Unknown
    ensures Canonicalize(osName).family == None
    ensures !IsDesktop(Canonicalize(osName))
  {
  }

  /**
   * `full_version`: the raw version, read through `to_s` (nil becomes ""),
   * split at '_' and joined with '.', with nil in place of an empty result.
   * Trailing underscores disappear because `split` drops trailing empty
   * pieces; every other underscore becomes a dot.
   */
  function FullVersion(raw: Option<string>): (r: Option<string>)
    ensures r.Some? ==> r.value != "" && '_' !in r.value
    ensures raw.None? ==> r.None?
    ensures raw.Some? ==> (r.None? <==> TrimTrailing(raw.value, '_') == "")
    ensures raw.Some? && r.Some? ==> r.value == Replace(TrimTrailing(raw.value, '_'), '_', '.')
  {
    var text := if raw.None? then "" else raw.value;
    var rawVersion := Join(Split(text, '_'), '.');
    JoinSplit(text, '_', '.');
    if rawVersion == "" then None else Some(rawVersion)
  }

  // ---------------------------------------------------------------------
  // The parser object
  // ---------------------------------------------------------------------

  /**
   * An instance of the OS parser for one user agent, with `os_info` and the
   * accessors `name`, `short_name`, `family` and `desktop?`, each of which
   * reads the `os_info` record memoised in the shared cache.
   */
  class OsParser {
    const userAgent: string
    /** The name the OS rules extract from a user agent, a deterministic function of it. */
    const extract: string -> Option<string>
    const cache: Cache<OsInfo>

    constructor (userAgent: string, extract: string -> Option<string>, cache: Cache<OsInfo>)
      ensures this.userAgent == userAgent && this.extract == extract && this.cache == cache
    {
      this.userAgent := userAgent;
      this.extract := extract;
      this.cache := cache;
    }

    /** The cache holds `os_info` records: what it computes for a user agent is `os_info` of the extracted name. */
    ghost predicate HoldsOsInfo() {
      forall ua :: cache.compute(ua) == Canonicalize(extract(ua))
    }

    /**
     * `os_info`: the record memoised under the user agent, computed from the
     * extracted name on the first call. Afterwards the cache holds that
     * record under the user agent and is otherwise as it was.
     */
    method Record() returns (info: OsInfo)
      requires cache.Valid() && HoldsOsInfo()
      modifies cache
      ensures cache.Valid()
      ensures info == Canonicalize(extract(userAgent))
      ensures userAgent in old(cache.entries) ==> info == old(cache.entries)[userAgent]
      ensures cache.entries == old(cache.entries)[userAgent := info]
    {
      info := cache.Fetch(userAgent);
    }

    /** `name`: the canonical long name, or the extracted name when unrecognised. */
    method Name() returns (name: Option<string>)
      requires cache.Valid() && HoldsOsInfo()
      modifies cache
      ensures cache.Valid()
      ensures name == Canonicalize(extract(userAgent)).name
      ensures cache.entries == old(cache.entries)[userAgent := Canonicalize(extract(userAgent))]
    {
      var info := Record();
      name := info.name;
    }

    /** `short_name`: the short code, "UNK" when unrecognised. */
    method ShortName() returns (short: string)
      requires cache.Valid() && HoldsOsInfo()
      modifies cache
      ensures cache.Valid()
      ensures short == Canonicalize(extract(userAgent)).short
      ensures short == Unknown || short in OperatingSystemsHash()
      ensures cache.entries == old(cache.entries)[userAgent := Canonicalize(extract(userAgent))]
    {
      var info := Record();
      short := info.short;
    }

    /** `family`: the family of the short code, nil when it has none. */
    method Family() returns (family: Option<string>)
      requires cache.Valid() && HoldsOsInfo()
      modifies cache
      ensures cache.Valid()
      ensures family == Lookup(FamilyToOs(), Canonicalize(extract(userAgent)).short)
      ensures cache.entries == old(cache.entries)[userAgent := Canonicalize(extract(userAgent))]
    {
      var info := Record();
      family := info.family;
    }

    /** `desktop?`: whether the family is a desktop family. */
    method Desktop() returns (desktop: bool)
      requires cache.Valid() && HoldsOsInfo()
      modifies cache
      ensures cache.Valid()
      ensures desktop == IsDesktop(Canonicalize(extract(userAgent)))
      ensures cache.entries == old(cache.entries)[userAgent := Canonicalize(extract(userAgent))]
    {
      var info := Record();
      desktop := IsDesktop(info);
    }
  }
}
