# OS classifier of device_detector, in Dafny

This project models the operating-system parser of the Ruby gem
device_detector (`DeviceDetector::OS`, in `lib/device_detector/os.rb`) and
proves what it promises.

The parser is handed the OS name that the regular-expression rules pulled out
of a user agent, and the raw version string those rules captured. It turns
the name into a canonical OS identity: a short code, the canonical long name
and a family. The lookup ignores letter case and goes through a reverse index
of the long names. A name that is not registered keeps its spelling and gets
the sentinel code `UNK`. From the identity it answers `name`, `short_name`,
`family` and `desktop?`. `full_version` rewrites a version such as `10_15_7`
to `10.15.7`. The records are memoised per user agent.

Layout, one module per file:

- `wrappers.dfy` — `Option`, standing for Ruby's `nil` next to a value.
- `ruby_strings.dfy` — `String#downcase` (ASCII), `String#split` with a
  one-character separator, `Array#join`. Also the character-level definitions
  they are proved against.
- `registry.dfy` — the frozen tables OPERATING_SYSTEMS (102 rows),
  OS_FAMILIES (23 groups) and DESKTOP_OSS, row for row and in source order.
- `indices.dfy` — the two `each_with_object` constructions, as folds and as
  the loops themselves. Also the generic facts about them: last write wins,
  no overwrite when keys are distinct, and the partition property.
- `table_facts.dfy`, `family_facts.dfy` — lookups by string matching
  (`RowOfCode`, `RowOfLowered`, `GroupOfCode`, `GroupOfLabel`), written out
  separately from `OsRow` and `FamilyRow`. Each one finds every row or group
  of a table again, which shows the table's keys are pairwise distinct. Each
  `Row<n>` or `Group<n>` lemma evaluates one row; `RowsFrom<n>` and
  `GroupsOfCodes<n>` gather a block of them.
- `os_tables.dfy` — the tables as Ruby hashes (`OperatingSystemsHash`,
  `DowncasedOperatingSystems`, `FamilyToOs`) and their consistency.
- `memo.dfy` — the memo store behind `from_cache` (`Cache`), generic in the
  value it keeps.
- `os.dfy` — `os_info` (`Canonicalize`), `desktop?`, `full_version` and the
  parser object with `os_info` and its accessors (`OsParser`).
- `os_examples.dfy` — concrete scenarios.

Facts about the tables and `full_version` that the model relies on:

- OPERATING_SYSTEMS has 102 rows.
- Every short code has three characters. Six of them contain a digit: `OS2`,
  `T64`, `PS3`, `S40`, `S60`, `SY3`.
- Every short code is listed under some family. The partition is proved for
  the listed codes.
- A version made only of blanks has no underscore, so
  `"  ".split('_').join('.')` is `"  "`, which is not `''`, and it is returned
  unchanged (`FullVersionBlank`).

## Model

| member | source | states |
|---|---|---|
| RubyStrings.LowerChar | lib/device_detector/os.rb:33 | an ASCII upper-case letter becomes the letter 32 code points later; every other character is kept; the result is never an upper-case letter |
| RubyStrings.Downcase | lib/device_detector/os.rb:33 | `downcase` keeps the length, turns each ASCII upper-case letter into the letter 32 code points later, keeps every other character, and leaves no upper-case ASCII letter |
| RubyStrings.Fields | lib/device_detector/os.rb:24 | the pieces between separators: at least one piece, and no piece contains the separator |
| RubyStrings.DropTrailingEmpty | lib/device_detector/os.rb:24 | the result is a prefix of the input, it does not end in an empty piece, and only empty pieces were dropped |
| RubyStrings.Split | lib/device_detector/os.rb:24 | `split('_')` gives pieces without the separator, and the last piece is never empty |
| RubyStrings.Join | lib/device_detector/os.rb:24 | `join(sep)` of one or more pieces without `sep` is undone by cutting at `sep`: the pieces come back exactly |
| RubyStrings.FieldsWithoutSep | lib/device_detector/os.rb:24 | a string without the separator is a single piece |
| RubyStrings.FieldsCons | lib/device_detector/os.rb:24 | a piece without the separator, then the separator, is cut off as the first piece and the rest is cut as before |
| RubyStrings.Replace | lib/device_detector/os.rb:24 | each occurrence of the replaced character becomes the new one, every other character is kept, and none of the replaced character is left |
| RubyStrings.TrimTrailing | lib/device_detector/os.rb:24 | the result is a prefix, it does not end in the character, and only copies of that character were removed |
| RubyStrings.JoinFields | lib/device_detector/os.rb:24 | joining all pieces with `to` equals putting `to` in place of every separator |
| RubyStrings.FieldsSnoc | lib/device_detector/os.rb:24 | a separator at the end adds exactly one empty piece |
| RubyStrings.LastFieldNonEmpty | lib/device_detector/os.rb:24 | a string that does not end in the separator has a non-empty last piece |
| RubyStrings.SplitIsFieldsOfTrimmed | lib/device_detector/os.rb:24 | Ruby's `split` equals the pieces of the string without its trailing separators, or no pieces when nothing is left |
| RubyStrings.JoinSplit | lib/device_detector/os.rb:24 | `s.split('_').join('.')` equals `s` with trailing underscores removed and every other underscore replaced by a dot |
| Registry.OperatingSystems | lib/device_detector/os.rb:49-152 | OPERATING_SYSTEMS is a sequence of exactly 102 (short, long) rows, taken in source order from the hash literal |
| Registry.OsFamilies | lib/device_detector/os.rb:158-187 | OS_FAMILIES is a sequence of exactly 23 (family, codes) groups, taken in source order from the hash literal |
| Registry.DesktopOss | lib/device_detector/os.rb:42-46 | DESKTOP_OSS is a set of eight distinct family labels |
| Indices.IndexBy | lib/device_detector/os.rb:154-156 | the keys of the hash built by `h[key] = value` writes are exactly the keys written |
| Indices.IndexByValue | lib/device_detector/os.rb:154-156 | every value in the hash was written under its key by some pair |
| Indices.IndexByKeeps | lib/device_detector/os.rb:154-156 | when no later pair writes a different value under the same key, the hash keeps the value of that pair (no overwrite) |
| Indices.IndexByInverts | lib/device_detector/os.rb:154-156 | with pairwise distinct keys, every key maps to the value of its own pair |
| Indices.IndexBySize | lib/device_detector/os.rb:154-156 | with pairwise distinct keys no write is lost: the hash has one entry per pair |
| Indices.IndexByValues | lib/device_detector/os.rb:154-156 | every key's value was written under that key by some pair, for all keys at once |
| Indices.ReverseIndex | lib/device_detector/os.rb:154-156 | the keys of the hash built by `h[long.downcase] = short` are exactly the downcased long names, and each key holds the short code of a row with that name |
| Indices.DowncasedKeys | lib/device_detector/os.rb:155 | the keys written are exactly the rows' downcased long names |
| Indices.ReverseIndexSize | lib/device_detector/os.rb:154-156 | with pairwise distinct downcased long names the reverse index has one entry per row |
| Indices.ReverseIndexInverts | lib/device_detector/os.rb:154-156 | when the downcased long names are pairwise distinct, the reverse index maps each row's downcased long name to that row's short code |
| Indices.GroupIndexWrites | lib/device_detector/os.rb:190 | the inner `oss.each` loop writing `h[os] = family` for each code, one write after the other with the last write winning, leaves exactly the group's codes, each under its family |
| Indices.GroupIndexSnoc | lib/device_detector/os.rb:190 | one more code in a group is one more write `h[os] = family` |
| Indices.FamilyIndex | lib/device_detector/os.rb:189-191 | a code is a key exactly when some group lists it, and its value is the family of a group that lists it |
| Indices.FamilyIndexAt | lib/device_detector/os.rb:189-191 | when no code is listed twice, every listed code maps to the family of the group that lists it |
| Indices.BuildReverseIndex | lib/device_detector/os.rb:154-156 | the `each_with_object` loop builds exactly the reverse index |
| Indices.WriteGroup | lib/device_detector/os.rb:190 | the inner `each` loop adds exactly the writes of one group to the hash |
| Indices.BuildFamilyIndex | lib/device_detector/os.rb:189-191 | the nested `each_with_object`/`each` loops build exactly the family index |
| TableFacts.RowsFoundAgain | lib/device_detector/os.rb:50-151 | the independent lookups find every row again, by short code and by downcased long name; "UNK" is found nowhere |
| FamilyFacts.GroupsFoundAgain | lib/device_detector/os.rb:159-186 | the independent lookups find every group again, by label and by each code it lists; "UNK" is found nowhere |
| OsTables.Lookup | lib/device_detector/os.rb:34-38 | `hash[key]` is nil exactly when the key is absent, and the stored value otherwise |
| OsTables.OperatingSystemsHash | lib/device_detector/os.rb:49-152 | the hash literal OPERATING_SYSTEMS has 102 entries, one per row |
| OsTables.DowncasedOperatingSystems | lib/device_detector/os.rb:154-156 | DOWNCASED_OPERATING_SYSTEMS has 102 entries, so downcasing merges no two rows, and its keys are exactly the downcased long names |
| OsTables.FamilyToOs | lib/device_detector/os.rb:189-191 | a code is a key of FAMILY_TO_OS exactly when some group of OS_FAMILIES lists it, and its family is the label of a group listing it |
| OsTables.ShortCodesDistinct | lib/device_detector/os.rb:50-151 | no two rows of OPERATING_SYSTEMS share a short code, so the hash literal loses no row |
| OsTables.LongNamesDistinct | lib/device_detector/os.rb:50-151 | no two long names are equal once downcased |
| OsTables.GroupOfListedCode | lib/device_detector/os.rb:159-186 | each listed code leads back to the group that lists it |
| OsTables.FamiliesDisjoint | lib/device_detector/os.rb:159-186 | no short code is listed under two families |
| OsTables.FamilyLabelsDistinct | lib/device_detector/os.rb:159-186 | no family label opens two groups, so the hash literal loses no group |
| OsTables.DesktopLabelsAreFamilies | lib/device_detector/os.rb:42-46 | each of the eight desktop labels is the label of some group of OS_FAMILIES |
| OsTables.UnknownIsUnregistered | lib/device_detector/os.rb:36 | "UNK" is no row's short code, no key of OPERATING_SYSTEMS and no key of FAMILY_TO_OS |
| OsTables.LongNameOfRow | lib/device_detector/os.rb:34 | OPERATING_SYSTEMS maps each row's short code to that row's long name |
| OsTables.DowncasedInvertsTable | lib/device_detector/os.rb:154-156 | DOWNCASED_OPERATING_SYSTEMS maps each row's downcased long name to that row's short code |
| OsTables.FamilyOfListedCode | lib/device_detector/os.rb:189-191 | FAMILY_TO_OS maps each listed code to the family of its group |
| OsTables.DowncasedValueIsCode | lib/device_detector/os.rb:33-34 | every value of DOWNCASED_OPERATING_SYSTEMS is a key of OPERATING_SYSTEMS and is not "UNK" |
| Os.Canonicalize | lib/device_detector/os.rb:33-38 | the short code is "UNK" or a key of OPERATING_SYSTEMS; a recognised name becomes `OPERATING_SYSTEMS[short]`; with "UNK" the name passes through unchanged and the family is nil; the family is always `FAMILY_TO_OS[short]` |
| Os.CanonicalizeRow | lib/device_detector/os.rb:33-34 | any spelling whose downcased form is a row's downcased long name yields that row's short code, its long name as written, and its family |
| Os.CanonicalizeUnknown | lib/device_detector/os.rb:33-36 | the result is "UNK" exactly when there is no name or the name matches no long name in any letter case |
| Os.CanonicalizeIgnoresCase | lib/device_detector/os.rb:33 | spellings that downcase alike get the same short code and family, and the same record once recognised |
| Os.NoNameIsUnknown | lib/device_detector/os.rb:33-38 | a nil name gives `{ name: nil, short: 'UNK', family: nil }` |
| Os.IsDesktop | lib/device_detector/os.rb:19-21 | a desktop record has a family, and that family is the label of a group of OS_FAMILIES; a nil family is not desktop |
| Os.DesktopByFamilyGroup | lib/device_detector/os.rb:19-21 | a registered system is desktop exactly when the group listing its code has a desktop label |
| Os.UnknownIsNotDesktop | lib/device_detector/os.rb:19-21 | an unrecognised name has a nil family and is not desktop |
| Os.FullVersion | lib/device_detector/os.rb:23-26 | the version never contains '_' and is never ""; a nil raw version (`nil.to_s` is "") gives nil; otherwise it is nil exactly when the raw version is empty after its trailing underscores go, and else it is that string with '_' replaced by '.' |
| Memo.Cache.Fetch | lib/device_detector/os.rb:31 | `from_cache` returns the value the block computes for the user agent; a stored value is returned unchanged, and afterwards the store holds the value under the user agent and is otherwise as it was |
| Os.OsParser.Record | lib/device_detector/os.rb:30-40 | `os_info` is the canonicalisation of the extracted name, memoised under the user agent |
| Os.OsParser.Name | lib/device_detector/os.rb:7-9 | `name` is the record's name |
| Os.OsParser.ShortName | lib/device_detector/os.rb:11-13 | `short_name` is the record's short code, which is "UNK" or a key of OPERATING_SYSTEMS |
| Os.OsParser.Family | lib/device_detector/os.rb:15-17 | `family` is `FAMILY_TO_OS` at the record's short code |
| Os.OsParser.Desktop | lib/device_detector/os.rb:19-21 | `desktop?` is whether the record's family is in DESKTOP_OSS |
| OsExamples.WindowsInAnyCase | lib/device_detector/os.rb:140 | any spelling of "windows" in any letter case, such as "WINDOWS", resolves to `WIN`, "Windows", family "Windows" |
| OsExamples.UbuntuIsDesktop | lib/device_detector/os.rb:136 | Ubuntu resolves to `UBT`, family GNU/Linux, and is desktop |
| OsExamples.AndroidIsNotDesktop | lib/device_detector/os.rb:51 | Android resolves to `AND`, family Android, and is not desktop |
| OsExamples.FullVersionDotted | lib/device_detector/os.rb:24 | "10_15_7" becomes "10.15.7" |
| OsExamples.FullVersionTrailing | lib/device_detector/os.rb:24 | "10_" becomes "10" |
| OsExamples.FullVersionInner | lib/device_detector/os.rb:24 | "1__2" becomes "1..2" and "_1" becomes ".1" |
| OsExamples.FullVersionNil | lib/device_detector/os.rb:25 | a nil version, "" and "__" all give nil |
| OsExamples.FullVersionBlank | lib/device_detector/os.rb:24-25 | a version of two blanks is returned unchanged, not as nil |

## Left out

- `NameExtractor` and the rule file (lib/device_detector/os.rb:32, 193-195): they do regular-expression matching and YAML loading in code that is not part of this model. The extracted name is an input: the `Option<string>` argument of `Canonicalize`, and the `extract` function of `OsParser`.
- `Parser#full_version`, reached through `super` (lib/device_detector/os.rb:24), is not part of this model. Its result is the `Option<string>` argument of `FullVersion`.
- `from_cache` (lib/device_detector/os.rb:31) lives in `Parser`, which is not part of this model. It is modelled as `Memo.Cache`, a map from user agent to value whose block is fixed when the cache is made. The other parts of its key, 'os_info' and the class name, are the same for every entry. Storage limits, eviction, locking and concurrent access are not modelled.
- RubyStrings.Downcase: folds ASCII letters only. Ruby's `downcase` also folds non-ASCII capitals. The tables hold one non-ASCII character, the lower-case 'á' of 'Caixa Mágica' (line 61). Nothing is claimed for input names with non-ASCII capitals.
- RubyStrings.Split: covers a one-character separator other than a space, with no limit, which is the only use in the parser.
- `require 'set'`, `.freeze` and the Set and Hash runtime: the tables are Dafny functions, maps and a set. A Ruby hash literal iterates in insertion order. The model keeps that order as a sequence, which is faithful because the keys are shown to be distinct.
