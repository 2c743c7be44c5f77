# UK COVID-19 dashboard SDK: token lists and filter validation

A Dafny model of the core of the Rust SDK for the UK coronavirus dashboard
API (`https://api.coronavirus.data.gov.uk/v1/data`). The model covers two files:

- `src/structures.rs` (module `Structures`): the three closed token lists.
  These are the four filter names (`Filters`), the six area types (`AreaType`) and the
  33 metric fields a query may request (`Structures`). Each has its listing
  helpers: `to_vec` pushes each variant's `{:?}` text onto a vector, in
  declaration order, and `to_string` appends that text to a string. For
  `Filters` and `AreaType` nothing follows each name; for `Structures` a
  newline does. The module also has the structures error taxonomy
  (`InvalidFilter`, `InvalidFilterValue`, `InvalidStructure`).
- `src/lib.rs` (module `Lib`): the query builder `Cov19api`, with its
  `filters` and `structure` maps, its `Default` constructor, and
  `set_filter`. `set_filter` checks a `(name, value)` pair in three steps and
  returns at the first step that fails:
  1. the name must be a filter name, otherwise `InvalidFilter`;
  2. an `areaType` value must be an area type, otherwise `InvalidFilterValue`;
  3. a `date` value is refused with `InvalidFilterValue` when it MATCHES
     `^\d{4}\-(0?[1-9]|1[012])\-(0?[1-9]|[12][0-9]|3[01])$`.

  Only when all three steps pass does it insert the pair into `filters`.

strum's `EnumIter` order is modelled by `Index`/`FromIndex`/`Iter()` on each
enumeration, and derived `Debug` by `Debug()`. The two listing loops are
written once, generically, as `PushDebugNames` and `AppendDebugNames`. Each
one is proved against a specification function: `DebugNames` for the loop
that pushes names, `Joined` for the loop that appends them.
`set_filter` is the method `Cov19api.SetFilter`. It changes only `filters`.
It is proved equal to two spec functions:
`Check` gives the outcome and `Apply` the new map. The lemmas about those two
functions state what the source promises: the error taxonomy, the
accepted values, the frame, idempotence, and the map invariant after any
sequence of calls.

The date check in the source is the wrong way round: it refuses a value that
is a well-formed date. The model keeps the code as written in `Check` and in
`SetFilter`. The evidently intended check is `IntendedCheck` (see Findings).

## Model

| member | source | states |
|---|---|---|
| Structures.PushDebugNames | src/structures.rs:49-55 | the `to_vec` loop returns the `{:?}` text of every variant, in iteration order, and nothing else |
| Structures.AppendDebugNames | src/structures.rs:230-236 | the `to_string` loop returns each variant's text followed by the suffix, in iteration order |
| Structures.JoinedSnoc | src/structures.rs:230-236 | appending one more name to the loop's string extends it by exactly that name and the suffix |
| Structures.JoinedLength | src/structures.rs:230-236 | a listing's length is the sum of the name lengths plus one suffix per name |
| Structures.Filters.IterListsEachOnce | src/structures.rs:40-45 | `Filters::iter()` yields four items, each variant exactly once, at its declaration position |
| Structures.Filters.NamesListed | src/structures.rs:40-55 | `Filters::to_vec()` is exactly `["areaType", "areaName", "areaCode", "date"]`, has no duplicates, and contains every variant's text |
| Structures.Filters.ToVec | src/structures.rs:49-55 | `Filters::to_vec()` returns the variants' texts in declaration order |
| Structures.Filters.ListingText | src/structures.rs:57-63 | `Filters::to_string()` is exactly `"areaTypeareaNameareaCodedate"` |
| Structures.Filters.ToString | src/structures.rs:57-63 | `Filters::to_string()` is the plain concatenation of the `to_vec` entries, with no separator, and its length is the sum of their lengths |
| Structures.AreaType.IterListsEachOnce | src/structures.rs:90-97 | `AreaType::iter()` yields six items, each variant exactly once, at its declaration position |
| Structures.AreaType.NamesListed | src/structures.rs:90-107 | `AreaType::to_vec()` is exactly `overview, nation, region, nhsRegion, utla, ltla` in that order, has no duplicates, and contains every variant's text |
| Structures.AreaType.ToVec | src/structures.rs:101-107 | `AreaType::to_vec()` returns the variants' texts in declaration order |
| Structures.AreaType.ToString | src/structures.rs:109-115 | `AreaType::to_string()` is the plain concatenation of the `to_vec` entries, with no separator, and its length is the sum of their lengths |
| Structures.Structures.IterListsEachOnce | src/structures.rs:177-218 | `Structures::iter()` yields 33 items, each variant exactly once, at its declaration position |
| Structures.Structures.NameIndexInvertsDebug | src/structures.rs:177-218 | a field's name leads back to the field, so no two of the 33 fields have the same name |
| Structures.Structures.NamesListed | src/structures.rs:177-228 | `Structures::to_vec()` has 33 pairwise distinct entries, and `cumCasesBySpecimenDate`, which is described in the documentation (line 149) but is not a variant, is not among them |
| Structures.Structures.NamesCoverVariants | src/structures.rs:177-228 | every field's name is listed, at the field's declaration position |
| Structures.Structures.ToVec | src/structures.rs:222-228 | `Structures::to_vec()` has 33 distinct entries, each field's name at its own position, no `cumCasesBySpecimenDate`, and the four filter names as its first four entries |
| Structures.Structures.ToString | src/structures.rs:230-236 | `Structures::to_string()` is each entry followed by `"\n"`, and its length is the sum of the name lengths plus 33 |
| Structures.FiltersArePrefix | src/structures.rs:178-181 | `Filters::to_vec()` is a prefix of `Structures::to_vec()` |
| Lib.IsDate | src/lib.rs:80-81 | a string matching the date pattern is 8 to 10 characters long |
| Lib.MonthTokenIsMonthNumber | src/lib.rs:80-81 | the month alternative `(0?[1-9]\|1[012])` matches exactly the one- or two-digit strings denoting 1 to 12 |
| Lib.DayTokenIsDayNumber | src/lib.rs:80-81 | the day alternative `(0?[1-9]\|[12][0-9]\|3[01])` matches exactly the one- or two-digit strings denoting 1 to 31 |
| Lib.DateFromParts | src/lib.rs:80-81 | any four-digit year, month token and day token joined by dashes match the pattern |
| Lib.SampleDates | src/lib.rs:80-81 | `2020-09-12` matches the pattern and `yesterday` does not |
| Lib.CheckOutcomes | src/lib.rs:58-91 | an unknown name fails with `InvalidFilter` and the message `Invalid filter name provided!\nNeeds to be one of: areaTypeareaNameareaCodedate`, whatever the value; an `areaType` succeeds exactly for the six area types; a `date` succeeds exactly when it does NOT match the pattern; `areaName` and `areaCode` accept every value; `InvalidFilterValue` arises only for `areaType` and `date` |
| Lib.ApplyUpdatesOnlyName | src/lib.rs:90 | on success `filters[name] == value` and every other entry is unchanged; on failure the map is unchanged |
| Lib.ApplyIdempotent | src/lib.rs:90 | repeating a call leaves the map as one call left it |
| Lib.ApplyKeepsWellFormed | src/lib.rs:58-90 | a call keeps every key a filter name and an `areaType` value an area type |
| Lib.ReplayKeepsWellFormed | src/lib.rs:58-90 | any sequence of calls keeps that invariant |
| Lib.FromDefaultWellFormed | src/lib.rs:46-50 | from the default empty map, after any sequence of calls, every key is one of the four filter names and any `areaType` value is one of the six area types |
| Lib.IntendedCheck | src/lib.rs:82-89 | the corrected check: a `date` succeeds exactly when it matches the pattern; every other name behaves as in `set_filter` |
| Lib.IntendedApplyKeepsDates | src/lib.rs:82-90 | under the corrected check the filter map stays well formed and a stored `date` always matches the pattern |
| Lib.DateCheckIsInverted | src/lib.rs:82 | as written, `2020-09-12` is refused and `yesterday` accepted; the corrected check does the opposite |
| Lib.Cov19api.constructor | src/lib.rs:46-50 | `Cov19api::default()` has empty `filters` and `structure` maps and satisfies the invariant |
| Lib.Cov19api.SetFilter | src/lib.rs:53-92 | `set_filter` returns the outcome `Check` describes, leaves `filters` as `Apply` describes, never changes `structure`, and keeps the invariant |

## Left out

- `main` (src/lib.rs:100-108) is an HTTP GET over the network. It is not modelled.
- `test()` and the `it_works` unit test (src/lib.rs:95-116) are empty or trivial. They are not modelled.
- The `println!` diagnostics in `set_filter` are logging only. They are not modelled.
- The `Display` implementations of both `ApiError` types format through `Debug`. They are not modelled.
- `Box<dyn Error>` is modelled as the concrete `ApiError` value that `set_filter` boxes.
- `HashMap` is modelled as a Dafny `map`. Nothing in the modelled code iterates over it, so its order does not arise.
- The date regex is the hand-written predicate `IsDate`, not the `regex` crate. It accepts only ASCII digits, whereas the crate's `\d` matches any Unicode decimal digit. Regex compilation and its `unwrap` are not modelled.
- Lib.Quoted: `{:?}` applied to the area-type listing is modelled as wrapping the text in double quotes. Escaping is not modelled, because the listing holds only ASCII letters and nothing in it needs escaping.
- Lib.CheckOutcomes: the area-type and date message texts appear only in `Check` and `SetFilter`; no lemma states them.
- Structures.AreaType.ToString: the result is stated as `Joined` of the listing, not as the literal `"overviewnationregionnhsRegionutlaltla"`, because that proof sits at the solver's resource limit. The `Filters` listing is stated as a literal by Structures.Filters.ListingText.
- Structures.Structures.NamesListed: the 33-name listing is not written out as one literal equality, because that proof exceeds the solver's resource limit. NamesCoverVariants and `Debug()` give each position's name instead.
- `field_descriptions` / `field_description` are plain string constants (`FieldDescriptions`, `FieldDescription`). No property is stated about them.
- The doc comments of `Filters::to_string` and `AreaType::to_string` say "on separate lines", but the code appends no separator. The model follows the code.
- URL serialisation, `set_structure`, `clear` and `send_request` belong to the SDK's wider design but do not appear in src/lib.rs. That code is not part of this model. The `structure` map is never written.

## Findings

| source | as written | input that shows it | evidently intended | confidence | as-written member | corrected member |
|---|---|---|---|---|---|---|
| src/lib.rs:82 | `set_filter("date", v)` fails with `InvalidFilterValue` when `v` matches the date pattern and succeeds when it does not | `"2020-09-12"` is refused; `"yesterday"` is accepted | refuse `v` when it does not match the pattern | high; not executed | Lib.DateCheckIsInverted | Lib.IntendedCheck |

`Cov19api.SetFilter`, `Check` and `Apply` model the code as written.
`IntendedCheck` is the corrected definition, and its contract states the
intended property. `IntendedApply` applies it, and `IntendedApplyKeepsDates`
proves the invariant the correction buys: a stored `date` always matches the
pattern. As written, `Apply(map[], "date", "yesterday")` stores `yesterday`.
