/**
 * The query builder of the COVID-19 dashboard SDK (src/lib.rs): an object that
 * accumulates filters after checking each one against the closed token lists
 * of `Structures`.
 *
 * `set_filter(name, value)` runs three checks in order and returns at the
 * first that fails:
 *   1. the name must be one of `Filters::to_vec()`  (else `InvalidFilter`);
 *   2. an `areaType` value must be one of `AreaType::to_vec()`
 *      (else `InvalidFilterValue`);
 *   3. a `date` value is REJECTED when it matches the date pattern
 *      (`InvalidFilterValue`). The check is the wrong way round in the source;
 *      this module models it as written (`Check`), and states the evidently
 *      intended check beside it (`IntendedCheck`).
 * Only when all three pass is the pair inserted into the `filters` map.
 */
module Lib {
  import Structures

  /** The base URL of the dashboard's data service. */
  const Endpoint: string := "https://api.coronavirus.data.gov.uk/v1/data"

  /** The error kinds `set_filter` reports; src/lib.rs declares its own two-kind enum. */
  datatype ApiErrorKind = InvalidFilter | InvalidFilterValue

  /** An error: its kind and the message shown to the caller. */
  datatype ApiError = ApiError(kind: ApiErrorKind, msg: string)

  /** What `set_filter` returns: `Ok(())`, or the error it rejected the filter with. */
  datatype Outcome = Ok | Err(error: ApiError)

  const InvalidFilterPrefix: string := "Invalid filter name provided!\nNeeds to be one of: "
  const InvalidAreaTypePrefix: string := "Invalid area type provided!\nNeeds to be one of: "
  const InvalidDateMessage: string := "Invalid date provided!\nNeeds to be in the format YYYY-MM-DD"

  /** `{:?}` of a string, for strings with nothing to escape: the text in double quotes. */
  function Quoted(s: string): string
  {
    "\"" + s + "\""
  }

  // ---------------------------------------------------------------------------
  // The date pattern ^\d{4}\-(0?[1-9]|1[012])\-(0?[1-9]|[12][0-9]|3[01])$
  // ---------------------------------------------------------------------------

  /**
   * An ASCII decimal digit. The `regex` crate matches `\d` against every
   * Unicode decimal digit by default; accepting only '0'..'9' here is a
   * deliberate approximation.
   */
  predicate IsDigit(c: char)
  {
    '0' <= c <= '9'
  }

  predicate AllDigits(s: string)
  {
    forall i :: 0 <= i < |s| ==> IsDigit(s[i])
  }

  /** The number a string of decimal digits denotes. */
  function DecimalValue(s: string): nat
    requires AllDigits(s)
  {
    if s == [] then 0 else DecimalValue(s[..|s| - 1]) * 10 + (s[|s| - 1] as int - '0' as int)
  }

  /** `(0?[1-9]|1[012])`, matched against the whole of `m`. */
  predicate IsMonthToken(m: string)
  {
    || (|m| == 1 && '1' <= m[0] <= '9')
    || (|m| == 2 && m[0] == '0' && '1' <= m[1] <= '9')
    || (|m| == 2 && m[0] == '1' && '0' <= m[1] <= '2')
  }

  /** `(0?[1-9]|[12][0-9]|3[01])`, matched against the whole of `d`. */
  predicate IsDayToken(d: string)
  {
    || (|d| == 1 && '1' <= d[0] <= '9')
    || (|d| == 2 && d[0] == '0' && '1' <= d[1] <= '9')
    || (|d| == 2 && '1' <= d[0] <= '2' && IsDigit(d[1]))
    || (|d| == 2 && d[0] == '3' && '0' <= d[1] <= '1')
  }

  /**
   * The whole pattern, anchored at both ends: four digits, a dash, a month,
   * a dash, a day, and nothing else; `k` is the position of the second dash.
   */
  predicate IsDate(s: string)
    ensures IsDate(s) ==> 8 <= |s| <= 10
  {
    && |s| >= 5
    && AllDigits(s[..4])
    && s[4] == '-'
    && exists k :: 5 < k < |s| && s[k] == '-' && IsMonthToken(s[5..k]) && IsDayToken(s[k + 1..])
  }

  /** A month token is exactly one or two digits denoting 1 to 12. */
  lemma MonthTokenIsMonthNumber(m: string)
    ensures IsMonthToken(m) <==> 1 <= |m| <= 2 && AllDigits(m) && 1 <= DecimalValue(m) <= 12
  {
    if |m| == 2 && AllDigits(m) {
      assert m[..1][..0] == [];
      assert DecimalValue(m) == (m[0] as int - '0' as int) * 10 + (m[1] as int - '0' as int);
    }
  }

  /** A day token is exactly one or two digits denoting 1 to 31. */
  lemma DayTokenIsDayNumber(d: string)
    ensures IsDayToken(d) <==> 1 <= |d| <= 2 && AllDigits(d) && 1 <= DecimalValue(d) <= 31
  {
  }

  /** Any four-digit year, month token and day token, joined by dashes, match the pattern. */
  lemma DateFromParts(year: string, month: string, day: string)
    requires |year| == 4 && AllDigits(year)
    requires IsMonthToken(month) && IsDayToken(day)
    ensures IsDate(year + "-" + month + "-" + day)
  {
    var s := year + "-" + month + "-" + day;
    var k := 5 + |month|;
    assert s == (year + "-") + (month + "-" + day);
    assert s[..4] == year;
    assert s[5..] == month + "-" + day;
    assert s[5..k] == s[5..][..|month|] == month;
    assert s[k + 1..] == s[5..][|month| + 1..] == day;
  }

  // ---------------------------------------------------------------------------
  // set_filter, as a function of its inputs
  // ---------------------------------------------------------------------------

  /** The outcome of `set_filter(name, value)`: its three checks, in the source's order. */
  function Check(name: string, value: string): Outcome
  {
    if name !in Structures.Filters.Names() then
      Err(ApiError(InvalidFilter, InvalidFilterPrefix + Structures.Joined(Structures.Filters.Names(), "")))
    else if name == "areaType" && value !in Structures.AreaType.Names() then
      Err(ApiError(InvalidFilterValue, InvalidAreaTypePrefix + Quoted(Structures.Joined(Structures.AreaType.Names(), ""))))
    else if name == "date" && IsDate(value) then
      Err(ApiError(InvalidFilterValue, InvalidDateMessage))
    else
      Ok
  }

  /**
   * What `set_filter` decides, in terms of the literal tokens: an unknown name
   * is refused with the filter listing, an `areaType` is accepted exactly when
   * it is one of the six area types, a `date` exactly when it does NOT match
   * the date pattern, and `areaName` and `areaCode` take any value.
   */
  lemma CheckOutcomes(name: string, value: string)
    ensures (Check(name, value).Err? && Check(name, value).error.kind == InvalidFilter) <==>
              name !in {"areaType", "areaName", "areaCode", "date"}
    ensures Check(name, value).Err? && Check(name, value).error.kind == InvalidFilter ==>
              Check(name, value).error.msg == InvalidFilterPrefix + "areaTypeareaNameareaCodedate"
    ensures name == "areaType" ==>
              (Check(name, value).Ok? <==> value in {"overview", "nation", "region", "nhsRegion", "utla", "ltla"})
    ensures name == "date" ==> (Check(name, value).Ok? <==> !IsDate(value))
    ensures name == "areaName" || name == "areaCode" ==> Check(name, value).Ok?
    ensures Check(name, value).Err? && Check(name, value).error.kind == InvalidFilterValue ==>
              name == "areaType" || name == "date"
  {
    Structures.Filters.NamesListed();
    Structures.AreaType.NamesListed();
    Structures.Filters.ListingText();
  }

  /** The filter map after `set_filter(name, value)`: the pair inserted when the checks pass. */
  function Apply(filters: map<string, string>, name: string, value: string): map<string, string>
  {
    if Check(name, value).Ok? then filters[name := value] else filters
  }

  /** The invariant of the filter map: every key is a filter name and an `areaType` value is an area type. */
  predicate WellFormed(filters: map<string, string>)
  {
    && (forall k :: k in filters ==> k in Structures.Filters.Names())
    && ("areaType" in filters ==> filters["areaType"] in Structures.AreaType.Names())
  }

  /** A successful call maps `name` to `value` and keeps every other entry; a failed call changes nothing. */
  lemma ApplyUpdatesOnlyName(filters: map<string, string>, name: string, value: string)
    ensures Check(name, value).Ok? ==> name in Apply(filters, name, value) && Apply(filters, name, value)[name] == value
    ensures Check(name, value).Err? ==> Apply(filters, name, value) == filters
    ensures forall k :: k != name ==>
              (k in Apply(filters, name, value) <==> k in filters) &&
              (k in filters ==> Apply(filters, name, value)[k] == filters[k])
  {
  }

  /** Repeating a call leaves the map as one call left it. */
  lemma ApplyIdempotent(filters: map<string, string>, name: string, value: string)
    ensures Apply(Apply(filters, name, value), name, value) == Apply(filters, name, value)
  {
  }

  /** `set_filter` keeps the filter map well formed. */
  lemma ApplyKeepsWellFormed(filters: map<string, string>, name: string, value: string)
    ensures WellFormed(filters) ==> WellFormed(Apply(filters, name, value))
  {
  }

  /** The filter map after a sequence of `set_filter` calls, made in order. */
  function Replay(filters: map<string, string>, calls: seq<(string, string)>): map<string, string>
    decreases |calls|
  {
    if calls == [] then filters else Replay(Apply(filters, calls[0].0, calls[0].1), calls[1..])
  }

  /** Any sequence of `set_filter` calls keeps the filter map well formed. */
  lemma {:induction false} ReplayKeepsWellFormed(filters: map<string, string>, calls: seq<(string, string)>)
    requires WellFormed(filters)
    ensures WellFormed(Replay(filters, calls))
    decreases |calls|
  {
    if calls != [] {
      ApplyKeepsWellFormed(filters, calls[0].0, calls[0].1);
      ReplayKeepsWellFormed(Apply(filters, calls[0].0, calls[0].1), calls[1..]);
    }
  }

  /** From the default (empty) map, any sequence of `set_filter` calls leaves only filter names as keys and only area types under `areaType`. */
  lemma FromDefaultWellFormed(calls: seq<(string, string)>)
    ensures forall k :: k in Replay(map[], calls) ==> k in {"areaType", "areaName", "areaCode", "date"}
    ensures "areaType" in Replay(map[], calls) ==>
              Replay(map[], calls)["areaType"] in {"overview", "nation", "region", "nhsRegion", "utla", "ltla"}
  {
    ReplayKeepsWellFormed(map[], calls);
    Structures.Filters.NamesListed();
    Structures.AreaType.NamesListed();
  }

  // ---------------------------------------------------------------------------
  // The date check as evidently intended
  // ---------------------------------------------------------------------------

  /** `set_filter`'s checks with the date test the right way round: a date is rejected when it does NOT match. */
  function IntendedCheck(name: string, value: string): (r: Outcome)
    ensures name == "date" ==> (r.Ok? <==> IsDate(value))
    ensures name != "date" ==> r == Check(name, value)
  {
    if name == "date" then
      if IsDate(value) then Ok else Err(ApiError(InvalidFilterValue, InvalidDateMessage))
    else
      Check(name, value)
  }

  /** The filter map after a call under the corrected check. */
  function IntendedApply(filters: map<string, string>, name: string, value: string): map<string, string>
  {
    if IntendedCheck(name, value).Ok? then filters[name := value] else filters
  }

  /** Under the corrected check the map stays well formed and a stored `date` always matches the date pattern. */
  lemma IntendedApplyKeepsDates(filters: map<string, string>, name: string, value: string)
    requires WellFormed(filters) && ("date" in filters ==> IsDate(filters["date"]))
    ensures WellFormed(IntendedApply(filters, name, value))
    ensures "date" in IntendedApply(filters, name, value) ==> IsDate(IntendedApply(filters, name, value)["date"])
  {
    Structures.Filters.NamesListed();
  }

  /** `2020-09-12` matches the date pattern; `yesterday` does not. */
  lemma SampleDates()
    ensures IsDate("2020-09-12")
    ensures !IsDate("yesterday")
  {
    DateFromParts("2020", "09", "12");
    assert "2020" + "-" + "09" + "-" + "12" == "2020-09-12";
    assert !IsDigit("yesterday"[0]);
  }

  /** As written, a well-formed date is refused and a value that is no date at all is accepted. */
  lemma DateCheckIsInverted()
    ensures Check("date", "2020-09-12").Err? && IntendedCheck("date", "2020-09-12").Ok?
    ensures Check("date", "yesterday").Ok? && IntendedCheck("date", "yesterday").Err?
  {
    SampleDates();
    Structures.Filters.NamesListed();
  }

  // ---------------------------------------------------------------------------
  // The builder object
  // ---------------------------------------------------------------------------

  /** `Cov19api`: the filters chosen so far, and the structure fields (which no operation here writes). */
  class Cov19api {
    var filters: map<string, string>
    var structure: map<string, string>

    /** Every key of `filters` is a filter name, an `areaType` value is an area type, and every key of `structure` is a structure field. */
    ghost predicate Valid()
      reads this
    {
      WellFormed(filters) && forall k :: k in structure ==> k in Structures.Structures.Names()
    }

    /** `Cov19api::default()`: no filters and no structure fields. */
    constructor ()
      ensures filters == map[] && structure == map[]
      ensures Valid()
    {
      filters := map[];
      structure := map[];
    }

    /** `Cov19api::set_filter`. */
    method SetFilter(filterName: string, filterValue: string) returns (r: Outcome)
      modifies this`filters
      ensures r == Check(filterName, filterValue)
      ensures filters == Apply(old(filters), filterName, filterValue)
      ensures structure == old(structure)
      ensures old(Valid()) ==> Valid()
    {
      ApplyKeepsWellFormed(filters, filterName, filterValue);
      var filterNames := Structures.Filters.ToVec();
      if filterName !in filterNames {
        var listing := Structures.Filters.ToString();
        return Err(ApiError(InvalidFilter, InvalidFilterPrefix + listing));
      }
      if filterName == "areaType" {
        var areaTypes := Structures.AreaType.ToVec();
        if filterValue !in areaTypes {
          var listing := Structures.AreaType.ToString();
          return Err(ApiError(InvalidFilterValue, InvalidAreaTypePrefix + Quoted(listing)));
        }
      }
      if filterName == "date" && IsDate(filterValue) {
        return Err(ApiError(InvalidFilterValue, InvalidDateMessage));
      }
      filters := filters[filterName := filterValue];
      return Ok;
    }
  }
}
