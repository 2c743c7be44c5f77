/**
 * The closed token lists of the COVID-19 dashboard SDK (src/structures.rs):
 * the four filter names, the six area types and the 33 metric fields a query
 * may ask for, each with its listing helpers, and the structures module's
 * error taxonomy.
 *
 * In the source every enum derives `Debug` and strum's `EnumIter`: `iter()`
 * yields the variants in declaration order, and `format!("{:?}", v)` prints a
 * variant as its identifier. Here `Iter()` is that order and `Debug()` that
 * text. The `to_vec` helpers push each variant's text onto a vector and the
 * `to_string` helpers append it (with a suffix) to a string; both loops are
 * written once, generically, as `PushDebugNames` and `AppendDebugNames`.
 */
module Structures {

  /** The error kinds of the structures module. */
  datatype ApiErrorKind = InvalidFilter | InvalidFilterValue | InvalidStructure

  /** An error: its kind and a message for the caller. */
  datatype ApiError = ApiError(kind: ApiErrorKind, msg: string)

  // ---------------------------------------------------------------------------
  // Listings and their concatenation
  // ---------------------------------------------------------------------------

  /** The text of each item in turn: the vector a `to_vec` loop builds. */
  function DebugNames<T>(items: seq<T>, debug: T -> string): seq<string>
  {
    seq(|items|, i requires 0 <= i < |items| => debug(items[i]))
  }

  /** Each part followed by `suffix`, in order: the string a `to_string` loop builds. */
  function Joined(parts: seq<string>, suffix: string): string
  {
    if parts == [] then "" else parts[0] + suffix + Joined(parts[1..], suffix)
  }

  /** The sum of the lengths of the parts. */
  function TotalLength(parts: seq<string>): nat
  {
    if parts == [] then 0 else |parts[0]| + TotalLength(parts[1..])
  }

  /** No entry occurs twice. */
  predicate Distinct(s: seq<string>)
  {
    forall i, j :: 0 <= i < j < |s| ==> s[i] != s[j]
  }

  /** Appending one more part extends the joined string by that part and the suffix. */
  lemma {:induction false} JoinedSnoc(parts: seq<string>, last: string, suffix: string)
    ensures Joined(parts + [last], suffix) == Joined(parts, suffix) + last + suffix
  {
    if parts == [] {
      assert [] + [last] == [last];
      assert Joined([last], suffix) == last + suffix + Joined([], suffix);
    } else {
      assert (parts + [last])[1..] == parts[1..] + [last];
      JoinedSnoc(parts[1..], last, suffix);
    }
  }

  /** The joined string is as long as its parts together plus one suffix per part. */
  lemma {:induction false} JoinedLength(parts: seq<string>, suffix: string)
    ensures |Joined(parts, suffix)| == TotalLength(parts) + |parts| * |suffix|
  {
    if parts != [] {
      JoinedLength(parts[1..], suffix);
      assert |parts| * |suffix| == |suffix| + (|parts| - 1) * |suffix|;
    }
  }

  /** The `to_vec` loop: push the text of every item, in order. */
  method PushDebugNames<T>(items: seq<T>, debug: T -> string) returns (v: seq<string>)
    ensures v == DebugNames(items, debug)
  {
    v := [];
    for i := 0 to |items|
      invariant v == DebugNames(items[..i], debug)
    {
      v := v + [debug(items[i])];
    }
  }

  /** The `to_string` loop: append the text of every item followed by `suffix`, in order. */
  method AppendDebugNames<T>(items: seq<T>, debug: T -> string, suffix: string) returns (s: string)
    ensures s == Joined(DebugNames(items, debug), suffix)
  {
    s := "";
    for i := 0 to |items|
      invariant s == Joined(DebugNames(items[..i], debug), suffix)
    {
      assert DebugNames(items[..i + 1], debug) == DebugNames(items[..i], debug) + [debug(items[i])];
      JoinedSnoc(DebugNames(items[..i], debug), debug(items[i]), suffix);
      s := s + debug(items[i]) + suffix;
    }
    assert items[..|items|] == items;
  }

  // ---------------------------------------------------------------------------
  // Filters: the names a filter may have
  // ---------------------------------------------------------------------------

  /** The valid filter fields. */
  datatype Filters
    = areaType
    | areaName
    | areaCode
    | date
  {
    /** The variant's `{:?}` text: its identifier. */
    function Debug(): string
    {
      match this
        case areaType => "areaType"
        case areaName => "areaName"
        case areaCode => "areaCode"
        case date => "date"
    }

    /** The number of variants. */
    static const Count: nat := 4

    /** The variant's position in declaration order. */
    function Index(): (k: nat)
      ensures k < Count
    {
      match this
        case areaType => 0
        case areaName => 1
        case areaCode => 2
        case date => 3
    }

    /** The variant at position `i` in declaration order: what strum's iterator yields at step `i`. */
    static function FromIndex(i: nat): (f: Filters)
      requires i < Count
    {
      match i
        case 0 => Filters.areaType
        case 1 => Filters.areaName
        case 2 => Filters.areaCode
        case 3 => Filters.date
    }

    /** Every variant, in declaration order: the sequence `iter()` walks. */
    static function Iter(): seq<Filters>
    {
      seq(Count, i requires 0 <= i < Count => FromIndex(i))
    }

    /** `iter()` yields every variant exactly once: at its own position. */
    static lemma IterListsEachOnce()
      ensures |Iter()| == Count
      ensures forall f: Filters :: Iter()[f.Index()] == f
      ensures forall i, j :: 0 <= i < j < |Iter()| ==> Iter()[i] != Iter()[j]
    {
    }

    /** The listing `to_vec` returns. */
    static function Names(): seq<string>
    {
      DebugNames(Iter(), (f: Filters) => f.Debug())
    }

    /** The listing is the four filter names in declaration order, each once, and it names every variant. */
    static lemma NamesListed()
      ensures Names() == ["areaType", "areaName", "areaCode", "date"]
      ensures Distinct(Names())
      ensures forall f: Filters :: f.Debug() in Names()
    {
    }

    /** `Filters::to_vec`. */
    static method ToVec() returns (v: seq<string>)
      ensures v == Names()
    {
      v := PushDebugNames(Iter(), (f: Filters) => f.Debug());
    }

    /** The text `Filters::to_string()` produces: the four names run together. */
    static lemma ListingText()
      ensures Joined(Names(), "") == "areaTypeareaNameareaCodedate"
    {
      NamesListed();
      var n := ["areaType", "areaName", "areaCode", "date"];
      assert Joined(n[3..], "") == "date" + "" + Joined([], "");
      assert Joined(n[2..], "") == "areaCode" + "" + "date";
      assert Joined(n[1..], "") == "areaName" + "" + "areaCodedate";
      assert Joined(n, "") == "areaType" + "" + "areaNameareaCodedate";
    }

    /** `Filters::to_string`. */
    static method ToString() returns (s: string)
      ensures s == Joined(Names(), "")
      ensures |s| == TotalLength(Names())
    {
      s := AppendDebugNames(Iter(), (f: Filters) => f.Debug(), "");
      JoinedLength(Names(), "");
    }

    /** `Filters::field_descriptions`: documentation text, one paragraph per filter. */
    static const FieldDescriptions: string :=
      "\n areaType - Area type as string\n" +
      "\n areaName - Area name as string\n" +
      "\n areaCode - Area Code as string\n" +
      "\n date - Date as string [YYYY-MM-DD]"
  }

  // ---------------------------------------------------------------------------
  // AreaType: the values the areaType filter accepts
  // ---------------------------------------------------------------------------

  /** The valid area types. */
  datatype AreaType
    = overview
    | nation
    | region
    | nhsRegion
    | utla
    | ltla
  {
    /** The variant's `{:?}` text: its identifier. */
    function Debug(): string
    {
      match this
        case overview => "overview"
        case nation => "nation"
        case region => "region"
        case nhsRegion => "nhsRegion"
        case utla => "utla"
        case ltla => "ltla"
    }

    /** The number of variants. */
    static const Count: nat := 6

    /** The variant's position in declaration order. */
    function Index(): (k: nat)
      ensures k < Count
    {
      match this
        case overview => 0
        case nation => 1
        case region => 2
        case nhsRegion => 3
        case utla => 4
        case ltla => 5
    }

    /** The variant at position `i` in declaration order: what strum's iterator yields at step `i`. */
    static function FromIndex(i: nat): (a: AreaType)
      requires i < Count
    {
      match i
        case 0 => AreaType.overview
        case 1 => AreaType.nation
        case 2 => AreaType.region
        case 3 => AreaType.nhsRegion
        case 4 => AreaType.utla
        case 5 => AreaType.ltla
    }

    /** Every variant, in declaration order: the sequence `iter()` walks. */
    static function Iter(): seq<AreaType>
    {
      seq(Count, i requires 0 <= i < Count => FromIndex(i))
    }

    /** `iter()` yields every variant exactly once: at its own position. */
    static lemma IterListsEachOnce()
      ensures |Iter()| == Count
      ensures forall a: AreaType :: Iter()[a.Index()] == a
      ensures forall i, j :: 0 <= i < j < |Iter()| ==> Iter()[i] != Iter()[j]
    {
    }

    /** The listing `to_vec` returns. */
    static function Names(): seq<string>
    {
      DebugNames(Iter(), (a: AreaType) => a.Debug())
    }

    /** The listing is the six area types in declaration order, each once, and it names every variant. */
    static lemma NamesListed()
      ensures Names() == ["overview", "nation", "region", "nhsRegion", "utla", "ltla"]
      ensures Distinct(Names())
      ensures forall a: AreaType :: a.Debug() in Names()
    {
    }

    /** `AreaType::to_vec`. */
    static method ToVec() returns (v: seq<string>)
      ensures v == Names()
    {
      v := PushDebugNames(Iter(), (a: AreaType) => a.Debug());
    }

    /** `AreaType::to_string`. */
    static method ToString() returns (s: string)
      ensures s == Joined(Names(), "")
      ensures |s| == TotalLength(Names())
    {
      s := AppendDebugNames(Iter(), (a: AreaType) => a.Debug(), "");
      JoinedLength(Names(), "");
    }

    /** `AreaType::field_description`: documentation text, one paragraph per area type. */
    static const FieldDescription: string :=
      "\n overview - Overview data for the United Kingdom\n" +
      "\n nation - Nation data (England, Northern Ireland, Scotland, and Wales)\n" +
      "\n region - Region data\n" +
      "\n nhsRegion - NHS Region data\n" +
      "\n utla - Upper-tier local authority data\n" +
      "\n ltla - Lower-tier local authority data"
  }

  // ---------------------------------------------------------------------------
  // Structures: the metric fields a query may ask for
  // ---------------------------------------------------------------------------

  /** The valid structure fields. */
  datatype Structures
    = areaType
    | areaName
    | areaCode
    | date
    | hash
    | newCasesByPublishDate
    | cumCasesByPublishDate
    | cumCasesBySpecimenDateRate
    | newCasesBySpecimenDate
    | maleCases
    | femaleCases
    | newPillarOneTestsByPublishDate
    | cumPillarOneTestsByPublishDate
    | newPillarTwoTestsByPublishDate
    | cumPillarTwoTestsByPublishDate
    | newPillarThreeTestsByPublishDate
    | cumPillarThreeTestsByPublishDate
    | newPillarFourTestsByPublishDate
    | cumPillarFourTestsByPublishDate
    | newAdmissions
    | cumAdmissions
    | cumAdmissionsByAge
    | newTestsByPublishDate
    | cumTestsByPublishDate
    | covidOccupiedMVBeds
    | hospitalCases
    | plannedCapacityByPublishDate
    | newDeaths28DaysByPublishDate
    | cumDeaths28DaysByPublishDate
    | cumDeaths28DaysByPublishDateRate
    | newDeaths28DaysByDeathDate
    | cumDeaths28DaysByDeathDate
    | cumDeaths28DaysByDeathDateRate
  {
    /** The variant's `{:?}` text: its identifier. */
    function Debug(): string
    {
      match this
        case areaType => "areaType"
        case areaName => "areaName"
        case areaCode => "areaCode"
        case date => "date"
        case hash => "hash"
        case newCasesByPublishDate => "newCasesByPublishDate"
        case cumCasesByPublishDate => "cumCasesByPublishDate"
        case cumCasesBySpecimenDateRate => "cumCasesBySpecimenDateRate"
        case newCasesBySpecimenDate => "newCasesBySpecimenDate"
        case maleCases => "maleCases"
        case femaleCases => "femaleCases"
        case newPillarOneTestsByPublishDate => "newPillarOneTestsByPublishDate"
        case cumPillarOneTestsByPublishDate => "cumPillarOneTestsByPublishDate"
        case newPillarTwoTestsByPublishDate => "newPillarTwoTestsByPublishDate"
        case cumPillarTwoTestsByPublishDate => "cumPillarTwoTestsByPublishDate"
        case newPillarThreeTestsByPublishDate => "newPillarThreeTestsByPublishDate"
        case cumPillarThreeTestsByPublishDate => "cumPillarThreeTestsByPublishDate"
        case newPillarFourTestsByPublishDate => "newPillarFourTestsByPublishDate"
        case cumPillarFourTestsByPublishDate => "cumPillarFourTestsByPublishDate"
        case newAdmissions => "newAdmissions"
        case cumAdmissions => "cumAdmissions"
        case cumAdmissionsByAge => "cumAdmissionsByAge"
        case newTestsByPublishDate => "newTestsByPublishDate"
        case cumTestsByPublishDate => "cumTestsByPublishDate"
        case covidOccupiedMVBeds => "covidOccupiedMVBeds"
        case hospitalCases => "hospitalCases"
        case plannedCapacityByPublishDate => "plannedCapacityByPublishDate"
        case newDeaths28DaysByPublishDate => "newDeaths28DaysByPublishDate"
        case cumDeaths28DaysByPublishDate => "cumDeaths28DaysByPublishDate"
        case cumDeaths28DaysByPublishDateRate => "cumDeaths28DaysByPublishDateRate"
        case newDeaths28DaysByDeathDate => "newDeaths28DaysByDeathDate"
        case cumDeaths28DaysByDeathDate => "cumDeaths28DaysByDeathDate"
        case cumDeaths28DaysByDeathDateRate => "cumDeaths28DaysByDeathDateRate"
    }

    /** The number of variants. */
    static const Count: nat := 33

    /** The variant's position in declaration order. */
    function Index(): (k: nat)
      ensures k < Count
    {
      match this
        case areaType => 0
        case areaName => 1
        case areaCode => 2
        case date => 3
        case hash => 4
        case newCasesByPublishDate => 5
        case cumCasesByPublishDate => 6
        case cumCasesBySpecimenDateRate => 7
        case newCasesBySpecimenDate => 8
        case maleCases => 9
        case femaleCases => 10
        case newPillarOneTestsByPublishDate => 11
        case cumPillarOneTestsByPublishDate => 12
        case newPillarTwoTestsByPublishDate => 13
        case cumPillarTwoTestsByPublishDate => 14
        case newPillarThreeTestsByPublishDate => 15
        case cumPillarThreeTestsByPublishDate => 16
        case newPillarFourTestsByPublishDate => 17
        case cumPillarFourTestsByPublishDate => 18
        case newAdmissions => 19
        case cumAdmissions => 20
        case cumAdmissionsByAge => 21
        case newTestsByPublishDate => 22
        case cumTestsByPublishDate => 23
        case covidOccupiedMVBeds => 24
        case hospitalCases => 25
        case plannedCapacityByPublishDate => 26
        case newDeaths28DaysByPublishDate => 27
        case cumDeaths28DaysByPublishDate => 28
        case cumDeaths28DaysByPublishDateRate => 29
        case newDeaths28DaysByDeathDate => 30
        case cumDeaths28DaysByDeathDate => 31
        case cumDeaths28DaysByDeathDateRate => 32
    }

    /** The variant at position `i` in declaration order: what strum's iterator yields at step `i`. */
    static function FromIndex(i: nat): (m: Structures)
      requires i < Count
    {
      match i
        case 0 => Structures.areaType
        case 1 => Structures.areaName
        case 2 => Structures.areaCode
        case 3 => Structures.date
        case 4 => Structures.hash
        case 5 => Structures.newCasesByPublishDate
        case 6 => Structures.cumCasesByPublishDate
        case 7 => Structures.cumCasesBySpecimenDateRate
        case 8 => Structures.newCasesBySpecimenDate
        case 9 => Structures.maleCases
        case 10 => Structures.femaleCases
        case 11 => Structures.newPillarOneTestsByPublishDate
        case 12 => Structures.cumPillarOneTestsByPublishDate
        case 13 => Structures.newPillarTwoTestsByPublishDate
        case 14 => Structures.cumPillarTwoTestsByPublishDate
        case 15 => Structures.newPillarThreeTestsByPublishDate
        case 16 => Structures.cumPillarThreeTestsByPublishDate
        case 17 => Structures.newPillarFourTestsByPublishDate
        case 18 => Structures.cumPillarFourTestsByPublishDate
        case 19 => Structures.newAdmissions
        case 20 => Structures.cumAdmissions
        case 21 => Structures.cumAdmissionsByAge
        case 22 => Structures.newTestsByPublishDate
        case 23 => Structures.cumTestsByPublishDate
        case 24 => Structures.covidOccupiedMVBeds
        case 25 => Structures.hospitalCases
        case 26 => Structures.plannedCapacityByPublishDate
        case 27 => Structures.newDeaths28DaysByPublishDate
        case 28 => Structures.cumDeaths28DaysByPublishDate
        case 29 => Structures.cumDeaths28DaysByPublishDateRate
        case 30 => Structures.newDeaths28DaysByDeathDate
        case 31 => Structures.cumDeaths28DaysByDeathDate
        case 32 => Structures.cumDeaths28DaysByDeathDateRate
    }

    /** Every variant, in declaration order: the sequence `iter()` walks. */
    static function Iter(): seq<Structures>
    {
      seq(Count, i requires 0 <= i < Count => FromIndex(i))
    }

    /** `iter()` yields every variant exactly once: at its own position. */
    static lemma IterListsEachOnce()
      ensures |Iter()| == Count
      ensures forall m: Structures :: Iter()[m.Index()] == m
      ensures forall i, j :: 0 <= i < j < |Iter()| ==> Iter()[i] != Iter()[j]
    {
    }

    /** The listing `to_vec` returns. */
    static function Names(): seq<string>
    {
      DebugNames(Iter(), (m: Structures) => m.Debug())
    }

    /**
     * Which field a name belongs to, read off its length and its characters at
     * positions 0, 4 and 9, which between them tell the 33 names apart;
     * `Count` for a string that is none of them.
     */
    static function NameIndex(s: string): (k: nat)
      ensures k <= Count
    {
      if |s| == 4 then
        if s[0] == 'd' then 3 else
        if s[0] == 'h' then 4 else
        Count
      else if |s| == 8 then
        if s[0] == 'a' && s[4] == 'T' then 0 else
        if s[0] == 'a' && s[4] == 'N' then 1 else
        if s[0] == 'a' && s[4] == 'C' then 2 else
        Count
      else if |s| == 9 then
        if s[0] == 'm' then 9 else
        Count
      else if |s| == 11 then
        if s[0] == 'f' then 10 else
        Count
      else if |s| == 13 then
        if s[0] == 'n' && s[4] == 'd' && s[9] == 'i' then 19 else
        if s[0] == 'c' && s[4] == 'd' && s[9] == 'i' then 20 else
        if s[0] == 'h' && s[4] == 'i' && s[9] == 'a' then 25 else
        Count
      else if |s| == 18 then
        if s[0] == 'c' then 21 else
        Count
      else if |s| == 19 then
        if s[0] == 'c' then 24 else
        Count
      else if |s| == 21 then
        if s[0] == 'n' && s[4] == 'a' then 5 else
        if s[0] == 'c' && s[4] == 'a' then 6 else
        if s[0] == 'n' && s[4] == 'e' then 22 else
        if s[0] == 'c' && s[4] == 'e' then 23 else
        Count
      else if |s| == 22 then
        if s[0] == 'n' then 8 else
        Count
      else if |s| == 26 then
        if s[0] == 'c' && s[4] == 'a' && s[9] == 'y' then 7 else
        if s[0] == 'n' && s[4] == 'e' && s[9] == '2' then 30 else
        if s[0] == 'c' && s[4] == 'e' && s[9] == '2' then 31 else
        Count
      else if |s| == 28 then
        if s[0] == 'p' && s[4] == 'n' && s[9] == 'p' then 26 else
        if s[0] == 'n' && s[4] == 'e' && s[9] == '2' then 27 else
        if s[0] == 'c' && s[4] == 'e' && s[9] == '2' then 28 else
        Count
      else if |s| == 30 then
        if s[0] == 'n' && s[4] == 'i' && s[9] == 'O' then 11 else
        if s[0] == 'c' && s[4] == 'i' && s[9] == 'O' then 12 else
        if s[0] == 'n' && s[4] == 'i' && s[9] == 'T' then 13 else
        if s[0] == 'c' && s[4] == 'i' && s[9] == 'T' then 14 else
        if s[0] == 'c' && s[4] == 'e' && s[9] == '2' then 32 else
        Count
      else if |s| == 31 then
        if s[0] == 'n' then 17 else
        if s[0] == 'c' then 18 else
        Count
      else if |s| == 32 then
        if s[0] == 'n' && s[4] == 'i' && s[9] == 'T' then 15 else
        if s[0] == 'c' && s[4] == 'i' && s[9] == 'T' then 16 else
        if s[0] == 'c' && s[4] == 'e' && s[9] == '2' then 29 else
        Count
      else
        Count
    }

    /** A variant's name leads back to the variant: no two variants print alike. */
    static lemma NameIndexInvertsDebug(m: Structures)
      ensures NameIndex(m.Debug()) == m.Index()
    {
      NameIndexInvertsAreaFields();
      NameIndexInvertsCaseFields();
      NameIndexInvertsPillarOneFields();
      NameIndexInvertsPillarTwoFields();
      NameIndexInvertsPillarThreeFields();
      NameIndexInvertsPillarFourFields();
      NameIndexInvertsAdmissionAndTestFields();
      NameIndexInvertsHealthcareFields();
      NameIndexInvertsDeathByPublishDateFields();
      NameIndexInvertsDeathByDeathDateFields();
    }

    /** `NameIndex` reads each of the area fields and `hash` back to its position. */
    static lemma NameIndexInvertsAreaFields()
      ensures NameIndex("areaType") == 0
      ensures NameIndex("areaName") == 1
      ensures NameIndex("areaCode") == 2
      ensures NameIndex("date") == 3
      ensures NameIndex("hash") == 4
    {
    }

    /** `NameIndex` reads each of the case counts back to its position. */
    static lemma NameIndexInvertsCaseFields()
      ensures NameIndex("newCasesByPublishDate") == 5
      ensures NameIndex("cumCasesByPublishDate") == 6
      ensures NameIndex("cumCasesBySpecimenDateRate") == 7
      ensures NameIndex("newCasesBySpecimenDate") == 8
      ensures NameIndex("maleCases") == 9
      ensures NameIndex("femaleCases") == 10
    {
    }

    /** `NameIndex` reads each of the pillar one test counts back to its position. */
    static lemma NameIndexInvertsPillarOneFields()
      ensures NameIndex("newPillarOneTestsByPublishDate") == 11
      ensures NameIndex("cumPillarOneTestsByPublishDate") == 12
    {
    }

    /** `NameIndex` reads each of the pillar two test counts back to its position. */
    static lemma NameIndexInvertsPillarTwoFields()
      ensures NameIndex("newPillarTwoTestsByPublishDate") == 13
      ensures NameIndex("cumPillarTwoTestsByPublishDate") == 14
    {
    }

    /** `NameIndex` reads each of the pillar three test counts back to its position. */
    static lemma NameIndexInvertsPillarThreeFields()
      ensures NameIndex("newPillarThreeTestsByPublishDate") == 15
      ensures NameIndex("cumPillarThreeTestsByPublishDate") == 16
    {
    }

    /** `NameIndex` reads each of the pillar four test counts back to its position. */
    static lemma NameIndexInvertsPillarFourFields()
      ensures NameIndex("newPillarFourTestsByPublishDate") == 17
      ensures NameIndex("cumPillarFourTestsByPublishDate") == 18
    {
    }

    /** `NameIndex` reads each of the admission and test counts back to its position. */
    static lemma NameIndexInvertsAdmissionAndTestFields()
      ensures NameIndex("newAdmissions") == 19
      ensures NameIndex("cumAdmissions") == 20
      ensures NameIndex("cumAdmissionsByAge") == 21
      ensures NameIndex("newTestsByPublishDate") == 22
      ensures NameIndex("cumTestsByPublishDate") == 23
    {
    }

    /** `NameIndex` reads each of the bed, hospital case and capacity counts back to its position. */
    static lemma NameIndexInvertsHealthcareFields()
      ensures NameIndex("covidOccupiedMVBeds") == 24
      ensures NameIndex("hospitalCases") == 25
      ensures NameIndex("plannedCapacityByPublishDate") == 26
    {
    }

    /** `NameIndex` reads each of the deaths by publish date back to its position. */
    static lemma NameIndexInvertsDeathByPublishDateFields()
      ensures NameIndex("newDeaths28DaysByPublishDate") == 27
      ensures NameIndex("cumDeaths28DaysByPublishDate") == 28
      ensures NameIndex("cumDeaths28DaysByPublishDateRate") == 29
    {
    }

    /** `NameIndex` reads each of the deaths by death date back to its position. */
    static lemma NameIndexInvertsDeathByDeathDateFields()
      ensures NameIndex("newDeaths28DaysByDeathDate") == 30
      ensures NameIndex("cumDeaths28DaysByDeathDate") == 31
      ensures NameIndex("cumDeaths28DaysByDeathDateRate") == 32
    {
    }

    /**
     * The listing has one entry per variant, no entry twice. `cumCasesBySpecimenDate`
     * is described in the documentation but is not a variant, so it is not listed.
     */
    static lemma NamesListed()
      ensures |Names()| == 33
      ensures Distinct(Names())
      ensures "cumCasesBySpecimenDate" !in Names()
    {
      IterListsEachOnce();
      forall i | 0 <= i < |Names()|
        ensures NameIndex(Names()[i]) == i
      {
        NameIndexInvertsDebug(Iter()[i]);
      }
      assert NameIndex("cumCasesBySpecimenDate") == Count;
    }

    /** Every variant's text is listed, at the variant's own position. */
    static lemma NamesCoverVariants()
      ensures forall m: Structures :: Names()[m.Index()] == m.Debug()
      ensures forall m: Structures :: m.Debug() in Names()
    {
      IterListsEachOnce();
      forall m: Structures
        ensures Names()[m.Index()] == m.Debug()
      {
        assert Iter()[m.Index()] == m;
      }
    }

    /** `Structures::to_vec`. */
    static method ToVec() returns (v: seq<string>)
      ensures v == Names()
      ensures |v| == 33
      ensures Distinct(v)
      ensures forall m: Structures :: v[m.Index()] == m.Debug()
      ensures "cumCasesBySpecimenDate" !in v
      ensures v[..4] == Filters.Names()
    {
      v := PushDebugNames(Iter(), (m: Structures) => m.Debug());
      NamesListed();
      NamesCoverVariants();
      FiltersArePrefix();
    }

    /** `Structures::to_string`. */
    static method ToString() returns (s: string)
      ensures s == Joined(Names(), "\n")
      ensures |s| == TotalLength(Names()) + 33
    {
      s := AppendDebugNames(Iter(), (m: Structures) => m.Debug(), "\n");
      NamesListed();
      JoinedLength(Names(), "\n");
    }

    /** `Structures::field_description`: documentation text, one paragraph per field. */
    static const FieldDescription: string :=
      "\n areaType - Area type as string\n" +
      "\n areaName - Area name as string\n" +
      "\n areaCode - Area Code as string\n" +
      "\n date - Date as string [ - YYYY-MM-DD - ]\n" +
      "\n hash - Unique ID as string\n" +
      "\n\n" +
      "\n newCasesByPublishDate - New cases by publish date\n" +
      "\n cumCasesByPublishDate - Cumulative cases by publish date\n" +
      "\n cumCasesBySpecimenDateRate - Rate of cumulative cases by publish date per 100k resident population\n" +
      "\n newCasesBySpecimenDate - New cases by specimen date\n" +
      "\n cumCasesBySpecimenDateRate - Rate of cumulative cases by specimen date per 100k resident population\n" +
      "\n cumCasesBySpecimenDate - Cumulative cases by specimen date\n" +
      "\n maleCases - Male cases (by age)\n" +
      "\n femaleCases - Female cases (by age)\n" +
      "\n\n" +
      "\n newPillarOneTestsByPublishDate - New pillar one tests by publish date\n" +
      "\n cumPillarOneTestsByPublishDate - Cumulative pillar one tests by publish date\n" +
      "\n newPillarTwoTestsByPublishDate - New pillar two tests by publish date\n" +
      "\n cumPillarTwoTestsByPublishDate - Cumulative pillar two tests by publish date\n" +
      "\n newPillarThreeTestsByPublishDate - New pillar three tests by publish date\n" +
      "\n cumPillarThreeTestsByPublishDate - Cumulative pillar three tests by publish date\n" +
      "\n newPillarFourTestsByPublishDate - New pillar four tests by publish date\n" +
      "\n cumPillarFourTestsByPublishDate - Cumulative pillar four tests by publish date\n" +
      "\n\n" +
      "\n newAdmissions - New admissions\n" +
      "\n cumAdmissions - Cumulative number of admissions\n" +
      "\n cumAdmissionsByAge - Cumulative admissions by age\n" +
      "\n cumTestsByPublishDate - Cumulative tests by publish date\n" +
      "\n newTestsByPublishDate - New tests by publish date\n" +
      "\n covidOccupiedMVBeds - COVID-19 occupied beds with mechanical ventilators\n" +
      "\n hospitalCases - Hospital cases\n" +
      "\n plannedCapacityByPublishDate - Planned capacity by publish date\n" +
      "\n\n" +
      "\n newDeaths28DaysByPublishDate - Deaths within 28 days of positive test\n" +
      "\n cumDeaths28DaysByPublishDate - Cumulative deaths within 28 days of positive test\n" +
      "\n cumDeaths28DaysByPublishDateRate - Rate of cumulative deaths within 28 days of positive test per 100k resident population\n" +
      "\n newDeaths28DaysByDeathDate - Deaths within 28 days of positive test by death date\n" +
      "\n cumDeaths28DaysByDeathDate - Cumulative deaths within 28 days of positive test by death date\n" +
      "\n cumDeaths28DaysByDeathDateRate - Rate of cumulative deaths within 28 days of positive test by death date per 100k resident population"
  }

  /** The four filter names are the first four structure fields, in the same order. */
  lemma FiltersArePrefix()
    ensures |Filters.Names()| <= |Structures.Names()|
    ensures Structures.Names()[..4] == Filters.Names()
  {
    Filters.NamesListed();
    Structures.NamesListed();
  }
}
