/**
 * The period of an album list (lib/periods.ts): its three kinds, the text
 * it is shown and stored as, the parser that reads that text back, and the
 * list of years offered in the selector. The current year (`new Date()`)
 * is a parameter.
 */
module Periods {
  import opened Wrappers
  import opened Js

  datatype PeriodType = AllTime | SingleYear | YearRange

  /** `PeriodConfig`: the kind and the optional years. */
  datatype PeriodConfig = PeriodConfig(kind: PeriodType, startYear: Option<int>, endYear: Option<int>)

  const AllTimeText := "Tous les temps"

  /** A year as a template literal shows it: its digits, or "undefined". */
  function YearText(y: Option<int>): (s: string)
    ensures y.Some? ==> s == IntToString(y.value)
    ensures y.None? ==> s == "undefined"
  {
    if y.Some? then IntToString(y.value) else "undefined"
  }

  /** `formatPeriod`. */
  function FormatPeriod(c: PeriodConfig): (s: string)
    ensures c.kind == AllTime ==> s == AllTimeText
    ensures c.kind == SingleYear ==> (s == "" <==> c.startYear.None?)
    ensures c.kind == SingleYear && c.startYear.Some? ==> ParseInt(s) == c.startYear
    ensures c.kind == YearRange ==> s == YearText(c.startYear) + "-" + YearText(c.endYear)
  {
    match c.kind
    case AllTime => AllTimeText
    case SingleYear =>
      if c.startYear.Some? then
        ParseIntToString(c.startYear.value);
        IntToString(c.startYear.value)
      else ""
    case YearRange => YearText(c.startYear) + "-" + YearText(c.endYear)
  }

  /** `parsePeriod`, `None` standing for `null`: the empty string is no
      period; the all-time text is all time; a text with a dash whose first
      two dash-separated pieces read as integers is a range; otherwise a
      text that starts with an integer is that single year. */
  function ParsePeriod(s: string): (c: Option<PeriodConfig>)
    ensures s == "" ==> c == None
    ensures c.Some? && c.value.kind == YearRange ==>
      && Includes(s, "-")
      && c.value.startYear == ParseInt(Trim(Split(s, "-")[0]))
      && c.value.endYear == ParseInt(Trim(Split(s, "-")[1]))
      && c.value.startYear.Some? && c.value.endYear.Some?
    ensures c.Some? && c.value.kind == SingleYear ==>
      c.value.startYear == ParseInt(s) && c.value.startYear.Some? && c.value.endYear == None
    ensures c.None? && s != "" ==> ParseInt(s) == None
  {
    if s == "" then None
    else if s == AllTimeText then Some(PeriodConfig(AllTime, None, None))
    else
      var range :=
        if Includes(s, "-") then
          var parts := Split(s, "-");
          var start := ParseInt(Trim(parts[0]));
          var end := ParseInt(Trim(parts[1]));
          if start.Some? && end.Some? then Some(PeriodConfig(YearRange, start, end)) else None
        else None;
      if range.Some? then range
      else
        var year := ParseInt(s);
        if year.Some? then Some(PeriodConfig(SingleYear, year, None)) else None
  }

  /** The configurations `formatPeriod` writes without losing anything. */
  predicate Canonical(c: PeriodConfig) {
    match c.kind
    case AllTime => c.startYear.None? && c.endYear.None?
    case SingleYear => c.startYear.Some? && c.endYear.None?
    case YearRange => c.startYear.Some? && c.endYear.Some? && c.startYear.value >= 0 && c.endYear.value >= 0
  }

  /** Round trip: reading back a written period gives it again, for all
      time, for a single year (any integer, negative ones included) and for
      a range of non-negative years. */
  lemma ParseFormat(c: PeriodConfig)
    requires Canonical(c)
    ensures ParsePeriod(FormatPeriod(c)) == Some(c)
  {
    match c.kind
    case AllTime =>
    case SingleYear => ParseSingleYear(c.startYear.value);
    case YearRange => ParseRange(c.startYear.value, c.endYear.value);
  }

  /** A written single year reads back as that year, negative years
      included: the dash of a minus sign leaves an empty first piece, which
      is not a number, so the text is read as one integer. */
  lemma ParseSingleYear(y: int)
    ensures ParsePeriod(IntToString(y)) == Some(PeriodConfig(SingleYear, Some(y), None))
  {
    var s := IntToString(y);
    ParseIntToString(y);
    if y >= 0 {
      NoDash(s);
    } else {
      LeadingDash(s);
    }
    ParseOneYear(s, y);
  }

  /** A text that starts with a dash has an empty first piece, which is
      not a number. */
  lemma LeadingDash(s: string)
    requires s != [] && s[0] == '-'
    ensures Includes(s, "-") && ParseInt(Trim(Split(s, "-")[0])) == None
  {
    assert OccursAt(s, "-", 0);
    assert Split(s, "-")[0] == [];
    assert ParseInt(Trim([])) == None;
  }

  /** A text that reads as the integer `y` and is no range is the single
      year `y`. */
  lemma ParseOneYear(s: string, y: int)
    requires s != [] && s[0] != 'T' && ParseInt(s) == Some(y)
    requires Includes(s, "-") ==> ParseInt(Trim(Split(s, "-")[0])) == None
    ensures ParsePeriod(s) == Some(PeriodConfig(SingleYear, Some(y), None))
  {
    assert s != AllTimeText;
  }

  /** A written range of non-negative years reads back as that range. */
  lemma ParseRange(a: nat, b: nat)
    ensures ParsePeriod(IntToString(a) + "-" + IntToString(b)) == Some(PeriodConfig(YearRange, Some(a), Some(b)))
  {
    var x, y := IntToString(a), IntToString(b);
    SplitDigitsDash(x, y);
    ReadDigits(a);
    ReadDigits(b);
    ParsePieces(x + "-" + y, x, y);
  }

  /** A text other than the all-time text whose first two dash-separated
      pieces are `x` and `y`, both read as integers, is that range; any
      further pieces are ignored. */
  lemma ParsePieces(s: string, x: string, y: string)
    requires s != [] && s[0] != 'T'
    requires |Split(s, "-")| >= 2 && Split(s, "-")[0] == x && Split(s, "-")[1] == y
    requires ParseInt(Trim(x)).Some? && ParseInt(Trim(y)).Some?
    ensures ParsePeriod(s) == Some(PeriodConfig(YearRange, ParseInt(Trim(x)), ParseInt(Trim(y))))
  {
    assert s != AllTimeText;
  }

  /** Trimming the digits of a number changes nothing, and they read back
      as the number. */
  lemma ReadDigits(n: nat)
    ensures ParseInt(Trim(IntToString(n))) == Some(n)
  {
    var x := IntToString(n);
    assert !IsSpace(x[0]) && !IsSpace(x[|x| - 1]);
    TrimUnchanged(x);
    ParseIntToString(n);
  }

  /** Digits, a dash and digits split into the two runs of digits. */
  lemma SplitDigitsDash(x: string, y: string)
    requires AllDigits(x) && AllDigits(y)
    ensures Includes(x + "-" + y, "-")
    ensures Split(x + "-" + y, "-") == [x, y]
  {
    var s := x + "-" + y;
    FirstDash(x, y);
    NoDash(y);
    assert s[..|x|] == x && s[|x| + 1..] == y;
    assert Split(y, "-") == [y];
  }

  /** Digits contain no dash. */
  lemma NoDash(d: string)
    requires AllDigits(d)
    ensures !Includes(d, "-")
  {
    IncludesChar(d, '-');
  }

  /** In digits, a dash and more, the first dash follows the digits. */
  lemma FirstDash(x: string, y: string)
    requires AllDigits(x)
    ensures IndexOf(x + "-" + y, "-") == Some(|x|)
  {
    var s := x + "-" + y;
    assert OccursAt(s, "-", |x|);
    forall j | 0 <= j < |x| ensures !OccursAt(s, "-", j) {
      assert s[j] == x[j];
    }
  }

  /** A text that does not start with a sign, a digit or white space is
      no period at all ("Custom Period"). */
  lemma ParseRejectsText(s: string)
    requires s != [] && s != AllTimeText
    requires !IsSpace(s[0]) && !IsDigit(s[0]) && s[0] != '-' && s[0] != '+'
    requires !Includes(s, "-")
    ensures ParsePeriod(s) == None
  {
    ParseIntNaN(s);
  }

  // ---------------------------------------------------------------------
  // Years offered (lib/periods.ts:45-56)

  const DefaultStartYear := 1950

  /** `getYearRange(startYear, endYear)`: the years from the end year down
      to the start year; a missing start year is 1950, and a missing or
      zero end year is the current year. */
  method GetYearRange(startYear: Option<int>, endYear: Option<int>, currentYear: int) returns (years: seq<int>)
    ensures var start := startYear.GetOr(DefaultStartYear);
      var end := OrInt(endYear, Some(currentYear)).value;
      && |years| == (if end >= start then end - start + 1 else 0)
      && (forall i :: 0 <= i < |years| ==> years[i] == end - i)
    ensures forall i, j :: 0 <= i < j < |years| ==> years[i] > years[j]
  {
    var start := startYear.GetOr(DefaultStartYear);
    var end := OrInt(endYear, Some(currentYear)).value;
    years := [];
    var year := end;
    while year >= start
      invariant end >= start ==> start - 1 <= year <= end
      invariant end < start ==> year == end
      invariant |years| == end - year
      invariant forall i :: 0 <= i < |years| ==> years[i] == end - i
      decreases year - start
    {
      years := years + [year];
      year := year - 1;
    }
  }

  /** The years offered are exactly those from the start year to the end
      year. */
  lemma YearsCover(years: seq<int>, start: int, end: int)
    requires |years| == (if end >= start then end - start + 1 else 0)
    requires forall i :: 0 <= i < |years| ==> years[i] == end - i
    ensures forall y :: y in years <==> start <= y <= end
  {
    forall y | start <= y <= end ensures y in years {
      assert years[end - y] == y;
    }
  }
}
