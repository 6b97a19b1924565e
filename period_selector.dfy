/**
 * The period selector of the list forms (components/period-selector.tsx):
 * the state it opens with, derived from the stored period text, the
 * handlers that change the kind and the years, and the period text it
 * emits whenever that state changes. Rendering is not modelled; a choice
 * in a year menu arrives as the year it shows.
 */
module PeriodSelectors {
  import opened Wrappers
  import opened Js
  import opened Periods

  /** The state a selector opens with for the stored text `value`: the
      parsed kind, or a single year when the text does not parse; the
      parsed years, with a missing or zero year replaced by the current
      year. */
  function InitialState(value: string, currentYear: int): (st: (PeriodType, int, int))
    ensures ParsePeriod(value).None? ==> st == (SingleYear, currentYear, currentYear)
    ensures ParsePeriod(value).Some? ==> st.0 == ParsePeriod(value).value.kind
    ensures ParsePeriod(value).Some? && TruthyInt(ParsePeriod(value).value.startYear) ==>
      st.1 == ParsePeriod(value).value.startYear.value
    ensures ParsePeriod(value).Some? && !TruthyInt(ParsePeriod(value).value.startYear) ==> st.1 == currentYear
    ensures ParsePeriod(value).Some? && TruthyInt(ParsePeriod(value).value.endYear) ==>
      st.2 == ParsePeriod(value).value.endYear.value
    ensures ParsePeriod(value).Some? && !TruthyInt(ParsePeriod(value).value.endYear) ==> st.2 == currentYear
  {
    match ParsePeriod(value)
    case None => (SingleYear, currentYear, currentYear)
    case Some(c) =>
      (c.kind, OrInt(c.startYear, Some(currentYear)).value, OrInt(c.endYear, Some(currentYear)).value)
  }

  /** The text emitted for a state: the kind decides which years are
      written. */
  function PeriodText(kind: PeriodType, startYear: int, endYear: int): (s: string)
    ensures kind == AllTime ==> s == AllTimeText
    ensures kind == SingleYear ==> s == IntToString(startYear)
    ensures kind == YearRange ==> s == IntToString(startYear) + "-" + IntToString(endYear)
  {
    match kind
    case AllTime => FormatPeriod(PeriodConfig(AllTime, None, None))
    case SingleYear => FormatPeriod(PeriodConfig(SingleYear, Some(startYear), None))
    case YearRange => FormatPeriod(PeriodConfig(YearRange, Some(startYear), Some(endYear)))
  }

  /** Opening a selector on the text it emitted gives back its kind and the
      years that text carries: both for a range, the start year for a
      single year; the years not written fall back to the current year.
      Years are positive, as every year offered is. */
  lemma ReopenRestores(kind: PeriodType, startYear: int, endYear: int, currentYear: int)
    requires startYear > 0 && endYear > 0
    ensures var st := InitialState(PeriodText(kind, startYear, endYear), currentYear);
      && st.0 == kind
      && (kind == YearRange ==> st.1 == startYear && st.2 == endYear)
      && (kind == SingleYear ==> st.1 == startYear && st.2 == currentYear)
      && (kind == AllTime ==> st.1 == currentYear && st.2 == currentYear)
  {
    match kind
    case AllTime =>
      ParseFormat(PeriodConfig(AllTime, None, None));
    case SingleYear =>
      ParseFormat(PeriodConfig(SingleYear, Some(startYear), None));
    case YearRange =>
      ParseFormat(PeriodConfig(YearRange, Some(startYear), Some(endYear)));
  }

  /** The state of one selector. */
  class PeriodSelector {
    const currentYear: int
    /** The years offered in the menus, newest first. */
    const years: seq<int>
    var periodType: PeriodType
    var startYear: int
    var endYear: int

    /** Mount: the offered years are those from 1950 to the current year,
        and the state is the one derived from `value`. */
    constructor(value: string, currentYear: int)
      ensures this.currentYear == currentYear
      ensures |years| == (if currentYear >= DefaultStartYear then currentYear - DefaultStartYear + 1 else 0)
      ensures forall i :: 0 <= i < |years| ==> years[i] == currentYear - i
      ensures (periodType, startYear, endYear) == InitialState(value, currentYear)
    {
      this.currentYear := currentYear;
      var offered := GetYearRange(Some(DefaultStartYear), Some(currentYear), currentYear);
      years := offered;
      var st := InitialState(value, currentYear);
      periodType := st.0;
      startYear := st.1;
      endYear := st.2;
    }

    /** One of the three kind buttons. */
    method SetPeriodType(kind: PeriodType)
      modifies this
      ensures periodType == kind
      ensures startYear == old(startYear) && endYear == old(endYear)
    {
      periodType := kind;
    }

    /** The single-year menu: the start year is the chosen one, and the end
        year is left as it is. */
    method SelectYear(year: int)
      modifies this
      ensures startYear == year
      ensures periodType == old(periodType) && endYear == old(endYear)
    {
      startYear := year;
    }

    /** The range's start menu: a start after the end pulls the end up to
        it. */
    method SelectStartYear(newStart: int)
      modifies this
      ensures startYear == newStart
      ensures endYear == if newStart > old(endYear) then newStart else old(endYear)
      ensures startYear <= endYear
      ensures periodType == old(periodType)
    {
      startYear := newStart;
      if newStart > endYear {
        endYear := newStart;
      }
    }

    /** The range's end menu: an end before the start pulls the start down
        to it. */
    method SelectEndYear(newEnd: int)
      modifies this
      ensures endYear == newEnd
      ensures startYear == if newEnd < old(startYear) then newEnd else old(startYear)
      ensures startYear <= endYear
      ensures periodType == old(periodType)
    {
      endYear := newEnd;
      if newEnd < startYear {
        startYear := newEnd;
      }
    }
  }

  /** The emitted text after a choice in the range menus is a well-ordered
      range that reads back as the chosen years. */
  lemma RangeChoiceEmitsOrderedRange(startYear: int, endYear: int)
    requires 0 < startYear <= endYear
    ensures ParsePeriod(PeriodText(YearRange, startYear, endYear)) ==
      Some(PeriodConfig(YearRange, Some(startYear), Some(endYear)))
    ensures var c := ParsePeriod(PeriodText(YearRange, startYear, endYear)).value;
      c.startYear.value <= c.endYear.value
  {
    ParseFormat(PeriodConfig(YearRange, Some(startYear), Some(endYear)));
  }
}
