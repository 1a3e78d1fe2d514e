/**
 * The date-filter control in the dashboard header. Picking a preset stores
 * the filter and a range of its own in the shared context (the context's
 * effect then recomputes the range of a changed fixed preset); the two
 * calendar popovers apply a custom range or a single date; the trigger shows
 * a text for the current choice.
 */
module DateFilterUi {
  import opened Wrappers
  import opened Calendar
  import opened DateFilterContext
  import Strings
  import Format

  /**
   * The range `handleFilterChange` computes for `value` at moment `now`, given
   * the range currently in the context: today and yesterday are a single
   * moment; 7 and 15 days run from that many days back to now; the month runs
   * from its first to its last day at midnight; a custom range is kept only if
   * both ends are set, and a specific date collapses to its start.
   */
  function SelectedRange(value: FilterType, now: DateTime, current: DateRange): (r: DateRange)
    requires now.Valid() && current.Valid()
    ensures r.Valid()
    ensures value == Today ==> r == DateRange(Some(now), Some(now))
    ensures value == Yesterday ==>
              r.startDate.Some? && r.startDate == r.endDate
              && DayNumber(r.startDate.value) == DayNumber(now) - 1 && r.startDate.value.ms == now.ms
    ensures value == Last7 || value == Last15 ==>
              r.startDate.Some? && r.endDate == Some(now) && r.startDate.value.ms == now.ms
              && DayNumber(r.startDate.value) == DayNumber(now) - (if value == Last7 then 7 else 15)
    ensures value == Month ==>
              r.startDate == Some(DateTime(now.year, now.month, 1, 0))
              && r.endDate == Some(DateTime(now.year, now.month, DaysInMonth(now.year, now.month), 0))
    ensures value == Range ==>
              r == (if current.startDate.Some? && current.endDate.Some? then current else NoRange)
    ensures value == Specific ==>
              r == (if current.startDate.Some? then DateRange(current.startDate, current.startDate) else NoRange)
    ensures value.IsPreset() ==> r.Ordered()
  {
    match value
    case Today =>
      DateRange(Some(now), Some(now))
    case Yesterday =>
      var yesterday := PrevDay(now);
      DateRange(Some(yesterday), Some(yesterday))
    case Last7 =>
      InstantOrder(MinusDays(now, 7), now);
      DateRange(Some(MinusDays(now, 7)), Some(now))
    case Last15 =>
      InstantOrder(MinusDays(now, 15), now);
      DateRange(Some(MinusDays(now, 15)), Some(now))
    case Month =>
      InstantOrder(FirstOfMonth(now), LastOfMonth(now));
      DateRange(Some(FirstOfMonth(now)), Some(LastOfMonth(now)))
    case Range =>
      if current.startDate.Some? && current.endDate.Some? then current else NoRange
    case Specific =>
      if current.startDate.Some? then DateRange(current.startDate, current.startDate) else NoRange
  }

  /** The control's own state, bound to the provider it reads and writes. */
  class DateFilterControl {
    const context: DateFilterProvider
    var customStartDate: Option<DateTime>
    var customEndDate: Option<DateTime>
    var specificDate: Option<DateTime>

    predicate Valid()
      reads this, context
    {
      context.Valid()
      && (customStartDate.Some? ==> customStartDate.value.Valid())
      && (customEndDate.Some? ==> customEndDate.value.Valid())
      && (specificDate.Some? ==> specificDate.value.Valid())
    }

    constructor (context: DateFilterProvider)
      requires context.Valid()
      ensures Valid() && this.context == context
      ensures customStartDate.None? && customEndDate.None? && specificDate.None?
    {
      this.context := context;
      customStartDate := None;
      customEndDate := None;
      specificDate := None;
    }

    /**
     * `handleFilterChange`: the filter and the range are both always set; after
     * the render, the context's effect recomputes the range if the filter
     * changed to a fixed preset.
     */
    method HandleFilterChange(value: FilterType, now: DateTime)
      requires Valid() && now.Valid()
      modifies context
      ensures Valid() && context.dateFilter == value
      ensures value != old(context.dateFilter) && value.IsPreset() ==>
                context.dateRange == PresetRange(value, now)
      ensures value == old(context.dateFilter) || !value.IsPreset() ==>
                context.dateRange == SelectedRange(value, now, old(context.dateRange))
    {
      var previous := context.dateFilter;
      var range := SelectedRange(value, now, context.dateRange);
      context.SetDateFilter(value);
      context.SetDateRange(range);
      if value != previous {
        context.Effect(now);
      }
    }

    /** The first calendar of the range popover. */
    method PickCustomStart(d: Option<DateTime>)
      requires Valid() && (d.Some? ==> d.value.Valid())
      modifies this
      ensures Valid() && customStartDate == d
      ensures customEndDate == old(customEndDate) && specificDate == old(specificDate)
    {
      customStartDate := d;
    }

    /** The second calendar of the range popover. */
    method PickCustomEnd(d: Option<DateTime>)
      requires Valid() && (d.Some? ==> d.value.Valid())
      modifies this
      ensures Valid() && customEndDate == d
      ensures customStartDate == old(customStartDate) && specificDate == old(specificDate)
    {
      customEndDate := d;
    }

    /** The calendar of the specific-date popover. */
    method PickSpecific(d: Option<DateTime>)
      requires Valid() && (d.Some? ==> d.value.Valid())
      modifies this
      ensures Valid() && specificDate == d
      ensures customStartDate == old(customStartDate) && customEndDate == old(customEndDate)
    {
      specificDate := d;
    }

    /** The range button is disabled until both dates are chosen. */
    predicate RangeApplyDisabled()
      reads this
    {
      customStartDate.None? || customEndDate.None?
    }

    /**
     * `handleRangeApply`: with both dates chosen, the range becomes exactly
     * those dates (in whatever order they were picked) and the filter "range";
     * otherwise nothing changes.
     */
    method HandleRangeApply()
      requires Valid()
      modifies context
      ensures Valid()
      ensures RangeApplyDisabled() ==>
                context.dateFilter == old(context.dateFilter) && context.dateRange == old(context.dateRange)
      ensures !RangeApplyDisabled() ==>
                context.dateFilter == Range && context.dateRange == DateRange(customStartDate, customEndDate)
    {
      if customStartDate.Some? && customEndDate.Some? {
        context.SetDateRange(DateRange(customStartDate, customEndDate));
        context.SetDateFilter(Range);
        // the context's effect leaves a custom range alone
      }
    }

    /**
     * `handleSpecificApply`: with a date chosen, the range starts and ends on
     * it and the filter becomes "specific"; otherwise nothing changes.
     */
    method HandleSpecificApply()
      requires Valid()
      modifies context
      ensures Valid()
      ensures specificDate.None? ==>
                context.dateFilter == old(context.dateFilter) && context.dateRange == old(context.dateRange)
      ensures specificDate.Some? ==>
                context.dateFilter == Specific && context.dateRange == DateRange(specificDate, specificDate)
    {
      if specificDate.Some? {
        context.SetDateRange(DateRange(specificDate, specificDate));
        context.SetDateFilter(Specific);
        // the context's effect leaves a specific date alone
      }
    }
  }

  // ---------------------------------------------------------------------------
  // the trigger's text

  /** date-fns' `yyyy` prints the year of the era: 1 BC is year 1. */
  function YearOfEra(year: int): nat {
    if year >= 1 then year else 1 - year
  }

  /** `format(d, 'dd/MM/yyyy')`. */
  function DisplayDate(d: DateTime): string
    requires d.Valid()
  {
    Strings.PadNat(d.day, 2) + "/" + Strings.PadNat(d.month, 2) + "/" + Strings.PadNat(YearOfEra(d.year), 4)
  }

  /**
   * A displayed date has the DD/MM/YYYY layout that `formatDate` recognises,
   * and its three fields read back as the day, month and year.
   */
  lemma DisplayDateReadsBack(d: DateTime)
    requires d.Valid() && YearOfEra(d.year) < 10000
    ensures Format.BrazilianExact(DisplayDate(d))
    ensures Format.FormatDate(Some(DisplayDate(d)))
              == Format.DayMonthYear(Strings.PadNat(d.day, 2), Strings.PadNat(d.month, 2),
                                     Strings.PadNat(YearOfEra(d.year), 4))
    ensures Strings.DigitsValue(Strings.PadNat(d.day, 2)) == d.day
    ensures Strings.DigitsValue(Strings.PadNat(d.month, 2)) == d.month
    ensures Strings.DigitsValue(Strings.PadNat(YearOfEra(d.year), 4)) == YearOfEra(d.year)
  {
    assert Strings.Pow10(2) == 100;
    assert Strings.Pow10(4) == 10000 by {
      assert Strings.Pow10(3) == 1000;
    }
    Strings.NatToStringLength(d.day, 2);
    Strings.NatToStringLength(d.month, 2);
    Strings.NatToStringLength(YearOfEra(d.year), 4);
    Strings.PadNatExact(d.day, 2);
    Strings.PadNatExact(d.month, 2);
    Strings.PadNatExact(YearOfEra(d.year), 4);
    var s := DisplayDate(d);
    assert s[..2] == Strings.PadNat(d.day, 2);
    assert s[3..5] == Strings.PadNat(d.month, 2);
    assert s[6..] == Strings.PadNat(YearOfEra(d.year), 4);
  }

  /** `getDisplayText`: a fixed text per preset; a set custom range or date shows its dates. */
  function DisplayText(filter: FilterType, range: DateRange): (t: string)
    requires range.Valid()
    ensures filter == Today ==> t == "Hoje"
    ensures filter == Yesterday ==> t == "Ontem"
    ensures filter == Last7 ==> t == "Últimos 7 dias"
    ensures filter == Last15 ==> t == "Últimos 15 dias"
    ensures filter == Month ==> t == "Este mês"
    ensures filter == Range ==>
              t == (if range.startDate.Some? && range.endDate.Some?
                    then DisplayDate(range.startDate.value) + " - " + DisplayDate(range.endDate.value)
                    else "Intervalo")
    ensures filter == Specific ==>
              t == (if range.startDate.Some? then DisplayDate(range.startDate.value) else "Data específica")
  {
    match filter
    case Today => "Hoje"
    case Yesterday => "Ontem"
    case Last7 => "Últimos 7 dias"
    case Last15 => "Últimos 15 dias"
    case Month => "Este mês"
    case Range =>
      if range.startDate.Some? && range.endDate.Some? then
        DisplayDate(range.startDate.value) + " - " + DisplayDate(range.endDate.value)
      else "Intervalo"
    case Specific =>
      if range.startDate.Some? then DisplayDate(range.startDate.value) else "Data específica"
  }
}
