/**
 * The dashboard's shared date filter: the selected preset and the date range
 * the panels query with. Whenever the preset changes to one of the fixed
 * presets, an effect replaces the range with the one computed for it; a
 * custom range or a specific date is left alone.
 */
module DateFilterContext {
  import opened Wrappers
  import opened Calendar

  datatype FilterType = Today | Yesterday | Last7 | Last15 | Month | Range | Specific {
    /** The presets whose range is computed from the current date. */
    predicate IsPreset() {
      !Range? && !Specific?
    }
  }

  /** The filter's name as the select and the context exchange it. */
  function FilterKey(f: FilterType): string {
    match f
    case Today => "today"
    case Yesterday => "yesterday"
    case Last7 => "7d"
    case Last15 => "15d"
    case Month => "month"
    case Range => "range"
    case Specific => "specific"
  }

  lemma FilterKeyInjective(f: FilterType, g: FilterType)
    requires FilterKey(f) == FilterKey(g)
    ensures f == g
  {
  }

  /** A start and an end date, either of which may be unset (null). */
  datatype DateRange = DateRange(startDate: Option<DateTime>, endDate: Option<DateTime>) {
    predicate Valid() {
      (startDate.Some? ==> startDate.value.Valid()) && (endDate.Some? ==> endDate.value.Valid())
    }
    /** Both ends are set and the start is not after the end. */
    predicate Ordered() {
      Valid() && startDate.Some? && endDate.Some? && Instant(startDate.value) <= Instant(endDate.value)
    }
  }

  const NoRange: DateRange := DateRange(None, None)

  /**
   * `calculateDateRange` for the current moment `now`: a whole day for today
   * and yesterday; 7 or 15 days back at the current time of day up to the end
   * of today; the whole current month; nothing for a custom range or date.
   */
  function PresetRange(filter: FilterType, now: DateTime): (r: DateRange)
    requires now.Valid()
    ensures filter.IsPreset() <==> r.startDate.Some? && r.endDate.Some?
    ensures filter.IsPreset() ==> r.Ordered()
    ensures filter == Today || filter == Yesterday ==>
              DayNumber(r.startDate.value) == DayNumber(r.endDate.value)
                == DayNumber(now) - (if filter == Yesterday then 1 else 0)
              && r.startDate.value.ms == 0 && r.endDate.value.ms == MsPerDay - 1
    ensures filter == Last7 || filter == Last15 ==>
              DayNumber(r.startDate.value) == DayNumber(now) - (if filter == Last7 then 7 else 15)
              && r.startDate.value.ms == now.ms
              && DayNumber(r.endDate.value) == DayNumber(now) && r.endDate.value.ms == MsPerDay - 1
    ensures filter == Month ==>
              r.startDate.value == DateTime(now.year, now.month, 1, 0)
              && r.endDate.value == DateTime(now.year, now.month, DaysInMonth(now.year, now.month), MsPerDay - 1)
  {
    match filter
    case Today =>
      InstantOrder(StartOfDay(now), EndOfDay(now));
      DateRange(Some(StartOfDay(now)), Some(EndOfDay(now)))
    case Yesterday =>
      var yesterday := PrevDay(now);
      InstantOrder(StartOfDay(yesterday), EndOfDay(yesterday));
      DateRange(Some(StartOfDay(yesterday)), Some(EndOfDay(yesterday)))
    case Last7 =>
      InstantOrder(MinusDays(now, 7), EndOfDay(now));
      DateRange(Some(MinusDays(now, 7)), Some(EndOfDay(now)))
    case Last15 =>
      InstantOrder(MinusDays(now, 15), EndOfDay(now));
      DateRange(Some(MinusDays(now, 15)), Some(EndOfDay(now)))
    case Month =>
      InstantOrder(FirstOfMonth(now), EndOfDay(LastOfMonth(now)));
      DateRange(Some(FirstOfMonth(now)), Some(EndOfDay(LastOfMonth(now))))
    case Range => NoRange
    case Specific => NoRange
  }

  /** The switch of `calculateDateRange`, assigning the two locals case by case. */
  method CalculateDateRange(filter: FilterType, today: DateTime) returns (range: DateRange)
    requires today.Valid()
    ensures range == PresetRange(filter, today)
  {
    var startDate: Option<DateTime> := None;
    var endDate: Option<DateTime> := None;
    match filter {
      case Today =>
        startDate := Some(StartOfDay(today));
        endDate := Some(EndOfDay(today));
      case Yesterday =>
        var yesterday := PrevDay(today);
        startDate := Some(StartOfDay(yesterday));
        endDate := Some(EndOfDay(yesterday));
      case Last7 =>
        startDate := Some(MinusDays(today, 7));
        endDate := Some(EndOfDay(today));
      case Last15 =>
        startDate := Some(MinusDays(today, 15));
        endDate := Some(EndOfDay(today));
      case Month =>
        startDate := Some(FirstOfMonth(today));
        endDate := Some(EndOfDay(LastOfMonth(today)));
      case Range =>
      case Specific =>
    }
    range := DateRange(startDate, endDate);
  }

  /** The provider's state. */
  class DateFilterProvider {
    var dateFilter: FilterType
    var dateRange: DateRange

    predicate Valid()
      reads this
    {
      dateRange.Valid()
    }

    /** The first render: the last seven days are selected, no range is set yet. */
    constructor ()
      ensures Valid() && dateFilter == Last7 && dateRange == NoRange
    {
      dateFilter := Last7;
      dateRange := NoRange;
    }

    /**
     * The effect on `dateFilter`, run after the first render and after every
     * render in which the filter changed: a fixed preset replaces the range;
     * range and specific keep it.
     */
    method Effect(now: DateTime)
      requires Valid() && now.Valid()
      modifies this
      ensures Valid() && dateFilter == old(dateFilter)
      ensures dateFilter.IsPreset() ==> dateRange == PresetRange(dateFilter, now) && dateRange.Ordered()
      ensures !dateFilter.IsPreset() ==> dateRange == old(dateRange)
    {
      if dateFilter != Range && dateFilter != Specific {
        var newDateRange := CalculateDateRange(dateFilter, now);
        dateRange := newDateRange;
      }
    }

    /** `setDateFilter`; the effect runs after the render that follows, if the value changed. */
    method SetDateFilter(filter: FilterType)
      requires Valid()
      modifies this
      ensures Valid() && dateFilter == filter && dateRange == old(dateRange)
    {
      dateFilter := filter;
    }

    method SetDateRange(range: DateRange)
      requires range.Valid()
      modifies this
      ensures Valid() && dateRange == range && dateFilter == old(dateFilter)
    {
      dateRange := range;
    }
  }

  /** What `useDateFilter` gives a component: the provider, or the error it throws. */
  datatype ContextResult = Provided(provider: DateFilterProvider) | Thrown(message: string)

  /** `useDateFilter`: outside a provider the hook throws. */
  function UseDateFilter(context: Option<DateFilterProvider>): (r: ContextResult)
    ensures context.None? <==> r.Thrown?
    ensures context.None? ==> r.message == "useDateFilter must be used within a DateFilterProvider"
    ensures context.Some? ==> r == Provided(context.value)
  {
    match context
    case None => Thrown("useDateFilter must be used within a DateFilterProvider")
    case Some(p) => Provided(p)
  }
}
