/** The dashboard's "time remaining" figures in whole months: how many months of the
    current fiscal year are left and how many have passed, counted from the 28th of
    the month before the fiscal year starts. */
module TimeRemaining {
  import opened Wrappers
  import opened Revenue

  /** `datetime(...)` rejects a month outside 1..12 and a year outside 1..9999. */
  datatype TimeError = EndMonthOutOfRange | EndYearOutOfRange

  datatype MonthsLeft = MonthsLeft(remaining: int, elapsed: int)

  const EndDay: int := 28
  const MonthsPerYear: int := 12

  /** A clock reading as `datetime.now()` can produce it. */
  predicate ValidToday(today: Date) {
    MinYear <= today.year <= MaxYear && 1 <= today.month <= 12
  }

  /** The end of the fiscal year as the dashboard computes it: the 28th of month
      `start - 1`, this calendar year while today's month is before `start`, otherwise
      next year. The year is checked before the month, as `datetime` does. */
  function FiscalYearEndAsWritten(today: Date, start: int): (r: Result<Date, TimeError>)
    requires ValidToday(today)
    ensures r.Success? <==> 2 <= start <= 13 && !(today.month >= start && today.year == MaxYear)
    ensures r == Failure(EndYearOutOfRange) <==> today.month >= start && today.year == MaxYear
    ensures r == Failure(EndMonthOutOfRange) <==> (start < 2 || start > 13) && !(today.month >= start && today.year == MaxYear)
    ensures r.Success? ==> r.value.month == start - 1 && r.value.day == EndDay
    ensures r.Success? ==> r.value.year == (if today.month < start then today.year else today.year + 1)
  {
    var endYear := if today.month < start then today.year else today.year + 1;
    if endYear > MaxYear then Failure(EndYearOutOfRange)
    else if start - 1 < 1 || start - 1 > 12 then Failure(EndMonthOutOfRange)
    else Success(Date(endYear, start - 1, EndDay))
  }

  /** `remaining_months` and `elapsed_months` as the dashboard computes them. */
  function MonthsRemainingAsWritten(today: Date, start: int): (r: Result<MonthsLeft, TimeError>)
    requires ValidToday(today)
    ensures r.Success? <==> 2 <= start <= 13 && !(today.month >= start && today.year == MaxYear)
    ensures r.Success? ==> r.value.remaining + r.value.elapsed == MonthsPerYear
    ensures r.Success? && start <= 12 ==> 0 <= r.value.remaining <= 11
    ensures r.Success? && start <= 12 ==> r.value.elapsed == PeriodOfMonth(today.month, start)
    ensures start == 1 ==> r.Failure?
  {
    var end :- FiscalYearEndAsWritten(today, start);
    var remaining := (end.year - today.year) * MonthsPerYear + end.month - today.month;
    Success(MonthsLeft(remaining, MonthsPerYear - remaining))
  }

  /** The last calendar month of the fiscal year starting in month `start`. */
  function EndMonth(start: int): (m: int)
    ensures 1 <= m <= 12
  {
    FiscalMonth(12, start)
  }

  /** The end month is the one that falls in the twelfth fiscal period. */
  lemma EndMonthIsLastPeriod(start: int)
    ensures PeriodOfMonth(EndMonth(start), start) == 12
  {
    PeriodMonthRoundTrip(12, start);
  }

  /** The remainder of `a` by 12, given its quotient. */
  lemma ModTwelve(a: int, q: int, r: int)
    requires a == 12 * q + r && 0 <= r < 12
    ensures a % 12 == r
  {
  }

  /** December for a January start, otherwise the month before the start. */
  lemma EndMonthOf(start: int)
    requires 1 <= start <= 12
    ensures EndMonth(start) == if start == 1 then 12 else start - 1
  {
    if start == 1 {
      ModTwelve(start + 10, 0, 11);
    } else {
      ModTwelve(start + 10, 1, start - 2);
    }
  }

  /** The end of the fiscal year containing `today`, for any start month: the 28th of
      the month before `start`, in the calendar year in which that month next comes. */
  function FiscalYearEnd(today: Date, start: int): (r: Result<Date, TimeError>)
    requires ValidToday(today)
    ensures r == Failure(EndMonthOutOfRange) <==> !(1 <= start <= 12)
    ensures 1 <= start <= 12 && today.year < MaxYear ==> r.Success?
    ensures r.Success? ==> r.value.month == EndMonth(start) && r.value.day == EndDay
    ensures r.Success? ==> today.year <= r.value.year <= today.year + 1
    ensures r.Success? ==> (r.value.year == today.year <==> today.month <= r.value.month)
  {
    if !(1 <= start <= 12) then Failure(EndMonthOutOfRange)
    else
      var endYear := if today.month <= EndMonth(start) then today.year else today.year + 1;
      if endYear > MaxYear then Failure(EndYearOutOfRange)
      else Success(Date(endYear, EndMonth(start), EndDay))
  }

  /** Whole months left in the fiscal year and whole months elapsed, for any start month. */
  function MonthsRemaining(today: Date, start: int): (r: Result<MonthsLeft, TimeError>)
    requires ValidToday(today)
    ensures r.Success? ==> r.value.remaining + r.value.elapsed == MonthsPerYear
    ensures r.Success? ==> r.value.remaining == (start - 1 - today.month) % 12
    ensures r.Success? ==> r.value.elapsed == PeriodOfMonth(today.month, start)
    ensures 1 <= start <= 12 && today.year < MaxYear ==> r.Success?
  {
    match FiscalYearEnd(today, start)
    case Failure(e) => Failure(e)
    case Success(end) =>
      RemainingIsModular(today.month, start, end.month, end.year - today.year);
      var remaining := MonthsUntil(today.month, end.month, end.year - today.year);
      Success(MonthsLeft(remaining, MonthsPerYear - remaining))
  }

  /** Whole months from `month` to `endMonth` of the year `years` calendar years on. */
  function MonthsUntil(month: int, endMonth: int, years: int): int {
    years * MonthsPerYear + endMonth - month
  }

  lemma RemainingIsModular(month: int, start: int, endMonth: int, years: int)
    requires 1 <= month <= 12 && 1 <= start <= 12
    requires endMonth == EndMonth(start)
    requires years == (if month <= endMonth then 0 else 1)
    ensures MonthsUntil(month, endMonth, years) == (start - 1 - month) % 12
    ensures MonthsPerYear - MonthsUntil(month, endMonth, years) == PeriodOfMonth(month, start)
  {
    EndMonthOf(start);
    var d := start - 1 - month;
    if start == 1 {
      if month == 12 {
        ModTwelve(d, -1, 0);
        ModTwelve(month - start, 0, 11);
      } else {
        ModTwelve(d, -1, 12 - month);
        ModTwelve(month - start, 0, month - 1);
      }
    } else if month <= start - 1 {
      ModTwelve(d, 0, d);
      ModTwelve(month - start, -1, month - start + 12);
    } else {
      ModTwelve(d, -1, d + 12);
      ModTwelve(month - start, 0, month - start);
    }
  }

  /** For every start month but January the dashboard's figures are the intended ones. */
  lemma AsWrittenAgreesAfterJanuary(today: Date, start: int)
    requires ValidToday(today) && 2 <= start <= 12
    ensures MonthsRemainingAsWritten(today, start) == MonthsRemaining(today, start)
  {
    assert EndMonth(start) == start - 1;
  }

  /** A fiscal year starting in January makes the dashboard ask for month 0 and fail,
      where the intended figures exist. */
  lemma JanuaryStartFails(today: Date)
    requires ValidToday(today)
    ensures MonthsRemainingAsWritten(today, 1).Failure?
    ensures MonthsRemaining(today, 1).Success?
    ensures MonthsRemaining(today, 1).value.remaining == 12 - today.month
  {
    assert EndMonth(1) == 12;
  }
}
