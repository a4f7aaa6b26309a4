/** Revenue of one performance record: the total and the quarterly sums over its
    period rows, and the calendar month a fiscal period falls in. */
module Revenue {
  import opened Wrappers
  import opened Schema
  import opened Aggregates

  /** The revenue column of the given period rows. */
  function Revenues(rows: seq<PeriodPerformance>): (r: seq<Money>)
    ensures |r| == |rows|
    ensures forall i :: 0 <= i < |rows| ==> r[i] == rows[i].revenue
  {
    if |rows| == 0 then [] else [rows[0].revenue] + Revenues(rows[1..])
  }

  /** `filter(period__in=ps)` on a performance record's periods. */
  function PeriodsIn(rows: seq<PeriodPerformance>, ps: set<int>): (r: seq<PeriodPerformance>)
    ensures forall i :: 0 <= i < |r| ==> r[i].period in ps && r[i] in rows
    ensures (forall i :: 0 <= i < |rows| ==> rows[i].period in ps) ==> r == rows
    ensures (forall i :: 0 <= i < |rows| ==> rows[i].period !in ps) ==> r == []
  {
    if |rows| == 0 then []
    else if rows[0].period in ps then [rows[0]] + PeriodsIn(rows[1..], ps)
    else PeriodsIn(rows[1..], ps)
  }

  /** The period filter keeps every qualifying row, as often as it occurs, and no other. */
  lemma {:induction false} PeriodsInContents(rows: seq<PeriodPerformance>, ps: set<int>)
    ensures forall x: PeriodPerformance ::
      multiset(PeriodsIn(rows, ps))[x] == if x.period in ps then multiset(rows)[x] else 0
    decreases |rows|
  {
    if |rows| > 0 {
      PeriodsInContents(rows[1..], ps);
      assert rows == [rows[0]] + rows[1..];
      assert multiset(rows) == multiset{rows[0]} + multiset(rows[1..]);
      if rows[0].period in ps {
        var rest := PeriodsIn(rows[1..], ps);
        assert multiset([rows[0]] + rest) == multiset{rows[0]} + multiset(rest);
      }
    }
  }

  /** `OpportunityPerformance.total_revenue`: the sum of the period revenues, 0 when
      there are no period rows. */
  function TotalRevenue(rows: seq<PeriodPerformance>): (r: Money)
    ensures |rows| == 0 ==> r == 0
    ensures |rows| > 0 ==> r == rows[0].revenue + TotalRevenue(rows[1..])
  {
    SqlSum(Revenues(rows)).GetOr(0)
  }

  /** The periods of quarter `q`; no period for a quarter outside 1..4. */
  function QuarterPeriods(q: int): (ps: set<int>)
    ensures ps <= {1, 2, 3, 4, 5, 6, 7, 8, 9, 10, 11, 12}
    ensures !(1 <= q <= 4) <==> ps == {}
  {
    if q == 1 then {1, 2, 3}
    else if q == 2 then {4, 5, 6}
    else if q == 3 then {7, 8, 9}
    else if q == 4 then {10, 11, 12}
    else {}
  }

  /** Quarter q holds exactly the periods whose zero-based index divided by three is q - 1. */
  lemma QuarterMembership(p: int, q: int)
    ensures p in QuarterPeriods(q) <==> 1 <= p <= 12 && (p - 1) / 3 + 1 == q
  {
  }

  /** `get_quarterly_revenue(q)`: the revenue of the rows in quarter q, 0 when none. */
  function QuarterlyRevenue(rows: seq<PeriodPerformance>, q: int): (r: Money)
    ensures !(1 <= q <= 4) ==> r == 0
    ensures (forall i :: 0 <= i < |rows| ==> rows[i].period !in QuarterPeriods(q)) ==> r == 0
    ensures r == TotalRevenue(PeriodsIn(rows, QuarterPeriods(q)))
  {
    SqlSum(Revenues(PeriodsIn(rows, QuarterPeriods(q)))).GetOr(0)
  }

  /** The total of two batches of period rows is the sum of their totals. */
  lemma {:induction false} TotalRevenueAppend(a: seq<PeriodPerformance>, b: seq<PeriodPerformance>)
    ensures TotalRevenue(a + b) == TotalRevenue(a) + TotalRevenue(b)
    decreases |a|
  {
    if |a| == 0 {
      assert a + b == b;
    } else {
      assert (a + b)[1..] == a[1..] + b;
      TotalRevenueAppend(a[1..], b);
    }
  }

  /** The revenue of the rows in `ps`, taken apart at the first row. */
  lemma PeriodsInFirst(rows: seq<PeriodPerformance>, ps: set<int>)
    requires |rows| > 0
    ensures TotalRevenue(PeriodsIn(rows, ps))
         == (if rows[0].period in ps then rows[0].revenue else 0) + TotalRevenue(PeriodsIn(rows[1..], ps))
  {
    if rows[0].period in ps {
      TotalRevenueAppend([rows[0]], PeriodsIn(rows[1..], ps));
    }
  }

  /** With every period in 1..12, the four quarters split the total exactly. */
  lemma {:induction false} QuartersPartitionTotal(rows: seq<PeriodPerformance>)
    requires forall i :: 0 <= i < |rows| ==> 1 <= rows[i].period <= 12
    ensures QuarterlyRevenue(rows, 1) + QuarterlyRevenue(rows, 2) + QuarterlyRevenue(rows, 3)
            + QuarterlyRevenue(rows, 4) == TotalRevenue(rows)
    decreases |rows|
  {
    if |rows| > 0 {
      var tail := rows[1..];
      QuartersPartitionTotal(tail);
      var p, v := rows[0].period, rows[0].revenue;
      PeriodsInFirst(rows, QuarterPeriods(1));
      PeriodsInFirst(rows, QuarterPeriods(2));
      PeriodsInFirst(rows, QuarterPeriods(3));
      PeriodsInFirst(rows, QuarterPeriods(4));
      var t1, t2, t3, t4 := QuarterlyRevenue(tail, 1), QuarterlyRevenue(tail, 2),
                            QuarterlyRevenue(tail, 3), QuarterlyRevenue(tail, 4);
      var hit1, hit2, hit3, hit4 := p in QuarterPeriods(1), p in QuarterPeriods(2),
                                    p in QuarterPeriods(3), p in QuarterPeriods(4);
      assert QuarterlyRevenue(rows, 1) == (if hit1 then v else 0) + t1;
      assert QuarterlyRevenue(rows, 2) == (if hit2 then v else 0) + t2;
      assert QuarterlyRevenue(rows, 3) == (if hit3 then v else 0) + t3;
      assert QuarterlyRevenue(rows, 4) == (if hit4 then v else 0) + t4;
      assert (if hit1 then v else 0) + (if hit2 then v else 0) + (if hit3 then v else 0)
             + (if hit4 then v else 0) == v by {
        QuarterMembership(p, 1);
        QuarterMembership(p, 2);
        QuarterMembership(p, 3);
        QuarterMembership(p, 4);
      }
      assert TotalRevenue(rows) == v + TotalRevenue(tail);
    }
  }

  /** A date of the proleptic Gregorian calendar as Python's `date` holds it. */
  datatype Date = Date(year: int, month: int, day: int)

  /** `date(...)` rejects years outside 1..9999. */
  datatype DateError = YearOutOfRange

  const MinYear: int := 1
  const MaxYear: int := 9999

  /** The calendar month of fiscal period `period` when the fiscal year starts in month
      `start`. Python's `%` floors; with the positive divisor 12 it agrees with Dafny's. */
  function FiscalMonth(period: int, start: int): (m: int)
    ensures 1 <= m <= 12
  {
    (period - 1 + start - 1) % 12 + 1
  }

  /** The fiscal period a calendar month falls in: the inverse of `FiscalMonth`. */
  function PeriodOfMonth(month: int, start: int): (p: int)
    ensures 1 <= p <= 12
  {
    (month - start) % 12 + 1
  }

  lemma ModShift(a: int, k: int)
    ensures (a % 12 + k) % 12 == (a + k) % 12
  {
    var q := a / 12;
    assert a == 12 * q + a % 12;
    assert a + k == (a % 12 + k) + 12 * q;
  }

  /** Mapping a period to its month and back gives the period again. */
  lemma PeriodMonthRoundTrip(period: int, start: int)
    requires 1 <= period <= 12
    ensures PeriodOfMonth(FiscalMonth(period, start), start) == period
  {
    ModShift(period - 1 + start - 1, 1 - start);
    assert (period - 1 + start - 1 + 1 - start) == period - 1;
  }

  /** Mapping a month to its period and back gives the month again. */
  lemma MonthPeriodRoundTrip(month: int, start: int)
    requires 1 <= month <= 12
    ensures FiscalMonth(PeriodOfMonth(month, start), start) == month
  {
    ModShift(month - start, start - 1);
    assert month - start + start - 1 == month - 1;
  }

  /** For a fixed start month, different periods fall in different months. */
  lemma FiscalMonthInjective(p1: int, p2: int, start: int)
    requires 1 <= p1 <= 12 && 1 <= p2 <= 12
    requires FiscalMonth(p1, start) == FiscalMonth(p2, start)
    ensures p1 == p2
  {
    PeriodMonthRoundTrip(p1, start);
    PeriodMonthRoundTrip(p2, start);
  }

  lemma PeriodOfCalendarMonth(period: int, start: int)
    ensures 1 <= period <= 12 ==> PeriodOfMonth(FiscalMonth(period, start), start) == period
  {
    if 1 <= period <= 12 {
      PeriodMonthRoundTrip(period, start);
    }
  }

  /** `PeriodPerformance.calendar_month`: the first day of the period's month, dated in
      the fiscal year's own year even when the month has wrapped past December. */
  function CalendarMonth(period: int, start: int, fiscalYear: FiscalYear): (r: Result<Date, DateError>)
    ensures r.Success? <==> MinYear <= fiscalYear.year <= MaxYear
    ensures r.Success? ==> r.value.year == fiscalYear.year && r.value.day == 1
    ensures r.Success? ==> 1 <= r.value.month <= 12
    ensures r.Success? && 1 <= period <= 12 ==> PeriodOfMonth(r.value.month, start) == period
    ensures r.Success? && period == 1 && 1 <= start <= 12 ==> r.value.month == start
  {
    PeriodOfCalendarMonth(period, start);
    var month := FiscalMonth(period, start);
    if fiscalYear.year < MinYear || fiscalYear.year > MaxYear then Failure(YearOutOfRange)
    else Success(Date(fiscalYear.year, month, 1))
  }
}
