/** The fiscal year table: the exclusive "current" flag kept by FiscalYear.save,
    and the single-row lookups `get(is_current=True)` and `get(year=...)`. */
module FiscalYears {
  import opened Wrappers
  import opened Schema

  /** The two ways `QuerySet.get` fails. */
  datatype LookupError = DoesNotExist | MultipleObjectsReturned

  /** The year column is a 32-bit integer, and its unique index rejects a second row
      for the same year. */
  datatype SaveError = YearOutOfRange | DuplicateYear

  type Table = map<Id, FiscalYear>

  function CurrentIds(t: Table): set<Id> {
    set id | id in t && t[id].isCurrent
  }

  predicate AtMostOneCurrent(t: Table) {
    forall i, j :: i in t && j in t && t[i].isCurrent && t[j].isCurrent ==> i == j
  }

  predicate YearsUnique(t: Table) {
    forall i, j :: i in t && j in t && i != j ==> t[i].year != t[j].year
  }

  /** Every row except `id` with its flag cleared, the other fields kept. */
  function ClearOthers(t: Table, id: Id): (r: Table)
    ensures r.Keys == t.Keys
    ensures forall j :: j in t && j != id ==> r[j] == FiscalYear(t[j].year, false)
    ensures id in t ==> r[id] == t[id]
  {
    map j | j in t :: if j == id then t[j] else FiscalYear(t[j].year, false)
  }

  /** Saves `fy` under primary key `id` (an update when `id` is present, an insert otherwise).
      A current year first clears the flag on every other row; the write is one
      transaction, so a year that does not fit or is taken leaves the table as it was. */
  function Save(t: Table, id: Id, fy: FiscalYear): (r: Result<Table, SaveError>)
    ensures r == Failure(YearOutOfRange) <==> !FitsIntegerColumn(fy.year)
    ensures r.Success? <==> (FitsIntegerColumn(fy.year) && forall j :: j in t && j != id ==> t[j].year != fy.year)
    ensures r.Success? ==> r.value.Keys == t.Keys + {id} && r.value[id] == fy
    ensures r.Success? ==> forall j :: j in t && j != id ==> r.value[j].year == t[j].year
    ensures r.Success? && fy.isCurrent ==> forall j :: j in t && j != id ==> !r.value[j].isCurrent
    ensures r.Success? && fy.isCurrent ==> CurrentIds(r.value) == {id}
    ensures r.Success? && !fy.isCurrent ==> forall j :: j in t && j != id ==> r.value[j] == t[j]
    ensures r.Success? && YearsUnique(t) ==> YearsUnique(r.value)
    ensures r.Success? && AtMostOneCurrent(t) ==> AtMostOneCurrent(r.value)
  {
    if !FitsIntegerColumn(fy.year) then Failure(YearOutOfRange)
    else if exists j :: j in t && j != id && t[j].year == fy.year then Failure(DuplicateYear)
    else
      var cleared := if fy.isCurrent then ClearOthers(t, id) else t;
      Success(cleared[id := fy])
  }

  lemma NonEmptyHasMember(s: set<Id>)
    requires s != {}
    ensures exists x :: x in s
  {
    if forall x :: x !in s {
      assert false;
    }
  }

  /** `QuerySet.get(...)`: the key of the one row satisfying `p`, or the error Django raises. */
  function GetWhere(t: Table, p: FiscalYear -> bool): (r: Result<Id, LookupError>)
    ensures r.Success? ==> r.value in t && p(t[r.value])
    ensures r.Success? ==> forall j :: j in t && p(t[j]) ==> j == r.value
    ensures r == Failure(DoesNotExist) <==> forall j :: j in t ==> !p(t[j])
    ensures r == Failure(MultipleObjectsReturned) <==>
      exists i, j :: i in t && j in t && i != j && p(t[i]) && p(t[j])
  {
    var s := set j | j in t && p(t[j]);
    if s == {} then
      assert forall j :: j in t ==> !p(t[j]) by {
        forall j | j in t ensures !p(t[j]) {
          assert j !in s;
        }
      }
      Failure(DoesNotExist)
    else
      NonEmptyHasMember(s);
      var x :| x in s;
      if s == {x} then
        assert forall j :: j in t && p(t[j]) ==> j in s;
        Success(x)
      else
        NonEmptyHasMember(s - {x});
        var y :| y in s - {x};
        Failure(MultipleObjectsReturned)
  }

  /** `get_current_fiscal_year`: the key of the unique current row. */
  function CurrentFiscalYear(t: Table): (r: Result<Id, LookupError>)
    ensures r.Success? <==> exists id :: CurrentIds(t) == {id}
    ensures r.Success? ==> CurrentIds(t) == {r.value}
    ensures r == Failure(DoesNotExist) <==> CurrentIds(t) == {}
    ensures r == Failure(MultipleObjectsReturned) <==>
      exists i, j :: i in CurrentIds(t) && j in CurrentIds(t) && i != j
  {
    var r := GetWhere(t, (fy: FiscalYear) => fy.isCurrent);
    if r.Success? then
      assert CurrentIds(t) == {r.value};
      r
    else if r == Failure(DoesNotExist) then
      assert CurrentIds(t) == {};
      r
    else
      var i, j :| i in t && j in t && i != j && t[i].isCurrent && t[j].isCurrent;
      assert i in CurrentIds(t) && j in CurrentIds(t);
      r
  }

  /** The rows of the year before the year of row `cur`. */
  function PrevIds(t: Table, cur: Id): set<Id>
    requires cur in t
  {
    set j | j in t && t[j].year == t[cur].year - 1
  }

  /** The current year and the one before it, as both dashboard and opportunity
      views look them up: the current row first, then the row whose year is one less. */
  function CurrentAndPrevious(t: Table): (r: Result<(Id, Id), LookupError>)
    ensures r.Success? ==> CurrentIds(t) == {r.value.0} && PrevIds(t, r.value.0) == {r.value.1}
    ensures r.Success? ==> r.value.1 in t && t[r.value.1].year == t[r.value.0].year - 1
    ensures CurrentFiscalYear(t).Failure? ==> r.Failure? && r.error == CurrentFiscalYear(t).error
    ensures CurrentFiscalYear(t).Success? ==>
      var cur := CurrentFiscalYear(t).value;
      && (r.Success? <==> exists p :: PrevIds(t, cur) == {p})
      && (r == Failure(DoesNotExist) <==> PrevIds(t, cur) == {})
      && (r == Failure(MultipleObjectsReturned) <==>
            exists i, j :: i in PrevIds(t, cur) && j in PrevIds(t, cur) && i != j)
  {
    var cur :- CurrentFiscalYear(t);
    var prevYear := t[cur].year - 1;
    var prevs := PrevIds(t, cur);
    var g := GetWhere(t, (fy: FiscalYear) => fy.year == prevYear);
    match g
    case Success(prev) =>
      assert prevs == {prev};
      Success((cur, prev))
    case Failure(e) =>
      if e == DoesNotExist then
        assert prevs == {};
        Failure(e)
      else
        var i, j :| i in t && j in t && i != j && t[i].year == prevYear && t[j].year == prevYear;
        assert i in prevs && j in prevs;
        assert forall p :: prevs != {p};
        Failure(e)
  }

  /** An opportunity created without a fiscal year: the column default
      `get_current_fiscal_year` runs the current-year lookup, so the row gets the current
      year's key, or creating it fails with the lookup's error. */
  function NewOpportunityInCurrentYear(t: Table, brand: Id, businessUnit: Option<Id>, product: Id,
                                       target: Money): (r: Result<Opportunity, LookupError>)
    ensures r.Success? <==> exists id :: CurrentIds(t) == {id}
    ensures r == Failure(DoesNotExist) <==> CurrentIds(t) == {}
    ensures r.Failure? ==> r.error == CurrentFiscalYear(t).error
    ensures r.Success? ==> CurrentIds(t) == {r.value.fiscalYear}
    ensures r.Success? ==> r.value.status == OpActive && !r.value.approved && r.value.approvalUser.None?
    ensures r.Success? ==> r.value.brand == brand && r.value.businessUnit == businessUnit
                           && r.value.product == product && r.value.target == target
  {
    var cur :- CurrentFiscalYear(t);
    Success(NewOpportunity(brand, businessUnit, product, target, cur))
  }

  /** A period row created without a fiscal year takes the current year the same way. */
  function NewPeriodInCurrentYear(t: Table, performance: Id, period: int, revenue: Money)
    : (r: Result<PeriodPerformance, LookupError>)
    ensures r.Success? <==> exists id :: CurrentIds(t) == {id}
    ensures r == Failure(DoesNotExist) <==> CurrentIds(t) == {}
    ensures r.Failure? ==> r.error == CurrentFiscalYear(t).error
    ensures r.Success? ==> CurrentIds(t) == {r.value.fiscalYear}
    ensures r.Success? ==> r.value.opportunityPerformance == performance && r.value.period == period
                           && r.value.revenue == revenue && r.value.currency == ZAR
  {
    var cur :- CurrentFiscalYear(t);
    Success(PeriodPerformance(performance, period, revenue, ZAR, cur))
  }

  /** Once a year is saved as current, new opportunities default to it. */
  lemma SaveCurrentThenNewOpportunity(t: Table, id: Id, fy: FiscalYear, brand: Id,
                                      businessUnit: Option<Id>, product: Id, target: Money)
    requires fy.isCurrent
    requires Save(t, id, fy).Success?
    ensures NewOpportunityInCurrentYear(Save(t, id, fy).value, brand, businessUnit, product, target).Success?
    ensures NewOpportunityInCurrentYear(Save(t, id, fy).value, brand, businessUnit, product, target).value.fiscalYear == id
  {
    SaveCurrentThenLookup(t, id, fy);
  }

  /** After saving a current year, `get_current_fiscal_year` finds exactly that row. */
  lemma SaveCurrentThenLookup(t: Table, id: Id, fy: FiscalYear)
    requires fy.isCurrent
    requires Save(t, id, fy).Success?
    ensures CurrentFiscalYear(Save(t, id, fy).value) == Success(id)
  {
  }

  /** Saving a non-current year cannot introduce a second current row. */
  lemma SaveNotCurrentKeepsExclusivity(t: Table, id: Id, fy: FiscalYear)
    requires !fy.isCurrent
    requires AtMostOneCurrent(t)
    requires Save(t, id, fy).Success?
    ensures CurrentIds(Save(t, id, fy).value) == CurrentIds(t) - {id}
  {
  }
}
