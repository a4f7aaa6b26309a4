/** The uniqueness constraints of the schema and the field validators, as checks
    a save must pass before the row is written. A table is a map from primary key
    to row; saving under a key that is present updates that row, otherwise inserts. */
module Constraints {
  import opened Wrappers
  import opened Schema

  /** Why the database refuses a write. `DuplicateKey` is the IntegrityError of a unique
      index; the others are the DataError PostgreSQL raises when a value does not fit its
      column, which it finds before it consults any index. */
  datatype SaveError = DuplicateKey | IntegerOutOfRange | NumericFieldOverflow | ValueTooLong
  datatype ValidationError = PeriodOutOfRange | AmountTooWide

  /** At most one row per (opportunity performance, period). */
  predicate PeriodsUnique(m: map<Id, PeriodPerformance>) {
    forall i, j :: i in m && j in m && i != j ==>
      m[i].opportunityPerformance != m[j].opportunityPerformance || m[i].period != m[j].period
  }

  /** At most one row per (opportunity, fiscal year). */
  predicate PerformancesUnique(m: map<Id, OpportunityPerformance>) {
    forall i, j :: i in m && j in m && i != j ==>
      m[i].opportunity != m[j].opportunity || m[i].fiscalYear != m[j].fiscalYear
  }

  /** Two opportunities collide on (brand, business unit, product, fiscal year). The business
      unit column is nullable and a NULL never equals anything in a unique index, so two rows
      without a business unit never collide. */
  predicate SameOpportunityKey(a: Opportunity, b: Opportunity) {
    && a.businessUnit.Some? && b.businessUnit.Some?
    && a.brand == b.brand && a.businessUnit == b.businessUnit
    && a.product == b.product && a.fiscalYear == b.fiscalYear
  }

  predicate OpportunitiesUnique(m: map<Id, Opportunity>) {
    forall i, j :: i in m && j in m && i != j ==> !SameOpportunityKey(m[i], m[j])
  }

  /** No two rows carry the same name. */
  predicate NamesUnique<T>(m: map<Id, T>, name: T -> string) {
    forall i, j :: i in m && j in m && i != j ==> name(m[i]) != name(m[j])
  }

  /** Saves a period row. The period must fit its integer column and the revenue its
      decimal column, in column order; then the row is rejected when another row already
      covers the same performance record and period. */
  function SavePeriodPerformance(m: map<Id, PeriodPerformance>, id: Id, row: PeriodPerformance)
    : (r: Result<map<Id, PeriodPerformance>, SaveError>)
    ensures r == Failure(IntegerOutOfRange) <==> !FitsIntegerColumn(row.period)
    ensures r == Failure(NumericFieldOverflow) <==> FitsIntegerColumn(row.period) && !FitsMoneyColumn(row.revenue)
    ensures r.Success? <==> (FitsIntegerColumn(row.period) && FitsMoneyColumn(row.revenue) &&
      forall j :: j in m && j != id ==>
        m[j].opportunityPerformance != row.opportunityPerformance || m[j].period != row.period)
    ensures r.Success? ==> id in r.value && r.value[id] == row
    ensures r.Success? ==> forall j :: j != id ==> (j in r.value <==> j in m)
    ensures r.Success? ==> forall j :: j in m && j != id ==> r.value[j] == m[j]
    ensures r.Success? && PeriodsUnique(m) ==> PeriodsUnique(r.value)
  {
    if !FitsIntegerColumn(row.period) then Failure(IntegerOutOfRange)
    else if !FitsMoneyColumn(row.revenue) then Failure(NumericFieldOverflow)
    else if exists j :: j in m && j != id && m[j].opportunityPerformance == row.opportunityPerformance
                  && m[j].period == row.period
    then Failure(DuplicateKey)
    else Success(m[id := row])
  }

  /** Saves a performance record; rejected when another record already exists for the
      same opportunity and fiscal year. */
  function SaveOpportunityPerformance(m: map<Id, OpportunityPerformance>, id: Id, row: OpportunityPerformance)
    : (r: Result<map<Id, OpportunityPerformance>, SaveError>)
    ensures r.Success? <==> forall j :: j in m && j != id ==>
      m[j].opportunity != row.opportunity || m[j].fiscalYear != row.fiscalYear
    ensures r.Success? ==> id in r.value && r.value[id] == row
    ensures r.Success? ==> forall j :: j != id ==> (j in r.value <==> j in m)
    ensures r.Success? ==> forall j :: j in m && j != id ==> r.value[j] == m[j]
    ensures r.Success? && PerformancesUnique(m) ==> PerformancesUnique(r.value)
  {
    if exists j :: j in m && j != id && m[j].opportunity == row.opportunity
                  && m[j].fiscalYear == row.fiscalYear
    then Failure(DuplicateKey)
    else Success(m[id := row])
  }

  /** Saves an opportunity: the target must fit its decimal column, then the composite
      key constraint applies. */
  function SaveOpportunityRow(m: map<Id, Opportunity>, id: Id, row: Opportunity)
    : (r: Result<map<Id, Opportunity>, SaveError>)
    ensures r == Failure(NumericFieldOverflow) <==> !FitsMoneyColumn(row.target)
    ensures r.Success? <==> (FitsMoneyColumn(row.target) &&
      forall j :: j in m && j != id ==> !SameOpportunityKey(m[j], row))
    ensures row.businessUnit.None? && FitsMoneyColumn(row.target) ==> r.Success?
    ensures r.Success? ==> id in r.value && r.value[id] == row
    ensures r.Success? ==> forall j :: j != id ==> (j in r.value <==> j in m)
    ensures r.Success? ==> forall j :: j in m && j != id ==> r.value[j] == m[j]
    ensures r.Success? && OpportunitiesUnique(m) ==> OpportunitiesUnique(r.value)
  {
    if !FitsMoneyColumn(row.target) then Failure(NumericFieldOverflow)
    else if exists j :: j in m && j != id && SameOpportunityKey(m[j], row)
    then Failure(DuplicateKey)
    else Success(m[id := row])
  }

  /** Saves a row of a table whose name column is unique (media groups, agencies,
      organisation business units, brands and products): the name must fit its
      `varchar(191)` column and no other row may carry it. */
  function SaveNamed<T>(m: map<Id, T>, id: Id, row: T, name: T -> string)
    : (r: Result<map<Id, T>, SaveError>)
    ensures r == Failure(ValueTooLong) <==> !FitsCharColumn(name(row))
    ensures r.Success? <==> (FitsCharColumn(name(row)) &&
      forall j :: j in m && j != id ==> name(m[j]) != name(row))
    ensures r.Success? ==> id in r.value && r.value[id] == row
    ensures r.Success? ==> forall j :: j != id ==> (j in r.value <==> j in m)
    ensures r.Success? ==> forall j :: j in m && j != id ==> r.value[j] == m[j]
    ensures r.Success? && NamesUnique(m, name) ==> NamesUnique(r.value, name)
  {
    if !FitsCharColumn(name(row)) then Failure(ValueTooLong)
    else if exists j :: j in m && j != id && name(m[j]) == name(row)
    then Failure(DuplicateKey)
    else Success(m[id := row])
  }

  /** The model-level validation of a period row: the period validators bound it to
      1..12 and the decimal field bounds the amount. Only full validation runs the period
      validators; a bare save checks the widths alone, in `SavePeriodPerformance`. */
  function CleanPeriodPerformance(row: PeriodPerformance): (r: Result<PeriodPerformance, ValidationError>)
    ensures r.Success? <==> 1 <= row.period <= 12 && FitsMoneyColumn(row.revenue)
    ensures r.Success? ==> r.value == row
    ensures !(1 <= row.period <= 12) ==> r == Failure(PeriodOutOfRange)
  {
    if row.period < 1 || row.period > 12 then Failure(PeriodOutOfRange)
    else if !FitsMoneyColumn(row.revenue) then Failure(AmountTooWide)
    else Success(row)
  }
}
