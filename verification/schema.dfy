/** The entities of the portfolio planner as the migrations define them:
    field domains, defaults and the status vocabularies. */
module Schema {
  import opened Wrappers

  /** Primary keys of every table are integers. */
  type Id = int
  type UserId = int

  /** A money amount in cents of the one configured currency. */
  type Money = int

  /** MoneyField(max_digits=14, decimal_places=2): 14 digits in all, 2 of them after the point. */
  const MaxDigits: nat := 14
  const DecimalPlaces: nat := 2

  /** The only currency the deployment accepts. */
  datatype Currency = ZAR

  function Pow10(n: nat): (r: nat)
    ensures r >= 1
  {
    if n == 0 then 1 else 10 * Pow10(n - 1)
  }

  /** An amount in cents fits a decimal column of `MaxDigits` digits exactly when
      its absolute value has at most `MaxDigits` decimal digits. */
  predicate FitsMoneyColumn(cents: Money) {
    -(Pow10(MaxDigits) as int) < cents < Pow10(MaxDigits)
  }

  /** The `integer` columns (year, period) hold 32-bit signed values. */
  predicate FitsIntegerColumn(x: int) {
    -0x8000_0000 <= x < 0x8000_0000
  }

  /** The name columns and the brand's client code are `varchar(191)`, counted in characters. */
  const CharMaxLength: nat := 191

  predicate FitsCharColumn(name: string) {
    |name| <= CharMaxLength
  }

  /** Status vocabulary shared by media groups, agencies, brands, business units and products. */
  datatype RecordStatus = Active | Disabled

  /** The six statuses of an opportunity. */
  datatype OpportunityStatus = OpActive | OpDisabled | Expired | Won | Lost | Abandoned

  /** The value stored in the status column for each opportunity status. */
  function StatusName(s: OpportunityStatus): string {
    match s
    case OpActive => "active"
    case OpDisabled => "disabled"
    case Expired => "expired"
    case Won => "won"
    case Lost => "lost"
    case Abandoned => "abandoned"
  }

  /** Reads a status column value back. The column is a plain `varchar(100)` whose
      choices only form validation enforces; this parser names the six it offers. */
  function ParseStatus(s: string): (r: Option<OpportunityStatus>)
    ensures r.Some? ==> StatusName(r.value) == s
    ensures s in {"active", "disabled", "expired", "won", "lost", "abandoned"} <==> r.Some?
  {
    if s == "active" then Some(OpActive)
    else if s == "disabled" then Some(OpDisabled)
    else if s == "expired" then Some(Expired)
    else if s == "won" then Some(Won)
    else if s == "lost" then Some(Lost)
    else if s == "abandoned" then Some(Abandoned)
    else None
  }

  /** Every status survives a round trip through its column value. */
  lemma StatusRoundTrip(s: OpportunityStatus)
    ensures ParseStatus(StatusName(s)) == Some(s)
  {
  }

  datatype MediaGroup = MediaGroup(name: string, description: Option<string>, status: RecordStatus)

  datatype Agency = Agency(name: string, description: Option<string>, status: RecordStatus,
                           mediaGroup: Option<Id>)

  /** An organisation business unit and the user who manages it (a later column; NULL when unset). */
  datatype OrgBusinessUnit = OrgBusinessUnit(name: string, status: RecordStatus, manager: Option<UserId>)

  datatype Brand = Brand(name: string, clientCode: Option<string>, description: Option<string>,
                         status: RecordStatus, agency: Option<Id>, orgBusinessUnit: Id, user: UserId)

  datatype BrandBusinessUnit = BrandBusinessUnit(name: string, description: Option<string>,
                                                 status: RecordStatus, brand: Id, user: UserId)

  datatype Product = Product(name: string, description: Option<string>, status: RecordStatus)

  datatype FiscalYear = FiscalYear(year: int, isCurrent: bool)

  datatype Opportunity = Opportunity(
    description: Option<string>,
    status: OpportunityStatus,
    target: Money,
    currency: Currency,
    approved: bool,
    approvalUser: Option<UserId>,
    brand: Id,
    businessUnit: Option<Id>,
    product: Id,
    fiscalYear: Id)

  datatype OpportunityPerformance = OpportunityPerformance(opportunity: Id, fiscalYear: Id)

  datatype PeriodPerformance = PeriodPerformance(
    opportunityPerformance: Id,
    period: int,
    revenue: Money,
    currency: Currency,
    fiscalYear: Id)

  /** The name and description of the business unit created for every new client or brand. */
  const DefaultUnitName: string := "Default Business Unit"
  const DefaultUnitDescription: string := "Automatically generated default business unit"

  /** The primary key a save writes to: the given one, or the next free one for a row
      saved without a key. */
  function KeyFor(nextId: Id, pk: Option<Id>): Id {
    pk.GetOr(nextId)
  }

  /** The key counter after a save: it stays above every key in use, explicit ones included.
      A PostgreSQL sequence is not moved by a row saved with an explicit key. */
  function Advance(nextId: Id, pk: Option<Id>): (n: Id)
    ensures n > KeyFor(nextId, pk) && n >= nextId
  {
    if pk.None? then nextId + 1
    else if pk.value >= nextId then pk.value + 1
    else nextId
  }

  /** A fiscal year row as created without an explicit flag. */
  function NewFiscalYear(year: int): (fy: FiscalYear)
    ensures fy.year == year && !fy.isCurrent
  {
    FiscalYear(year, false)
  }

  /** An opportunity as created with only its required fields given: the status, approval,
      approver and currency take their column defaults. The fiscal year is a parameter here;
      `FiscalYears.NewOpportunityInCurrentYear` fills it in as the column default does. */
  function NewOpportunity(brand: Id, businessUnit: Option<Id>, product: Id, target: Money,
                          fiscalYear: Id): (o: Opportunity)
    ensures o.status == OpActive && !o.approved && o.approvalUser.None? && o.currency == ZAR
    ensures o.brand == brand && o.businessUnit == businessUnit && o.product == product
    ensures o.target == target && o.fiscalYear == fiscalYear && o.description.None?
  {
    Opportunity(None, OpActive, target, ZAR, false, None, brand, businessUnit, product, fiscalYear)
  }
}
