/** The filters that scope brands and opportunities to the requesting user's role.
    Roles are tried in the order account manager, business unit head, sales director;
    the user's role assignments are the set of roles `has_role` answers yes for. */
module RoleScopes {
  import opened Wrappers
  import opened Schema
  import FiscalYears

  datatype Role = AccountManager | BusinessUnitHead | SalesDirector

  /** The role whose rule applies: the first one held, in priority order. */
  function EffectiveRole(roles: set<Role>): (r: Option<Role>)
    ensures r.None? <==> roles == {}
    ensures r.Some? ==> r.value in roles
    ensures r == Some(BusinessUnitHead) ==> AccountManager !in roles
    ensures r == Some(SalesDirector) ==> AccountManager !in roles && BusinessUnitHead !in roles
  {
    if AccountManager in roles then Some(AccountManager)
    else if BusinessUnitHead in roles then Some(BusinessUnitHead)
    else if SalesDirector in roles then Some(SalesDirector)
    else
      assert forall x :: x in roles ==> x == AccountManager || x == BusinessUnitHead || x == SalesDirector;
      None
  }

  /** Brand ownership through the organisation business unit: the unit's manager is `user`. */
  predicate ManagedBy(b: Brand, user: UserId, orgUnits: map<Id, OrgBusinessUnit>) {
    b.orgBusinessUnit in orgUnits && orgUnits[b.orgBusinessUnit].manager == Some(user)
  }

  // ---------------------------------------------------------------- brands

  /** The keyword filter dictionary for brands: a status, and optionally the owning user or
      the manager of the brand's organisation business unit. */
  datatype BrandFilter = BrandFilter(status: RecordStatus, user: Option<UserId>, orgUnitManager: Option<UserId>)

  /** `get_brand_role_filters`. */
  function BrandRoleFilters(user: UserId, roles: set<Role>): (f: BrandFilter)
    ensures f.status == Active
    ensures f.user.Some? <==> AccountManager in roles
    ensures f.orgUnitManager.Some? <==> AccountManager !in roles && BusinessUnitHead in roles
    ensures f.user.Some? ==> f.user.value == user
    ensures f.orgUnitManager.Some? ==> f.orgUnitManager.value == user
  {
    var base := BrandFilter(Active, None, None);
    if AccountManager in roles then base.(user := Some(user))
    else if BusinessUnitHead in roles then base.(orgUnitManager := Some(user))
    else base
  }

  /** What `Brand.objects.filter(**filters)` keeps. */
  predicate BrandMatches(f: BrandFilter, b: Brand, orgUnits: map<Id, OrgBusinessUnit>) {
    && b.status == f.status
    && (f.user.Some? ==> b.user == f.user.value)
    && (f.orgUnitManager.Some? ==> ManagedBy(b, f.orgUnitManager.value, orgUnits))
  }

  function VisibleBrands(f: BrandFilter, brands: map<Id, Brand>, orgUnits: map<Id, OrgBusinessUnit>): set<Id> {
    set k | k in brands && BrandMatches(f, brands[k], orgUnits)
  }

  /** The brand scope of each effective role, stated directly. */
  predicate InBrandScope(role: Option<Role>, user: UserId, b: Brand, orgUnits: map<Id, OrgBusinessUnit>) {
    b.status == Active &&
    match role
    case Some(AccountManager) => b.user == user
    case Some(BusinessUnitHead) => ManagedBy(b, user, orgUnits)
    case Some(SalesDirector) => true
    case None => true
  }

  /** The filter keeps exactly the active brands in the scope of the user's first role. */
  lemma BrandFilterMatchesScope(user: UserId, roles: set<Role>, brands: map<Id, Brand>,
                                orgUnits: map<Id, OrgBusinessUnit>)
    ensures VisibleBrands(BrandRoleFilters(user, roles), brands, orgUnits)
         == set k | k in brands && InBrandScope(EffectiveRole(roles), user, brands[k], orgUnits)
  {
    var f := BrandRoleFilters(user, roles);
    var role := EffectiveRole(roles);
    forall k | k in brands
      ensures BrandMatches(f, brands[k], orgUnits) <==> InBrandScope(role, user, brands[k], orgUnits)
    {
      if AccountManager in roles {
        assert f == BrandFilter(Active, Some(user), None);
      } else if BusinessUnitHead in roles {
        assert f == BrandFilter(Active, None, Some(user));
      } else {
        assert f == BrandFilter(Active, None, None);
      }
    }
  }

  /** A user with no role is not fenced in: every active brand is visible. */
  lemma NoRoleSeesEveryActiveBrand(user: UserId, brands: map<Id, Brand>, orgUnits: map<Id, OrgBusinessUnit>)
    ensures VisibleBrands(BrandRoleFilters(user, {}), brands, orgUnits)
         == set k | k in brands && brands[k].status == Active
  {
    BrandFilterMatchesScope(user, {}, brands, orgUnits);
  }

  /** Whatever roles the user holds, the visible brands are among those a sales director sees. */
  lemma BrandScopeWithinSalesDirector(user: UserId, roles: set<Role>, brands: map<Id, Brand>,
                                      orgUnits: map<Id, OrgBusinessUnit>)
    ensures VisibleBrands(BrandRoleFilters(user, roles), brands, orgUnits)
         <= VisibleBrands(BrandRoleFilters(user, {SalesDirector}), brands, orgUnits)
  {
    BrandFilterMatchesScope(user, roles, brands, orgUnits);
    BrandFilterMatchesScope(user, {SalesDirector}, brands, orgUnits);
  }

  // ---------------------------------------------------------- opportunities

  /** The opportunity query: either the empty queryset, or a keyword filter on status,
      fiscal year and optionally the brand's user or the brand's unit manager, with revenue
      taken from `revenueYear`. */
  datatype OpportunityQuery =
    | NoRows
    | Rows(statuses: set<OpportunityStatus>, fiscalYear: Id, brandUser: Option<UserId>,
           brandUnitManager: Option<UserId>, revenueYear: Id)

  /** The statuses an opportunity listing shows. */
  const ListedStatuses: set<OpportunityStatus> := {OpActive, Won, Lost}

  /** `role_based_opportunities`: looks up the current and previous fiscal years first (so
      their absence is an error for every user), then scopes by role; a user with no role
      gets the empty queryset. */
  function RoleBasedOpportunities(user: UserId, roles: set<Role>, years: FiscalYears.Table)
    : (r: Result<OpportunityQuery, FiscalYears.LookupError>)
    ensures r.Failure? <==> FiscalYears.CurrentAndPrevious(years).Failure?
    ensures r.Success? ==> (r.value.NoRows? <==> roles == {})
    ensures r.Success? && r.value.Rows? ==>
      && r.value.statuses == ListedStatuses
      && (r.value.fiscalYear, r.value.revenueYear) == FiscalYears.CurrentAndPrevious(years).value
      && (r.value.brandUser.Some? <==> AccountManager in roles)
      && (r.value.brandUnitManager.Some? <==> AccountManager !in roles && BusinessUnitHead in roles)
      && (r.value.brandUser.Some? ==> r.value.brandUser.value == user)
      && (r.value.brandUnitManager.Some? ==> r.value.brandUnitManager.value == user)
  {
    var (current, previous) :- FiscalYears.CurrentAndPrevious(years);
    var base := Rows(ListedStatuses, current, None, None, previous);
    if AccountManager in roles then Success(base.(brandUser := Some(user)))
    else if BusinessUnitHead in roles then Success(base.(brandUnitManager := Some(user)))
    else if SalesDirector in roles then Success(base)
    else
      assert roles == {} by {
        assert forall x :: x in roles ==> x == AccountManager || x == BusinessUnitHead || x == SalesDirector;
      }
      Success(NoRows)
  }

  /** What the query keeps, following the brand foreign key for the brand conditions. */
  predicate OpportunityMatches(q: OpportunityQuery, o: Opportunity, brands: map<Id, Brand>,
                               orgUnits: map<Id, OrgBusinessUnit>) {
    match q
    case NoRows => false
    case Rows(statuses, fy, brandUser, unitManager, _) =>
      && o.status in statuses
      && o.fiscalYear == fy
      && (brandUser.Some? ==> o.brand in brands && brands[o.brand].user == brandUser.value)
      && (unitManager.Some? ==> o.brand in brands && ManagedBy(brands[o.brand], unitManager.value, orgUnits))
  }

  function SelectOpportunities(q: OpportunityQuery, opportunities: map<Id, Opportunity>,
                               brands: map<Id, Brand>, orgUnits: map<Id, OrgBusinessUnit>): set<Id> {
    set k | k in opportunities && OpportunityMatches(q, opportunities[k], brands, orgUnits)
  }

  /** The opportunity scope of each effective role, stated directly; no role sees nothing. */
  predicate InOpportunityScope(role: Option<Role>, user: UserId, current: Id, o: Opportunity,
                               brands: map<Id, Brand>, orgUnits: map<Id, OrgBusinessUnit>) {
    match role
    case None => false
    case Some(r) =>
      && o.status in ListedStatuses
      && o.fiscalYear == current
      && match r
         case AccountManager => o.brand in brands && brands[o.brand].user == user
         case BusinessUnitHead => o.brand in brands && ManagedBy(brands[o.brand], user, orgUnits)
         case SalesDirector => true
  }

  /** The query keeps exactly the current-year listed opportunities in the user's scope. */
  lemma OpportunityQueryMatchesScope(user: UserId, roles: set<Role>, years: FiscalYears.Table,
                                     opportunities: map<Id, Opportunity>, brands: map<Id, Brand>,
                                     orgUnits: map<Id, OrgBusinessUnit>)
    requires RoleBasedOpportunities(user, roles, years).Success?
    ensures var q := RoleBasedOpportunities(user, roles, years).value;
            var current := FiscalYears.CurrentAndPrevious(years).value.0;
            SelectOpportunities(q, opportunities, brands, orgUnits)
            == set k | k in opportunities
                       && InOpportunityScope(EffectiveRole(roles), user, current, opportunities[k], brands, orgUnits)
  {
    var q := RoleBasedOpportunities(user, roles, years).value;
    var (current, previous) := FiscalYears.CurrentAndPrevious(years).value;
    var role := EffectiveRole(roles);
    forall k | k in opportunities
      ensures OpportunityMatches(q, opportunities[k], brands, orgUnits)
          <==> InOpportunityScope(role, user, current, opportunities[k], brands, orgUnits)
    {
      if AccountManager in roles {
        assert q == Rows(ListedStatuses, current, Some(user), None, previous);
      } else if BusinessUnitHead in roles {
        assert q == Rows(ListedStatuses, current, None, Some(user), previous);
      } else if SalesDirector in roles {
        assert q == Rows(ListedStatuses, current, None, None, previous);
      } else {
        assert q == NoRows;
      }
    }
  }

  /** A user with no role sees no opportunity at all. */
  lemma NoRoleSeesNoOpportunity(user: UserId, years: FiscalYears.Table, opportunities: map<Id, Opportunity>,
                                brands: map<Id, Brand>, orgUnits: map<Id, OrgBusinessUnit>)
    requires RoleBasedOpportunities(user, {}, years).Success?
    ensures SelectOpportunities(RoleBasedOpportunities(user, {}, years).value, opportunities, brands, orgUnits) == {}
  {
    OpportunityQueryMatchesScope(user, {}, years, opportunities, brands, orgUnits);
  }

  /** Role filters only add conditions: any user's opportunities are among a sales director's. */
  lemma OpportunityScopeWithinSalesDirector(user: UserId, roles: set<Role>, years: FiscalYears.Table,
                                            opportunities: map<Id, Opportunity>, brands: map<Id, Brand>,
                                            orgUnits: map<Id, OrgBusinessUnit>)
    requires RoleBasedOpportunities(user, roles, years).Success?
    ensures SelectOpportunities(RoleBasedOpportunities(user, roles, years).value, opportunities, brands, orgUnits)
         <= SelectOpportunities(RoleBasedOpportunities(user, {SalesDirector}, years).value, opportunities, brands, orgUnits)
  {
    OpportunityQueryMatchesScope(user, roles, years, opportunities, brands, orgUnits);
    OpportunityQueryMatchesScope(user, {SalesDirector}, years, opportunities, brands, orgUnits);
  }
}
