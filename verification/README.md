# Portfolio Planner: a Dafny model of its business rules

Portfolio Planner is a Django application for planning advertising revenue. The data is organised as
media groups, agencies, brands, brand business units, products, fiscal years, opportunities and their
period performance. This project models the parts of it that are plain rules rather than CRUD plumbing:

- the save-time rules of the store: the single current fiscal year, the integrity checks and defaults of the
  older client/business-unit schema, and the default business unit created for a new brand;
- the schema's constraints: period range, composite and name uniqueness, and the widths of the integer, money
  and name columns;
- revenue aggregation: total and quarterly revenue, and the mapping from fiscal periods to calendar months;
- role-scoped query construction for brands and opportunities;
- the dashboard's decision rules: the G.R.O.W. buckets (Game Changer, Real Opportunity, Open, Wish), the
  top-brands pie chart with its "Other" slice, and the month arithmetic behind the time-remaining figures.

## How it is modelled

- Money is a whole number of cents. A money column holds 14 digits, 2 of them after the point, and ZAR is the
  only currency.
- A table is a `map` from primary key to row. Saving under a key that is present updates that row; otherwise it
  inserts a row, under a fresh key from a counter that stands in for the database sequence.
- A unique constraint is checked against every other row. A NULL business unit never clashes, as in PostgreSQL.
- Every database error, lookup error and runtime exception in a modelled path is a `Failure` of a `Result`:
  - `IntegrityError` from a unique index, and the `DataError` of a value too wide for its column;
  - `DoesNotExist` / `MultipleObjectsReturned` from `QuerySet.get`;
  - the `TypeError` of arithmetic on a NULL aggregate;
  - the `ValueError` of an out-of-range `datetime` or of a negative queryset slice.
- The set of roles a user holds stands in for `has_role`.
- Per-brand figures from `with_revenue` are inputs. `convert_to_money` is the identity on amounts; its value for
  NULL is a parameter.
- The clock is a parameter.

Modules:

| module | file | what |
|---|---|---|
| `Wrappers` | wrappers.dfy | `Option`, `Result` |
| `Schema` | schema.dfy | entities, status domain, money width, row defaults, key allocation |
| `Constraints` | constraints.dfy | unique constraints as save functions, field validators |
| `FiscalYears` | fiscal_years.dfy | `FiscalYear.save`, `QuerySet.get`, current and previous year lookups |
| `Aggregates` | aggregates.dfy | SQL `SUM` (NULL over no rows) |
| `Revenue` | revenue.dfy | total and quarterly revenue, fiscal period ↔ calendar month |
| `LegacyModels` | legacy_models.dfy | `Client.save`, `BusinessUnit.save`, `Opportunity.save` of `models.py` |
| `Signals` | signals.dfy | the brand `post_save` default business unit |
| `RoleScopes` | role_scopes.dfy | brand filters and opportunity queries by role |
| `GrowBuckets` | grow_buckets.dfy | G.R.O.W. classifier and bucket accumulation |
| `TopBrands` | top_brands.dfy | the top-brands chart |
| `TimeRemaining` | time_remaining.dfy | months remaining and elapsed in the fiscal year |

## Model

| member | source | states |
|---|---|---|
| Schema.ParseStatus | portfolio_planner/models.py:195-202 | a status string is accepted exactly when it is one of the six names, and the parsed status prints back as that string |
| Schema.StatusRoundTrip | portfolio_planner/migrations/0001_initial.py:126 | every opportunity status parses back from its stored name |
| Schema.NewFiscalYear | portfolio_planner/migrations/0001_initial.py:99-100 | a new fiscal year is not current unless set so |
| Schema.NewOpportunity | portfolio_planner/migrations/0001_initial.py:126-133 | a new opportunity is active, unapproved, without approval user, in ZAR, with the given brand, unit, product, target and year; `FiscalYears.NewOpportunityInCurrentYear` supplies the year from the column default |
| FiscalYears.NewOpportunityInCurrentYear | portfolio_planner/migrations/0001_initial.py:126-133 | an opportunity created without a fiscal year takes the current year's key through the column default; creation succeeds exactly when one year is current, fails with DoesNotExist exactly when none is, and otherwise fails with the lookup's error; the other columns take their defaults |
| FiscalYears.NewPeriodInCurrentYear | portfolio_planner/migrations/0001_initial.py:200-206 | a period row created without a fiscal year takes the current year's key in ZAR; it succeeds exactly when one year is current and otherwise fails with the lookup's error |
| Schema.Advance | portfolio_planner/migrations/0001_initial.py:98 | the model's key counter stays above every key in use, explicit or allocated (see Left out) |
| Constraints.SavePeriodPerformance | portfolio_planner/migrations/0001_initial.py:198-210 | a period outside the 32-bit integer column fails first, then a revenue outside numeric(14,2); otherwise saving fails exactly when another row has the same performance and period; on success only that row changes and uniqueness is kept |
| Constraints.SaveOpportunityPerformance | portfolio_planner/migrations/0001_initial.py:146-148 | saving fails exactly when another row has the same opportunity and fiscal year; only that row changes; uniqueness is kept |
| Constraints.SaveOpportunityRow | portfolio_planner/migrations/0001_initial.py:212-215 | a target outside the numeric(14,2) column of line 128 fails; otherwise saving fails exactly when another row has the same brand, non-NULL unit, product and year; a NULL unit never clashes; only that row changes |
| Constraints.SaveNamed | portfolio_planner/migrations/0005_alter_agency_name_alter_brand_name_and_more.py:13-37 | a name longer than 191 characters fails; otherwise saving fails exactly when another row has that name; only that row changes; names stay unique |
| Constraints.CleanPeriodPerformance | portfolio_planner/migrations/0001_initial.py:202-204 | validation passes exactly when the period is in 1..12 and the revenue fits 14 digits with 2 decimals |
| FiscalYears.Save | portfolio_planner/models.py:172-181 | a year outside the 32-bit integer column fails, and otherwise a save fails only on a duplicate year; a current year becomes the only current row and other rows keep their years; a non-current save changes no other row; year uniqueness and at most one current row are kept |
| FiscalYears.GetWhere | portfolio_planner/models.py:189 | `get` returns the single matching row, DoesNotExist exactly when none matches, MultipleObjectsReturned exactly when two do |
| FiscalYears.CurrentFiscalYear | portfolio_planner/models.py:187-189 | succeeds exactly when one row is current and returns it; no current row and several current rows are the two errors |
| FiscalYears.CurrentAndPrevious | portfolio_planner/views/helpers/opportunities.py:24-25 | a failed current lookup is passed on; otherwise it succeeds exactly when one row holds the year before, fails with DoesNotExist when none does and MultipleObjectsReturned when two do |
| FiscalYears.SaveCurrentThenLookup | portfolio_planner/models.py:177-189 | after saving a current year, the current-year lookup returns it |
| FiscalYears.SaveCurrentThenNewOpportunity | portfolio_planner/models.py:187-189 | after saving a current year, an opportunity created without a fiscal year defaults to that year |
| FiscalYears.SaveNotCurrentKeepsExclusivity | portfolio_planner/models.py:177-181 | saving a non-current year leaves the current set as it was, minus the saved row |
| Aggregates.SqlSum | portfolio_planner/models.py:266 | SUM is NULL exactly over no rows and otherwise the sum |
| Revenue.TotalRevenue | portfolio_planner/models.py:260-266 | total revenue is 0 with no periods and adds each period's revenue |
| Revenue.TotalRevenueAppend | portfolio_planner/models.py:266 | total revenue is additive over any split of the periods |
| Revenue.PeriodsIn | portfolio_planner/models.py:301 | the period filter keeps only rows in the given periods and, when all or none qualify, keeps all or none |
| Revenue.PeriodsInContents | portfolio_planner/models.py:301 | the filter keeps every row whose period is listed, as often as it occurs, and no other row |
| Revenue.QuarterPeriods | portfolio_planner/models.py:290-299 | the quarter's periods lie in 1..12 and are empty exactly for a quarter outside 1..4 |
| Revenue.QuarterMembership | portfolio_planner/models.py:290-299 | period p is in quarter q exactly when p is in 1..12 and (p-1)/3+1 = q |
| Revenue.QuarterlyRevenue | portfolio_planner/models.py:288-301 | quarterly revenue is the total over that quarter's periods and 0 for any other quarter |
| Revenue.QuartersPartitionTotal | portfolio_planner/models.py:260-312 | with periods in 1..12 the four quarters add up to the total revenue |
| Revenue.FiscalMonth | portfolio_planner/models.py:323 | the calendar month of a period is in 1..12 |
| Revenue.PeriodMonthRoundTrip | portfolio_planner/models.py:323 | mapping a period to its month and back gives the period |
| Revenue.MonthPeriodRoundTrip | portfolio_planner/models.py:323 | mapping a month to its period and back gives the month |
| Revenue.FiscalMonthInjective | portfolio_planner/models.py:323 | for a fixed start month, distinct periods in 1..12 fall in distinct months |
| Revenue.CalendarMonth | portfolio_planner/models.py:320-325 | the date is the 1st of the period's month in the fiscal year's own year, even past the wrap; period 1 is the start month; years outside 1..9999 fail |
| LegacyModels.SaveBusinessUnit | portfolio_planner/models.py:136-143 | fails exactly when the client is missing; an unset user becomes the client's user; nothing else changes |
| LegacyModels.SaveClient | portfolio_planner/models.py:98-110 | a new client gets exactly one new unit, the default unit owned by the client's user; an update creates none |
| LegacyModels.DefaultUnitCreatedOnce | portfolio_planner/models.py:98-110 | saving the client again leaves it with its single default unit |
| LegacyModels.SaveOpportunity | portfolio_planner/models.py:240-249 | the save succeeds exactly when the client is the agency's, the unit is the client's and the key is free; the agency check comes first; on failure nothing is written |
| LegacyModels.SaveOpportunityKeepsConsistency | portfolio_planner/models.py:240-249 | every stored opportunity stays consistent with its client and unit |
| Signals.CreateDefaultBusinessUnit | portfolio_planner/signals.py:8-15 | on creation exactly one unit is added, named "Default Business Unit" with the fixed description, for the brand and owned by its user; otherwise nothing changes |
| Signals.SaveBrand | portfolio_planner/signals.py:7-15 | saving a brand fails on a name or client code longer than 191 characters, and otherwise only on a taken name; a created brand gets exactly one new unit, its default unit, with every other unit unchanged; an updated brand gets none; every brand keeps a default unit and names stay unique |
| RoleScopes.EffectiveRole | portfolio_planner/views/helpers/brands.py:15-20 | the effective role is one the user holds, checked in the order AccountManager, BusinessUnitHead, SalesDirector |
| RoleScopes.BrandRoleFilters | portfolio_planner/views/helpers/brands.py:9-22 | the filter always requires active status; it adds the owner for an account manager and the unit manager for a unit head only |
| RoleScopes.BrandFilterMatchesScope | portfolio_planner/views/helpers/brands.py:9-22 | the filtered brands are exactly those in the role's scope |
| RoleScopes.NoRoleSeesEveryActiveBrand | portfolio_planner/views/helpers/brands.py:11-22 | a user with no role sees every active brand |
| RoleScopes.BrandScopeWithinSalesDirector | portfolio_planner/views/helpers/brands.py:15-20 | any role's brands are among the brands a sales director sees |
| RoleScopes.RoleBasedOpportunities | portfolio_planner/views/helpers/opportunities.py:12-41 | the year lookups fail first for everyone; no role gives no rows; otherwise the listed statuses, the current year and the role's extra condition |
| RoleScopes.OpportunityQueryMatchesScope | portfolio_planner/views/helpers/opportunities.py:27-41 | the selected opportunities are exactly those in the role's scope |
| RoleScopes.NoRoleSeesNoOpportunity | portfolio_planner/views/helpers/opportunities.py:38-39 | a user with no role sees no opportunity |
| RoleScopes.OpportunityScopeWithinSalesDirector | portfolio_planner/views/helpers/opportunities.py:32-37 | any role's opportunities are among the sales director's |
| GrowBuckets.ClassifyWith | portfolio_planner/views/dashboard.py:85-103 | each brand is in exactly one bucket, the first whose rule holds, in the order Game Changer, Real Opportunity, Open, Wish |
| GrowBuckets.Classify | portfolio_planner/views/dashboard.py:85-103 | with a NULL target only Open (positive revenue) or Wish is possible |
| GrowBuckets.GameChangerInCents | portfolio_planner/views/dashboard.py:85 | with a positive portfolio total, Game Changer exactly when 10·target ≥ 3·total |
| GrowBuckets.RealOpportunityInCents | portfolio_planner/views/dashboard.py:89-90 | with positive revenue and no Game Changer, Real Opportunity exactly when 10·target ≥ 11·revenue |
| GrowBuckets.FloatLiteralsStraddle | portfolio_planner/views/dashboard.py:85-90 | the binary64 value of 0.3 is below three tenths and that of 0.1 above one tenth |
| GrowBuckets.ClassifyAsWritten | portfolio_planner/views/dashboard.py:85-103 | first match wins, with the binary64 thresholds in whole numbers: Game Changer exactly when 2^54·target ≥ 5404319552844595·total, Real Opportunity exactly when 2^55·(target − revenue) ≥ 3602879701896397·revenue, each comparison reversed for a negative divisor |
| GrowBuckets.ExactTenPercentGrowthMisclassified | portfolio_planner/views/dashboard.py:89-90 | target 110 over revenue 100 lands in Open as written and in Real Opportunity as intended |
| GrowBuckets.AsWrittenAgreesOffTheBoundary | portfolio_planner/views/dashboard.py:85-90 | outside the two bands between each literal and its binary64 value both classifiers agree |
| GrowBuckets.ClassifyBrands | portfolio_planner/views/dashboard.py:61-108 | fails exactly when a brand with a target meets a NULL portfolio total; otherwise every brand gets its bucket and figures, NULL as 0, and each bucket's totals are the sums over its brands |
| GrowBuckets.BucketsPartitionRevenue | portfolio_planner/views/dashboard.py:70-104 | the four revenue totals add up to the revenue of all brands |
| GrowBuckets.BucketsPartitionTarget | portfolio_planner/views/dashboard.py:70-104 | with non-NULL targets the four target totals add up to the brands' targets |
| TopBrands.GroupByBrand | portfolio_planner/views/dashboard.py:134-137 | one entry per brand of the rows, names distinct, each holding that brand's summed targets, all adding to the overall target |
| TopBrands.InsertByTotal | portfolio_planner/views/dashboard.py:138 | insertion keeps the entries as a multiset and keeps descending order |
| TopBrands.SortByTotal | portfolio_planner/views/dashboard.py:138 | the result is a descending permutation of the entries |
| TopBrands.SortFacts | portfolio_planner/views/dashboard.py:138 | sorting keeps the overall total, the names and each name's total |
| TopBrands.SortDistinct | portfolio_planner/views/dashboard.py:138 | sorting keeps names distinct |
| TopBrands.TopEntries | portfolio_planner/views/dashboard.py:134-139 | the first n entries are at most n distinct brands of the scope with their sums, descending |
| TopBrands.LeftOutEntries | portfolio_planner/views/dashboard.py:138 | a brand outside the first n means all n places are taken by brands whose sums are at least its own |
| TopBrands.ShownAndOtherPartition | portfolio_planner/views/dashboard.py:141-145 | every row counts once, under a shown brand or in "Other" |
| TopBrands.OtherSlice | portfolio_planner/views/dashboard.py:141-149 | the "Other" value is the targets of the brands not shown, and the slices add up to the total |
| TopBrands.TopBrandsChart | portfolio_planner/views/dashboard.py:129-149 | a negative count fails at the slice; an empty scope fails on the NULL total; otherwise labels and data have equal length with "Other" last |
| TopBrands.ChartShowsTopBrands | portfolio_planner/views/dashboard.py:134-149 | at most n named slices, distinct brands of the scope, each with its summed target, in descending order |
| TopBrands.ChartLeavesOutSmaller | portfolio_planner/views/dashboard.py:138-148 | a brand without a slice means n slices are shown, each at least that brand's sum |
| TopBrands.ChartOtherSlice | portfolio_planner/views/dashboard.py:141-149 | the data adds up to the scope's total target and "Other" is exactly the targets of the brands not shown |
| TopBrands.DefaultChartSize | portfolio_planner/views/dashboard.py:131 | without a count parameter a non-empty scope gets at most five named slices plus "Other" |
| TimeRemaining.FiscalYearEndAsWritten | portfolio_planner/views/dashboard.py:227-228 | the end is the 28th of month start-1, this year while today's month is before start and next year otherwise; it succeeds exactly when start is 2..13 and the end year does not pass the largest year; the year error is raised exactly when it would, the month error otherwise |
| TimeRemaining.MonthsRemainingAsWritten | portfolio_planner/views/dashboard.py:227-234 | succeeds exactly for start months 2..13 without year overflow; remaining plus elapsed is 12; for starts up to 12 remaining is in 0..11 and elapsed is today's fiscal period; January fails |
| TimeRemaining.EndMonthIsLastPeriod | portfolio_planner/views/dashboard.py:228 | the fiscal year's last month is the one whose period is 12 |
| TimeRemaining.FiscalYearEnd | portfolio_planner/views/dashboard.py:227-228 | the corrected end: the 28th of the fiscal year's last month, this year exactly when today's month has not passed it |
| TimeRemaining.MonthsRemaining | portfolio_planner/views/dashboard.py:227-255 | the corrected figures: remaining is (start-1-month) mod 12, elapsed is today's fiscal period, for every start month 1..12 |
| TimeRemaining.AsWrittenAgreesAfterJanuary | portfolio_planner/views/dashboard.py:227-234 | for start months 2..12 the view's figures equal the corrected ones |
| TimeRemaining.JanuaryStartFails | portfolio_planner/views/dashboard.py:228 | with a January start the view fails, while the corrected figures exist and remaining is 12 minus the month |

## Left out

- Settings, URL routing, admin, tables, forms, templates, JavaScript, the Bokeh demo, the import and load
  commands and the password-reset mail: environment, HTTP and UI plumbing, or CSV and network I/O.
- `categorise_opportunities`: an unfinished stub with no else branches, never called by the dashboard.
- `grow_status`, `brand_table` and `opportunities_status` of the dashboard: they only render figures computed
  elsewhere.
- `with_revenue`, `convert_to_money` and the won, lost and approved date fields are not part of this model.
  Brand figures are inputs; the conversion is the identity with a parameter for NULL.
- `datetime.now()`, the day and week counts, the working-day adjustment and the rounded float percentages of
  `time_remaining`: wall-clock and floating-point output. Only whole months and years are modelled.
- Decimal context rounding (28 significant digits) in the classifier: quotients are exact rationals.
- GrowBuckets.ClassifyWith: requires a portfolio total whenever the target is non-NULL. The crash of dividing by a
  NULL total is modelled one level up, as the failure of `GrowBuckets.ClassifyBrands`.
- GrowBuckets.ClassifyBrands: uses the corrected thresholds of `GrowBuckets.Classify`, not the binary64 ones
  (see Findings).
- TopBrands.TopBrandsChart: the database may order brands with equal sums either way. The model fixes one order,
  and its contracts state only what holds for every order.
- TopBrands.TopBrandsChart: takes the count as an integer. A `number` parameter that is not an integer makes
  `int()` raise before any of this runs.
- LegacyModels.SaveOpportunity: does not check that the agency, product and fiscal year rows exist. Their foreign
  keys are enforced by the database and carry no rule of the model's own.
- LegacyModels.SaveClient: requires the store invariant (every key below the counter, every unit's client present)
  that the database maintains.
- FiscalYears.Save: modelled as one transaction. Outside a transaction the clearing UPDATE commits before a
  duplicate-year insert fails.
- Schema.Advance: the counter also moves past a key given explicitly, as the import command does with
  `update_or_create(id=...)`. A PostgreSQL sequence does not, so a later allocated key can clash with such a row
  and fail with IntegrityError; the model does not promise or show that failure, and fresh keys never clash in it.
  Sequence gaps and concurrent inserts are not modelled either.
- Schema.ParseStatus: the status column is a plain `varchar(100)` (`no_check_for_status=True`); only form
  validation enforces the six choices. The model's status enum assumes every stored status is one of them.
- LegacyModels.SaveClient, LegacyModels.SaveBusinessUnit and LegacyModels.SaveOpportunity: the `varchar(191)` and
  `numeric(14,2)` widths of the older schema are not checked there; the width rule is modelled once, for the
  migration schema, in `Constraints` and `Signals.SaveBrand`.
- Text columns without a width (descriptions) and the status and currency columns are not width-checked.
- The `business_unit_manager` column of an organisation business unit is not created by
  portfolio_planner/migrations/0001_initial.py; the later migration that adds it is not part of this model. The
  role filters use it as a nullable user.
- Brand scoping for a user with no role is fail-open in the code: only the status filter applies, so every active
  brand is visible (`RoleScopes.NoRoleSeesEveryActiveBrand`). Opportunity scoping fails closed. The model follows
  the code in both.

## Findings

| source | as written | input that shows it | evidently intended | confidence | as-written member | corrected member |
|---|---|---|---|---|---|---|
| portfolio_planner/views/dashboard.py:89-90 | the Decimal growth quotient is compared with the float literal 0.1, whose binary64 value is slightly above one tenth | target 110, last-fiscal revenue 100, portfolio total 1000: growth is exactly 0.1, the brand falls to Open | at least ten percent growth is a Real Opportunity | high, not executed | GrowBuckets.ClassifyAsWritten, GrowBuckets.ExactTenPercentGrowthMisclassified | GrowBuckets.Classify |
| portfolio_planner/views/dashboard.py:227-228 | the fiscal year ends on the 28th of month start-1, with the end year chosen by `month < start` | fiscal year start month 1 (January): `datetime(year + 1, 0, 28)` raises, so the time-remaining figures fail for every date | the end is the 28th of the month before the start, December for a January start, in the year in which that month next comes | medium, not executed | TimeRemaining.MonthsRemainingAsWritten, TimeRemaining.JanuaryStartFails | TimeRemaining.MonthsRemaining |
