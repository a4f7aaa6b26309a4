/** The G.R.O.W. classification of the brand dashboard: each brand in scope falls into
    the first of Game Changer, Real Opportunity, Open and Wish whose rule it meets, and
    its target and last-fiscal revenue are added to that bucket's pair of totals. */
module GrowBuckets {
  import opened Wrappers
  import opened Schema

  datatype Bucket = GameChanger | RealOpportunity | Open | Wish

  /** The share of the whole portfolio's last-fiscal revenue at which a brand's target makes
      it a game changer, and the growth over its own last-fiscal revenue that makes it a
      real opportunity, as the exact decimals the comparisons are written with. */
  const GameChangerShare: real := 0.3
  const GrowthThreshold: real := 0.1

  /** The nearest binary64 values to 0.3 and 0.1, which is what the literals in the view
      are: 0.3 is stored slightly below three tenths, 0.1 slightly above one tenth. */
  const Float03Num: int := 5404319552844595
  const Float03Den: int := 18014398509481984
  const Float01Num: int := 3602879701896397
  const Float01Den: int := 36028797018963968
  const Float03: real := Float03Num as real / Float03Den as real
  const Float01: real := Float01Num as real / Float01Den as real

  lemma FloatLiteralsStraddle()
    ensures Float03 < GameChangerShare && GrowthThreshold < Float01
  {
  }

  function Ratio(a: int, b: int): real
    requires b != 0
  {
    a as real / b as real
  }

  /** The first rule: a non-null target that is at least `share` of a non-zero portfolio total. */
  predicate MeetsShare(share: real, target: Option<Money>, portfolio: Option<Money>)
    requires target.Some? ==> portfolio.Some?
  {
    target.Some? && portfolio.value != 0 && Ratio(target.value, portfolio.value) >= share
  }

  /** The second rule: a non-null target that grows at least `growth` over a non-zero revenue. */
  predicate MeetsGrowth(growth: real, target: Option<Money>, revenue: Money) {
    target.Some? && revenue != 0 && Ratio(target.value - revenue, revenue) >= growth
  }

  /** The classifier with its two thresholds as parameters; first match wins. The portfolio
      total must be present whenever the target is, since the view divides by it. */
  function ClassifyWith(share: real, growth: real, target: Option<Money>, revenue: Money,
                        portfolio: Option<Money>): (b: Bucket)
    requires target.Some? ==> portfolio.Some?
    ensures b == GameChanger <==> MeetsShare(share, target, portfolio)
    ensures b == RealOpportunity <==> !MeetsShare(share, target, portfolio) && MeetsGrowth(growth, target, revenue)
    ensures b == Open <==> !MeetsShare(share, target, portfolio) && !MeetsGrowth(growth, target, revenue) && revenue > 0
    ensures b == Wish <==> !MeetsShare(share, target, portfolio) && !MeetsGrowth(growth, target, revenue) && revenue <= 0
  {
    if target.Some? && portfolio.value != 0 && Ratio(target.value, portfolio.value) >= share then GameChanger
    else if target.Some? && revenue != 0 && Ratio(target.value - revenue, revenue) >= growth then RealOpportunity
    else if revenue > 0 then Open
    else Wish
  }

  /** The classifier with the exact thresholds three tenths and one tenth. */
  function Classify(target: Option<Money>, revenue: Money, portfolio: Option<Money>): (b: Bucket)
    requires target.Some? ==> portfolio.Some?
    ensures target.None? ==> (b == Open <==> revenue > 0) && (b == Wish <==> revenue <= 0)
  {
    ClassifyWith(GameChangerShare, GrowthThreshold, target, revenue, portfolio)
  }

  /** `a / b >= num / den` for a positive `den`, in whole numbers: multiplying out by `b`
      keeps the comparison when `b` is positive and turns it round when `b` is negative. */
  predicate AtLeastFraction(a: int, b: int, num: int, den: int) {
    if b > 0 then den * a >= num * b else den * a <= num * b
  }

  lemma FractionCompare(a: int, b: int, num: int, den: int)
    ensures b != 0 && den > 0 ==>
      (Ratio(a, b) >= num as real / den as real <==> AtLeastFraction(a, b, num, den))
  {
    if b != 0 && den > 0 {
      var q, t := Ratio(a, b), num as real / den as real;
      var br, dr := b as real, den as real;
      assert q * br == a as real;
      assert t * dr == num as real;
      if b > 0 {
        assert q >= t <==> q * br >= t * br;
        assert a as real >= t * br <==> dr * (a as real) >= dr * (t * br);
        assert dr * (t * br) == (num * b) as real;
      } else {
        assert q >= t <==> q * br <= t * br;
        assert a as real <= t * br <==> dr * (a as real) <= dr * (t * br);
        assert dr * (t * br) == (num * b) as real;
      }
    }
  }

  /** The view's first rule with the binary64 value of 0.3, in whole numbers. */
  predicate GameChangerAsWritten(target: Option<Money>, portfolio: Option<Money>) {
    target.Some? && portfolio.Some? && portfolio.value != 0
    && AtLeastFraction(target.value, portfolio.value, Float03Num, Float03Den)
  }

  /** The view's second rule with the binary64 value of 0.1, in whole numbers. */
  predicate RealOpportunityAsWritten(target: Option<Money>, revenue: Money) {
    target.Some? && revenue != 0
    && AtLeastFraction(target.value - revenue, revenue, Float01Num, Float01Den)
  }

  /** The classifier as the view evaluates it: the decimal quotients are compared with the
      binary64 values of the literals 0.3 and 0.1, first match wins. */
  function ClassifyAsWritten(target: Option<Money>, revenue: Money, portfolio: Option<Money>): (b: Bucket)
    requires target.Some? ==> portfolio.Some?
    ensures b == GameChanger <==> GameChangerAsWritten(target, portfolio)
    ensures b == RealOpportunity <==>
      !GameChangerAsWritten(target, portfolio) && RealOpportunityAsWritten(target, revenue)
    ensures b == Open <==>
      !GameChangerAsWritten(target, portfolio) && !RealOpportunityAsWritten(target, revenue) && revenue > 0
    ensures b == Wish <==>
      !GameChangerAsWritten(target, portfolio) && !RealOpportunityAsWritten(target, revenue) && revenue <= 0
  {
    FractionCompare(target.GetOr(0), portfolio.GetOr(0), Float03Num, Float03Den);
    FractionCompare(target.GetOr(0) - revenue, revenue, Float01Num, Float01Den);
    ClassifyWith(Float03, Float01, target, revenue, portfolio)
  }

  /** Comparing a quotient with a number of tenths, without dividing. */
  lemma RatioAtLeastTenths(a: int, b: int, k: int)
    requires b > 0
    ensures Ratio(a, b) >= (k as real) / 10.0 <==> 10 * a >= k * b
  {
    var q, br := Ratio(a, b), b as real;
    assert q * br == a as real;
    if q >= (k as real) / 10.0 {
      assert q * br >= ((k as real) / 10.0) * br;
    } else {
      assert q * br < ((k as real) / 10.0) * br;
    }
  }

  /** With a positive portfolio total, a brand is a game changer exactly when ten times its
      target reaches three times the total. */
  lemma GameChangerInCents(target: Money, revenue: Money, portfolio: Money)
    requires portfolio > 0
    ensures Classify(Some(target), revenue, Some(portfolio)) == GameChanger <==> 10 * target >= 3 * portfolio
  {
    RatioAtLeastTenths(target, portfolio, 3);
  }

  /** A brand that is not a game changer but has positive last-fiscal revenue is a real
      opportunity exactly when ten times its target reaches eleven times that revenue. */
  lemma RealOpportunityInCents(target: Money, revenue: Money, portfolio: Money)
    requires revenue > 0 && portfolio != 0
    requires Ratio(target, portfolio) < GameChangerShare
    ensures Classify(Some(target), revenue, Some(portfolio)) == RealOpportunity <==> 10 * target >= 11 * revenue
  {
    RatioAtLeastTenths(target - revenue, revenue, 1);
  }

  /** Exactly ten percent growth: prior revenue 100, target 110, portfolio 1000. The view
      puts the brand in Open; the intended rule puts it in Real Opportunity. */
  lemma ExactTenPercentGrowthMisclassified()
    ensures ClassifyAsWritten(Some(110), 100, Some(1000)) == Open
    ensures Classify(Some(110), 100, Some(1000)) == RealOpportunity
  {
    assert Ratio(110, 1000) == 0.11;
    assert Ratio(110 - 100, 100) == 0.1;
  }

  /** Away from the two narrow bands between each literal and its binary64 value, the view
      and the exact rule agree. */
  lemma AsWrittenAgreesOffTheBoundary(target: Option<Money>, revenue: Money, portfolio: Option<Money>)
    requires target.Some? ==> portfolio.Some?
    requires target.Some? && portfolio.value != 0 ==>
      !(Float03 <= Ratio(target.value, portfolio.value) < GameChangerShare)
    requires target.Some? && revenue != 0 ==>
      !(GrowthThreshold <= Ratio(target.value - revenue, revenue) < Float01)
    ensures ClassifyAsWritten(target, revenue, portfolio) == Classify(target, revenue, portfolio)
  {
    assert MeetsShare(Float03, target, portfolio) == MeetsShare(GameChangerShare, target, portfolio);
    assert MeetsGrowth(Float01, target, revenue) == MeetsGrowth(GrowthThreshold, target, revenue);
  }

  // ------------------------------------------------------------ accumulation

  /** One brand in scope: the sum of its opportunities' targets (NULL when it has none) and
      its revenue of the previous fiscal year (NULL when nothing was recorded). */
  datatype BrandFigures = BrandFigures(target: Option<Money>, revenueLastFiscal: Option<Money>)

  /** A bucket's pair of accumulators. */
  datatype Totals = Totals(target: Money, revenueLastFiscal: Money)

  datatype GrowTotals = GrowTotals(gameChanger: Totals, realOpportunity: Totals, open: Totals, wish: Totals)

  /** What the view attaches to each brand. */
  datatype ClassifiedBrand = ClassifiedBrand(bucket: Bucket, totalTarget: Money, totalRevenueLastFiscal: Money)

  predicate PortfolioDefined(brands: seq<BrandFigures>, portfolio: Option<Money>) {
    forall i :: 0 <= i < |brands| && brands[i].target.Some? ==> portfolio.Some?
  }

  function BucketOf(b: BrandFigures, portfolio: Option<Money>): Bucket
    requires b.target.Some? ==> portfolio.Some?
  {
    Classify(b.target, b.revenueLastFiscal.GetOr(0), portfolio)
  }

  /** The amount a brand adds to its bucket's target total. In the Wish bucket a NULL target
      counts as 0; elsewhere it passes through the money conversion, whose value for NULL
      (`convertNull`) is outside this model. Game Changer and Real Opportunity brands never
      have a NULL target. */
  function TargetAdded(b: BrandFigures, bucket: Bucket, convertNull: Money): Money {
    if bucket == Wish then b.target.GetOr(0) else b.target.GetOr(convertNull)
  }

  /** The target total of `bucket` over `brands`, as an independent sum over the brands
      the classifier puts there. */
  function BucketTarget(brands: seq<BrandFigures>, bucket: Bucket, portfolio: Option<Money>,
                        convertNull: Money): Money
    requires PortfolioDefined(brands, portfolio)
  {
    if |brands| == 0 then 0
    else
      var last := brands[|brands| - 1];
      BucketTarget(brands[..|brands| - 1], bucket, portfolio, convertNull)
      + (if BucketOf(last, portfolio) == bucket then TargetAdded(last, bucket, convertNull) else 0)
  }

  /** The last-fiscal revenue total of `bucket` over `brands`, NULL revenue counting as 0. */
  function BucketRevenue(brands: seq<BrandFigures>, bucket: Bucket, portfolio: Option<Money>): Money
    requires PortfolioDefined(brands, portfolio)
  {
    if |brands| == 0 then 0
    else
      var last := brands[|brands| - 1];
      BucketRevenue(brands[..|brands| - 1], bucket, portfolio)
      + (if BucketOf(last, portfolio) == bucket then last.revenueLastFiscal.GetOr(0) else 0)
  }

  function TotalsOf(brands: seq<BrandFigures>, bucket: Bucket, portfolio: Option<Money>, convertNull: Money): Totals
    requires PortfolioDefined(brands, portfolio)
  {
    Totals(BucketTarget(brands, bucket, portfolio, convertNull), BucketRevenue(brands, bucket, portfolio))
  }

  /** Adds one brand's figures to the accumulators of its bucket only. */
  function AddTo(t: GrowTotals, bucket: Bucket, target: Money, revenue: Money): GrowTotals {
    match bucket
    case GameChanger => t.(gameChanger := Totals(t.gameChanger.target + target, t.gameChanger.revenueLastFiscal + revenue))
    case RealOpportunity => t.(realOpportunity := Totals(t.realOpportunity.target + target, t.realOpportunity.revenueLastFiscal + revenue))
    case Open => t.(open := Totals(t.open.target + target, t.open.revenueLastFiscal + revenue))
    case Wish => t.(wish := Totals(t.wish.target + target, t.wish.revenueLastFiscal + revenue))
  }

  /** The totals over one more brand: its figures go to its own bucket only. */
  lemma TotalsStep(brands: seq<BrandFigures>, i: int, bucket: Bucket, portfolio: Option<Money>, convertNull: Money)
    requires 0 <= i < |brands| && PortfolioDefined(brands[..i + 1], portfolio)
    ensures PortfolioDefined(brands[..i], portfolio)
    ensures TotalsOf(brands[..i + 1], bucket, portfolio, convertNull) ==
      var t := TotalsOf(brands[..i], bucket, portfolio, convertNull);
      if BucketOf(brands[i], portfolio) == bucket
      then Totals(t.target + TargetAdded(brands[i], bucket, convertNull),
                  t.revenueLastFiscal + brands[i].revenueLastFiscal.GetOr(0))
      else t
  {
    assert brands[..i + 1][..i] == brands[..i];
    assert brands[..i + 1][i] == brands[i];
  }

  /** Dividing a target by a NULL portfolio total raises a `TypeError`. */
  datatype ClassifyError = NullPortfolioTotal

  /** The brand loop of the dashboard view: classifies every brand in scope, attaches its
      figures, and accumulates each bucket's totals. The request fails when some brand
      with a target meets a NULL portfolio total. */
  method ClassifyBrands(brands: seq<BrandFigures>, portfolio: Option<Money>, convertNull: Money)
    returns (r: Result<(seq<ClassifiedBrand>, GrowTotals), ClassifyError>)
    ensures r.Failure? <==> !PortfolioDefined(brands, portfolio)
    ensures r.Success? ==> |r.value.0| == |brands|
    ensures r.Success? ==> forall i :: 0 <= i < |brands| ==>
      && r.value.0[i].bucket == BucketOf(brands[i], portfolio)
      && r.value.0[i].totalTarget == brands[i].target.GetOr(0)
      && r.value.0[i].totalRevenueLastFiscal == brands[i].revenueLastFiscal.GetOr(0)
    ensures r.Success? ==> r.value.1.gameChanger == TotalsOf(brands, GameChanger, portfolio, convertNull)
    ensures r.Success? ==> r.value.1.realOpportunity == TotalsOf(brands, RealOpportunity, portfolio, convertNull)
    ensures r.Success? ==> r.value.1.open == TotalsOf(brands, Open, portfolio, convertNull)
    ensures r.Success? ==> r.value.1.wish == TotalsOf(brands, Wish, portfolio, convertNull)
  {
    var totals := GrowTotals(Totals(0, 0), Totals(0, 0), Totals(0, 0), Totals(0, 0));
    var classified: seq<ClassifiedBrand> := [];
    var i := 0;
    while i < |brands|
      invariant 0 <= i <= |brands|
      invariant PortfolioDefined(brands[..i], portfolio)
      invariant |classified| == i
      invariant forall j :: 0 <= j < i ==>
        && classified[j].bucket == BucketOf(brands[j], portfolio)
        && classified[j].totalTarget == brands[j].target.GetOr(0)
        && classified[j].totalRevenueLastFiscal == brands[j].revenueLastFiscal.GetOr(0)
      invariant totals.gameChanger == TotalsOf(brands[..i], GameChanger, portfolio, convertNull)
      invariant totals.realOpportunity == TotalsOf(brands[..i], RealOpportunity, portfolio, convertNull)
      invariant totals.open == TotalsOf(brands[..i], Open, portfolio, convertNull)
      invariant totals.wish == TotalsOf(brands[..i], Wish, portfolio, convertNull)
    {
      var brand := brands[i];
      if brand.target.Some? && portfolio.None? {
        assert !PortfolioDefined(brands, portfolio) by {
          assert brands[i].target.Some?;
        }
        return Failure(NullPortfolioTotal);
      }
      var revenue := brand.revenueLastFiscal.GetOr(0);
      var bucket := BucketOf(brand, portfolio);
      totals := AddTo(totals, bucket, TargetAdded(brand, bucket, convertNull), revenue);
      classified := classified + [ClassifiedBrand(bucket, brand.target.GetOr(0), revenue)];
      assert PortfolioDefined(brands[..i + 1], portfolio) by {
        forall k | 0 <= k <= i ensures brands[..i + 1][k] == brands[k] {}
      }
      TotalsStep(brands, i, GameChanger, portfolio, convertNull);
      TotalsStep(brands, i, RealOpportunity, portfolio, convertNull);
      TotalsStep(brands, i, Open, portfolio, convertNull);
      TotalsStep(brands, i, Wish, portfolio, convertNull);
      i := i + 1;
    }
    assert brands[..i] == brands;
    r := Success((classified, totals));
  }

  /** The sum of the brands' attached targets, NULL counting as 0. */
  function TargetOrZeroSum(brands: seq<BrandFigures>): Money {
    if |brands| == 0 then 0 else TargetOrZeroSum(brands[..|brands| - 1]) + brands[|brands| - 1].target.GetOr(0)
  }

  function RevenueOrZeroSum(brands: seq<BrandFigures>): Money {
    if |brands| == 0 then 0
    else RevenueOrZeroSum(brands[..|brands| - 1]) + brands[|brands| - 1].revenueLastFiscal.GetOr(0)
  }

  /** Every brand's revenue lands in exactly one bucket: the four revenue totals add up to
      the revenue of all brands in scope. */
  lemma {:induction false} BucketsPartitionRevenue(brands: seq<BrandFigures>, portfolio: Option<Money>)
    requires PortfolioDefined(brands, portfolio)
    ensures BucketRevenue(brands, GameChanger, portfolio) + BucketRevenue(brands, RealOpportunity, portfolio)
            + BucketRevenue(brands, Open, portfolio) + BucketRevenue(brands, Wish, portfolio)
            == RevenueOrZeroSum(brands)
  {
    if |brands| > 0 {
      BucketsPartitionRevenue(brands[..|brands| - 1], portfolio);
    }
  }

  /** Every brand's target lands in exactly one bucket: when the money conversion maps NULL
      to 0, or no target is NULL, the four target totals add up to the brands' targets. */
  lemma {:induction false} BucketsPartitionTarget(brands: seq<BrandFigures>, portfolio: Option<Money>, convertNull: Money)
    requires PortfolioDefined(brands, portfolio)
    requires convertNull == 0 || forall i :: 0 <= i < |brands| ==> brands[i].target.Some?
    ensures BucketTarget(brands, GameChanger, portfolio, convertNull) + BucketTarget(brands, RealOpportunity, portfolio, convertNull)
            + BucketTarget(brands, Open, portfolio, convertNull) + BucketTarget(brands, Wish, portfolio, convertNull)
            == TargetOrZeroSum(brands)
  {
    if |brands| > 0 {
      BucketsPartitionTarget(brands[..|brands| - 1], portfolio, convertNull);
    }
  }
}
