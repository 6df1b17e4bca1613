/**
  The ridership-impact calculator: five improvement percentages, each weighted
  by an elasticity coefficient, summed into one raw impact, damped above a knee
  ("diminishing returns"), and projected onto the current daily ridership.

  Python floats are modelled as exact reals; Python int() on a float is
  Numeric.TruncateTowardZero.
 */
module ImpactCalculator {
  import opened Numeric

  /** The elasticity coefficient of each improvement factor. */
  datatype ElasticityTable = ElasticityTable(
    feederFrequency: real,
    lastMileWaitTime: real,
    serviceAvailability: real,
    feederCost: real,
    integrationQuality: real)

  /** The coefficients the calculator ships with. */
  const Literature: ElasticityTable := ElasticityTable(0.5, -0.8, 0.3, -0.4, 0.6)

  /** Elasticities plus the knee and damping factor of the diminishing-returns clamp. */
  datatype Config = Config(elasticities: ElasticityTable, knee: real, damping: real)

  const Default: Config := Config(Literature, 0.5, 0.7)

  /** A clamp that leaves the knee where it is and shrinks, but does not reverse, what lies above it. */
  predicate Dampens(cfg: Config)
  {
    0.0 <= cfg.knee && 0.0 < cfg.damping < 1.0
  }

  /** The three coefficients used with their own sign are not negative. */
  predicate PositiveGains(e: ElasticityTable)
  {
    0.0 <= e.feederFrequency && 0.0 <= e.serviceAvailability && 0.0 <= e.integrationQuality
  }

  /**
    The calculator's inputs. The two baseline values are collected by the
    input layer but no formula reads them.
   */
  datatype InputParameters = InputParameters(
    currentRidership: int,
    baselineFrequency: int,
    baselineWait: int,
    freqImprovement: int,
    waitReduction: int,
    coverageImprovement: int,
    costReduction: int,
    integrationImprovement: int)

  /** The ranges the input sliders allow for the five improvement percentages. */
  predicate InSliderRanges(p: InputParameters)
  {
    && 0 <= p.freqImprovement <= 200
    && 0 <= p.waitReduction <= 80
    && 0 <= p.coverageImprovement <= 100
    && 0 <= p.costReduction <= 50
    && 0 <= p.integrationImprovement <= 100
  }

  /** All five improvement percentages are at least zero. */
  predicate NonNegativeImprovements(p: InputParameters)
  {
    && 0 <= p.freqImprovement
    && 0 <= p.waitReduction
    && 0 <= p.coverageImprovement
    && 0 <= p.costReduction
    && 0 <= p.integrationImprovement
  }

  /** Every improvement percentage of p is at most the corresponding one of q. */
  predicate Dominated(p: InputParameters, q: InputParameters)
  {
    && p.freqImprovement <= q.freqImprovement
    && p.waitReduction <= q.waitReduction
    && p.coverageImprovement <= q.coverageImprovement
    && p.costReduction <= q.costReduction
    && p.integrationImprovement <= q.integrationImprovement
  }

  /** The per-factor impacts, as fractions (not yet multiplied by 100). */
  datatype Factors = Factors(freq: real, wait: real, coverage: real, cost: real, integration: real)
  {
    function Sum(): real
    {
      freq + wait + coverage + cost + integration
    }
  }

  /** The record the calculator returns. */
  datatype ImpactResult = ImpactResult(
    freqImpact: real,
    waitImpact: real,
    coverageImpact: real,
    costImpact: real,
    integrationImpact: real,
    totalPercentage: real,
    newRidership: int,
    absoluteIncrease: int)
  {
    /** The sum of the five per-factor percentages of the breakdown. */
    function BreakdownSum(): real
    {
      freqImpact + waitImpact + coverageImpact + costImpact + integrationImpact
    }
  }

  function Abs(x: real): real
  {
    if x < 0.0 then -x else x
  }

  /** One factor's impact: the improvement as a fraction times its coefficient. */
  function Impact(improvementPct: int, coefficient: real): real
  {
    (improvementPct as real / 100.0) * coefficient
  }

  /** The wait-time and cost coefficients enter with their magnitude only. */
  function FactorImpacts(p: InputParameters, e: ElasticityTable): Factors
  {
    Factors(
      Impact(p.freqImprovement, e.feederFrequency),
      Impact(p.waitReduction, Abs(e.lastMileWaitTime)),
      Impact(p.coverageImprovement, e.serviceAvailability),
      Impact(p.costReduction, Abs(e.feederCost)),
      Impact(p.integrationImprovement, e.integrationQuality))
  }

  /** The additive total of the five impacts, before the clamp. */
  function RawTotal(p: InputParameters, e: ElasticityTable): real
  {
    FactorImpacts(p, e).Sum()
  }

  /** The part of the excess over the knee that the clamp keeps. */
  function Damped(excess: real, damping: real): real
  {
    excess * damping
  }

  /** The single-knee diminishing-returns clamp. */
  function DiminishingReturns(total: real, knee: real, damping: real): real
  {
    if total > knee then knee + Damped(total - knee, damping) else total
  }

  /** The total impact after the clamp, as a fraction. */
  function ClampedTotal(p: InputParameters, cfg: Config): real
  {
    DiminishingReturns(RawTotal(p, cfg.elasticities), cfg.knee, cfg.damping)
  }

  /** The projected ridership: int(current * (1 + total)). */
  function NewRidership(current: int, total: real): int
  {
    TruncateTowardZero(current as real * (1.0 + total))
  }

  /** int() of the unrounded projection minus the current ridership. */
  function AbsoluteIncrease(current: int, total: real): int
  {
    TruncateTowardZero(current as real * (1.0 + total) - current as real)
  }

  /**
    The calculator. The breakdown is reported before the clamp, the total
    after it; the absolute increase is int() of the unrounded difference.
   */
  function CalculateRidershipImpact(p: InputParameters, cfg: Config): ImpactResult
  {
    var f := FactorImpacts(p, cfg.elasticities);
    var total := ClampedTotal(p, cfg);
    ImpactResult(
      f.freq * 100.0,
      f.wait * 100.0,
      f.coverage * 100.0,
      f.cost * 100.0,
      f.integration * 100.0,
      total * 100.0,
      NewRidership(p.currentRidership, total),
      AbsoluteIncrease(p.currentRidership, total))
  }

  // ---------------------------------------------------------------------------
  // The projection onto ridership

  /**
    For a non-negative total the absolute increase is exactly the new
    ridership minus the current one; for a non-negative current ridership
    int() is the floor and ridership does not fall.
   */
  lemma ProjectionOf(current: int, total: real)
    requires 0.0 <= total
    ensures AbsoluteIncrease(current, total) == NewRidership(current, total) - current
    ensures 0 <= current ==>
      && NewRidership(current, total) == (current as real * (1.0 + total)).Floor
      && current <= NewRidership(current, total)
  {
    var c := current as real;
    var x := c * (1.0 + total);
    assert x - c == c * total;
    if 0 <= current {
      MulNonNegative(c, total);
      TruncateShift(x, current);
      TruncateIsFloor(x);
    } else {
      MulNonNegative(-c, total);
      assert c * total == -((-c) * total);
      TruncateShift(x, current);
    }
  }

  /** For a non-negative current ridership a larger total never projects fewer riders. */
  lemma NewRidershipMonotone(current: int, t1: real, t2: real)
    requires 0 <= current && t1 <= t2
    ensures NewRidership(current, t1) <= NewRidership(current, t2)
  {
    var c := current as real;
    var x1, x2 := c * (1.0 + t1), c * (1.0 + t2);
    MulMonotoneLeft(c, 1.0 + t1, 1.0 + t2);
    TruncateMonotone(x1, x2);
    assert NewRidership(current, t1) == TruncateTowardZero(x1);
    assert NewRidership(current, t2) == TruncateTowardZero(x2);
  }

  lemma ProjectionWithoutGrowth(current: int)
    ensures NewRidership(current, 0.0) == current && AbsoluteIncrease(current, 0.0) == 0
  {
    TruncateOfInteger(current);
    TruncateOfInteger(0);
  }

  // ---------------------------------------------------------------------------
  // The zero case

  /** The headline fields of the result, in terms of the clamped total. */
  lemma HeadlineFields(p: InputParameters, cfg: Config)
    ensures var r := CalculateRidershipImpact(p, cfg);
      && r.totalPercentage == ClampedTotal(p, cfg) * 100.0
      && r.newRidership == NewRidership(p.currentRidership, ClampedTotal(p, cfg))
      && r.absoluteIncrease == AbsoluteIncrease(p.currentRidership, ClampedTotal(p, cfg))
  {
  }

  lemma ZeroFactors(p: InputParameters, e: ElasticityTable)
    requires p.freqImprovement == 0 && p.waitReduction == 0 && p.coverageImprovement == 0
    requires p.costReduction == 0 && p.integrationImprovement == 0
    ensures RawTotal(p, e) == 0.0
  {
    ImpactOfNothing(e.feederFrequency);
    ImpactOfNothing(Abs(e.lastMileWaitTime));
    ImpactOfNothing(e.serviceAvailability);
    ImpactOfNothing(Abs(e.feederCost));
    ImpactOfNothing(e.integrationQuality);
  }

  lemma ZeroClampedTotal(p: InputParameters, cfg: Config)
    requires p.freqImprovement == 0 && p.waitReduction == 0 && p.coverageImprovement == 0
    requires p.costReduction == 0 && p.integrationImprovement == 0
    requires 0.0 <= cfg.knee
    ensures ClampedTotal(p, cfg) == 0.0
  {
    ZeroFactors(p, cfg.elasticities);
  }

  /** With no improvement at all, nothing changes. */
  lemma ZeroImprovements(p: InputParameters, cfg: Config)
    requires p.freqImprovement == 0 && p.waitReduction == 0 && p.coverageImprovement == 0
    requires p.costReduction == 0 && p.integrationImprovement == 0
    requires 0.0 <= cfg.knee
    ensures CalculateRidershipImpact(p, cfg).totalPercentage == 0.0
    ensures CalculateRidershipImpact(p, cfg).newRidership == p.currentRidership
    ensures CalculateRidershipImpact(p, cfg).absoluteIncrease == 0
  {
    ZeroClampedTotal(p, cfg);
    HeadlineFields(p, cfg);
    ProjectionWithoutGrowth(p.currentRidership);
  }

  // ---------------------------------------------------------------------------
  // Signs of the per-factor impacts

  lemma ImpactNonNegative(x: int, c: real)
    requires 0 <= x && 0.0 <= c
    ensures 0.0 <= Impact(x, c)
  {
    MulNonNegative(x as real / 100.0, c);
  }

  lemma ImpactOfNothing(c: real)
    ensures Impact(0, c) == 0.0
  {
    assert 0 as real / 100.0 == 0.0;
  }

  lemma ImpactMonotone(x: int, y: int, c: real)
    requires x <= y && 0.0 <= c
    ensures Impact(x, c) <= Impact(y, c)
  {
    MulMonotone(x as real / 100.0, y as real / 100.0, c);
  }

  /**
    Whatever the sign of their coefficients in the table, the wait-time and
    cost impacts are not negative for non-negative inputs.
   */
  lemma WaitAndCostIgnoreSign(p: InputParameters, e: ElasticityTable)
    requires 0 <= p.waitReduction && 0 <= p.costReduction
    ensures 0.0 <= FactorImpacts(p, e).wait && 0.0 <= FactorImpacts(p, e).cost
    ensures FactorImpacts(p, e).wait == FactorImpacts(p, e.(lastMileWaitTime := -e.lastMileWaitTime)).wait
    ensures FactorImpacts(p, e).cost == FactorImpacts(p, e.(feederCost := -e.feederCost)).cost
  {
    ImpactNonNegative(p.waitReduction, Abs(e.lastMileWaitTime));
    ImpactNonNegative(p.costReduction, Abs(e.feederCost));
  }

  lemma FactorsNonNegative(p: InputParameters, e: ElasticityTable)
    requires NonNegativeImprovements(p) && PositiveGains(e)
    ensures var f := FactorImpacts(p, e);
      0.0 <= f.freq && 0.0 <= f.wait && 0.0 <= f.coverage && 0.0 <= f.cost && 0.0 <= f.integration
  {
    ImpactNonNegative(p.freqImprovement, e.feederFrequency);
    ImpactNonNegative(p.coverageImprovement, e.serviceAvailability);
    ImpactNonNegative(p.integrationImprovement, e.integrationQuality);
    WaitAndCostIgnoreSign(p, e);
  }

  /** Every per-factor percentage of the shipped table is >= 0 for non-negative inputs. */
  lemma BreakdownNonNegative(p: InputParameters)
    requires NonNegativeImprovements(p)
    ensures var r := CalculateRidershipImpact(p, Default);
      && 0.0 <= r.freqImpact && 0.0 <= r.waitImpact && 0.0 <= r.coverageImpact
      && 0.0 <= r.costImpact && 0.0 <= r.integrationImpact
  {
    FactorsNonNegative(p, Literature);
  }

  // ---------------------------------------------------------------------------
  // The diminishing-returns clamp

  lemma DampedNonNegative(excess: real, damping: real)
    requires 0.0 <= excess && 0.0 <= damping
    ensures 0.0 <= Damped(excess, damping)
  {
    MulNonNegative(excess, damping);
  }

  lemma DampedAtMost(excess: real, damping: real)
    requires 0.0 <= excess && damping <= 1.0
    ensures Damped(excess, damping) <= excess
  {
    MulAtMost(excess, damping);
  }

  lemma DampedPositive(excess: real, damping: real)
    requires 0.0 < excess && 0.0 < damping
    ensures 0.0 < Damped(excess, damping)
  {
    MulPositive(excess, damping);
  }

  lemma DampedBelow(excess: real, damping: real)
    requires 0.0 < excess && damping < 1.0
    ensures Damped(excess, damping) < excess
  {
    MulBelow(excess, damping);
  }

  /** A damping factor in [0, 1] keeps between none and all of a non-negative excess. */
  lemma DampedBounds(excess: real, damping: real)
    requires 0.0 <= excess && 0.0 <= damping <= 1.0
    ensures 0.0 <= Damped(excess, damping) <= excess
  {
    DampedNonNegative(excess, damping);
    DampedAtMost(excess, damping);
  }

  /** A damping factor strictly inside (0, 1) keeps some, but not all, of a positive excess. */
  lemma DampedStrict(excess: real, damping: real)
    requires 0.0 < excess && 0.0 < damping < 1.0
    ensures 0.0 < Damped(excess, damping) < excess
  {
    DampedPositive(excess, damping);
    DampedBelow(excess, damping);
  }

  /** A larger excess is never damped to less, whatever the non-negative damping factor. */
  lemma DampedMonotone(x: real, y: real, damping: real)
    requires x <= y && 0.0 <= damping
    ensures Damped(x, damping) <= Damped(y, damping)
  {
    MulMonotone(x, y, damping);
  }

  /** Damping distributes over the difference of two excesses. */
  lemma DampedDifference(x: real, y: real, damping: real)
    ensures Damped(y, damping) - Damped(x, damping) == Damped(y - x, damping)
  {
  }

  lemma ClampBelowKnee(total: real, knee: real, damping: real)
    requires total <= knee
    ensures DiminishingReturns(total, knee, damping) == total
  {
  }

  /** Above the knee the clamped total lies strictly between the knee and the raw total. */
  lemma ClampAboveKnee(total: real, knee: real, damping: real)
    requires knee < total && 0.0 < damping < 1.0
    ensures knee < DiminishingReturns(total, knee, damping) < total
  {
    DampedStrict(total - knee, damping);
  }

  /** The clamp never lowers the total when the raw total grows. */
  lemma ClampMonotone(t1: real, t2: real, knee: real, damping: real)
    requires t1 <= t2 && 0.0 <= damping
    ensures DiminishingReturns(t1, knee, damping) <= DiminishingReturns(t2, knee, damping)
  {
    if t1 > knee {
      DampedMonotone(t1 - knee, t2 - knee, damping);
    } else if t2 > knee {
      DampedNonNegative(t2 - knee, damping);
    }
  }

  /**
    The clamp passes on at most the growth of the raw total, and never
    turns growth into a loss.
   */
  lemma ClampCloser(t1: real, t2: real, knee: real, damping: real)
    requires t1 <= t2 && 0.0 <= damping <= 1.0
    ensures 0.0 <= DiminishingReturns(t2, knee, damping) - DiminishingReturns(t1, knee, damping) <= t2 - t1
  {
    if t1 > knee {
      DampedDifference(t1 - knee, t2 - knee, damping);
      assert (t2 - knee) - (t1 - knee) == t2 - t1;
      DampedBounds(t2 - t1, damping);
    } else if t2 > knee {
      DampedBounds(t2 - knee, damping);
    }
  }

  /**
    The clamp never moves two totals further apart than they were; in
    particular it is continuous, also at the knee.
   */
  lemma ClampContinuous(t1: real, t2: real, knee: real, damping: real)
    requires 0.0 <= damping <= 1.0
    ensures Abs(DiminishingReturns(t1, knee, damping) - DiminishingReturns(t2, knee, damping)) <= Abs(t1 - t2)
  {
    if t1 <= t2 {
      ClampCloser(t1, t2, knee, damping);
    } else {
      ClampCloser(t2, t1, knee, damping);
    }
  }

  lemma ClampExamples()
    ensures DiminishingReturns(0.5, Default.knee, Default.damping) == 0.5
    ensures DiminishingReturns(1.0, Default.knee, Default.damping) == 0.85
  {
  }

  /** Any inputs whose raw total is exactly 0.5 or 1.0 report 50% or 85%. */
  lemma KneeBoundaryTotals(p: InputParameters)
    ensures RawTotal(p, Literature) == 0.5 ==> CalculateRidershipImpact(p, Default).totalPercentage == 50.0
    ensures RawTotal(p, Literature) == 1.0 ==> CalculateRidershipImpact(p, Default).totalPercentage == 85.0
  {
    HeadlineFields(p, Default);
  }

  /** Frequency-only inputs of 100 and 200 are such inputs: their raw totals are 0.5 and 1.0. */
  lemma KneeBoundaryInputs(p: InputParameters)
    requires p.waitReduction == 0 && p.coverageImprovement == 0
    requires p.costReduction == 0 && p.integrationImprovement == 0
    ensures p.freqImprovement == 100 ==> CalculateRidershipImpact(p, Default).totalPercentage == 50.0
    ensures p.freqImprovement == 200 ==> CalculateRidershipImpact(p, Default).totalPercentage == 85.0
  {
    if p.freqImprovement == 100 {
      assert RawTotal(p, Literature) == 0.5;
    } else if p.freqImprovement == 200 {
      assert RawTotal(p, Literature) == 1.0;
    }
  }

  // ---------------------------------------------------------------------------
  // Monotonicity in the inputs

  lemma RawTotalMonotone(p: InputParameters, q: InputParameters, e: ElasticityTable)
    requires Dominated(p, q) && PositiveGains(e)
    ensures RawTotal(p, e) <= RawTotal(q, e)
  {
    ImpactMonotone(p.freqImprovement, q.freqImprovement, e.feederFrequency);
    ImpactMonotone(p.waitReduction, q.waitReduction, Abs(e.lastMileWaitTime));
    ImpactMonotone(p.coverageImprovement, q.coverageImprovement, e.serviceAvailability);
    ImpactMonotone(p.costReduction, q.costReduction, Abs(e.feederCost));
    ImpactMonotone(p.integrationImprovement, q.integrationImprovement, e.integrationQuality);
  }

  lemma ClampedTotalMonotone(p: InputParameters, q: InputParameters, cfg: Config)
    requires Dominated(p, q) && PositiveGains(cfg.elasticities) && 0.0 <= cfg.damping
    ensures ClampedTotal(p, cfg) <= ClampedTotal(q, cfg)
  {
    RawTotalMonotone(p, q, cfg.elasticities);
    ClampMonotone(RawTotal(p, cfg.elasticities), RawTotal(q, cfg.elasticities), cfg.knee, cfg.damping);
  }

  /**
    Raising any improvement percentage (one or several, the others fixed)
    never lowers the reported total percentage.
   */
  lemma TotalPercentageMonotone(p: InputParameters, q: InputParameters, cfg: Config)
    requires Dominated(p, q) && PositiveGains(cfg.elasticities) && 0.0 <= cfg.damping
    ensures CalculateRidershipImpact(p, cfg).totalPercentage <= CalculateRidershipImpact(q, cfg).totalPercentage
  {
    ClampedTotalMonotone(p, q, cfg);
    assert CalculateRidershipImpact(p, cfg).totalPercentage == ClampedTotal(p, cfg) * 100.0;
    assert CalculateRidershipImpact(q, cfg).totalPercentage == ClampedTotal(q, cfg) * 100.0;
  }

  /** Raising improvement percentages never lowers the projected ridership either. */
  lemma NewRidershipMonotoneInInputs(p: InputParameters, q: InputParameters, cfg: Config)
    requires Dominated(p, q) && p.currentRidership == q.currentRidership && 0 <= p.currentRidership
    requires PositiveGains(cfg.elasticities) && 0.0 <= cfg.damping
    ensures CalculateRidershipImpact(p, cfg).newRidership <= CalculateRidershipImpact(q, cfg).newRidership
  {
    ClampedTotalMonotone(p, q, cfg);
    NewRidershipMonotone(p.currentRidership, ClampedTotal(p, cfg), ClampedTotal(q, cfg));
    HeadlineFields(p, cfg);
    HeadlineFields(q, cfg);
  }

  // ---------------------------------------------------------------------------
  // The breakdown against the headline total

  /**
    The breakdown adds up to the unclamped total; it equals the reported
    total exactly when the clamp is inactive and exceeds it otherwise.
   */
  lemma BreakdownVersusTotal(p: InputParameters, cfg: Config)
    requires 0.0 < cfg.damping < 1.0
    ensures var r := CalculateRidershipImpact(p, cfg);
      r.BreakdownSum() == RawTotal(p, cfg.elasticities) * 100.0
    ensures var r := CalculateRidershipImpact(p, cfg);
      r.BreakdownSum() == r.totalPercentage <==> RawTotal(p, cfg.elasticities) <= cfg.knee
    ensures var r := CalculateRidershipImpact(p, cfg);
      RawTotal(p, cfg.elasticities) > cfg.knee ==> r.BreakdownSum() > r.totalPercentage
  {
    var raw := RawTotal(p, cfg.elasticities);
    var r := CalculateRidershipImpact(p, cfg);
    assert r.BreakdownSum() == raw * 100.0;
    assert r.totalPercentage == ClampedTotal(p, cfg) * 100.0;
    if raw > cfg.knee {
      ClampAboveKnee(raw, cfg.knee, cfg.damping);
    }
  }

  // ---------------------------------------------------------------------------
  // Bounds over the slider ranges

  lemma RawTotalBounds(p: InputParameters)
    requires InSliderRanges(p)
    ensures 0.0 <= RawTotal(p, Literature) <= 2.74
  {
    var top := p.(freqImprovement := 200, waitReduction := 80, coverageImprovement := 100,
                  costReduction := 50, integrationImprovement := 100);
    var zero := p.(freqImprovement := 0, waitReduction := 0, coverageImprovement := 0,
                   costReduction := 0, integrationImprovement := 0);
    RawTotalMonotone(p, top, Literature);
    RawTotalMonotone(zero, p, Literature);
    assert RawTotal(top, Literature) == 2.74;
    assert RawTotal(zero, Literature) == 0.0;
  }

  /** The reported percentage stays within 0 and 206.8, and the top is reached. */
  lemma TotalPercentageBounds(p: InputParameters)
    requires InSliderRanges(p)
    ensures 0.0 <= CalculateRidershipImpact(p, Default).totalPercentage <= 206.8
    ensures p.freqImprovement == 200 && p.waitReduction == 80 && p.coverageImprovement == 100
            && p.costReduction == 50 && p.integrationImprovement == 100
            ==> CalculateRidershipImpact(p, Default).totalPercentage == 206.8
  {
    var raw := RawTotal(p, Literature);
    RawTotalBounds(p);
    ClampMonotone(raw, 2.74, 0.5, 0.7);
    ClampMonotone(0.0, raw, 0.5, 0.7);
    assert DiminishingReturns(2.74, 0.5, 0.7) == 2.068;
    assert CalculateRidershipImpact(p, Default).totalPercentage == ClampedTotal(p, Default) * 100.0;
    if p.freqImprovement == 200 && p.waitReduction == 80 && p.coverageImprovement == 100
       && p.costReduction == 50 && p.integrationImprovement == 100 {
      assert raw == 2.74;
    }
  }

  // ---------------------------------------------------------------------------
  // The calculator's ridership outputs

  lemma ClampedTotalNonNegative(p: InputParameters, cfg: Config)
    requires NonNegativeImprovements(p) && PositiveGains(cfg.elasticities) && Dampens(cfg)
    ensures 0.0 <= ClampedTotal(p, cfg)
  {
    FactorsNonNegative(p, cfg.elasticities);
    var raw := RawTotal(p, cfg.elasticities);
    if raw > cfg.knee {
      ClampAboveKnee(raw, cfg.knee, cfg.damping);
    }
  }

  /**
    With non-negative improvements the absolute increase is the new ridership
    minus the current one, and for a non-negative current ridership the new
    ridership is floor(current * (1 + total)) and not below the current one.
   */
  lemma RidershipOutputs(p: InputParameters, cfg: Config)
    requires NonNegativeImprovements(p) && PositiveGains(cfg.elasticities) && Dampens(cfg)
    ensures var r := CalculateRidershipImpact(p, cfg);
      r.absoluteIncrease == r.newRidership - p.currentRidership
    ensures var r := CalculateRidershipImpact(p, cfg);
      0 <= p.currentRidership ==>
        && r.newRidership == (p.currentRidership as real * (1.0 + ClampedTotal(p, cfg))).Floor
        && p.currentRidership <= r.newRidership
  {
    ClampedTotalNonNegative(p, cfg);
    ProjectionOf(p.currentRidership, ClampedTotal(p, cfg));
  }

  /**
    The absolute increase is not int(new) - current in general: for a
    negative improvement the two truncations round in opposite directions.
   */
  lemma NegativeTotalSplitsTruncation()
    ensures var p := InputParameters(100, 4, 12, -1, 0, 0, 0, 0);
      var r := CalculateRidershipImpact(p, Default);
      r.newRidership == 99 && r.absoluteIncrease == 0
      && r.absoluteIncrease != r.newRidership - p.currentRidership
  {
    var p := InputParameters(100, 4, 12, -1, 0, 0, 0, 0);
    assert RawTotal(p, Literature) == -0.005;
    assert ClampedTotal(p, Default) == -0.005;
    assert 100.0 * (1.0 + -0.005) == 99.5;
    assert TruncateTowardZero(99.5) == 99;
    assert TruncateTowardZero(-0.5) == 0;
  }

  /** The sliders' default scenario, computed through. */
  lemma WorkedExample()
    ensures var r := CalculateRidershipImpact(InputParameters(100000, 4, 12, 50, 30, 25, 15, 40), Default);
      && r.freqImpact == 25.0 && r.waitImpact == 24.0 && r.coverageImpact == 7.5
      && r.costImpact == 6.0 && r.integrationImpact == 24.0
      && r.totalPercentage == 75.55
      && r.newRidership == 175550 && r.absoluteIncrease == 75550
  {
    var p := InputParameters(100000, 4, 12, 50, 30, 25, 15, 40);
    assert FactorImpacts(p, Literature) == Factors(0.25, 0.24, 0.075, 0.06, 0.24);
    assert RawTotal(p, Literature) == 0.865;
    assert ClampedTotal(p, Default) == 0.7555;
    assert 100000.0 * (1.0 + 0.7555) == 175550.0;
    TruncateOfInteger(175550);
    TruncateOfInteger(75550);
  }

  /** The two baseline inputs do not influence any output. */
  lemma BaselinesInert(p: InputParameters, frequency: int, wait: int, cfg: Config)
    ensures CalculateRidershipImpact(p, cfg)
         == CalculateRidershipImpact(p.(baselineFrequency := frequency, baselineWait := wait), cfg)
  {
    var q := p.(baselineFrequency := frequency, baselineWait := wait);
    assert FactorImpacts(p, cfg.elasticities) == FactorImpacts(q, cfg.elasticities);
  }
}
