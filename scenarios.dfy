/**
  The scenario-comparison table: four named presets, each a uniform
  improvement percentage, projected with a one-coefficient proxy instead of
  the five-factor calculator. The "Current" row shows the current ridership
  and 0%, whatever the live calculation gives.
 */
module ScenarioComparison {
  import opened Numeric
  import opened ImpactCalculator

  /** A named preset and its uniform improvement percentage. */
  datatype Preset = Preset(name: string, improvement: int)

  /** One row of the comparison table. */
  datatype ScenarioRow = ScenarioRow(scenario: string, ridership: int, percentIncrease: real)

  /** The intermediate record the loop builds for each preset before choosing the row's values. */
  datatype Projection = Projection(totalPercentage: real, newRidership: int)

  const CurrentName: string := "Current"

  /** The presets, in the order the table shows them. */
  const Presets: seq<Preset> := [
    Preset(CurrentName, 0),
    Preset("Basic Improvement", 15),
    Preset("Moderate Improvement", 35),
    Preset("Comprehensive Improvement", 60)
  ]

  /** The proxy's percentage: 0.4 times the uniform improvement. */
  function ProxyPercentage(improvement: int): real
  {
    improvement as real * 0.4
  }

  /** The proxy's ridership: int(current * (1 + improvement * 0.004)). */
  function ProxyRidership(current: int, improvement: int): int
  {
    TruncateTowardZero(current as real * (1.0 + improvement as real * 0.004))
  }

  /** What the table shows for one preset: the baseline for "Current", the proxy otherwise. */
  function ExpectedRow(current: int, preset: Preset): ScenarioRow
  {
    if preset.name == CurrentName then ScenarioRow(preset.name, current, 0.0)
    else ScenarioRow(preset.name, ProxyRidership(current, preset.improvement), ProxyPercentage(preset.improvement))
  }

  /**
    The loop over the presets. For "Current" it evaluates the live
    calculation and then discards it in favour of the baseline; every other
    preset goes through the proxy.
   */
  method BuildScenarioTable(p: InputParameters, cfg: Config, presets: seq<Preset>) returns (rows: seq<ScenarioRow>)
    ensures |rows| == |presets|
    ensures forall i :: 0 <= i < |presets| ==> rows[i] == ExpectedRow(p.currentRidership, presets[i])
  {
    var current := p.currentRidership;
    rows := [];
    for i := 0 to |presets|
      invariant |rows| == i
      invariant forall k :: 0 <= k < i ==> rows[k] == ExpectedRow(current, presets[k])
    {
      var preset := presets[i];
      var temp: Projection;
      if preset.name == CurrentName {
        var live := CalculateRidershipImpact(p, cfg);
        temp := Projection(live.totalPercentage, live.newRidership);
      } else {
        temp := Projection(ProxyPercentage(preset.improvement), ProxyRidership(current, preset.improvement));
      }
      var row := ScenarioRow(
        preset.name,
        if preset.name != CurrentName then temp.newRidership else current,
        if preset.name != CurrentName then temp.totalPercentage else 0.0);
      rows := rows + [row];
    }
  }

  // ---------------------------------------------------------------------------
  // Properties of the rows

  /** Each row carries its preset's name, so the table keeps the presets' order. */
  lemma RowKeepsName(current: int, preset: Preset)
    ensures ExpectedRow(current, preset).scenario == preset.name
  {
  }

  /** The "Current" row is the baseline, whatever improvement the preset names. */
  lemma CurrentRowIsBaseline(current: int, improvement: int)
    ensures ExpectedRow(current, Preset(CurrentName, improvement)) == ScenarioRow(CurrentName, current, 0.0)
  {
  }

  /** The proxy is the calculator's projection step applied to a total of improvement * 0.4 percent. */
  lemma ProxyIsProjection(current: int, improvement: int)
    ensures ProxyRidership(current, improvement) == NewRidership(current, ProxyPercentage(improvement) / 100.0)
  {
    assert improvement as real * 0.004 == ProxyPercentage(improvement) / 100.0;
  }

  /**
    A non-"Current" row's ridership is floor(current * (1 + percentage / 100))
    of the percentage it shows, and it is not below the current ridership.
   */
  lemma ProxyRowConsistent(current: int, preset: Preset)
    requires preset.name != CurrentName && 0 <= current && 0 <= preset.improvement
    ensures var row := ExpectedRow(current, preset);
      && row.percentIncrease == preset.improvement as real * 0.4
      && row.ridership == (current as real * (1.0 + row.percentIncrease / 100.0)).Floor
      && current <= row.ridership
  {
    ProxyIsProjection(current, preset.improvement);
    ProjectionOf(current, ProxyPercentage(preset.improvement) / 100.0);
  }

  /** A larger uniform improvement never gives a smaller proxy ridership. */
  lemma ProxyRidershipMonotone(current: int, k1: int, k2: int)
    requires 0 <= current && k1 <= k2
    ensures ProxyRidership(current, k1) <= ProxyRidership(current, k2)
  {
    ProxyIsProjection(current, k1);
    ProxyIsProjection(current, k2);
    NewRidershipMonotone(current, ProxyPercentage(k1) / 100.0, ProxyPercentage(k2) / 100.0);
  }

  /** Down the shipped table, ridership never falls and the percentage grows. */
  lemma PresetTableAscends(current: int, i: int, j: int)
    requires 0 <= current && 0 <= i < j < |Presets|
    ensures ExpectedRow(current, Presets[i]).ridership <= ExpectedRow(current, Presets[j]).ridership
    ensures ExpectedRow(current, Presets[i]).percentIncrease < ExpectedRow(current, Presets[j]).percentIncrease
  {
    if i == 0 {
      ProxyRowConsistent(current, Presets[j]);
    } else {
      ProxyRidershipMonotone(current, Presets[i].improvement, Presets[j].improvement);
    }
  }

  /** The rows for 100000 riders. */
  lemma PresetExamples()
    ensures ExpectedRow(100000, Presets[0]) == ScenarioRow("Current", 100000, 0.0)
    ensures ExpectedRow(100000, Presets[1]) == ScenarioRow("Basic Improvement", 106000, 6.0)
    ensures ExpectedRow(100000, Presets[2]) == ScenarioRow("Moderate Improvement", 114000, 14.0)
    ensures ExpectedRow(100000, Presets[3]) == ScenarioRow("Comprehensive Improvement", 124000, 24.0)
  {
    assert 100000.0 * (1.0 + 15.0 * 0.004) == 106000.0;
    assert 100000.0 * (1.0 + 35.0 * 0.004) == 114000.0;
    assert 100000.0 * (1.0 + 60.0 * 0.004) == 124000.0;
    TruncateOfInteger(106000);
    TruncateOfInteger(114000);
    TruncateOfInteger(124000);
  }

  /**
    The proxy is not the calculator: the same 15% applied to all five
    factors moves the headline total to 39%, the proxy to 6%.
   */
  lemma ProxyDiffersFromCalculator()
    ensures CalculateRidershipImpact(InputParameters(100000, 4, 12, 15, 15, 15, 15, 15), Default).totalPercentage == 39.0
    ensures ProxyPercentage(15) == 6.0
  {
    var p := InputParameters(100000, 4, 12, 15, 15, 15, 15, 15);
    assert FactorImpacts(p, Literature) == Factors(0.075, 0.12, 0.045, 0.06, 0.09);
    assert RawTotal(p, Literature) == 0.39;
    assert ClampedTotal(p, Default) == 0.39;
    HeadlineFields(p, Default);
  }
}
