/**
 * Two worked systems from the engine's unit tests (src/fuzzy_system/tests.rs): a one-input fan
 * controller, and a pair of mirrored output sets with equal activation.
 */
module Scenarios {
  import opened Numeric
  import opened Membership
  import opened FuzzySets
  import opened Variables
  import opened Rules
  import opened FuzzySystems

  const Cold := FuzzySet("cold", Triangular(0.0, 0.0, 50.0))
  const Hot := FuzzySet("hot", Triangular(50.0, 100.0, 100.0))
  const Low := FuzzySet("low", Triangular(0.0, 0.0, 50.0))
  const High := FuzzySet("high", Triangular(50.0, 100.0, 100.0))

  /** The input: temperature over (0, 100), cold falling to 0 at 50, hot rising from 50. */
  function Temperature(): Variable
  {
    Variable("temperature", (0.0, 100.0), [Cold, Hot])
  }

  /** The output: fan speed over (0, 100) with the same two shapes, low and high. */
  function FanSpeed(): Variable
  {
    Variable("fan_speed", (0.0, 100.0), [Low, High])
  }

  /** Cold gives low speed, hot gives high speed. */
  function FanRules(): seq<FuzzyRule>
  {
    [ FuzzyRule([Antecedent("cold", "temperature")], [Consequent("low", "fan_speed")], And),
      FuzzyRule([Antecedent("hot", "temperature")], [Consequent("high", "fan_speed")], And) ]
  }

  function FanSystem(): SystemView
  {
    SystemView("Test System", [Temperature()], FanSpeed(), FanRules(), Centroid)
  }

  /** The aggregated membership over two sets that both have an activation. */
  lemma AggregatedOfPair(s1: FuzzySet, s2: FuzzySet, activated: map<string, real>, x: real)
    requires s1.name in activated && s2.name in activated
    ensures Aggregated([s1, s2], activated, x)
            == Max(Max(0.0, Min(Degree(s1, x), activated[s1.name])), Min(Degree(s2, x), activated[s2.name]))
  {
    assert [s1, s2][..1] == [s1];
    assert [s1][..0] == [];
  }

  /** Fuzzifying temperature t gives cold(t) and hot(t). */
  lemma FanFuzzification(t: real)
    ensures Fuzzification([Temperature()], map["temperature" := t])
            == map["temperature" := map["cold" := Degree(Cold, t), "hot" := Degree(Hot, t)]]
  {
    assert [Temperature()][..0] == [];
    assert [Cold, Hot][..1] == [Cold] && [Cold][..0] == [];
    assert FuzzifySets([Cold, Hot], t) == map["cold" := Degree(Cold, t), "hot" := Degree(Hot, t)];
  }

  /** Fuzzifying 25 degrees gives an entry for both sets: cold to degree 1/2, hot to degree 0. */
  lemma DocumentedFuzzification()
    ensures var memberships := FuzzifySets(Temperature().sets, 25.0);
            && "cold" in memberships && "hot" in memberships
            && memberships["cold"] == 0.5 && memberships["hot"] == 0.0
  {
    assert [Cold, Hot][..1] == [Cold] && [Cold][..0] == [];
  }

  /** At temperature t, rule 1 activates low by cold(t) and rule 2 activates high by hot(t). */
  lemma FanActivation(t: real)
    ensures Activation(FanRules(), Fuzzification([Temperature()], map["temperature" := t]), FanSpeed().sets)
            == map["low" := Degree(Cold, t), "high" := Degree(Hot, t)]
  {
    var fuzzified := Fuzzification([Temperature()], map["temperature" := t]);
    FanFuzzification(t);
    var rules := FanRules();
    assert rules[..1][..0] == [] && rules[..1] == [rules[0]];
    assert [rules[0].antecedents[0]][..0] == [] && [rules[1].antecedents[0]][..0] == [];
    assert FiringStrength(rules[0], fuzzified) == Degree(Cold, t);
    assert FiringStrength(rules[1], fuzzified) == Degree(Hot, t);
    assert Declares(FanSpeed().sets, "low") && Declares(FanSpeed().sets, "high");
  }

  /** The weight of sample i of the fan speed grid, for activations l of low and h of high. */
  lemma FanWeight(l: real, h: real, i: int)
    ensures Weights(FanSpeed(), map["low" := l, "high" := h])(i)
            == Max(Max(0.0, Min(Degree(Low, SamplePoint((0.0, 100.0), i)), l)), Min(Degree(High, SamplePoint((0.0, 100.0), i)), h))
  {
    AggregatedOfPair(Low, High, map["low" := l, "high" := h], SamplePoint((0.0, 100.0), i));
  }

  /** Low is positive only on [0, 50) and high only on (50, 100]. */
  lemma Supports(x: real)
    ensures Degree(Low, x) > 0.0 ==> 0.0 <= x < 50.0
    ensures Degree(High, x) > 0.0 ==> 50.0 < x <= 100.0
  {
  }

  /** The samples of the (0, 100) grid are a tenth apart, so none lies strictly between 49.9 and 50.1. */
  lemma GridAroundMiddle(i: int)
    ensures SamplePoint((0.0, 100.0), i) < 50.0 ==> SamplePoint((0.0, 100.0), i) <= 49.9
    ensures SamplePoint((0.0, 100.0), i) > 50.0 ==> SamplePoint((0.0, 100.0), i) >= 50.1
  {
    assert SamplePoint((0.0, 100.0), i) == (i as real) / 10.0;
  }

  /** The weights when only low is active: positive on samples up to 49.9, and 1/2 at 0. */
  lemma CoolWeights()
    ensures var weight := Weights(FanSpeed(), map["low" := 0.5, "high" := 0.0]);
            && (forall i :: 0 <= i <= Steps ==> weight(i) >= 0.0)
            && (forall i :: 0 <= i <= Steps && weight(i) > 0.0 ==> 0.0 <= SamplePoint((0.0, 100.0), i) <= 49.9)
            && weight(0) == 0.5
  {
    var weight := Weights(FanSpeed(), map["low" := 0.5, "high" := 0.0]);
    WeightsInUnitInterval(FanSpeed(), map["low" := 0.5, "high" := 0.0]);
    forall i | 0 <= i <= Steps && weight(i) > 0.0
      ensures 0.0 <= SamplePoint((0.0, 100.0), i) <= 49.9
    {
      FanWeight(0.5, 0.0, i);
      Supports(SamplePoint((0.0, 100.0), i));
      GridAroundMiddle(i);
    }
    FanWeight(0.5, 0.0, 0);
  }

  /** The weights when only high is active: positive on samples from 50.1, and 1/2 at 100. */
  lemma WarmWeights()
    ensures var weight := Weights(FanSpeed(), map["low" := 0.0, "high" := 0.5]);
            && (forall i :: 0 <= i <= Steps ==> weight(i) >= 0.0)
            && (forall i :: 0 <= i <= Steps && weight(i) > 0.0 ==> 50.1 <= SamplePoint((0.0, 100.0), i) <= 100.0)
            && weight(Steps) == 0.5
  {
    var weight := Weights(FanSpeed(), map["low" := 0.0, "high" := 0.5]);
    WeightsInUnitInterval(FanSpeed(), map["low" := 0.0, "high" := 0.5]);
    forall i | 0 <= i <= Steps && weight(i) > 0.0
      ensures 50.1 <= SamplePoint((0.0, 100.0), i) <= 100.0
    {
      FanWeight(0.0, 0.5, i);
      Supports(SamplePoint((0.0, 100.0), i));
      GridAroundMiddle(i);
    }
    FanWeight(0.0, 0.5, Steps);
  }

  /** A cool temperature (25) gives a fan speed below the middle of the range. */
  lemma FanControllerAtCoolTemperature()
    ensures SystemOutput(FanSystem(), map["temperature" := 25.0]).0 == "fan_speed"
    ensures SystemOutput(FanSystem(), map["temperature" := 25.0]).1 < 50.0
  {
    FanActivation(25.0);
    assert Degree(Cold, 25.0) == 0.5 && Degree(Hot, 25.0) == 0.0;
    CoolWeights();
    CentroidWithin((0.0, 100.0), Weights(FanSpeed(), map["low" := 0.5, "high" := 0.0]), 0.0, 49.9, 0);
  }

  /** A warm temperature (75) gives a fan speed above the middle of the range. */
  lemma FanControllerAtWarmTemperature()
    ensures SystemOutput(FanSystem(), map["temperature" := 75.0]).0 == "fan_speed"
    ensures SystemOutput(FanSystem(), map["temperature" := 75.0]).1 > 50.0
  {
    FanActivation(75.0);
    assert Degree(Cold, 75.0) == 0.0 && Degree(Hot, 75.0) == 0.5;
    WarmWeights();
    CentroidWithin((0.0, 100.0), Weights(FanSpeed(), map["low" := 0.0, "high" := 0.5]), 50.1, 100.0, Steps);
  }

  const PeakLow := FuzzySet("low", Triangular(0.0, 25.0, 50.0))
  const PeakHigh := FuzzySet("high", Triangular(50.0, 75.0, 100.0))

  /** An output over (0, 100) whose two triangles mirror each other about 50. */
  function MirroredOutput(): Variable
  {
    Variable("output", (0.0, 100.0), [PeakLow, PeakHigh])
  }

  /**
   * Equal activation of the two mirrored sets puts the centroid exactly at the midpoint 50
   * (the unit test asks only for a value between 40 and 60).
   */
  lemma EqualActivationCentroid()
    ensures CentroidValue(MirroredOutput(), map["low" := 0.5, "high" := 0.5]) == 50.0
  {
    MirroredWeights();
    CentroidValueOfSymmetricWeights(MirroredOutput(), map["low" := 0.5, "high" := 0.5]);
  }

  /** With no activation at all, the centroid of a one-set output over (0, 100) is the midpoint 50. */
  lemma NoActivationCentroid()
    ensures CentroidValue(Variable("output", (0.0, 100.0), [PeakLow]), map[]) == 50.0
  {
    CentroidFallsBackToMidpoint(Variable("output", (0.0, 100.0), [PeakLow]), map[]);
  }

  /** Samples i and Steps - i of the mirrored output weigh the same under equal activations. */
  lemma MirroredWeights()
    ensures SymmetricWeights(Weights(MirroredOutput(), map["low" := 0.5, "high" := 0.5]))
  {
    forall x: real
      ensures Aggregated([PeakLow, PeakHigh], map["low" := 0.5, "high" := 0.5], x)
              == Aggregated([PeakLow, PeakHigh], map["low" := 0.5, "high" := 0.5], 100.0 - x)
    {
      MirroredAggregation(x, 100.0 - x);
    }
    SymmetricAggregation(MirroredOutput(), map["low" := 0.5, "high" := 0.5]);
  }

  /** With equal activations, the aggregated membership of the mirrored sets is symmetric about 50. */
  lemma MirroredAggregation(x: real, y: real)
    requires y == 100.0 - x
    ensures Aggregated([PeakLow, PeakHigh], map["low" := 0.5, "high" := 0.5], x)
            == Aggregated([PeakLow, PeakHigh], map["low" := 0.5, "high" := 0.5], y)
  {
    TriangularMirror(0.0, 25.0, 50.0, 50.0, x);
    TriangularMirror(50.0, 75.0, 100.0, 50.0, x);
    AggregatedOfPair(PeakLow, PeakHigh, map["low" := 0.5, "high" := 0.5], x);
    AggregatedOfPair(PeakLow, PeakHigh, map["low" := 0.5, "high" := 0.5], y);
  }
}
