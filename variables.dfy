/**
 * Linguistic variables, fuzzification and centroid defuzzification
 * (src/fuzzy_system/variables.rs).
 */
module Variables {
  import opened Numeric
  import opened FuzzySets

  /** The value of a linguistic variable: its name, declared (min, max) range and ordered sets. */
  datatype Variable = Variable(name: string, range: (real, real), sets: seq<FuzzySet>)

  datatype DefuzzificationMethod = Centroid

  /** The names of the sets of a list. */
  function Names(sets: seq<FuzzySet>): set<string>
  {
    set s | s in sets :: s.name
  }

  /** Some set of the list carries this name (`iter().any(|s| s.name == name)`). */
  predicate Declares(sets: seq<FuzzySet>, name: string)
  {
    name in Names(sets)
  }

  /** No later set of the list shares the name of set i. */
  predicate LastWithName(sets: seq<FuzzySet>, i: int)
    requires 0 <= i < |sets|
  {
    forall j :: i < j < |sets| ==> sets[j].name != sets[i].name
  }

  /**
   * What `fuzzify` collects: every set's name mapped to its degree at `value`, with no
   * clamping of `value` to the declared range. When two sets share a name, the later one wins,
   * as it does when a HashMap is collected.
   */
  function FuzzifySets(sets: seq<FuzzySet>, value: real): (r: map<string, real>)
    ensures r.Keys == Names(sets)
    ensures forall k :: k in r ==> 0.0 <= r[k] <= 1.0
    decreases |sets|
  {
    if sets == [] then map[]
    else
      var init := sets[..|sets| - 1];
      var last := sets[|sets| - 1];
      assert sets == init + [last];
      assert Names(sets) == Names(init) + {last.name};
      FuzzifySets(init, value)[last.name := Degree(last, value)]
  }

  /** The entry of a name is the degree of the last set carrying it. */
  lemma {:induction false} FuzzifyLastWins(sets: seq<FuzzySet>, value: real, i: int)
    requires 0 <= i < |sets| && LastWithName(sets, i)
    ensures sets[i].name in FuzzifySets(sets, value)
    ensures FuzzifySets(sets, value)[sets[i].name] == Degree(sets[i], value)
    decreases |sets|
  {
    var init := sets[..|sets| - 1];
    if i < |sets| - 1 {
      assert init[i] == sets[i];
      assert LastWithName(init, i);
      FuzzifyLastWins(init, value, i);
    }
  }

  /** A linguistic variable; `AddSet` appends to its set list in place. */
  class LinguisticVariable {
    const name: string
    const range: (real, real)
    var fuzzySets: seq<FuzzySet>

    /** `LinguisticVariable::new`: a named range with no sets yet. */
    constructor (name: string, range: (real, real))
      ensures this.name == name && this.range == range && fuzzySets == []
    {
      this.name := name;
      this.range := range;
      fuzzySets := [];
    }

    /** `add_set`: the new set goes last; the earlier sets, name and range stay as they were. */
    method AddSet(s: FuzzySet)
      modifies this
      ensures fuzzySets == old(fuzzySets) + [s]
    {
      fuzzySets := fuzzySets + [s];
    }

    function View(): Variable
      reads this
    {
      Variable(name, range, fuzzySets)
    }

    /** `fuzzify` */
    function Fuzzify(value: real): map<string, real>
      reads this
    {
      FuzzifySets(fuzzySets, value)
    }
  }

  /** Number of intervals of the centroid's sampling grid; there are Steps + 1 samples. */
  const Steps: nat := 1000

  /** The i-th sample, lo + i * (hi - lo) / Steps. */
  function SamplePoint(range: (real, real), i: int): real
  {
    range.0 + (i as real) * ((range.1 - range.0) / (Steps as real))
  }

  /**
   * The aggregated membership at x: the maximum, over the sets that have an entry in
   * `activated`, of min(degree at x, activation), starting from 0. Sets without an entry
   * contribute nothing.
   */
  function Aggregated(sets: seq<FuzzySet>, activated: map<string, real>, x: real): (r: real)
    ensures 0.0 <= r <= 1.0
    ensures forall i :: 0 <= i < |sets| && sets[i].name in activated ==>
              Min(Degree(sets[i], x), activated[sets[i].name]) <= r
    ensures r == 0.0 || exists i :: Clips(sets, activated, x, i, r)
    decreases |sets|
  {
    if sets == [] then 0.0
    else
      var init := sets[..|sets| - 1];
      var last := sets[|sets| - 1];
      var rest := Aggregated(init, activated, x);
      assert forall i :: 0 <= i < |init| ==> init[i] == sets[i];
      assert rest == 0.0 || exists i :: Clips(sets, activated, x, i, rest) by {
        if rest != 0.0 {
          var i :| Clips(init, activated, x, i, rest);
          assert Clips(sets, activated, x, i, rest);
        }
      }
      if last.name in activated then
        var clipped := Min(Degree(last, x), activated[last.name]);
        assert Clips(sets, activated, x, |sets| - 1, clipped);
        Max(rest, clipped)
      else rest
  }

  /** Set i has an activation and its degree at x, clipped by that activation, is r. */
  predicate Clips(sets: seq<FuzzySet>, activated: map<string, real>, x: real, i: int, r: real)
  {
    0 <= i < |sets| && sets[i].name in activated && r == Min(Degree(sets[i], x), activated[sets[i].name])
  }

  /** The weight of each sample of v's grid under `activated`: the aggregated membership there. */
  function Weights(v: Variable, activated: map<string, real>): int -> real
  {
    i => Aggregated(v.sets, activated, SamplePoint(v.range, i))
  }

  /** The two running sums of the centroid loop. */
  datatype Sums = Sums(numerator: real, denominator: real)

  /** The sums of x_i * weight(i) and of weight(i) over the first n samples of the grid over `range`. */
  function Accumulate(range: (real, real), weight: int -> real, n: nat): Sums
  {
    if n == 0 then Sums(0.0, 0.0)
    else
      var prev := Accumulate(range, weight, n - 1);
      Sums(prev.numerator + SamplePoint(range, n - 1) * weight(n - 1), prev.denominator + weight(n - 1))
  }

  function Midpoint(range: (real, real)): real
  {
    (range.0 + range.1) / 2.0
  }

  /** The Riemann-sum centroid of the Steps + 1 weighted samples, or the midpoint when the total weight is below Epsilon. */
  function Centroid(range: (real, real), weight: int -> real): real
  {
    var den := Accumulate(range, weight, Steps + 1).denominator;
    if den < Epsilon then Midpoint(range) else Accumulate(range, weight, Steps + 1).numerator / den
  }

  /** What `Defuzzifier::centroid` returns for an output variable and the activation of its sets. */
  function CentroidValue(v: Variable, activated: map<string, real>): real
  {
    Centroid(v.range, Weights(v, activated))
  }

  /** The inner loop of `Defuzzifier::centroid`: the aggregated membership at one sample x. */
  method AggregateAt(outputVar: LinguisticVariable, activated: map<string, real>, x: real) returns (m: real)
    ensures m == Aggregated(outputVar.fuzzySets, activated, x)
  {
    m := 0.0;
    for j := 0 to |outputVar.fuzzySets|
      invariant m == Aggregated(outputVar.fuzzySets[..j], activated, x)
    {
      var s := outputVar.fuzzySets[j];
      assert outputVar.fuzzySets[..j + 1][..j] == outputVar.fuzzySets[..j];
      if s.name in activated {
        var membershipAtX := Degree(s, x);
        var clippedMembership := Min(membershipAtX, activated[s.name]);
        m := Max(m, clippedMembership);
      }
    }
    assert outputVar.fuzzySets[..|outputVar.fuzzySets|] == outputVar.fuzzySets;
  }

  /** `Defuzzifier::centroid`: the outer sampling loop. */
  method ComputeCentroid(outputVar: LinguisticVariable, activated: map<string, real>) returns (r: real)
    ensures r == CentroidValue(outputVar.View(), activated)
    ensures outputVar.range.0 <= outputVar.range.1 ==> outputVar.range.0 <= r <= outputVar.range.1
  {
    ghost var weight := Weights(outputVar.View(), activated);
    var stepSize := (outputVar.range.1 - outputVar.range.0) / (Steps as real);
    var numerator := 0.0;
    var denominator := 0.0;
    for i := 0 to Steps + 1
      invariant Accumulate(outputVar.range, weight, i) == Sums(numerator, denominator)
    {
      var x := outputVar.range.0 + (i as real) * stepSize;
      assert x == SamplePoint(outputVar.range, i);
      var aggregatedMembership := AggregateAt(outputVar, activated, x);
      assert aggregatedMembership == weight(i) by {
        assert outputVar.View().sets == outputVar.fuzzySets && outputVar.View().range == outputVar.range;
      }
      SumsStep(outputVar.range, weight, i, numerator, denominator, x, aggregatedMembership);
      numerator := numerator + x * aggregatedMembership;
      denominator := denominator + aggregatedMembership;
    }
    if outputVar.range.0 <= outputVar.range.1 {
      CentroidValueInRange(outputVar.View(), activated);
    }
    if denominator < Epsilon {
      return (outputVar.range.0 + outputVar.range.1) / 2.0;
    }
    r := numerator / denominator;
  }

  /** Sample 0 is lo, sample Steps is hi, and with lo <= hi every sample lies in [lo, hi]. */
  lemma SamplePointInRange(range: (real, real), i: int)
    requires 0 <= i <= Steps
    ensures SamplePoint(range, 0) == range.0 && SamplePoint(range, Steps) == range.1
    ensures range.0 <= range.1 ==> range.0 <= SamplePoint(range, i) <= range.1
  {
    var s := (range.1 - range.0) / (Steps as real);
    assert (Steps as real) * s == range.1 - range.0;
    if range.0 <= range.1 {
      MultiplyBothSides(0.0, i as real, s);
      MultiplyBothSides(i as real, Steps as real, s);
    }
  }

  /** One iteration of the sampling loop extends both sums by sample i. */
  lemma SumsStep(range: (real, real), weight: int -> real, i: nat, num: real, den: real, x: real, m: real)
    requires Accumulate(range, weight, i) == Sums(num, den)
    requires x == SamplePoint(range, i) && m == weight(i)
    ensures Accumulate(range, weight, i + 1) == Sums(num + x * m, den + m)
  {
  }

  lemma MultiplyBothSides(a: real, b: real, w: real)
    requires a <= b && w >= 0.0
    ensures a * w <= b * w
  {
  }

  /** Every weight lies in the unit interval. */
  lemma WeightsInUnitInterval(v: Variable, activated: map<string, real>)
    ensures forall i :: 0.0 <= Weights(v, activated)(i) <= 1.0
  {
  }

  lemma {:induction false} TotalWeightNonNegative(range: (real, real), weight: int -> real, n: nat)
    requires forall i :: 0 <= i < n ==> weight(i) >= 0.0
    ensures Accumulate(range, weight, n).denominator >= 0.0
  {
    if n > 0 {
      TotalWeightNonNegative(range, weight, n - 1);
    }
  }

  /** With non-negative weights on samples in [lo, hi], lo * den <= num <= hi * den. */
  lemma WeightedSumBounds(range: (real, real), weight: int -> real, n: nat)
    requires range.0 <= range.1 && n <= Steps + 1
    requires forall i :: 0 <= i < n ==> weight(i) >= 0.0
    ensures var sums := Accumulate(range, weight, n);
            range.0 * sums.denominator <= sums.numerator <= range.1 * sums.denominator
  {
    forall i | 0 <= i < n
      ensures range.0 <= SamplePoint(range, i) <= range.1
    {
      SamplePointInRange(range, i);
    }
    WeightedSumWithin(range, weight, n, range.0, range.1);
  }

  /** One more sample x in [lo, hi] with weight w >= 0 keeps lo * den <= num <= hi * den. */
  lemma StepBounds(lo: real, hi: real, num: real, den: real, x: real, w: real)
    requires lo * den <= num <= hi * den && lo <= x <= hi && w >= 0.0
    ensures lo * (den + w) <= num + x * w <= hi * (den + w)
  {
    MultiplyBothSides(lo, x, w);
    MultiplyBothSides(x, hi, w);
  }

  lemma QuotientBounds(num: real, den: real, lo: real, hi: real)
    requires den > 0.0 && lo * den <= num <= hi * den
    ensures lo <= num / den <= hi
  {
    assert num / den * den == num;
  }

  /** A centroid of non-negative weights is a weighted average of samples, or the midpoint: it stays in [lo, hi]. */
  lemma CentroidInRange(range: (real, real), weight: int -> real)
    requires range.0 <= range.1
    requires forall i :: 0 <= i <= Steps ==> weight(i) >= 0.0
    ensures range.0 <= Centroid(range, weight) <= range.1
  {
    var den := Accumulate(range, weight, Steps + 1).denominator;
    if den >= Epsilon {
      WeightedSumBounds(range, weight, Steps + 1);
      QuotientBounds(Accumulate(range, weight, Steps + 1).numerator, den, range.0, range.1);
    }
  }

  /** The defuzzified value of a variable with lo <= hi lies in [lo, hi], whatever the activation. */
  lemma CentroidValueInRange(v: Variable, activated: map<string, real>)
    requires v.range.0 <= v.range.1
    ensures v.range.0 <= CentroidValue(v, activated) <= v.range.1
  {
    WeightsInUnitInterval(v, activated);
    CentroidInRange(v.range, Weights(v, activated));
  }

  /**
   * When every sample with a positive weight lies in [lo, hi], lo * den <= num <= hi * den:
   * samples of weight zero add nothing to either sum.
   */
  lemma {:induction false} WeightedSumWithin(range: (real, real), weight: int -> real, n: nat, lo: real, hi: real)
    requires forall i :: 0 <= i < n ==> weight(i) >= 0.0
    requires forall i :: 0 <= i < n && weight(i) > 0.0 ==> lo <= SamplePoint(range, i) <= hi
    ensures var sums := Accumulate(range, weight, n);
            lo * sums.denominator <= sums.numerator <= hi * sums.denominator
  {
    if n > 0 {
      var prev := Accumulate(range, weight, n - 1);
      var x, w := SamplePoint(range, n - 1), weight(n - 1);
      WeightedSumWithin(range, weight, n - 1, lo, hi);
      StepWithin(lo, hi, prev.numerator, prev.denominator, x, w);
    }
  }

  /** One more sample of weight w >= 0, inside [lo, hi] unless w is 0, keeps lo * den <= num <= hi * den. */
  lemma StepWithin(lo: real, hi: real, num: real, den: real, x: real, w: real)
    requires lo * den <= num <= hi * den && w >= 0.0
    requires w > 0.0 ==> lo <= x <= hi
    ensures lo * (den + w) <= num + x * w <= hi * (den + w)
  {
    if w > 0.0 {
      StepBounds(lo, hi, num, den, x, w);
    } else {
      assert w == 0.0;
    }
  }

  /** With non-negative weights, the total weight is at least the weight of any one sample. */
  lemma {:induction false} TotalWeightAtLeast(range: (real, real), weight: int -> real, n: nat, k: int)
    requires forall i :: 0 <= i < n ==> weight(i) >= 0.0
    requires 0 <= k < n
    ensures Accumulate(range, weight, n).denominator >= weight(k)
  {
    if k < n - 1 {
      TotalWeightAtLeast(range, weight, n - 1, k);
    } else {
      TotalWeightNonNegative(range, weight, n - 1);
    }
  }

  /**
   * If some sample weighs at least Epsilon, the centroid is a true weighted average: it lies
   * within any bounds that hold for every sample of positive weight.
   */
  lemma CentroidWithin(range: (real, real), weight: int -> real, lo: real, hi: real, k: int)
    requires forall i :: 0 <= i <= Steps ==> weight(i) >= 0.0
    requires forall i :: 0 <= i <= Steps && weight(i) > 0.0 ==> lo <= SamplePoint(range, i) <= hi
    requires 0 <= k <= Steps && weight(k) >= Epsilon
    ensures lo <= Centroid(range, weight) <= hi
  {
    var sums := Accumulate(range, weight, Steps + 1);
    TotalWeightAtLeast(range, weight, Steps + 1, k);
    WeightedSumWithin(range, weight, Steps + 1, lo, hi);
    QuotientBounds(sums.numerator, sums.denominator, lo, hi);
  }

  lemma {:induction false} TotalWeightOfZeros(range: (real, real), weight: int -> real, n: nat)
    requires forall i :: 0 <= i < n ==> weight(i) == 0.0
    ensures Accumulate(range, weight, n).denominator == 0.0
  {
    if n > 0 {
      TotalWeightOfZeros(range, weight, n - 1);
    }
  }

  /**
   * When none of the variable's sets has a positive activation (in particular when
   * `activated` is empty), every weight is 0 and the result is exactly the midpoint.
   */
  lemma CentroidFallsBackToMidpoint(v: Variable, activated: map<string, real>)
    requires forall i :: 0 <= i < |v.sets| && v.sets[i].name in activated ==> activated[v.sets[i].name] <= 0.0
    ensures CentroidValue(v, activated) == Midpoint(v.range)
  {
    var weight := Weights(v, activated);
    assert forall i :: 0 <= i < Steps + 1 ==> weight(i) == 0.0;
    TotalWeightOfZeros(v.range, weight, Steps + 1);
  }

  /** The contribution of sample i to num - mid * den. */
  function CentredTerm(range: (real, real), weight: int -> real, i: int): real
  {
    (SamplePoint(range, i) - Midpoint(range)) * weight(i)
  }

  /** Sum of the centred terms for lo <= i < hi. */
  function CentredRange(range: (real, real), weight: int -> real, lo: int, hi: int): real
    decreases hi - lo
  {
    if lo >= hi then 0.0 else CentredTerm(range, weight, lo) + CentredRange(range, weight, lo + 1, hi)
  }

  lemma {:induction false} CentredRangeLast(range: (real, real), weight: int -> real, lo: int, hi: int)
    requires lo < hi
    ensures CentredRange(range, weight, lo, hi) == CentredRange(range, weight, lo, hi - 1) + CentredTerm(range, weight, hi - 1)
    decreases hi - lo
  {
    if lo < hi - 1 {
      CentredRangeLast(range, weight, lo + 1, hi);
    }
  }

  /** num - mid * den over the first n samples is the sum of their centred terms. */
  lemma {:induction false} CentredSum(range: (real, real), weight: int -> real, n: nat)
    ensures var sums := Accumulate(range, weight, n);
            sums.numerator - Midpoint(range) * sums.denominator == CentredRange(range, weight, 0, n)
  {
    if n > 0 {
      CentredSum(range, weight, n - 1);
      CentredRangeLast(range, weight, 0, n);
      var mid, x, w := Midpoint(range), SamplePoint(range, n - 1), weight(n - 1);
      var num, den := Accumulate(range, weight, n - 1).numerator, Accumulate(range, weight, n - 1).denominator;
      assert num + x * w - mid * (den + w) == (num - mid * den) + (x - mid) * w;
    }
  }

  /** Samples i and Steps - i are mirror images about the midpoint of the range. */
  lemma MirroredSamples(range: (real, real), i: int)
    ensures SamplePoint(range, Steps - i) - Midpoint(range) == -(SamplePoint(range, i) - Midpoint(range))
  {
    var s := (range.1 - range.0) / (Steps as real);
    assert ((Steps - i) as real) * s == (Steps as real) * s - (i as real) * s;
  }

  /** The weights of samples i and Steps - i agree for every i. */
  predicate SymmetricWeights(weight: int -> real)
  {
    forall i, j :: 0 <= i <= Steps && i + j == Steps ==> weight(i) == weight(j)
  }

  /** With equal weights at i and Steps - i, their centred terms cancel. */
  lemma MirroredTermsCancel(range: (real, real), weight: int -> real, i: int)
    requires weight(i) == weight(Steps - i)
    ensures CentredTerm(range, weight, Steps - i) == -CentredTerm(range, weight, i)
  {
    MirroredSamples(range, i);
    var d, w := SamplePoint(range, i) - Midpoint(range), weight(i);
    assert (-d) * w == -(d * w);
  }

  /** Over a window [lo, hi) centred on the grid, symmetric weights make the centred terms sum to zero. */
  lemma {:induction false} CentredRangeVanishes(range: (real, real), weight: int -> real, lo: int, hi: int)
    requires 0 <= lo && lo + hi == Steps + 1
    requires SymmetricWeights(weight)
    ensures CentredRange(range, weight, lo, hi) == 0.0
    decreases hi - lo
  {
    if lo < hi - 1 {
      CentredRangeLast(range, weight, lo + 1, hi);
      CentredRangeVanishes(range, weight, lo + 1, hi - 1);
      MirroredTermsCancel(range, weight, lo);
    } else if lo == hi - 1 {
      MirroredTermsCancel(range, weight, lo);
    }
  }

  lemma QuotientOfMultiple(num: real, den: real, q: real)
    requires den > 0.0 && num - q * den == 0.0
    ensures num / den == q
  {
    assert num == q * den;
  }

  /** Weights symmetric about the middle of the grid have their centroid exactly at the midpoint. */
  lemma CentroidOfSymmetricWeights(range: (real, real), weight: int -> real)
    requires SymmetricWeights(weight)
    ensures Centroid(range, weight) == Midpoint(range)
  {
    SymmetricWeightsBalance(range, weight);
    var den := Accumulate(range, weight, Steps + 1).denominator;
    if den >= Epsilon {
      assert den > 0.0;
      QuotientOfMultiple(Accumulate(range, weight, Steps + 1).numerator, den, Midpoint(range));
    }
  }

  /** With symmetric weights, num - mid * den is zero. */
  lemma SymmetricWeightsBalance(range: (real, real), weight: int -> real)
    requires SymmetricWeights(weight)
    ensures var sums := Accumulate(range, weight, Steps + 1);
            sums.numerator - Midpoint(range) * sums.denominator == 0.0
  {
    CentredRangeVanishes(range, weight, 0, Steps + 1);
    CentredSum(range, weight, Steps + 1);
  }

  /** An aggregated membership symmetric about the middle of the range gives symmetric weights. */
  lemma SymmetricAggregation(v: Variable, activated: map<string, real>)
    requires forall x :: Aggregated(v.sets, activated, x) == Aggregated(v.sets, activated, v.range.0 + v.range.1 - x)
    ensures SymmetricWeights(Weights(v, activated))
  {
    var weight := Weights(v, activated);
    forall i, j | 0 <= i <= Steps && i + j == Steps
      ensures weight(i) == weight(j)
    {
      var x, y := SamplePoint(v.range, i), SamplePoint(v.range, j);
      assert y == v.range.0 + v.range.1 - x by {
        MirroredSamples(v.range, i);
      }
    }
  }

  /**
   * If the aggregated membership of a variable is symmetric about the middle of its range,
   * its defuzzified value is exactly the midpoint.
   */
  lemma CentroidValueOfSymmetricWeights(v: Variable, activated: map<string, real>)
    requires SymmetricWeights(Weights(v, activated))
    ensures CentroidValue(v, activated) == Midpoint(v.range)
  {
    CentroidOfSymmetricWeights(v.range, Weights(v, activated));
  }
}
