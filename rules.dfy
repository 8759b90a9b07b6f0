/** Fuzzy rules and their firing strength (src/fuzzy_system/rules.rs). */
module Rules {
  import opened Numeric

  /** "`variable` is `setName`" */
  datatype Antecedent = Antecedent(setName: string, variable: string)

  /** "then `variable` is `setName`" */
  datatype Consequent = Consequent(setName: string, variable: string)

  datatype RuleOperator = And | Or

  datatype FuzzyRule = FuzzyRule(antecedents: seq<Antecedent>, consequents: seq<Consequent>, operator: RuleOperator)

  /** Fuzzified inputs: variable name, then set name, to membership degree. */
  type Memberships = map<string, map<string, real>>

  /** Both the variable and the set of the antecedent have an entry in the inputs. */
  predicate Resolves(a: Antecedent, inputs: Memberships)
  {
    a.variable in inputs && a.setName in inputs[a.variable]
  }

  function DegreeOf(a: Antecedent, inputs: Memberships): real
    requires Resolves(a, inputs)
  {
    inputs[a.variable][a.setName]
  }

  /** Every membership degree of the inputs lies in the unit interval. */
  predicate UnitMemberships(inputs: Memberships)
  {
    forall v, s :: v in inputs && s in inputs[v] ==> 0.0 <= inputs[v][s] <= 1.0
  }

  /** The degrees `evaluate` collects: one per resolving antecedent, in order; the others are skipped. */
  function ResolvedDegrees(ants: seq<Antecedent>, inputs: Memberships): seq<real>
    decreases |ants|
  {
    if ants == [] then []
    else
      var last := ants[|ants| - 1];
      var init := ResolvedDegrees(ants[..|ants| - 1], inputs);
      if Resolves(last, inputs) then init + [DegreeOf(last, inputs)] else init
  }

  /** `reduce(|acc, x| acc.min(x))` over a non-empty list. */
  function MinOf(s: seq<real>): (r: real)
    requires |s| > 0
    ensures r in s
    ensures forall k :: 0 <= k < |s| ==> r <= s[k]
    decreases |s|
  {
    if |s| == 1 then s[0]
    else
      var init := s[..|s| - 1];
      assert forall k :: 0 <= k < |init| ==> init[k] == s[k];
      Min(MinOf(init), s[|s| - 1])
  }

  /** `reduce(|acc, x| acc.max(x))` over a non-empty list. */
  function MaxOf(s: seq<real>): (r: real)
    requires |s| > 0
    ensures r in s
    ensures forall k :: 0 <= k < |s| ==> r >= s[k]
    decreases |s|
  {
    if |s| == 1 then s[0]
    else
      var init := s[..|s| - 1];
      assert forall k :: 0 <= k < |init| ==> init[k] == s[k];
      Max(MaxOf(init), s[|s| - 1])
  }

  /** 0 when nothing was collected, otherwise the minimum (AND) or maximum (OR) of the degrees. */
  function Combine(op: RuleOperator, degrees: seq<real>): real
  {
    if degrees == [] then 0.0
    else match op
      case And => MinOf(degrees)
      case Or => MaxOf(degrees)
  }

  /** What `FuzzyRule::evaluate` returns. */
  function FiringStrength(rule: FuzzyRule, inputs: Memberships): real
  {
    Combine(rule.operator, ResolvedDegrees(rule.antecedents, inputs))
  }

  /** `FuzzyRule::evaluate`: collect the resolving degrees, then reduce them. */
  method EvaluateRule(rule: FuzzyRule, inputs: Memberships) returns (r: real)
    ensures r == FiringStrength(rule, inputs)
  {
    var degrees: seq<real> := [];
    for i := 0 to |rule.antecedents|
      invariant degrees == ResolvedDegrees(rule.antecedents[..i], inputs)
    {
      var antecedent := rule.antecedents[i];
      assert rule.antecedents[..i + 1][..i] == rule.antecedents[..i];
      if antecedent.variable in inputs {
        var varMembership := inputs[antecedent.variable];
        if antecedent.setName in varMembership {
          degrees := degrees + [varMembership[antecedent.setName]];
        }
      }
    }
    assert rule.antecedents[..|rule.antecedents|] == rule.antecedents;
    if degrees == [] {
      return 0.0;
    }
    r := degrees[0];
    for k := 1 to |degrees|
      invariant r == Combine(rule.operator, degrees[..k])
    {
      assert degrees[..k + 1][..k] == degrees[..k];
      match rule.operator
      case And => r := Min(r, degrees[k]);
      case Or => r := Max(r, degrees[k]);
    }
    assert degrees[..|degrees|] == degrees;
  }

  /** The collected degrees are exactly the degrees of the resolving antecedents, in order. */
  lemma {:induction false} ResolvedDegreesSpec(ants: seq<Antecedent>, inputs: Memberships)
    ensures |ResolvedDegrees(ants, inputs)| <= |ants|
    ensures ResolvedDegrees(ants, inputs) == [] <==> forall i :: 0 <= i < |ants| ==> !Resolves(ants[i], inputs)
    ensures forall i :: 0 <= i < |ants| && Resolves(ants[i], inputs) ==> DegreeOf(ants[i], inputs) in ResolvedDegrees(ants, inputs)
    ensures forall d :: d in ResolvedDegrees(ants, inputs) ==>
              exists i :: 0 <= i < |ants| && Resolves(ants[i], inputs) && d == DegreeOf(ants[i], inputs)
    decreases |ants|
  {
    if ants != [] {
      var init := ants[..|ants| - 1];
      ResolvedDegreesSpec(init, inputs);
      assert forall i :: 0 <= i < |init| ==> init[i] == ants[i];
    }
  }

  /** Collecting over a concatenation concatenates the collected degrees. */
  lemma {:induction false} ResolvedDegreesAppend(xs: seq<Antecedent>, ys: seq<Antecedent>, inputs: Memberships)
    ensures ResolvedDegrees(xs + ys, inputs) == ResolvedDegrees(xs, inputs) + ResolvedDegrees(ys, inputs)
    decreases |ys|
  {
    if ys == [] {
      assert xs + ys == xs;
    } else {
      var ys', last := ys[..|ys| - 1], ys[|ys| - 1];
      assert (xs + ys)[..|xs + ys| - 1] == xs + ys';
      assert (xs + ys)[|xs + ys| - 1] == last;
      ResolvedDegreesAppend(xs, ys', inputs);
      if Resolves(last, inputs) {
        assert ResolvedDegrees(xs + ys, inputs) == ResolvedDegrees(xs + ys', inputs) + [DegreeOf(last, inputs)];
        assert ResolvedDegrees(ys, inputs) == ResolvedDegrees(ys', inputs) + [DegreeOf(last, inputs)];
      }
    }
  }

  /**
   * An antecedent whose variable or set is missing from the inputs is skipped, not read as
   * degree 0: inserting it anywhere leaves the firing strength unchanged.
   */
  lemma UnresolvedAntecedentIsSkipped(rule: FuzzyRule, k: int, a: Antecedent, inputs: Memberships)
    requires 0 <= k <= |rule.antecedents| && !Resolves(a, inputs)
    ensures FiringStrength(rule.(antecedents := rule.antecedents[..k] + [a] + rule.antecedents[k..]), inputs)
         == FiringStrength(rule, inputs)
  {
    var xs, ys := rule.antecedents[..k], rule.antecedents[k..];
    ResolvedDegreesAppend(xs + [a], ys, inputs);
    ResolvedDegreesAppend(xs, [a], inputs);
    ResolvedDegreesAppend(xs, ys, inputs);
    assert ResolvedDegrees([a], inputs) == [];
    assert xs + ys == rule.antecedents;
  }

  /**
   * With memberships in [0, 1] the strength lies in [0, 1]; a rule none of whose antecedents
   * resolves has strength 0; otherwise AND yields the least and OR the greatest collected degree.
   */
  lemma FiringStrengthSpec(rule: FuzzyRule, inputs: Memberships)
    ensures UnitMemberships(inputs) ==> 0.0 <= FiringStrength(rule, inputs) <= 1.0
    ensures (forall i :: 0 <= i < |rule.antecedents| ==> !Resolves(rule.antecedents[i], inputs)) ==>
              FiringStrength(rule, inputs) == 0.0
    ensures rule.operator == And ==> forall i :: 0 <= i < |rule.antecedents| && Resolves(rule.antecedents[i], inputs) ==>
              FiringStrength(rule, inputs) <= DegreeOf(rule.antecedents[i], inputs)
    ensures rule.operator == Or ==> forall i :: 0 <= i < |rule.antecedents| && Resolves(rule.antecedents[i], inputs) ==>
              FiringStrength(rule, inputs) >= DegreeOf(rule.antecedents[i], inputs)
    ensures (forall i :: 0 <= i < |rule.antecedents| ==> !Resolves(rule.antecedents[i], inputs)) ||
            exists i :: 0 <= i < |rule.antecedents| && Resolves(rule.antecedents[i], inputs) &&
                        FiringStrength(rule, inputs) == DegreeOf(rule.antecedents[i], inputs)
  {
    var ds := ResolvedDegrees(rule.antecedents, inputs);
    ResolvedDegreesSpec(rule.antecedents, inputs);
    if ds != [] {
      var r := FiringStrength(rule, inputs);
      assert r in ds;
      forall i | 0 <= i < |rule.antecedents| && Resolves(rule.antecedents[i], inputs)
        ensures rule.operator == And ==> r <= DegreeOf(rule.antecedents[i], inputs)
        ensures rule.operator == Or ==> r >= DegreeOf(rule.antecedents[i], inputs)
      {
        var d := DegreeOf(rule.antecedents[i], inputs);
        var k :| 0 <= k < |ds| && ds[k] == d;
      }
      if UnitMemberships(inputs) {
        var i :| 0 <= i < |rule.antecedents| && Resolves(rule.antecedents[i], inputs) && r == DegreeOf(rule.antecedents[i], inputs);
      }
    }
  }

  /** Over the same antecedents and inputs, AND never fires more strongly than OR. */
  lemma AndNeverExceedsOr(ants: seq<Antecedent>, cons: seq<Consequent>, inputs: Memberships)
    ensures FiringStrength(FuzzyRule(ants, cons, And), inputs) <= FiringStrength(FuzzyRule(ants, cons, Or), inputs)
  {
    var ds := ResolvedDegrees(ants, inputs);
    if ds != [] {
      assert MinOf(ds) <= ds[0] <= MaxOf(ds);
    }
  }

  /** The two rule tests: min(0.7, 0.8) = 0.7 under AND and max(0.3, 0.2) = 0.3 under OR. */
  lemma DocumentedRuleValues()
    ensures FiringStrength(
              FuzzyRule([Antecedent("low", "var1"), Antecedent("cold", "var2")], [Consequent("output_low", "output")], And),
              map["var1" := map["low" := 0.7, "high" := 0.3], "var2" := map["cold" := 0.8, "hot" := 0.2]]) == 0.7
    ensures FiringStrength(
              FuzzyRule([Antecedent("low", "var1"), Antecedent("cold", "var2")], [Consequent("output_low", "output")], Or),
              map["var1" := map["low" := 0.3, "high" := 0.7], "var2" := map["cold" := 0.2, "hot" := 0.8]]) == 0.3
  {
    var ants := [Antecedent("low", "var1"), Antecedent("cold", "var2")];
    TwoResolvedDegrees(ants, map["var1" := map["low" := 0.7, "high" := 0.3], "var2" := map["cold" := 0.8, "hot" := 0.2]]);
    TwoResolvedDegrees(ants, map["var1" := map["low" := 0.3, "high" := 0.7], "var2" := map["cold" := 0.2, "hot" := 0.8]]);
    assert MinOf([0.7, 0.8]) == 0.7;
    assert MaxOf([0.3, 0.2]) == 0.3;
  }

  lemma TwoResolvedDegrees(ants: seq<Antecedent>, inputs: Memberships)
    requires |ants| == 2 && Resolves(ants[0], inputs) && Resolves(ants[1], inputs)
    ensures ResolvedDegrees(ants, inputs) == [DegreeOf(ants[0], inputs), DegreeOf(ants[1], inputs)]
  {
    var first := ants[..1];
    assert first == [ants[0]] && first[..0] == [];
    assert ResolvedDegrees(first, inputs) == [DegreeOf(ants[0], inputs)];
    assert ResolvedDegrees(ants, inputs) == ResolvedDegrees(first, inputs) + [DegreeOf(ants[1], inputs)];
  }

  /** Two input maps hold the same entry (or none) for variable v. */
  predicate AgreeOn(in1: Memberships, in2: Memberships, v: string)
  {
    (v in in1 <==> v in in2) && (v in in1 ==> in1[v] == in2[v])
  }

  /** The collected degrees depend only on the entries of the variables the antecedents name. */
  lemma {:induction false} ResolvedDegreesLocal(ants: seq<Antecedent>, in1: Memberships, in2: Memberships)
    requires forall j :: 0 <= j < |ants| ==> AgreeOn(in1, in2, ants[j].variable)
    ensures ResolvedDegrees(ants, in1) == ResolvedDegrees(ants, in2)
    decreases |ants|
  {
    if ants != [] {
      var init := ants[..|ants| - 1];
      assert forall j :: 0 <= j < |init| ==> init[j] == ants[j];
      ResolvedDegreesLocal(init, in1, in2);
      assert AgreeOn(in1, in2, ants[|ants| - 1].variable);
    }
  }

  /** So does the firing strength: entries of variables no antecedent names are never read. */
  lemma FiringStrengthLocal(rule: FuzzyRule, in1: Memberships, in2: Memberships)
    requires forall j :: 0 <= j < |rule.antecedents| ==> AgreeOn(in1, in2, rule.antecedents[j].variable)
    ensures FiringStrength(rule, in1) == FiringStrength(rule, in2)
  {
    ResolvedDegreesLocal(rule.antecedents, in1, in2);
  }
}
