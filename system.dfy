/**
 * The Mamdani inference system: fuzzification, rule evaluation, max-aggregation and
 * centroid defuzzification (src/fuzzy_system/system.rs).
 */
module FuzzySystems {
  import opened Numeric
  import opened FuzzySets
  import opened Variables
  import opened Rules

  /** The value of a fuzzy system: its variables as values, its rules and its method. */
  datatype SystemView = SystemView(
    name: string,
    inputs: seq<Variable>,
    output: Variable,
    rules: seq<FuzzyRule>,
    defuzzificationMethod: DefuzzificationMethod)

  /** The values of a list of variables. */
  function Views(vs: seq<LinguisticVariable>): (r: seq<Variable>)
    reads vs
    ensures |r| == |vs|
    ensures forall i :: 0 <= i < |vs| ==> r[i] == vs[i].View()
  {
    if vs == [] then [] else Views(vs[..|vs| - 1]) + [vs[|vs| - 1].View()]
  }

  function VariableNames(vars: seq<Variable>): set<string>
  {
    set v | v in vars :: v.name
  }

  /**
   * The fuzzified inputs: every input variable whose name the caller supplied, mapped to its
   * fuzzification at the supplied value. Variables the caller left out get no entry (they are
   * not zero-filled); a later variable with the same name replaces an earlier one.
   */
  function Fuzzification(vars: seq<Variable>, inputs: map<string, real>): (r: Memberships)
    ensures r.Keys == VariableNames(vars) * inputs.Keys
    ensures UnitMemberships(r)
    decreases |vars|
  {
    if vars == [] then map[]
    else
      var init, last := vars[..|vars| - 1], vars[|vars| - 1];
      assert vars == init + [last];
      assert VariableNames(vars) == VariableNames(init) + {last.name};
      var rest := Fuzzification(init, inputs);
      if last.name in inputs then rest[last.name := FuzzifySets(last.sets, inputs[last.name])] else rest
  }

  /** No later variable of the list shares the name of variable i. */
  predicate LastVariableWithName(vars: seq<Variable>, i: int)
    requires 0 <= i < |vars|
  {
    forall j :: i < j < |vars| ==> vars[j].name != vars[i].name
  }

  /** The entry of a supplied variable is the fuzzification of its sets at the supplied value. */
  lemma {:induction false} FuzzificationOfSupplied(vars: seq<Variable>, inputs: map<string, real>, i: int)
    requires 0 <= i < |vars| && LastVariableWithName(vars, i) && vars[i].name in inputs
    ensures vars[i].name in Fuzzification(vars, inputs)
    ensures Fuzzification(vars, inputs)[vars[i].name] == FuzzifySets(vars[i].sets, inputs[vars[i].name])
    decreases |vars|
  {
    if i < |vars| - 1 {
      var init := vars[..|vars| - 1];
      assert init[i] == vars[i];
      assert LastVariableWithName(init, i);
      FuzzificationOfSupplied(init, inputs, i);
    }
  }

  /** The set names the rule's consequents mention. */
  function ConsequentNames(cons: seq<Consequent>): set<string>
  {
    set c | c in cons :: c.setName
  }

  /** The entry of `activated` for `name`, 0.0 when absent (`or_insert(0.0)`). */
  function EntryOr0(activated: map<string, real>, name: string): real
  {
    if name in activated then activated[name] else 0.0
  }

  /**
   * The consequent loop for one rule of strength `degree`: a consequent naming a set of the
   * output variable raises that set's entry to the max of its current value (0.0 if none) and
   * `degree`; one naming an undeclared set is skipped.
   */
  function Absorb(activated: map<string, real>, degree: real, cons: seq<Consequent>, outputSets: seq<FuzzySet>): map<string, real>
    decreases |cons|
  {
    if cons == [] then activated
    else
      var c := cons[|cons| - 1];
      var prev := Absorb(activated, degree, cons[..|cons| - 1], outputSets);
      if !Declares(outputSets, c.setName) then prev
      else prev[c.setName := Max(EntryOr0(prev, c.setName), degree)]
  }

  /** The activation of the output sets after the rule loop, starting from an empty map. */
  function Activation(rules: seq<FuzzyRule>, fuzzified: Memberships, outputSets: seq<FuzzySet>): map<string, real>
    decreases |rules|
  {
    if rules == [] then map[]
    else
      var last := rules[|rules| - 1];
      Absorb(Activation(rules[..|rules| - 1], fuzzified, outputSets), FiringStrength(last, fuzzified), last.consequents, outputSets)
  }

  /** What `FuzzySystem::evaluate` returns: the output variable's name and the centroid of the activation. */
  function SystemOutput(sys: SystemView, inputs: map<string, real>): (string, real)
  {
    var activated := Activation(sys.rules, Fuzzification(sys.inputs, inputs), sys.output.sets);
    (sys.output.name, CentroidValue(sys.output, activated))
  }

  /** A fuzzy system; its input list, rule list and output variable are updated in place. */
  class FuzzySystem {
    const name: string
    var inputVariables: seq<LinguisticVariable>
    var outputVariable: LinguisticVariable
    var rules: seq<FuzzyRule>
    const defuzzificationMethod: DefuzzificationMethod

    /** `FuzzySystem::new`: no inputs, no rules, output "output" over (0, 1), centroid method. */
    constructor (name: string)
      ensures this.name == name && inputVariables == [] && rules == []
      ensures fresh(outputVariable) && outputVariable.View() == Variable("output", (0.0, 1.0), [])
      ensures defuzzificationMethod == Centroid
    {
      this.name := name;
      inputVariables := [];
      outputVariable := new LinguisticVariable("output", (0.0, 1.0));
      rules := [];
      defuzzificationMethod := Centroid;
    }

    /** `add_input`: the variable goes last; nothing else changes. */
    method AddInput(variable: LinguisticVariable)
      modifies this
      ensures inputVariables == old(inputVariables) + [variable]
      ensures outputVariable == old(outputVariable) && rules == old(rules)
    {
      inputVariables := inputVariables + [variable];
    }

    /** `add_rule`: the rule goes last; nothing else changes. */
    method AddRule(rule: FuzzyRule)
      modifies this
      ensures rules == old(rules) + [rule]
      ensures inputVariables == old(inputVariables) && outputVariable == old(outputVariable)
    {
      rules := rules + [rule];
    }

    /** `set_output`: the output variable is replaced wholesale. */
    method SetOutput(variable: LinguisticVariable)
      modifies this
      ensures outputVariable == variable
      ensures inputVariables == old(inputVariables) && rules == old(rules)
    {
      outputVariable := variable;
    }

    function View(): SystemView
      reads this, inputVariables, outputVariable
    {
      SystemView(name, Views(inputVariables), outputVariable.View(), rules, defuzzificationMethod)
    }

    /** `FuzzySystem::evaluate`: fuzzify, fire and aggregate the rules, then defuzzify. */
    method Evaluate(inputs: map<string, real>) returns (outputName: string, value: real)
      ensures (outputName, value) == SystemOutput(View(), inputs)
    {
      ghost var sys := View();
      var fuzzyfiedInputs := FuzzifyInputs(inputVariables, inputs);
      var activatedOutputs := ActivateOutputs(rules, fuzzyfiedInputs, outputVariable);
      value := ComputeCentroid(outputVariable, activatedOutputs);
      outputName := outputVariable.name;
      assert SystemOutput(sys, inputs) == (outputName, value);
    }
  }

  /** The rule loop of `evaluate`. */
  method ActivateOutputs(rules: seq<FuzzyRule>, fuzzyfiedInputs: Memberships, outputVariable: LinguisticVariable)
    returns (activatedOutputs: map<string, real>)
    ensures activatedOutputs == Activation(rules, fuzzyfiedInputs, outputVariable.fuzzySets)
  {
    activatedOutputs := map[];
    for r := 0 to |rules|
      invariant activatedOutputs == Activation(rules[..r], fuzzyfiedInputs, outputVariable.fuzzySets)
    {
      var rule := rules[r];
      assert rules[..r + 1][..r] == rules[..r];
      var degree := EvaluateRule(rule, fuzzyfiedInputs);
      activatedOutputs := ApplyConsequents(activatedOutputs, degree, rule.consequents, outputVariable);
    }
    assert rules[..|rules|] == rules;
  }

  /** The fuzzification loop of `evaluate`. */
  method FuzzifyInputs(inputVariables: seq<LinguisticVariable>, inputs: map<string, real>) returns (m: Memberships)
    ensures m == Fuzzification(Views(inputVariables), inputs)
  {
    ghost var views := Views(inputVariables);
    m := map[];
    for i := 0 to |inputVariables|
      invariant m == Fuzzification(views[..i], inputs)
    {
      var variable := inputVariables[i];
      ghost var prev := Fuzzification(views[..i], inputs);
      assert views[..i + 1][..i] == views[..i];
      assert views[i] == variable.View();
      assert Fuzzification(views[..i + 1], inputs) ==
        if variable.name in inputs then prev[variable.name := FuzzifySets(variable.fuzzySets, inputs[variable.name])] else prev;
      if variable.name in inputs {
        var value := inputs[variable.name];
        m := m[variable.name := variable.Fuzzify(value)];
      }
    }
    assert views[..|inputVariables|] == views;
  }

  /** The consequent loop of `evaluate` for one rule of strength `degree`. */
  method ApplyConsequents(activated: map<string, real>, degree: real, cons: seq<Consequent>, outputVar: LinguisticVariable)
    returns (r: map<string, real>)
    ensures r == Absorb(activated, degree, cons, outputVar.fuzzySets)
  {
    r := activated;
    for k := 0 to |cons|
      invariant r == Absorb(activated, degree, cons[..k], outputVar.fuzzySets)
    {
      var consequent := cons[k];
      assert cons[..k + 1][..k] == cons[..k];
      if consequent.setName !in Names(outputVar.fuzzySets) {
        continue;
      }
      var entry := if consequent.setName in r then r[consequent.setName] else 0.0;
      r := r[consequent.setName := Max(entry, degree)];
    }
    assert cons[..|cons|] == cons;
  }

  function MentionedNames(rules: seq<FuzzyRule>): set<string>
  {
    set r, c | r in rules && c in r.consequents :: c.setName
  }

  /** Absorbing one rule touches exactly the declared sets it names, each raised to the max with `degree`. */
  lemma {:induction false} AbsorbSpec(activated: map<string, real>, degree: real, cons: seq<Consequent>, outputSets: seq<FuzzySet>)
    ensures Absorb(activated, degree, cons, outputSets).Keys == activated.Keys + ConsequentNames(cons) * Names(outputSets)
    ensures forall k :: k in activated && k !in ConsequentNames(cons) * Names(outputSets) ==>
              Absorb(activated, degree, cons, outputSets)[k] == activated[k]
    ensures forall k :: k in ConsequentNames(cons) * Names(outputSets) ==>
              Absorb(activated, degree, cons, outputSets)[k] == Max(EntryOr0(activated, k), degree)
    decreases |cons|
  {
    if cons != [] {
      var init, c := cons[..|cons| - 1], cons[|cons| - 1];
      assert cons == init + [c];
      assert ConsequentNames(cons) == ConsequentNames(init) + {c.setName};
      AbsorbSpec(activated, degree, init, outputSets);
    }
  }

  /**
   * Max-aggregation: the activation has an entry exactly for the declared output sets some rule
   * names; each entry is at least 0 and at least the strength of every rule naming it, and is
   * either 0 or one of those strengths. It is a maximum, never a sum.
   */
  lemma ActivationSpec(rules: seq<FuzzyRule>, fuzzified: Memberships, outputSets: seq<FuzzySet>)
    ensures Activation(rules, fuzzified, outputSets).Keys == MentionedNames(rules) * Names(outputSets)
    ensures forall k :: k in Activation(rules, fuzzified, outputSets) ==> Activation(rules, fuzzified, outputSets)[k] >= 0.0
    ensures forall i, k :: 0 <= i < |rules| && k in ConsequentNames(rules[i].consequents) && k in Names(outputSets) ==>
              Activation(rules, fuzzified, outputSets)[k] >= FiringStrength(rules[i], fuzzified)
    ensures forall k :: k in Activation(rules, fuzzified, outputSets) ==>
              Activation(rules, fuzzified, outputSets)[k] == 0.0 || exists i :: StrengthOf(rules, fuzzified, i, k, Activation(rules, fuzzified, outputSets)[k])
  {
    ActivationKeys(rules, fuzzified, outputSets);
    ActivationBounds(rules, fuzzified, outputSets);
    ActivationAttained(rules, fuzzified, outputSets);
  }

  lemma {:induction false} ActivationKeys(rules: seq<FuzzyRule>, fuzzified: Memberships, outputSets: seq<FuzzySet>)
    ensures Activation(rules, fuzzified, outputSets).Keys == MentionedNames(rules) * Names(outputSets)
    decreases |rules|
  {
    if rules != [] {
      var init, last := rules[..|rules| - 1], rules[|rules| - 1];
      assert rules == init + [last];
      assert MentionedNames(rules) == MentionedNames(init) + ConsequentNames(last.consequents);
      ActivationKeys(init, fuzzified, outputSets);
      AbsorbSpec(Activation(init, fuzzified, outputSets), FiringStrength(last, fuzzified), last.consequents, outputSets);
    }
  }

  lemma {:induction false} ActivationBounds(rules: seq<FuzzyRule>, fuzzified: Memberships, outputSets: seq<FuzzySet>)
    ensures Activation(rules, fuzzified, outputSets).Keys == MentionedNames(rules) * Names(outputSets)
    ensures forall k :: k in Activation(rules, fuzzified, outputSets) ==> Activation(rules, fuzzified, outputSets)[k] >= 0.0
    ensures forall i, k :: 0 <= i < |rules| && k in ConsequentNames(rules[i].consequents) && k in Names(outputSets) ==>
              Activation(rules, fuzzified, outputSets)[k] >= FiringStrength(rules[i], fuzzified)
    decreases |rules|
  {
    ActivationKeys(rules, fuzzified, outputSets);
    if rules != [] {
      var init, last := rules[..|rules| - 1], rules[|rules| - 1];
      ActivationBounds(init, fuzzified, outputSets);
      var before := Activation(init, fuzzified, outputSets);
      var degree := FiringStrength(last, fuzzified);
      var touched := ConsequentNames(last.consequents) * Names(outputSets);
      AbsorbSpec(before, degree, last.consequents, outputSets);
      var after := Activation(rules, fuzzified, outputSets);
      assert after == Absorb(before, degree, last.consequents, outputSets);
      forall k | k in after
        ensures after[k] >= 0.0
      {
        if k in touched {
          assert after[k] == Max(EntryOr0(before, k), degree);
        } else {
          assert after[k] == before[k];
        }
      }
      forall i, k | 0 <= i < |rules| && k in ConsequentNames(rules[i].consequents) && k in Names(outputSets)
        ensures after[k] >= FiringStrength(rules[i], fuzzified)
      {
        if i == |rules| - 1 {
          assert k in touched;
        } else {
          assert rules[i] == init[i];
          assert before[k] >= FiringStrength(init[i], fuzzified);
          if k in touched {
            assert after[k] == Max(EntryOr0(before, k), degree);
          } else {
            assert after[k] == before[k];
          }
        }
      }
    }
  }

  lemma {:induction false} ActivationAttained(rules: seq<FuzzyRule>, fuzzified: Memberships, outputSets: seq<FuzzySet>)
    ensures forall k :: k in Activation(rules, fuzzified, outputSets) ==>
              Activation(rules, fuzzified, outputSets)[k] == 0.0 || exists i :: StrengthOf(rules, fuzzified, i, k, Activation(rules, fuzzified, outputSets)[k])
    decreases |rules|
  {
    if rules != [] {
      var init, last := rules[..|rules| - 1], rules[|rules| - 1];
      ActivationAttained(init, fuzzified, outputSets);
      var before := Activation(init, fuzzified, outputSets);
      var degree := FiringStrength(last, fuzzified);
      AbsorbSpec(before, degree, last.consequents, outputSets);
      var after := Activation(rules, fuzzified, outputSets);
      assert after == Absorb(before, degree, last.consequents, outputSets);
      forall k | k in after
        ensures after[k] == 0.0 || exists i :: StrengthOf(rules, fuzzified, i, k, after[k])
      {
        if k in ConsequentNames(last.consequents) * Names(outputSets) && after[k] == degree {
          assert StrengthOf(rules, fuzzified, |rules| - 1, k, after[k]);
        } else if after[k] != 0.0 {
          assert after[k] == before[k];
          var i :| StrengthOf(init, fuzzified, i, k, before[k]);
          assert rules[i] == init[i];
          assert StrengthOf(rules, fuzzified, i, k, after[k]);
        }
      }
    }
  }

  /** Rule i names set k and fires with strength s. */
  predicate StrengthOf(rules: seq<FuzzyRule>, fuzzified: Memberships, i: int, k: string, s: real)
  {
    0 <= i < |rules| && k in ConsequentNames(rules[i].consequents) && s == FiringStrength(rules[i], fuzzified)
  }

  /** With lo <= hi the defuzzified output lies in the output variable's range, and it is paired with the output's name. */
  lemma SystemOutputInRange(sys: SystemView, inputs: map<string, real>)
    requires sys.output.range.0 <= sys.output.range.1
    ensures SystemOutput(sys, inputs).0 == sys.output.name
    ensures sys.output.range.0 <= SystemOutput(sys, inputs).1 <= sys.output.range.1
  {
    CentroidValueInRange(sys.output, Activation(sys.rules, Fuzzification(sys.inputs, inputs), sys.output.sets));
  }

  /**
   * When no rule fires (every firing strength is 0 or less, as when the caller supplies none
   * of the input variables), the output is the midpoint of the output range.
   */
  lemma UnfiredRulesGiveMidpoint(sys: SystemView, inputs: map<string, real>)
    requires forall i :: 0 <= i < |sys.rules| ==> FiringStrength(sys.rules[i], Fuzzification(sys.inputs, inputs)) <= 0.0
    ensures SystemOutput(sys, inputs).1 == Midpoint(sys.output.range)
  {
    var fuzzified := Fuzzification(sys.inputs, inputs);
    var activated := Activation(sys.rules, fuzzified, sys.output.sets);
    ActivationSpec(sys.rules, fuzzified, sys.output.sets);
    forall k | k in activated
      ensures activated[k] <= 0.0
    {
    }
    CentroidFallsBackToMidpoint(sys.output, activated);
  }

  /** Without any supplied input, nothing is fuzzified, no antecedent resolves and every rule has strength 0. */
  lemma NoInputsGiveMidpoint(sys: SystemView)
    ensures SystemOutput(sys, map[]).1 == Midpoint(sys.output.range)
  {
    var fuzzified := Fuzzification(sys.inputs, map[]);
    assert fuzzified == map[];
    forall i | 0 <= i < |sys.rules|
      ensures FiringStrength(sys.rules[i], fuzzified) <= 0.0
    {
      FiringStrengthSpec(sys.rules[i], fuzzified);
    }
    UnfiredRulesGiveMidpoint(sys, map[]);
  }

  /** The consequents' variable field is never consulted: only set names matter. */
  lemma {:induction false} ConsequentVariableIgnored(activated: map<string, real>, degree: real, cons: seq<Consequent>, outputSets: seq<FuzzySet>, i: int, other: string)
    requires 0 <= i < |cons|
    ensures Absorb(activated, degree, cons[i := cons[i].(variable := other)], outputSets) == Absorb(activated, degree, cons, outputSets)
    decreases |cons|
  {
    var cons' := cons[i := cons[i].(variable := other)];
    var n := |cons|;
    if i < n - 1 {
      assert cons'[..n - 1] == cons[..n - 1][i := cons[i].(variable := other)];
      ConsequentVariableIgnored(activated, degree, cons[..n - 1], outputSets, i, other);
    } else {
      assert cons'[..n - 1] == cons[..n - 1];
    }
  }

  /** The activation depends on the fuzzified inputs only through the rules' firing strengths. */
  lemma {:induction false} ActivationOfEqualStrengths(rules: seq<FuzzyRule>, f1: Memberships, f2: Memberships, outputSets: seq<FuzzySet>)
    requires forall r :: 0 <= r < |rules| ==> FiringStrength(rules[r], f1) == FiringStrength(rules[r], f2)
    ensures Activation(rules, f1, outputSets) == Activation(rules, f2, outputSets)
    decreases |rules|
  {
    if rules != [] {
      var init := rules[..|rules| - 1];
      assert forall r :: 0 <= r < |init| ==> init[r] == rules[r];
      ActivationOfEqualStrengths(init, f1, f2, outputSets);
      assert FiringStrength(rules[|rules| - 1], f1) == FiringStrength(rules[|rules| - 1], f2);
    }
  }

  /**
   * The output depends on the supplied values only through the fuzzified entries the rules'
   * antecedents read.
   */
  lemma OutputIgnoresUnreadInputs(sys: SystemView, in1: map<string, real>, in2: map<string, real>)
    requires forall r, j :: 0 <= r < |sys.rules| && 0 <= j < |sys.rules[r].antecedents| ==>
               AgreeOn(Fuzzification(sys.inputs, in1), Fuzzification(sys.inputs, in2), sys.rules[r].antecedents[j].variable)
    ensures SystemOutput(sys, in1) == SystemOutput(sys, in2)
  {
    var f1 := Fuzzification(sys.inputs, in1);
    var f2 := Fuzzification(sys.inputs, in2);
    forall r | 0 <= r < |sys.rules|
      ensures FiringStrength(sys.rules[r], f1) == FiringStrength(sys.rules[r], f2)
    {
      FiringStrengthLocal(sys.rules[r], f1, f2);
    }
    ActivationOfEqualStrengths(sys.rules, f1, f2, sys.output.sets);
  }
}
