/**
 * The navigation controller: a fixed fuzzy system over distance, heading error and relative
 * speed whose one output is the steering adjustment (src/navigation/mod.rs).
 */
module Navigation {
  import opened Numeric
  import opened Membership
  import opened FuzzySets
  import opened Variables
  import opened Rules
  import opened FuzzySystems
  import opened Vehicles

  const DistanceName: string := "distancia_al_objetivo"
  const ErrorName: string := "error_angular"
  const VelocityName: string := "velocidad_relativa"
  const SteeringName: string := "ajuste_angular"

  /** Distance to the target over [0, 1000]. */
  function DistanceVariable(): Variable
  {
    Variable(DistanceName, (0.0, 1000.0), [
      FuzzySet("muy_cerca", Trapezoidal(0.0, 0.0, 50.0, 100.0)),
      FuzzySet("media", Triangular(80.0, 200.0, 400.0)),
      FuzzySet("lejos", Trapezoidal(350.0, 500.0, 1000.0, 1000.0))])
  }

  /** Heading error over [-pi, pi]; negative means the target is to the left. */
  function ErrorVariable(): Variable
  {
    Variable(ErrorName, (-Pi, Pi), [
      FuzzySet("alineado", Trapezoidal(Radians(-10.0), Radians(-5.0), Radians(5.0), Radians(10.0))),
      FuzzySet("desviado_izq", Triangular(Radians(-90.0), Radians(-45.0), Radians(-10.0))),
      FuzzySet("desviado_der", Triangular(Radians(10.0), Radians(45.0), Radians(90.0))),
      FuzzySet("muy_desviado_izq", Trapezoidal(-Pi, Radians(-150.0), Radians(-120.0), Radians(-70.0))),
      FuzzySet("muy_desviado_der", Trapezoidal(Radians(70.0), Radians(120.0), Radians(150.0), Pi))])
  }

  /** Speed relative to the vehicle's top speed, over [0, 1]. */
  function VelocityVariable(): Variable
  {
    Variable(VelocityName, (0.0, 1.0), [
      FuzzySet("lenta", Triangular(0.0, 0.0, 0.3)),
      FuzzySet("media", Triangular(0.2, 0.5, 0.8)),
      FuzzySet("rapida", Trapezoidal(0.7, 1.0, 1.0, 1.0))])
  }

  /** The steering adjustment over [-m, m], five triangles at fixed multiples of m. */
  function SteeringVariable(m: real): Variable
  {
    Variable(SteeringName, (-m, m), [
      FuzzySet("girar_izq", Triangular(-m, -0.7 * m, -0.3 * m)),
      FuzzySet("leve_izq", Triangular(-0.4 * m, -0.2 * m, 0.0)),
      FuzzySet("mantener", Triangular(-0.1 * m, 0.0, 0.1 * m)),
      FuzzySet("leve_der", Triangular(0.0, 0.2 * m, 0.4 * m)),
      FuzzySet("girar_der", Triangular(0.3 * m, 0.7 * m, m))])
  }

  /** An AND rule with one steering consequent. */
  function SteerIf(antecedents: seq<Antecedent>, steering: string): FuzzyRule
  {
    FuzzyRule(antecedents, [Consequent(steering, SteeringName)], And)
  }

  function When(distance: string, error: string, steering: string): FuzzyRule
  {
    SteerIf([Antecedent(distance, DistanceName), Antecedent(error, ErrorName)], steering)
  }

  /** The rule base, in the order it is added. */
  function NavigationRules(): seq<FuzzyRule>
  {
    [ When("lejos", "alineado", "mantener"),
      When("lejos", "desviado_der", "girar_der"),
      When("lejos", "desviado_izq", "girar_izq"),
      When("media", "alineado", "mantener"),
      When("media", "desviado_der", "leve_der"),
      When("media", "desviado_izq", "leve_izq"),
      When("muy_cerca", "alineado", "mantener"),
      SteerIf([Antecedent("muy_desviado_izq", ErrorName)], "girar_izq"),
      SteerIf([Antecedent("muy_desviado_der", ErrorName)], "girar_der"),
      When("muy_cerca", "desviado_izq", "leve_izq"),
      When("muy_cerca", "desviado_der", "leve_der") ]
  }

  /** The system `NavigationController::new` builds for maneuverability m. */
  function NavigationSystem(m: real): SystemView
  {
    SystemView("Navigation Controller", [DistanceVariable(), ErrorVariable(), VelocityVariable()],
               SteeringVariable(m), NavigationRules(), Centroid)
  }

  /** The map `compute_control` hands to the fuzzy system. */
  function ControlInputs(distanceToTarget: real, angularError: real, velocityRelative: real): map<string, real>
  {
    map[DistanceName := distanceToTarget, ErrorName := angularError, VelocityName := velocityRelative]
  }

  /** The steering adjustment `compute_control` returns. */
  function Steering(m: real, distanceToTarget: real, angularError: real, velocityRelative: real): real
  {
    SystemOutput(NavigationSystem(m), ControlInputs(distanceToTarget, angularError, velocityRelative)).1
  }

  /** Every set of every variable of the system satisfies its constructor's ordering precondition. */
  predicate SetsWellOrdered(sets: seq<FuzzySet>)
  {
    forall i :: 0 <= i < |sets| ==> WellOrdered(sets[i].membership)
  }

  predicate SystemWellOrdered(sys: SystemView)
  {
    (forall i :: 0 <= i < |sys.inputs| ==> SetsWellOrdered(sys.inputs[i].sets)) && SetsWellOrdered(sys.output.sets)
  }

  /**
   * Construction never aborts exactly when m >= 0: then every `triangular`/`trapezoidal` call
   * gets ordered breakpoints, and for m < 0 the first steering triangle does not.
   */
  lemma ConstructionWellOrdered(m: real)
    ensures SystemWellOrdered(NavigationSystem(m)) <==> m >= 0.0
  {
    var sys := NavigationSystem(m);
    assert sys.output.sets[0].membership == Triangular(-m, -0.7 * m, -0.3 * m);
    if m >= 0.0 {
      assert SetsWellOrdered(sys.inputs[0].sets);
      assert SetsWellOrdered(sys.inputs[1].sets);
      assert SetsWellOrdered(sys.inputs[2].sets);
      assert SetsWellOrdered(sys.output.sets);
    }
  }

  /**
   * The rule base has 11 rules (the doc comment says 10), all AND, each with exactly one
   * consequent, on the steering variable.
   */
  lemma RuleBaseShape()
    ensures |NavigationRules()| == 11
    ensures forall i :: 0 <= i < |NavigationRules()| ==>
              NavigationRules()[i].operator == And &&
              |NavigationRules()[i].consequents| == 1 &&
              NavigationRules()[i].consequents[0].variable == SteeringName
  {
  }

  /** Variable `name` of the list declares the set `setName`. */
  predicate DeclaredIn(vars: seq<Variable>, name: string, setName: string)
  {
    exists i :: 0 <= i < |vars| && vars[i].name == name && Declares(vars[i].sets, setName)
  }

  /** Every antecedent of the rule names a set of its input variable; every consequent a set of the output. */
  predicate RuleDeclared(inputs: seq<Variable>, output: Variable, rule: FuzzyRule)
  {
    && (forall j :: 0 <= j < |rule.antecedents| ==>
          DeclaredIn(inputs, rule.antecedents[j].variable, rule.antecedents[j].setName))
    && (forall j :: 0 <= j < |rule.consequents| ==>
          rule.consequents[j].variable == output.name && Declares(output.sets, rule.consequents[j].setName))
  }

  lemma SetDeclared(sets: seq<FuzzySet>, i: int)
    requires 0 <= i < |sets|
    ensures Declares(sets, sets[i].name)
  {
    assert sets[i] in sets;
  }

  /** A two-antecedent rule over sets the variables declare. */
  lemma WhenDeclared(m: real, d: int, e: int, s: int)
    requires 0 <= d < 3 && 0 <= e < 5 && 0 <= s < 5
    ensures RuleDeclared(NavigationSystem(m).inputs, SteeringVariable(m),
              When(DistanceVariable().sets[d].name, ErrorVariable().sets[e].name, SteeringVariable(m).sets[s].name))
  {
    var inputs := NavigationSystem(m).inputs;
    SetDeclared(inputs[0].sets, d);
    SetDeclared(inputs[1].sets, e);
    SetDeclared(SteeringVariable(m).sets, s);
    assert inputs[0].name == DistanceName && inputs[1].name == ErrorName;
  }

  /** A one-antecedent rule over a heading-error set. */
  lemma SteerIfDeclared(m: real, e: int, s: int)
    requires 0 <= e < 5 && 0 <= s < 5
    ensures RuleDeclared(NavigationSystem(m).inputs, SteeringVariable(m),
              SteerIf([Antecedent(ErrorVariable().sets[e].name, ErrorName)], SteeringVariable(m).sets[s].name))
  {
    var inputs := NavigationSystem(m).inputs;
    SetDeclared(inputs[1].sets, e);
    SetDeclared(SteeringVariable(m).sets, s);
    assert inputs[1].name == ErrorName;
  }

  /** Every reference of every rule resolves, so no antecedent or consequent is skipped for lack of a declaration. */
  lemma ReferencesResolve(m: real)
    ensures forall r :: 0 <= r < |NavigationRules()| ==>
              RuleDeclared(NavigationSystem(m).inputs, NavigationSystem(m).output, NavigationRules()[r])
  {
    var rules := NavigationRules();
    WhenDeclared(m, 2, 0, 2);
    WhenDeclared(m, 2, 2, 4);
    WhenDeclared(m, 2, 1, 0);
    WhenDeclared(m, 1, 0, 2);
    WhenDeclared(m, 1, 2, 3);
    WhenDeclared(m, 1, 1, 1);
    WhenDeclared(m, 0, 0, 2);
    SteerIfDeclared(m, 3, 0);
    SteerIfDeclared(m, 4, 4);
    WhenDeclared(m, 0, 1, 1);
    WhenDeclared(m, 0, 2, 3);
  }

  /** The relative speed is fuzzified but no rule refers to it. */
  lemma VelocityUnused()
    ensures exists i :: 0 <= i < |NavigationSystem(0.0).inputs| && NavigationSystem(0.0).inputs[i].name == VelocityName
    ensures forall r, j :: 0 <= r < |NavigationRules()| && 0 <= j < |NavigationRules()[r].antecedents| ==>
              NavigationRules()[r].antecedents[j].variable != VelocityName
  {
    assert NavigationSystem(0.0).inputs[2].name == VelocityName;
  }

  /** The three input variables have distinct names. */
  lemma InputNamesDistinct(m: real, i: int)
    requires 0 <= i < 3
    ensures LastVariableWithName(NavigationSystem(m).inputs, i)
  {
    var inputs := NavigationSystem(m).inputs;
    assert inputs[0].name == DistanceName && inputs[1].name == ErrorName && inputs[2].name == VelocityName;
    assert DistanceName[0] != ErrorName[0] && DistanceName[0] != VelocityName[0] && ErrorName[0] != VelocityName[0];
  }

  /** The fuzzified controller inputs: each variable's sets evaluated at the supplied value. */
  lemma ControlFuzzification(m: real, distanceToTarget: real, angularError: real, velocityRelative: real)
    ensures var f := Fuzzification(NavigationSystem(m).inputs, ControlInputs(distanceToTarget, angularError, velocityRelative));
            && DistanceName in f && f[DistanceName] == FuzzifySets(DistanceVariable().sets, distanceToTarget)
            && ErrorName in f && f[ErrorName] == FuzzifySets(ErrorVariable().sets, angularError)
            && VelocityName in f && f[VelocityName] == FuzzifySets(VelocityVariable().sets, velocityRelative)
  {
    var inputs := NavigationSystem(m).inputs;
    var supplied := ControlInputs(distanceToTarget, angularError, velocityRelative);
    InputNamesDistinct(m, 0);
    InputNamesDistinct(m, 1);
    InputNamesDistinct(m, 2);
    FuzzificationOfSupplied(inputs, supplied, 0);
    FuzzificationOfSupplied(inputs, supplied, 1);
    FuzzificationOfSupplied(inputs, supplied, 2);
  }

  /**
   * Under `compute_control` every antecedent of every rule resolves: the controller supplies
   * all three inputs and every rule refers only to declared sets, so nothing is skipped.
   */
  lemma EveryAntecedentResolves(m: real, distanceToTarget: real, angularError: real, velocityRelative: real)
    ensures var f := Fuzzification(NavigationSystem(m).inputs, ControlInputs(distanceToTarget, angularError, velocityRelative));
            forall r, j :: 0 <= r < |NavigationRules()| && 0 <= j < |NavigationRules()[r].antecedents| ==>
              Resolves(NavigationRules()[r].antecedents[j], f)
  {
    var f := Fuzzification(NavigationSystem(m).inputs, ControlInputs(distanceToTarget, angularError, velocityRelative));
    ControlFuzzification(m, distanceToTarget, angularError, velocityRelative);
    ReferencesResolve(m);
    var inputs := NavigationSystem(m).inputs;
    forall r, j | 0 <= r < |NavigationRules()| && 0 <= j < |NavigationRules()[r].antecedents|
      ensures Resolves(NavigationRules()[r].antecedents[j], f)
    {
      var a := NavigationRules()[r].antecedents[j];
      assert RuleDeclared(inputs, NavigationSystem(m).output, NavigationRules()[r]);
      assert DeclaredIn(inputs, a.variable, a.setName);
      var i :| 0 <= i < 3 && inputs[i].name == a.variable && Declares(inputs[i].sets, a.setName);
      if i == 0 {
        assert f[a.variable] == FuzzifySets(inputs[0].sets, distanceToTarget);
      } else if i == 1 {
        assert f[a.variable] == FuzzifySets(inputs[1].sets, angularError);
      } else {
        assert f[a.variable] == FuzzifySets(inputs[2].sets, velocityRelative);
      }
    }
  }

  /** Every antecedent reads the distance or the heading error. */
  lemma AntecedentVariables()
    ensures forall r, j :: 0 <= r < |NavigationRules()| && 0 <= j < |NavigationRules()[r].antecedents| ==>
              NavigationRules()[r].antecedents[j].variable in {DistanceName, ErrorName}
  {
  }

  /** Changing only the relative speed leaves the fuzzified distance and heading error as they were. */
  lemma FuzzificationAgrees(m: real, distanceToTarget: real, angularError: real, v1: real, v2: real)
    ensures var inputs := NavigationSystem(m).inputs;
            var f1 := Fuzzification(inputs, ControlInputs(distanceToTarget, angularError, v1));
            var f2 := Fuzzification(inputs, ControlInputs(distanceToTarget, angularError, v2));
            AgreeOn(f1, f2, DistanceName) && AgreeOn(f1, f2, ErrorName)
  {
    ControlFuzzification(m, distanceToTarget, angularError, v1);
    ControlFuzzification(m, distanceToTarget, angularError, v2);
  }

  /** Since no rule refers to it, the relative speed has no influence on the steering. */
  lemma SteeringIgnoresVelocity(m: real, distanceToTarget: real, angularError: real, v1: real, v2: real)
    ensures Steering(m, distanceToTarget, angularError, v1) == Steering(m, distanceToTarget, angularError, v2)
  {
    var sys := NavigationSystem(m);
    var in1 := ControlInputs(distanceToTarget, angularError, v1);
    var in2 := ControlInputs(distanceToTarget, angularError, v2);
    FuzzificationAgrees(m, distanceToTarget, angularError, v1, v2);
    AntecedentVariables();
    OutputIgnoresUnreadInputs(sys, in1, in2);
  }

  lemma SteeringOfView(sys: SystemView, m: real, distanceToTarget: real, angularError: real, velocityRelative: real)
    requires sys == NavigationSystem(m)
    ensures SystemOutput(sys, ControlInputs(distanceToTarget, angularError, velocityRelative)).1 ==
            Steering(m, distanceToTarget, angularError, velocityRelative)
  {
  }

  /** With m >= 0 the steering lies in [-m, m]. */
  lemma SteeringInRange(m: real, distanceToTarget: real, angularError: real, velocityRelative: real)
    requires m >= 0.0
    ensures -m <= Steering(m, distanceToTarget, angularError, velocityRelative) <= m
  {
    SystemOutputInRange(NavigationSystem(m), ControlInputs(distanceToTarget, angularError, velocityRelative));
  }

  /** The distance variable and its three sets. */
  method NewDistanceVariable() returns (distVar: LinguisticVariable)
    ensures fresh(distVar) && distVar.View() == DistanceVariable()
  {
    distVar := new LinguisticVariable(DistanceName, (0.0, 1000.0));
    distVar.AddSet(FuzzySet("muy_cerca", MakeTrapezoidal(0.0, 0.0, 50.0, 100.0)));
    distVar.AddSet(FuzzySet("media", MakeTriangular(80.0, 200.0, 400.0)));
    distVar.AddSet(FuzzySet("lejos", MakeTrapezoidal(350.0, 500.0, 1000.0, 1000.0)));
  }

  /** The heading-error variable and its five sets. */
  method NewErrorVariable() returns (errorVar: LinguisticVariable)
    ensures fresh(errorVar) && errorVar.View() == ErrorVariable()
  {
    errorVar := new LinguisticVariable(ErrorName, (-Pi, Pi));
    errorVar.AddSet(FuzzySet("alineado", MakeTrapezoidal(Radians(-10.0), Radians(-5.0), Radians(5.0), Radians(10.0))));
    errorVar.AddSet(FuzzySet("desviado_izq", MakeTriangular(Radians(-90.0), Radians(-45.0), Radians(-10.0))));
    errorVar.AddSet(FuzzySet("desviado_der", MakeTriangular(Radians(10.0), Radians(45.0), Radians(90.0))));
    errorVar.AddSet(FuzzySet("muy_desviado_izq", MakeTrapezoidal(-Pi, Radians(-150.0), Radians(-120.0), Radians(-70.0))));
    errorVar.AddSet(FuzzySet("muy_desviado_der", MakeTrapezoidal(Radians(70.0), Radians(120.0), Radians(150.0), Pi)));
  }

  /** The relative-speed variable and its three sets. */
  method NewVelocityVariable() returns (velVar: LinguisticVariable)
    ensures fresh(velVar) && velVar.View() == VelocityVariable()
  {
    velVar := new LinguisticVariable(VelocityName, (0.0, 1.0));
    velVar.AddSet(FuzzySet("lenta", MakeTriangular(0.0, 0.0, 0.3)));
    velVar.AddSet(FuzzySet("media", MakeTriangular(0.2, 0.5, 0.8)));
    velVar.AddSet(FuzzySet("rapida", MakeTrapezoidal(0.7, 1.0, 1.0, 1.0)));
  }

  /** The steering variable over [-m, m] and its five sets; the triangles are ordered because m >= 0. */
  method NewSteeringVariable(m: real) returns (angOutVar: LinguisticVariable)
    requires m >= 0.0
    ensures fresh(angOutVar) && angOutVar.View() == SteeringVariable(m)
  {
    angOutVar := new LinguisticVariable(SteeringName, (-m, m));
    angOutVar.AddSet(FuzzySet("girar_izq", MakeTriangular(-m, -0.7 * m, -0.3 * m)));
    angOutVar.AddSet(FuzzySet("leve_izq", MakeTriangular(-0.4 * m, -0.2 * m, 0.0)));
    angOutVar.AddSet(FuzzySet("mantener", MakeTriangular(-0.1 * m, 0.0, 0.1 * m)));
    angOutVar.AddSet(FuzzySet("leve_der", MakeTriangular(0.0, 0.2 * m, 0.4 * m)));
    angOutVar.AddSet(FuzzySet("girar_der", MakeTriangular(0.3 * m, 0.7 * m, m)));
  }

  /** The eleven `add_rule` calls, in order. */
  method AddNavigationRules(system: FuzzySystem)
    modifies system
    ensures system.rules == old(system.rules) + NavigationRules()
    ensures system.inputVariables == old(system.inputVariables) && system.outputVariable == old(system.outputVariable)
  {
    system.AddRule(When("lejos", "alineado", "mantener"));
    system.AddRule(When("lejos", "desviado_der", "girar_der"));
    system.AddRule(When("lejos", "desviado_izq", "girar_izq"));
    system.AddRule(When("media", "alineado", "mantener"));
    system.AddRule(When("media", "desviado_der", "leve_der"));
    system.AddRule(When("media", "desviado_izq", "leve_izq"));
    system.AddRule(When("muy_cerca", "alineado", "mantener"));
    system.AddRule(SteerIf([Antecedent("muy_desviado_izq", ErrorName)], "girar_izq"));
    system.AddRule(SteerIf([Antecedent("muy_desviado_der", ErrorName)], "girar_der"));
    system.AddRule(When("muy_cerca", "desviado_izq", "leve_izq"));
    system.AddRule(When("muy_cerca", "desviado_der", "leve_der"));
  }

  lemma ViewsOfThree(a: LinguisticVariable, b: LinguisticVariable, c: LinguisticVariable)
    ensures Views([a, b, c]) == [a.View(), b.View(), c.View()]
  {
    var vs := [a, b, c];
    assert vs[..2] == [a, b] && vs[..2][..1] == [a] && vs[..2][..1][..0] == [];
  }

  /** A system view with the navigation system's parts is the navigation system. */
  lemma NavigationSystemOf(sys: SystemView, m: real)
    requires sys.name == "Navigation Controller" && sys.defuzzificationMethod == Centroid
    requires |sys.inputs| == 3
    requires sys.inputs[0] == DistanceVariable() && sys.inputs[1] == ErrorVariable() && sys.inputs[2] == VelocityVariable()
    requires sys.output == SteeringVariable(m) && sys.rules == [] + NavigationRules()
    ensures sys == NavigationSystem(m)
  {
    assert sys.inputs == NavigationSystem(m).inputs;
  }

  /** The source's sequence of `add_set`, `add_input`, `set_output` and `add_rule` calls. */
  method NewNavigationSystem(m: real) returns (system: FuzzySystem)
    requires m >= 0.0
    ensures fresh(system) && system.View() == NavigationSystem(m)
  {
    system := new FuzzySystem("Navigation Controller");
    var distVar := NewDistanceVariable();
    system.AddInput(distVar);
    var errorVar := NewErrorVariable();
    system.AddInput(errorVar);
    var velVar := NewVelocityVariable();
    system.AddInput(velVar);
    var angOutVar := NewSteeringVariable(m);
    system.SetOutput(angOutVar);
    AddNavigationRules(system);

    assert system.inputVariables == [distVar, errorVar, velVar];
    ViewsOfThree(distVar, errorVar, velVar);
    NavigationSystemOf(system.View(), m);
  }

  /** The navigation controller; it owns the fuzzy system it builds. */
  class NavigationController {
    const fuzzySystem: FuzzySystem
    const maneuverability: real
    const maxAcceleration: real

    /** The owned system is the navigation system for this controller's maneuverability. */
    ghost predicate Valid()
      reads this, fuzzySystem, fuzzySystem.inputVariables, fuzzySystem.outputVariable
    {
      maneuverability >= 0.0 && fuzzySystem.View() == NavigationSystem(maneuverability)
    }

    /**
     * `NavigationController::new`: the system built by the source's sequence of `add_set`,
     * `add_input`, `set_output` and `add_rule` calls. The source aborts for a negative
     * maneuverability (the first steering triangle is then out of order).
     */
    constructor (characteristics: VehicleCharacteristics)
      requires characteristics.maneuverability >= 0.0
      ensures maneuverability == characteristics.maneuverability
      ensures maxAcceleration == characteristics.maxAcceleration
      ensures fresh(fuzzySystem) && Valid()
    {
      var m := characteristics.maneuverability;
      var system := NewNavigationSystem(m);
      fuzzySystem := system;
      maneuverability := m;
      maxAcceleration := characteristics.maxAcceleration;
    }

    /**
     * `compute_control`: the steering adjustment is the system's output for the three named
     * inputs, and the speed adjustment is always 0.
     */
    method ComputeControl(distanceToTarget: real, angularError: real, velocityRelative: real)
      returns (angularAdjustment: real, velocityAdjustment: real)
      requires Valid()
      ensures angularAdjustment == Steering(maneuverability, distanceToTarget, angularError, velocityRelative)
      ensures -maneuverability <= angularAdjustment <= maneuverability
      ensures velocityAdjustment == 0.0
    {
      var inputs := map[DistanceName := distanceToTarget, ErrorName := angularError, VelocityName := velocityRelative];
      var outputName;
      outputName, angularAdjustment := fuzzySystem.Evaluate(inputs);
      SteeringOfView(fuzzySystem.View(), maneuverability, distanceToTarget, angularError, velocityRelative);
      SteeringInRange(maneuverability, distanceToTarget, angularError, velocityRelative);
      velocityAdjustment := 0.0;
    }
  }
}
