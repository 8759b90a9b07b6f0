# Fuzzy navigation controller — a Dafny model

This project models the core of a Rust crate. The crate steers simulated vehicles (a heavy
boat, a launch, a plane) across a planar map toward a target. Each vehicle must arrive there
heading north (90 degrees, within 2 degrees) and inside 25 units. Steering comes from a
Mamdani fuzzy controller, which works in five steps:

- inputs are fuzzified through triangular and trapezoidal membership functions;
- rules combine memberships with AND (minimum) or OR (maximum);
- each output set's activation is the maximum over the rules that name it;
- output sets are clipped by their activation and aggregated by maximum;
- the result is defuzzified by a centroid, taken as a Riemann sum over 1001 samples.

The model is split into twelve modules, following the crate's structure:

| module | file | models |
|---|---|---|
| `Numeric` | numeric.dfy | `f64` as `real`, `f64::EPSILON`, `PI`, degree/radian conversion, the math library as a `Math` record |
| `Membership` | membership.dfy | the membership shapes and their validating constructors |
| `FuzzySets` | sets.dfy | named sets and the AND / OR / NOT operators |
| `Variables` | variables.dfy | linguistic variables (a class), fuzzification, the centroid defuzzifier (loops as methods) |
| `Rules` | rules.dfy | antecedents, consequents, rules and their firing strength (loops as a method) |
| `FuzzySystems` | system.dfy | the inference system (a class) and its `evaluate` loop |
| `Navigation` | navigation.dfy | the navigation controller: its three inputs, steering output and eleven rules |
| `Maps` | map.dfy | the map, distance, angle normalization (two loops), the approach-point heading error, `clamp` |
| `Vehicles` | vehicle.dfy | vehicle types, the preset table, the vehicle (a class) and its position update |
| `Simulations` | simulation.dfy | the simulation (a class), `step` and `run`, each proved equal to a step function on snapshots |
| `Api` | api.dfy | request defaults and parsing of vehicle-type names |
| `Scenarios` | scenarios.dfy | the engine's documented examples: a fan controller, and mirrored output sets |

The model keeps the source's form. Objects the crate mutates are Dafny classes with
`modifies` clauses:

- `LinguisticVariable`, `FuzzySystem`, `NavigationController`, `Vehicle` and `Simulation`;
- each class has a value view (`View()`, `Current()`).

Every loop of the source is a method with invariants:

- the rule-evaluation, fuzzification, consequent and centroid loops;
- the two `normalize_angle` loops;
- the simulation loop.

Each method is proved equal to a pure function, and the properties are proved as lemmas about
those functions:

- range bounds on every membership degree, firing strength and defuzzified value;
- max-aggregation, including which activation keys exist;
- the midpoint fallback;
- centroid symmetry;
- heading normalization into [-pi, pi] by whole turns;
- that arrival is absorbing, that the trajectory only grows, and that `run` terminates;
- that the controller's steering never depends on the relative speed.

## Model

| member | source | states |
|---|---|---|
| Membership.TriangularDegree | src/fuzzy_system/membership.rs:13-33 | the triangular degree lies in [0, 1]; it is 0 outside [a, c]; it is 1 exactly at points of [a, c] within `f64::EPSILON` of the peak b |
| Membership.TrapezoidalDegree | src/fuzzy_system/membership.rs:44-64 | the trapezoidal degree lies in [0, 1]; it is 0 outside [a, d]; it is 1 exactly on the plateau [b, c] inside [a, d] |
| Membership.Evaluate | src/fuzzy_system/membership.rs:2-4 | every evaluable shape yields a degree in [0, 1] |
| Membership.MakeTriangular | src/fuzzy_system/membership.rs:92-95 | the constructor demands a <= b <= c; the triangle it builds evaluates to 1 at b and to 0 outside [a, c] |
| Membership.MakeTrapezoidal | src/fuzzy_system/membership.rs:97-100 | the constructor demands a <= b <= c <= d; the trapezoid it builds is 1 on all of [b, c] and 0 outside [a, d] |
| Membership.MakeGaussian | src/fuzzy_system/membership.rs:102-105 | the constructor demands sigma > 0 and keeps both parameters |
| Membership.MakeSigmoidal | src/fuzzy_system/membership.rs:107-110 | the constructor demands abs(a) > `f64::EPSILON`, so the slope a is never 0 |
| Membership.TrapezoidalRisingFlank | src/fuzzy_system/membership.rs:49-55 | on a rising flank at least `f64::EPSILON` wide, the degree is the line from (a, 0) to (b, 1) |
| Membership.TrapezoidalDegenerateFlank | src/fuzzy_system/membership.rs:49-62 | a trapezoid flank narrower than `f64::EPSILON` evaluates to 0 instead of dividing by its width |
| Membership.TriangularNarrowFlankIsPeak | src/fuzzy_system/membership.rs:16-31 | in a triangle, every point of a flank narrower than `f64::EPSILON` is caught first by the peak test and evaluates to 1, so the zero guard is unreachable |
| Membership.TriangularMirror | src/fuzzy_system/membership.rs:13-33 | reflecting a triangle about m maps its degree at x to the mirrored triangle's degree at 2m - x |
| Membership.DocumentedValues | src/fuzzy_system/tests.rs:7-38 | the boundary, peak, plateau and flank values the unit tests assert for triangular(0, 5, 10) and trapezoidal(0, 3, 7, 10), the flank values exactly 0.5 |
| Numeric.Radians | src/navigation/mod.rs:50-67 | `to_radians`: degrees times pi / 180 |
| Numeric.Degrees | src/simulation/mod.rs:144 | `to_degrees`: radians times 180 / pi, as the trajectory samples and the final heading error report it |
| FuzzySets.Degree | src/fuzzy_system/sets.rs:28-30 | a set's degree is its membership function's value and lies in [0, 1] |
| FuzzySets.And | src/fuzzy_system/sets.rs:36-38 | AND is a lower bound of both operands and equals one of them; it keeps the unit interval |
| FuzzySets.Or | src/fuzzy_system/sets.rs:40-42 | OR is an upper bound of both operands and equals one of them; it keeps the unit interval |
| FuzzySets.Not | src/fuzzy_system/sets.rs:44-46 | NOT complements to 1, and maps the unit interval onto itself in both directions |
| FuzzySets.NotInvolutive | src/fuzzy_system/sets.rs:44-46 | NOT is an involution, and every degree in [0, 1] is the complement of one in [0, 1] |
| FuzzySets.AndOrLaws | src/fuzzy_system/sets.rs:36-42 | AND and OR are commutative, and AND never exceeds OR |
| FuzzySets.DocumentedOperatorValues | src/fuzzy_system/tests.rs:98-116 | the nine operator values the unit tests assert |
| Variables.FuzzifySets | src/fuzzy_system/variables.rs:25-27 | fuzzification has one key per set name, and every degree lies in [0, 1]; the value is not clamped to the range |
| Variables.FuzzifyLastWins | src/fuzzy_system/variables.rs:25-27 | when names repeat, the entry is the degree of the last set with that name, as collecting into a HashMap leaves it |
| Variables.LinguisticVariable.constructor | src/fuzzy_system/variables.rs:13-19 | a new variable has the given name and range and no sets |
| Variables.LinguisticVariable.AddSet | src/fuzzy_system/variables.rs:21-23 | the set is appended after the existing ones |
| Variables.Weights | src/fuzzy_system/variables.rs:55-67 | the weight of sample i is the aggregated membership at the i-th of the 1001 grid points of the range |
| Variables.Accumulate | src/fuzzy_system/variables.rs:55-71 | the running sums after n samples: the weighted positions and the weights of samples 0 to n - 1 |
| Variables.Centroid | src/fuzzy_system/variables.rs:48-79 | the numerator over the denominator of all 1001 samples, or the midpoint when the denominator is below `f64::EPSILON` |
| Variables.CentroidValue | src/fuzzy_system/variables.rs:48-79 | `Defuzzifier::centroid` of an output variable under an activation map |
| Variables.LinguisticVariable.Fuzzify | src/fuzzy_system/variables.rs:25-27 | `fuzzify`: the variable's sets fuzzified at the value, through `FuzzifySets` |
| Variables.SamplePoint | src/fuzzy_system/variables.rs:50-56 | the i-th grid point lo + i * (hi - lo) / 1000 of the centroid loop |
| Variables.Aggregated | src/fuzzy_system/variables.rs:59-67 | the aggregated membership lies in [0, 1]; it is at least every activated set's clipped degree; it is 0 or one of those clipped degrees |
| Variables.AggregateAt | src/fuzzy_system/variables.rs:59-67 | the inner loop computes the aggregated membership at x |
| Variables.ComputeCentroid | src/fuzzy_system/variables.rs:48-79 | the sampling loop computes the centroid of the aggregated weights; for lo <= hi it lies in [lo, hi] |
| Variables.SamplePointInRange | src/fuzzy_system/variables.rs:49-56 | the first sample is lo, the last is hi, and for lo <= hi all 1001 samples lie in [lo, hi] |
| Variables.SumsStep | src/fuzzy_system/variables.rs:69-70 | one loop iteration extends both running sums by the current sample |
| Variables.WeightsInUnitInterval | src/fuzzy_system/variables.rs:59-67 | every sample weight lies in [0, 1] |
| Variables.TotalWeightNonNegative | src/fuzzy_system/variables.rs:55-71 | with non-negative weights, the denominator is non-negative |
| Variables.WeightedSumBounds | src/fuzzy_system/variables.rs:55-71 | with non-negative weights, lo * den <= num <= hi * den |
| Variables.CentroidInRange | src/fuzzy_system/variables.rs:48-79 | a centroid of non-negative weights, or the midpoint fallback, lies in [lo, hi] |
| Variables.CentroidValueInRange | src/fuzzy_system/variables.rs:48-79 | for lo <= hi, the defuzzified value lies in [lo, hi] for every activation |
| Variables.WeightedSumWithin | src/fuzzy_system/variables.rs:55-71 | when all positive weight lies on samples in [l, h], l * den <= num <= h * den |
| Variables.TotalWeightAtLeast | src/fuzzy_system/variables.rs:55-71 | with non-negative weights, the denominator is at least any one sample's weight |
| Variables.CentroidWithin | src/fuzzy_system/variables.rs:48-79 | if all positive weight lies in [l, h], and some sample weighs at least `f64::EPSILON`, then the centroid lies in [l, h] |
| Variables.TotalWeightOfZeros | src/fuzzy_system/variables.rs:55-71 | all-zero weights give a zero denominator |
| Variables.CentroidFallsBackToMidpoint | src/fuzzy_system/variables.rs:73-76 | when no set has a positive activation, the result is the midpoint of the range |
| Variables.CentredSum | src/fuzzy_system/variables.rs:55-71 | num - mid * den is the sum of each sample's weighted offset from the midpoint |
| Variables.MirroredSamples | src/fuzzy_system/variables.rs:49-56 | samples i and 1000 - i are reflections of each other about the midpoint |
| Variables.MirroredTermsCancel | src/fuzzy_system/variables.rs:69-70 | equally weighted mirrored samples contribute opposite offsets |
| Variables.CentredRangeVanishes | src/fuzzy_system/variables.rs:55-71 | over a window centred on the grid, symmetric weights sum to a zero offset |
| Variables.SymmetricWeightsBalance | src/fuzzy_system/variables.rs:55-71 | with symmetric weights, num = mid * den |
| Variables.CentroidOfSymmetricWeights | src/fuzzy_system/variables.rs:48-79 | weights symmetric about the middle of the grid put the centroid exactly at the midpoint |
| Variables.SymmetricAggregation | src/fuzzy_system/variables.rs:55-67 | an aggregated membership symmetric about the middle of the range gives symmetric sample weights |
| Variables.CentroidValueOfSymmetricWeights | src/fuzzy_system/variables.rs:48-79 | a symmetric activation pattern defuzzifies to the midpoint |
| Rules.ResolvedDegrees | src/fuzzy_system/rules.rs:58-66 | the degrees of the antecedents whose variable and set both have entries, in antecedent order |
| Rules.Combine | src/fuzzy_system/rules.rs:68-81 | 0 for no degrees, otherwise their min (AND) or max (OR) |
| Rules.FiringStrength | src/fuzzy_system/rules.rs:57-82 | `FuzzyRule::evaluate`: the rule operator combining the resolved degrees |
| Rules.MinOf | src/fuzzy_system/rules.rs:73-76 | reducing by min yields an element of the list that is at most every element |
| Rules.MaxOf | src/fuzzy_system/rules.rs:77-80 | reducing by max yields an element of the list that is at least every element |
| Rules.EvaluateRule | src/fuzzy_system/rules.rs:57-82 | the rule loop returns the firing strength of the rule's resolved degrees |
| Rules.ResolvedDegreesSpec | src/fuzzy_system/rules.rs:58-66 | the collected degrees are exactly those of the antecedents whose variable and set both have entries; none is collected exactly when none resolves |
| Rules.ResolvedDegreesAppend | src/fuzzy_system/rules.rs:60-66 | collecting over a concatenation concatenates the collected degrees |
| Rules.UnresolvedAntecedentIsSkipped | src/fuzzy_system/rules.rs:60-66 | an antecedent that does not resolve is skipped rather than read as 0: inserting one anywhere leaves the strength unchanged |
| Rules.FiringStrengthSpec | src/fuzzy_system/rules.rs:57-82 | the strength lies in [0, 1] for unit memberships; it is 0 when nothing resolves; AND is at most, and OR at least, every resolved degree; it is 0 or one of them |
| Rules.AndNeverExceedsOr | src/fuzzy_system/rules.rs:72-81 | over the same antecedents and inputs, AND never fires more strongly than OR |
| Rules.DocumentedRuleValues | src/fuzzy_system/tests.rs:119-170 | the two documented rules fire with strength 0.7 (AND) and 0.3 (OR) |
| Rules.ResolvedDegreesLocal | src/fuzzy_system/rules.rs:60-66 | the collected degrees depend only on the entries of the variables the antecedents name |
| Rules.FiringStrengthLocal | src/fuzzy_system/rules.rs:57-82 | the firing strength depends only on the entries of the variables the antecedents name |
| FuzzySystems.Absorb | src/fuzzy_system/system.rs:82-91 | one rule's consequents applied in order: a declared set's entry becomes the max of its old value (or 0) and the strength; undeclared sets are skipped |
| FuzzySystems.Activation | src/fuzzy_system/system.rs:74-92 | the activation map built by absorbing every rule's strength, rule by rule, starting from the empty map |
| FuzzySystems.SystemOutput | src/fuzzy_system/system.rs:52-105 | `evaluate` as a function: the output name paired with the centroid of the activation of the fuzzified inputs |
| FuzzySystems.Fuzzification | src/fuzzy_system/system.rs:61-71 | only supplied input variables get an entry (missing ones are not zero-filled), and all degrees lie in [0, 1] |
| FuzzySystems.FuzzificationOfSupplied | src/fuzzy_system/system.rs:61-71 | a supplied variable's entry is its sets fuzzified at the supplied value |
| FuzzySystems.FuzzySystem.constructor | src/fuzzy_system/system.rs:28-38 | a new system has no inputs and no rules, a placeholder output "output" over (0, 1), and the centroid method |
| FuzzySystems.FuzzySystem.AddInput | src/fuzzy_system/system.rs:40-42 | the input is appended; the output and the rules are unchanged |
| FuzzySystems.FuzzySystem.AddRule | src/fuzzy_system/system.rs:44-46 | the rule is appended; the inputs and the output are unchanged |
| FuzzySystems.FuzzySystem.SetOutput | src/fuzzy_system/system.rs:48-50 | the output variable is replaced; the inputs and the rules are unchanged |
| FuzzySystems.FuzzySystem.Evaluate | src/fuzzy_system/system.rs:52-105 | evaluation returns the output's name and the centroid of the max-aggregated activation of the fuzzified inputs |
| FuzzySystems.FuzzifyInputs | src/fuzzy_system/system.rs:61-71 | the fuzzification loop builds `Fuzzification` of the variables' values |
| FuzzySystems.ActivateOutputs | src/fuzzy_system/system.rs:77-92 | the rule loop builds `Activation` |
| FuzzySystems.ApplyConsequents | src/fuzzy_system/system.rs:82-91 | the consequent loop applies one rule's strength to the declared sets it names |
| FuzzySystems.AbsorbSpec | src/fuzzy_system/system.rs:82-91 | one rule touches exactly the declared output sets it names; each becomes max(previous or 0, strength); undeclared names are skipped |
| FuzzySystems.ActivationSpec | src/fuzzy_system/system.rs:74-92 | activation keys are exactly the declared sets some rule names; each value is at least 0 and at least every naming rule's strength, and is 0 or one of those strengths (a maximum, never a sum) |
| FuzzySystems.ActivationKeys | src/fuzzy_system/system.rs:74-92 | activation keys are the declared output sets mentioned by some consequent |
| FuzzySystems.ActivationBounds | src/fuzzy_system/system.rs:77-92 | each activation is non-negative and at least the strength of every rule naming it |
| FuzzySystems.ActivationAttained | src/fuzzy_system/system.rs:77-92 | each activation is 0 or the strength of a rule that names it |
| FuzzySystems.SystemOutputInRange | src/fuzzy_system/system.rs:99-104 | the output is paired with the output variable's name, and for lo <= hi its value lies in the output range |
| FuzzySystems.UnfiredRulesGiveMidpoint | src/fuzzy_system/system.rs:73-104 | when no rule has positive strength, the output is the midpoint of the output range |
| FuzzySystems.NoInputsGiveMidpoint | src/fuzzy_system/system.rs:53-71 | with no inputs supplied, nothing is fuzzified and the output is the midpoint |
| FuzzySystems.ConsequentVariableIgnored | src/fuzzy_system/system.rs:82-91 | a consequent's variable field never affects the activation; only set names matter |
| FuzzySystems.ActivationOfEqualStrengths | src/fuzzy_system/system.rs:77-92 | the activation depends on the inputs only through the rules' firing strengths |
| FuzzySystems.OutputIgnoresUnreadInputs | src/fuzzy_system/system.rs:52-105 | two input maps whose fuzzified entries agree on every variable an antecedent reads give the same output |
| Maps.NewMap | src/map/mod.rs:38-50 | the map has the given size and target position, the required angle pi/2 (which lies in [-pi, pi]), and a start zone of 8% |
| Maps.EuclideanDistance | src/map/mod.rs:85-89 | the distance is the root of the squared differences, and is non-negative for a root that is |
| Maps.DocumentedDistance | src/map/mod.rs:165-169 | the distance from (0, 0) to (3, 4) is the root of 25 |
| Maps.DistanceSymmetric | src/map/mod.rs:85-89 | the distance does not depend on the order of the points |
| Maps.ReduceAbove | src/map/mod.rs:94-96 | the first loop leaves a value at most pi, and leaves a value already at most pi alone |
| Maps.ReduceBelow | src/map/mod.rs:97-99 | the second loop leaves a value at least -pi, keeps values at most pi at most pi, and leaves a value already at least -pi alone |
| Maps.Normalized | src/map/mod.rs:92-101 | the value `normalize_angle` returns: the first loop's reduction followed by the second's |
| Maps.NormalizeAngle | src/map/mod.rs:92-101 | the two loops compute `Normalized` |
| Maps.ReduceAboveTurns | src/map/mod.rs:94-96 | the first loop removes a whole number of full turns |
| Maps.ReduceBelowTurns | src/map/mod.rs:97-99 | the second loop adds a whole number of full turns |
| Maps.NormalizedSpec | src/map/mod.rs:91-101 | the result lies in [-pi, pi], differs from the input by whole turns, and equals the input when that already lies in [-pi, pi] |
| Maps.DocumentedNormalizations | src/map/mod.rs:172-176 | 7 maps to 7 - 2pi, -7 to -7 + 2pi, and pi to itself (all exactly) |
| Maps.ComputeAngularError | src/map/mod.rs:105-111 | the heading error toward a point lies in [-pi, pi] |
| Maps.ApproachOffset | src/map/mod.rs:128-138 | within 120 units the offset lies in [0, 100], and it is 0 at the target |
| Maps.AimPoint | src/map/mod.rs:131-143 | beyond 120 units the aim point is the target; closer in, it is straight below the target by the offset, within 100 units, reaching the target at distance 0 |
| Maps.ComputeAngularErrorWithArrival | src/map/mod.rs:122-147 | the arrival-aware heading error lies in [-pi, pi] |
| Maps.ArrivalErrorAimsAtAimPoint | src/map/mod.rs:122-147 | the arrival-aware error is the plain heading error toward the aim point, and toward the target itself when far away |
| Maps.Clamp | src/map/mod.rs:150-158 | for min <= max the result lies in [min, max]; a value inside is kept; the result is the value, min or max |
| Maps.ClampLaws | src/map/mod.rs:150-158 | clamping is idempotent and sends an outside value to the nearer end |
| Maps.DocumentedClamps | src/map/mod.rs:179-183 | the three clamps the unit test asserts |
| Vehicles.Name | src/vehicle/mod.rs:33-40 | every type has a non-empty display name |
| Vehicles.NamesDistinct | src/vehicle/mod.rs:33-40 | two types have the same display name exactly when they are the same type |
| Vehicles.Preset | src/vehicle/mod.rs:90-117 | every preset has positive size, turning rate, top speed and acceleration, with a turning rate of at most pi/2 per second |
| Vehicles.DocumentedPresets | src/vehicle/mod.rs:124-132 | the sizes and top speeds the unit test asserts, and the turning rates 20, 35, 60 and 90 degrees per second |
| Vehicles.Vehicle.constructor | src/vehicle/mod.rs:58-76 | a new vehicle has the given type, characteristics, position and heading; it is at rest, not arrived, with nothing travelled or elapsed |
| Vehicles.Vehicle.UpdatePosition | src/vehicle/mod.rs:79-86 | only the position moves, and the step's length is added to the distance travelled, which never decreases |
| Navigation.DistanceVariable | src/navigation/mod.rs:37-42 | the distance variable over [0, 1000]: muy_cerca, media and lejos with their breakpoints |
| Navigation.ErrorVariable | src/navigation/mod.rs:44-69 | the heading-error variable over [-pi, pi]: five sets with breakpoints given in degrees and converted to radians, the outermost at -pi and pi |
| Navigation.VelocityVariable | src/navigation/mod.rs:71-76 | the relative-speed variable over [0, 1]: lenta, media and rapida |
| Navigation.SteeringVariable | src/navigation/mod.rs:78-100 | the steering variable over [-m, m]: five triangles whose breakpoints are fractions of m |
| Navigation.NavigationRules | src/navigation/mod.rs:106-210 | the 11 `add_rule` calls in source order, each AND with one steering consequent: nine pair a distance set with a heading-error set, and R8a and R8b test the heading error alone |
| Navigation.NavigationSystem | src/navigation/mod.rs:31-210 | the system `NavigationController::new` builds: the three inputs, the steering output and the 11 rules, defuzzified by centroid |
| Navigation.Steering | src/navigation/mod.rs:222-239 | the first component of `compute_control`: the navigation system's output for the three named inputs |
| Navigation.ControlInputs | src/navigation/mod.rs:229-232 | the input map `compute_control` builds: the distance, heading error and relative speed under their variable names |
| Navigation.ConstructionWellOrdered | src/navigation/mod.rs:37-100 | every membership constructor call of `NavigationController::new` gets ordered breakpoints exactly when the maneuverability is >= 0 |
| Navigation.RuleBaseShape | src/navigation/mod.rs:106-210 | there are 11 rules, each AND with a single consequent on the steering variable |
| Navigation.ReferencesResolve | src/navigation/mod.rs:37-210 | every antecedent names a set of its input variable, and every consequent names a set of the output variable |
| Navigation.VelocityUnused | src/navigation/mod.rs:71-76 | the relative-speed variable is an input, but no rule's antecedent refers to it |
| Navigation.InputNamesDistinct | src/navigation/mod.rs:38-76 | the three input variables have distinct names |
| Navigation.ControlFuzzification | src/navigation/mod.rs:229-234 | fuzzifying the controller's input map gives each variable its sets evaluated at the supplied value |
| Navigation.EveryAntecedentResolves | src/navigation/mod.rs:229-234 | under `compute_control`, every antecedent of every rule resolves, so none is skipped |
| Navigation.AntecedentVariables | src/navigation/mod.rs:108-210 | every antecedent reads either the distance or the heading error |
| Navigation.FuzzificationAgrees | src/navigation/mod.rs:229-234 | changing only the relative speed leaves the fuzzified distance and heading error unchanged |
| Navigation.SteeringIgnoresVelocity | src/navigation/mod.rs:222-239 | the steering adjustment is the same for every relative speed |
| Navigation.SteeringInRange | src/navigation/mod.rs:78-100 | for maneuverability m >= 0, the steering adjustment lies in [-m, m] |
| Navigation.NewDistanceVariable | src/navigation/mod.rs:37-42 | the distance variable over [0, 1000] with its three sets |
| Navigation.NewErrorVariable | src/navigation/mod.rs:44-69 | the heading-error variable over [-pi, pi] with its five sets |
| Navigation.NewVelocityVariable | src/navigation/mod.rs:71-76 | the relative-speed variable over [0, 1] with its three sets |
| Navigation.NewSteeringVariable | src/navigation/mod.rs:78-100 | the steering variable over [-m, m] with its five triangles |
| Navigation.AddNavigationRules | src/navigation/mod.rs:108-210 | the rules are appended in source order; the inputs and output are unchanged |
| Navigation.NewNavigationSystem | src/navigation/mod.rs:31-100 | the built system is the navigation system for maneuverability m |
| Navigation.NavigationController.constructor | src/navigation/mod.rs:31-217 | the controller owns a fresh navigation system for its maneuverability, which a negative value would make the source abort |
| Navigation.NavigationController.ComputeControl | src/navigation/mod.rs:222-240 | the steering adjustment is the system's output for the three named inputs and lies in [-m, m]; the speed adjustment is always 0 |
| Simulations.Arrives | src/simulation/mod.rs:134-136 | the arrival test: distance strictly below the distance threshold and heading error strictly below the angle threshold |
| Simulations.Sample | src/simulation/mod.rs:140-147 | a trajectory point: the time, the position, the heading in degrees, the speed and the given distance to the target (as also at src/simulation/mod.rs:199-206) |
| Simulations.Advance | src/simulation/mod.rs:188-190 | the kinematic update: the position moved by speed times dt along the heading's cosine and sine |
| Simulations.Arrive | src/simulation/mod.rs:136-152 | the arrival branch's new state: the flag raised and the current state recorded, nothing moved |
| Simulations.Move | src/simulation/mod.rs:180-206 | the moving branch's new state: turn by rate times dt, normalize, advance along the new heading, add the step's length, advance the clock and record a sample |
| Simulations.Next | src/simulation/mod.rs:121-207 | `step` as a function: nothing after arrival, `Arrive` when both thresholds hold, otherwise `Move` by the clamped steering |
| Simulations.RunFrom | src/simulation/mod.rs:241-244 | `run`'s loop apart from its print guard: step while the clock is below the limit and the vehicle has not arrived |
| Simulations.Metrics | src/simulation/mod.rs:262-278 | the metrics `run` reports for the state it stops at |
| Simulations.AsUsize | src/simulation/mod.rs:239 | a float cast `as usize` saturates into [0, `usize::MAX`], is 0 exactly below 1, and otherwise truncates |
| Simulations.PrintInterval | src/simulation/mod.rs:239 | the print interval `(5.0 / dt) as usize` is 0 exactly when dt < 0 or dt > 5, and saturates at `usize::MAX` for dt = 0 |
| Simulations.RunOutcome | src/simulation/mod.rs:238-260 | how `run`'s loop ends: stopped at `RunFrom`, or panicked at `step_count % print_interval` after one step when the interval is 0 |
| Simulations.RunOutcomeSpec | src/simulation/mod.rs:238-260 | `run` panics exactly when its loop is entered with dt < 0 or dt > 5, and then after one step; otherwise it stops arrived or at the time limit, at `RunFrom` whenever 0 < dt <= 5 |
| Simulations.ClampedSteering | src/simulation/mod.rs:156-178 | whatever the steering law says, the clamped rate lies within the vehicle's maneuverability |
| Simulations.NextCases | src/simulation/mod.rs:121-207 | a step before arrival is the arrival branch when both thresholds hold, and otherwise a move by the clamped steering |
| Simulations.NextDecreases | src/simulation/mod.rs:241-243 | each step `run` takes lowers the number of steps left before arrival or the time limit |
| Simulations.RunFromNext | src/simulation/mod.rs:241-260 | running on from a state is running on from its successor |
| Simulations.NextProgress | src/simulation/mod.rs:136-196 | a step that arrives keeps the clock; one that does not advances it by dt |
| Simulations.ArrivedIsAbsorbing | src/simulation/mod.rs:122-124 | after arrival, a step changes nothing |
| Simulations.ArrivalStep | src/simulation/mod.rs:132-152 | a step arrives exactly when distance < threshold and heading error < threshold (both strict); it then records one sample and moves nothing |
| Simulations.MoveSpec | src/simulation/mod.rs:180-206 | a move normalizes the heading into [-pi, pi] by whole turns, keeps the speed, advances along the new heading, adds the step's length, advances the clock by dt and records one sample |
| Simulations.MovingStep | src/simulation/mod.rs:154-206 | a step that does not arrive is a move by a turn rate within the vehicle's maneuverability |
| Simulations.NextAppends | src/simulation/mod.rs:121-207 | the trajectory only grows; each step before arrival adds exactly one sample |
| Simulations.NextDistanceMonotone | src/simulation/mod.rs:187-192 | the distance travelled never decreases across a step |
| Simulations.RunStops | src/simulation/mod.rs:241-244 | the loop `RunFrom` (for dt > 0, apart from the print guard) ends with the vehicle arrived or the time limit reached; it does nothing when started after arrival; it only extends the trajectory and never lowers the distance travelled |
| Simulations.RunRecords | src/simulation/mod.rs:241-260 | a run whose loop is entered (dt > 0) records at least one trajectory sample, and a run that ends arrived ends with a sample whose distance to the target is strictly below the threshold |
| Simulations.MetricsSpec | src/simulation/mod.rs:262-278 | an arrival time is reported exactly on success, and then it is the clock; the final distance and angle error are non-negative |
| Simulations.Simulation.constructor | src/simulation/mod.rs:83-118 | the vehicle starts with its type's preset at a tenth of top speed, the clock at 0 and no trajectory; arrival needs 25 units and 2 degrees, and the speed threshold is 5 above the speed; the start heading must lie in [-pi, pi], as a random start angle always does, and then lies in range |
| Simulations.Simulation.HeadingInRange | src/map/mod.rs:63-69 | the vehicle's heading lies in [-pi, pi]: the random start angle is drawn from [30, 150) degrees, and every move normalizes the heading (src/simulation/mod.rs:182-183) |
| Simulations.Simulation.SteeringCommand | src/simulation/mod.rs:156-178 | the controller's adjustment for the arrival-aware heading error, clamped to the maneuverability |
| Simulations.Simulation.Arrival | src/simulation/mod.rs:136-152 | the arrival branch sets the flag and records the current state |
| Simulations.Simulation.Motion | src/simulation/mod.rs:180-206 | the moving branch changes the state to `Move` of the old state |
| Simulations.Simulation.Step | src/simulation/mod.rs:121-207 | `step` changes the state to `Next` of the old state |
| Simulations.Simulation.ArrivalStep | src/simulation/mod.rs:132-152 | a step that arrives is `Next` |
| Simulations.Simulation.MovingStep | src/simulation/mod.rs:154-206 | a step that moves is `Next` |
| Simulations.Simulation.Run | src/simulation/mod.rs:238-300 | `run` ends as `RunOutcome` of the start state says: with the remainder-by-zero panic after one step when dt < 0 or dt > 5 and the loop is entered, otherwise with the trajectory and final metrics of the state it stops at |
| Simulations.Simulation.Report | src/simulation/mod.rs:262-300 | the result holds the vehicle's display name, the trajectory and the metrics of the current state |
| Api.SimulationRequest.ParseVehicleTypes | src/api/models.rs:136-147 | `SimulationRequest::parse_vehicle_types`: the request's type names parsed by `ParseAll` |
| Api.BenchmarkRequest.ParseVehicleTypes | src/api/models.rs:150-161 | `BenchmarkRequest::parse_vehicle_types`: the same validation over the benchmark's type names |
| Api.DefaultVehicleTypes | src/api/models.rs:41-43 | the default type names Heavy, Standard and Agile, in that order |
| Api.DefaultSimulationRequest | src/api/models.rs:11-50 | a simulation request with every field left out: the default types, dt 0.05, 600 seconds, a 1000 by 800 map and the target at (500, 700) |
| Api.DefaultBenchmarkRequest | src/api/models.rs:53-74 | a benchmark request with every field left out: 30 iterations, the default types, no thread count, dt 0.05 and 600 seconds |
| Api.UnknownTypeMessage | src/api/models.rs:144 | the error for an unknown name, quoting the name as given and listing the valid types |
| Api.ToLower | src/api/models.rs:140 | `to_lowercase` on ASCII: each upper-case letter lowered, every other character kept |
| Api.ParseAll | src/api/models.rs:136-147 | the per-name parse collected into a `Result`: all the types in order, or the first error |
| Api.ParseVehicleType | src/api/models.rs:140-145 | a name is accepted (case-insensitively) as Heavy, Standard or Agile, never UltraAgile; a rejected name matches none of them and gets the error quoting it |
| Api.ParseAllSpec | src/api/models.rs:136-147 | the list parses exactly when every name does, giving one type per name in order; otherwise the error is the first unknown name's message |
| Api.NeverUltraAgile | src/api/models.rs:140-146 | no list of names selects the ultra-agile type |
| Api.VariantNamesParse | src/api/models.rs:140-145 | the three selectable variant names parse to their types, and "UltraAgile" is rejected |
| Api.ParseIgnoresCase | src/api/models.rs:140 | a name and its lower-cased form parse the same way |
| Api.DefaultsParse | src/api/models.rs:41-43 | a request that leaves out the vehicle types selects Heavy, Standard and Agile, in that order |
| Scenarios.DocumentedFuzzification | src/fuzzy_system/tests.rs:173-184 | fuzzifying temperature 25 gives both set names, cold to degree 1/2 and hot to 0 |
| Scenarios.FanFuzzification | src/fuzzy_system/tests.rs:188-219 | the fan system fuzzifies temperature t into cold(t) and hot(t) |
| Scenarios.FanActivation | src/fuzzy_system/tests.rs:203-215 | at temperature t, low is activated by cold(t) and high by hot(t) |
| Scenarios.FanControllerAtCoolTemperature | src/fuzzy_system/tests.rs:217-223 | at 25 degrees the output is named fan_speed and lies below 50 |
| Scenarios.FanControllerAtWarmTemperature | src/fuzzy_system/tests.rs:225-228 | at 75 degrees the output lies above 50 |
| Scenarios.EqualActivationCentroid | src/fuzzy_system/tests.rs:232-245 | equal activation of the mirrored triangles puts the centroid exactly at 50, inside the unit test's interval (40, 60) |
| Scenarios.MirroredWeights | src/fuzzy_system/tests.rs:233-239 | the mirrored sets under equal activation give symmetric sample weights |
| Scenarios.MirroredAggregation | src/fuzzy_system/tests.rs:233-239 | their aggregated membership at x equals that at 100 - x |
| Scenarios.NoActivationCentroid | src/fuzzy_system/tests.rs:247-258 | with no activation, the centroid is the midpoint 50 |

## Where the code and its comments disagree

The model follows the code in each case:

- The doc comment of `NavigationController::new` (src/navigation/mod.rs:30) promises 10 rules. The code adds 11, because rule 8 comes in two halves (R8a and R8b). `RuleBaseShape` states 11.
- The centroid comment (src/fuzzy_system/variables.rs:54) speaks of the trapezoidal rule. The loop sums all 1001 samples with equal weight, end points included. That is a Riemann sum, and it is what `Accumulate` models.
- The missing-input warning (src/fuzzy_system/system.rs:56) says a default value of 0.0 is used. The fuzzification loop just skips the variable. `Fuzzification` gives it no entry, so its antecedents are skipped rather than evaluated at 0.

## Left out

- Floating point: `f64` is modelled as exact `real`. Rounding, NaN and infinities are not modelled, and `to_radians` / `to_degrees` are exact multiplications.
- `sqrt`, `sin`, `cos`, `atan2` and `powf` are uninterpreted functions in the `Math` record. `Lawful` assumes only that `sqrt` is non-negative on non-negative arguments, that `powf(t, 1.5)` lies in [0, 1] for t in [0, 1], and that `powf(0, 1.5)` is 0.
- Gaussian and sigmoidal evaluation need `exp`. Only their validating constructors are modelled, and their unit tests are not restated.
- Boxed trait objects: `MembershipFunction` is a closed datatype of the two piecewise-linear shapes.
- `Map::random_start_position`, `random_start_angle` and `random_start_velocity_percentage` draw random numbers. `Simulation.constructor` takes the start position and heading as parameters instead. It requires the heading to lie in [-pi, pi], which every angle drawn from [30, 150) degrees does; any start position is accepted.
- Simulations.Simulation.Run: requires dt != 0. With dt = 0 the print interval saturates to `usize::MAX`, the clock and the position never move, and the source loop runs forever unless one of its first two steps arrives (only the first step can change the heading, by normalizing it). For dt < 0 or dt > 5 the print interval is 0 and `run` panics at `step_count % print_interval` after its first step; `Run` returns that panic as `Panic`, and `RunOutcome` states when.
- Simulations.RunStops: is about `RunFrom`, the loop without its print guard, and therefore about `run` only for 0 < dt <= 5; for other dt the run panics after one step, as `RunOutcomeSpec` states.
- Simulations.Config: the steering law is a field; `ControllerSteering(m)` supplies the navigation controller's law. `Simulation.Cfg()` always uses that law, and `SteeringCommand` proves the controller computes it.
- The `sim_println!` and `fuzzy_eprintln!` diagnostics and the out-of-range and missing-input warnings are I/O only and are not modelled. Nor is `step_count`, which only picks the steps that print; the print interval is modelled only where it decides the remainder-by-zero panic (`PrintInterval`), and an overflow of `step_count` after 2^64 steps is not modelled.
- FuzzySystems.FuzzySystem.AddInput: Rust moves the `LinguisticVariable` into the system; the model stores a shared reference, so a caller that keeps the variable can still `AddSet` on it and change the system's view. The model does not capture that ownership transfer; `NavigationController.Valid` re-states the navigation system's view after construction. The same holds for `SetOutput`.
- Simulations.Simulation.constructor: `velocity_threshold` is stored, but no arrival test reads it.
- Numeric.Pi: pi is modelled by the decimal 3.141592653589793, the digits of `std::f64::consts::PI` as printed, not by pi itself; the exact binary value of the `f64` constant and the rounding around it are not modelled.
- The `Display` implementation of `FuzzySystem` is printing only.
- The HTTP handlers, response models, benchmark statistics, the binaries, the visualizer and `membership_export` are not part of this model.
- Multi-vehicle runs and threads are not modelled.
- Api.ParseVehicleType: lower-casing is ASCII only (A to Z). That gives the same accept/reject outcome as Rust's Unicode `to_lowercase` for these three keywords. The only non-ASCII character whose lower-case form is a plain ASCII letter is the Kelvin sign, which becomes 'k', and no keyword contains 'k'.
- Serde deserialization is not modelled. A request is modelled after its defaults are filled in, and `DefaultSimulationRequest` / `DefaultBenchmarkRequest` are the all-defaults requests. The benchmark's thread count has no default.
- Both `parse_vehicle_types` methods share one `ParseAll`, since their bodies are identical.
