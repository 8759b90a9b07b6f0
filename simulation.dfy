/**
 * The simulation stepper (src/simulation/mod.rs): a vehicle steered by its navigation
 * controller, advanced in fixed time steps until it arrives or the time runs out; with a negative
 * time step or one above 5 seconds, `run` panics after its first step. Once the vehicle has arrived,
 * stepping changes nothing; the trajectory only ever grows.
 */
module Simulations {
  import opened Numeric
  import opened Maps
  import opened Vehicles
  import opened Navigation

  /** One recorded sample: time, position, heading in degrees, speed and distance to the target. */
  datatype TrajectoryPoint = TrajectoryPoint(t: real, x: real, y: real, angle: real, velocity: real, distanceToTarget: real)

  datatype SimulationMetrics = SimulationMetrics(
    success: bool,
    arrivalTime: Option<real>,
    distanceTraveled: real,
    finalAngleError: real,
    finalDistanceToTarget: real)

  datatype SimulationResult = SimulationResult(vehicleType: string, trajectory: seq<TrajectoryPoint>, metrics: SimulationMetrics)

  /** What `run` gives back: its result, or the panic that ends it. */
  datatype RunResult = Finished(result: SimulationResult) | Panic(message: string)

  /** Rust's message for an integer remainder by zero. */
  const RemainderByZero: string := "attempt to calculate the remainder with a divisor of zero"

  /**
   * What stays fixed during a run: the map, the vehicle type, the time step and limit, the
   * arrival thresholds, and the controller's steering law (distance, heading error and relative
   * speed to steering adjustment).
   */
  datatype Config = Config(
    world: Map,
    vehicleType: VehicleType,
    dt: real,
    maxTime: real,
    distanceThreshold: real,
    angleThreshold: real,
    steering: (real, real, real) -> real)

  /** The steering law of a navigation controller built for maneuverability m. */
  function ControllerSteering(m: real): (real, real, real) -> real
  {
    (distanceToTarget, angularError, velocityRelative) => Steering(m, distanceToTarget, angularError, velocityRelative)
  }

  lemma ControllerSteeringApplies(m: real, distanceToTarget: real, angularError: real, velocityRelative: real)
    ensures ControllerSteering(m)(distanceToTarget, angularError, velocityRelative) ==
            Steering(m, distanceToTarget, angularError, velocityRelative)
  {
  }

  /** What a step may change: the vehicle's state and counters, the clock and the trajectory. */
  datatype Snapshot = Snapshot(
    state: VehicleState,
    hasArrived: bool,
    distanceTraveled: real,
    timeElapsed: real,
    time: real,
    trajectory: seq<TrajectoryPoint>)

  const DistanceThreshold: real := 25.0

  /** Two degrees, in radians. */
  const AngleThreshold: real := Radians(2.0)

  /** The arrival test: strictly within the distance threshold and strictly within the heading tolerance. */
  predicate Arrives(cfg: Config, s: Snapshot, distanceToTarget: real)
  {
    distanceToTarget < cfg.distanceThreshold && Abs(cfg.world.target.requiredAngle - s.state.angle) < cfg.angleThreshold
  }

  function Sample(t: real, state: VehicleState, distanceToTarget: real): TrajectoryPoint
  {
    TrajectoryPoint(t, state.position.x, state.position.y, Degrees(state.angle), state.velocity, distanceToTarget)
  }

  /** The kinematic update: one time step along the heading at the current speed. */
  function Advance(position: Point, angle: real, velocity: real, dt: real, math: Math): Point
  {
    Point(position.x + velocity * math.cos(angle) * dt, position.y + velocity * math.sin(angle) * dt)
  }

  /** The steering adjustment clamped to the vehicle's maneuverability. */
  function ClampedSteering(cfg: Config, s: Snapshot, distanceToTarget: real, math: Math): (r: real)
    ensures -Preset(cfg.vehicleType).maneuverability <= r <= Preset(cfg.vehicleType).maneuverability
  {
    var c := Preset(cfg.vehicleType);
    var angularError := ComputeAngularErrorWithArrival(s.state.position, s.state.angle, cfg.world.target, distanceToTarget, math);
    var velocityRelative := s.state.velocity / c.maxVelocity;
    Clamp(cfg.steering(distanceToTarget, angularError, velocityRelative), -c.maneuverability, c.maneuverability)
  }

  /** The arrival branch of `step`: the flag is set and the current state is recorded. */
  function Arrive(s: Snapshot, distanceToTarget: real): Snapshot
  {
    s.(hasArrived := true, trajectory := s.trajectory + [Sample(s.time, s.state, distanceToTarget)])
  }

  /** The heading after turning at `rate` for `dt`, before normalization. */
  function Turned(angle: real, rate: real, dt: real): real
  {
    angle + rate * dt
  }

  /**
   * The moving branch of `step`, for a clamped turn rate: turn and normalize, advance, add the
   * step's length, move the clock, record the new state with the distance measured before the move.
   */

  function Move(s: Snapshot, turn: real, distanceToTarget: real, dt: real, math: Math): Snapshot
  {
    var angle := Normalized(Turned(s.state.angle, turn, dt));
    var position := Advance(s.state.position, angle, s.state.velocity, dt, math);
    var state := VehicleState(position, angle, s.state.velocity);
    var time := s.time + dt;
    Snapshot(state, false, s.distanceTraveled + EuclideanDistance(s.state.position, position, math), time, time,
             s.trajectory + [Sample(time, state, distanceToTarget)])
  }

  /** One call of `step`. */
  function Next(cfg: Config, s: Snapshot, math: Math): Snapshot
  {
    if s.hasArrived then s
    else
      var distanceToTarget := EuclideanDistance(s.state.position, cfg.world.target.position, math);
      if Arrives(cfg, s, distanceToTarget) then Arrive(s, distanceToTarget)
      else Move(s, ClampedSteering(cfg, s, distanceToTarget, math), distanceToTarget, cfg.dt, math)
  }

  /** The two branches of a step before arrival. */
  lemma NextCases(cfg: Config, s: Snapshot, distanceToTarget: real, math: Math)
    requires !s.hasArrived && distanceToTarget == EuclideanDistance(s.state.position, cfg.world.target.position, math)
    ensures Arrives(cfg, s, distanceToTarget) ==> Next(cfg, s, math) == Arrive(s, distanceToTarget)
    ensures !Arrives(cfg, s, distanceToTarget) ==>
              Next(cfg, s, math) == Move(s, ClampedSteering(cfg, s, distanceToTarget, math), distanceToTarget, cfg.dt, math)
  {
  }

  /** The whole steps of dt that fit between the clock and the time limit. */
  function StepsLeft(cfg: Config, s: Snapshot): (r: int)
    requires cfg.dt > 0.0
    ensures s.time < cfg.maxTime ==> r >= 0
  {
    var a := cfg.maxTime - s.time;
    assert a > 0.0 ==> a / cfg.dt > 0.0;
    (a / cfg.dt).Floor
  }

  lemma StepsLeftDecreases(cfg: Config, s: Snapshot, t: Snapshot)
    requires cfg.dt > 0.0 && t.time == s.time + cfg.dt
    ensures StepsLeft(cfg, t) == StepsLeft(cfg, s) - 1
  {
    var a := cfg.maxTime - s.time;
    assert cfg.maxTime - t.time == a - cfg.dt;
    assert (a - cfg.dt) / cfg.dt == a / cfg.dt - cfg.dt / cfg.dt;
    assert cfg.dt / cfg.dt == 1.0;
  }

  /** The measure `run` decreases: nothing once arrived, otherwise the steps left before the time limit. */
  function Remaining(cfg: Config, s: Snapshot): nat
    requires cfg.dt > 0.0
  {
    if s.hasArrived then 0 else if s.time < cfg.maxTime then StepsLeft(cfg, s) + 2 else 1
  }

  /** A step taken by `run` (before arrival and before the time limit) decreases the measure. */
  lemma NextDecreases(cfg: Config, s: Snapshot, math: Math)
    requires cfg.dt > 0.0 && !s.hasArrived && s.time < cfg.maxTime
    ensures Remaining(cfg, Next(cfg, s, math)) < Remaining(cfg, s)
  {
    var t := Next(cfg, s, math);
    NextProgress(cfg, s, math);
    if !t.hasArrived {
      StepsLeftDecreases(cfg, s, t);
    }
  }

  /**
   * `run`'s loop apart from its print guard: steps are taken while time is below the limit and
   * the vehicle has not arrived. It is where `run` stops whenever 0 < dt <= 5 (see `RunOutcome`).
   */
  function RunFrom(cfg: Config, s: Snapshot, math: Math): Snapshot
    requires cfg.dt > 0.0
    decreases Remaining(cfg, s)
  {
    if s.time < cfg.maxTime && !s.hasArrived then
      NextDecreases(cfg, s, math);
      RunFrom(cfg, Next(cfg, s, math), math)
    else s
  }

  /** One iteration of `run`'s loop: running on from a snapshot is running on from its successor. */
  lemma RunFromNext(cfg: Config, s: Snapshot, math: Math)
    requires cfg.dt > 0.0 && s.time < cfg.maxTime && !s.hasArrived
    ensures RunFrom(cfg, Next(cfg, s, math), math) == RunFrom(cfg, s, math)
  {
  }

  /** The metrics `run` reports for the snapshot it stops at. */
  function Metrics(cfg: Config, s: Snapshot, math: Math): SimulationMetrics
  {
    SimulationMetrics(
      s.hasArrived,
      if s.hasArrived then Some(s.time) else None,
      s.distanceTraveled,
      Degrees(Abs(cfg.world.target.requiredAngle - s.state.angle)),
      EuclideanDistance(s.state.position, cfg.world.target.position, math))
  }

  /** A step before arrival either arrives, keeping the clock, or moves on by dt without arriving. */
  lemma NextProgress(cfg: Config, s: Snapshot, math: Math)
    requires !s.hasArrived
    ensures Next(cfg, s, math).hasArrived ==> Next(cfg, s, math).time == s.time
    ensures !Next(cfg, s, math).hasArrived ==> Next(cfg, s, math).time == s.time + cfg.dt
  {
  }

  /** Arrival is absorbing: a step after arrival changes nothing. */
  lemma ArrivedIsAbsorbing(cfg: Config, s: Snapshot, math: Math)
    requires s.hasArrived
    ensures Next(cfg, s, math) == s
  {
  }

  /**
   * A step before arrival arrives exactly when both strict thresholds hold; it then records one
   * sample at the current state and moves nothing.
   */
  lemma ArrivalStep(cfg: Config, s: Snapshot, math: Math)
    requires !s.hasArrived
    ensures var d := EuclideanDistance(s.state.position, cfg.world.target.position, math);
            Next(cfg, s, math).hasArrived <==> d < cfg.distanceThreshold && Abs(cfg.world.target.requiredAngle - s.state.angle) < cfg.angleThreshold
    ensures var d := EuclideanDistance(s.state.position, cfg.world.target.position, math);
            Next(cfg, s, math).hasArrived ==>
              && Next(cfg, s, math).state == s.state
              && Next(cfg, s, math).time == s.time && Next(cfg, s, math).timeElapsed == s.timeElapsed
              && Next(cfg, s, math).distanceTraveled == s.distanceTraveled
              && Next(cfg, s, math).trajectory == s.trajectory + [Sample(s.time, s.state, d)]
  {
  }

  /**
   * A moving step normalizes the new heading into [-pi, pi], keeps the speed, advances along the
   * new heading, adds the step's length to the distance travelled, moves the clock by dt, sets
   * the elapsed time to the clock, and records one sample with the distance it was given.
   */
  lemma MoveSpec(s: Snapshot, turn: real, distanceToTarget: real, dt: real, math: Math)
    ensures var t := Move(s, turn, distanceToTarget, dt, math);
            && t.state.angle == Normalized(Turned(s.state.angle, turn, dt))
            && -Pi <= t.state.angle <= Pi
            && WholeTurns(Turned(s.state.angle, turn, dt) - t.state.angle)
            && t.state.velocity == s.state.velocity
            && t.state.position == Advance(s.state.position, t.state.angle, s.state.velocity, dt, math)
            && t.distanceTraveled == s.distanceTraveled + EuclideanDistance(s.state.position, t.state.position, math)
            && !t.hasArrived && t.time == s.time + dt && t.timeElapsed == t.time
            && t.trajectory == s.trajectory + [Sample(t.time, t.state, distanceToTarget)]
  {
    NormalizedSpec(Turned(s.state.angle, turn, dt));
  }

  /**
   * A step before arrival that does not arrive is a move by the steering adjustment clamped to
   * the maneuverability, with the distance measured before the move.
   */
  lemma MovingStep(cfg: Config, s: Snapshot, math: Math)
    requires !s.hasArrived
    ensures var d := EuclideanDistance(s.state.position, cfg.world.target.position, math);
            !Arrives(cfg, s, d) ==>
              exists turn :: -Preset(cfg.vehicleType).maneuverability <= turn <= Preset(cfg.vehicleType).maneuverability &&
                             Next(cfg, s, math) == Move(s, turn, d, cfg.dt, math)
  {
    var d := EuclideanDistance(s.state.position, cfg.world.target.position, math);
    if !Arrives(cfg, s, d) {
      var turn := ClampedSteering(cfg, s, d, math);
      assert Next(cfg, s, math) == Move(s, turn, d, cfg.dt, math);
    }
  }

  /** The trajectory only grows, by one sample per step that was not already after arrival. */
  lemma NextAppends(cfg: Config, s: Snapshot, math: Math)
    ensures s.hasArrived ==> Next(cfg, s, math).trajectory == s.trajectory
    ensures !s.hasArrived ==> |Next(cfg, s, math).trajectory| == |s.trajectory| + 1
    ensures Next(cfg, s, math).trajectory[..|s.trajectory|] == s.trajectory
  {
  }

  /** The distance travelled never decreases across a step. */
  lemma NextDistanceMonotone(cfg: Config, s: Snapshot, math: Math)
    requires Lawful(math)
    ensures Next(cfg, s, math).distanceTraveled >= s.distanceTraveled
  {
  }

  /**
   * The loop `RunFrom` stops only with the vehicle arrived or the time limit reached, and from an
   * arrived start it does nothing.
   */
  lemma {:induction false} RunStops(cfg: Config, s: Snapshot, math: Math)
    requires cfg.dt > 0.0
    ensures RunFrom(cfg, s, math).hasArrived || RunFrom(cfg, s, math).time >= cfg.maxTime
    ensures s.hasArrived ==> RunFrom(cfg, s, math) == s
    ensures |s.trajectory| <= |RunFrom(cfg, s, math).trajectory|
    ensures RunFrom(cfg, s, math).trajectory[..|s.trajectory|] == s.trajectory
    ensures Lawful(math) ==> RunFrom(cfg, s, math).distanceTraveled >= s.distanceTraveled
    decreases Remaining(cfg, s)
  {
    if s.time < cfg.maxTime && !s.hasArrived {
      var t := Next(cfg, s, math);
      NextDecreases(cfg, s, math);
      RunStops(cfg, t, math);
      NextAppends(cfg, s, math);
      if Lawful(math) {
        NextDistanceMonotone(cfg, s, math);
      }
      var u := RunFrom(cfg, t, math);
      assert u == RunFrom(cfg, s, math);
      assert u.trajectory[..|s.trajectory|] == u.trajectory[..|t.trajectory|][..|s.trajectory|];
    }
  }

  /**
   * A run whose loop is entered records at least one sample, and a run that ends arrived ends
   * with a sample strictly within the distance threshold.
   */
  lemma {:induction false} RunRecords(cfg: Config, s: Snapshot, math: Math)
    requires cfg.dt > 0.0 && !s.hasArrived && s.time < cfg.maxTime
    ensures |RunFrom(cfg, s, math).trajectory| > |s.trajectory|
    ensures RunFrom(cfg, s, math).hasArrived ==>
              RunFrom(cfg, s, math).trajectory[|RunFrom(cfg, s, math).trajectory| - 1].distanceToTarget < cfg.distanceThreshold
    decreases Remaining(cfg, s)
  {
    var t := Next(cfg, s, math);
    NextDecreases(cfg, s, math);
    NextAppends(cfg, s, math);
    assert RunFrom(cfg, s, math) == RunFrom(cfg, t, math);
    if t.hasArrived {
      ArrivalStep(cfg, s, math);
      assert RunFrom(cfg, t, math) == t;
    } else if t.time < cfg.maxTime {
      RunRecords(cfg, t, math);
    } else {
      assert RunFrom(cfg, t, math) == t;
    }
  }

  /** The arrival time is reported exactly when the run succeeded, and it is the clock at arrival. */
  lemma MetricsSpec(cfg: Config, s: Snapshot, math: Math)
    ensures Metrics(cfg, s, math).success <==> Metrics(cfg, s, math).arrivalTime.Some?
    ensures Metrics(cfg, s, math).arrivalTime.Some? ==> Metrics(cfg, s, math).arrivalTime.value == s.time
    ensures Lawful(math) ==> Metrics(cfg, s, math).finalDistanceToTarget >= 0.0 && Metrics(cfg, s, math).finalAngleError >= 0.0
  {
  }

  /** The largest `usize` on a 64-bit target. */
  const UsizeMax: int := 0xFFFF_FFFF_FFFF_FFFF

  /** A float cast `as usize`: truncation toward zero, saturating at 0 below and at `usize::MAX` above. */
  function AsUsize(x: real): (r: int)
    ensures 0 <= r <= UsizeMax
    ensures r == 0 <==> x < 1.0
    ensures 1.0 <= x < UsizeMax as real ==> r as real <= x < r as real + 1.0
  {
    if x < 1.0 then 0 else if x >= UsizeMax as real then UsizeMax else x.Floor
  }

  /**
   * `run`'s print interval `(5.0 / dt) as usize`: a zero dt divides to +infinity, which
   * saturates; it is zero exactly when dt is negative or above 5 seconds.
   */
  function PrintInterval(dt: real): (r: int)
    ensures 0 <= r <= UsizeMax
    ensures r == 0 <==> dt < 0.0 || dt > 5.0
    ensures dt == 0.0 ==> r == UsizeMax
  {
    if dt == 0.0 then UsizeMax
    else
      assert dt > 5.0 ==> 5.0 / dt < 1.0;
      assert 0.0 < dt <= 5.0 ==> 5.0 / dt >= 1.0;
      AsUsize(5.0 / dt)
  }

  /** How `run`'s loop ends: it stops at a snapshot, or panics at a snapshot. */
  datatype RunEnd = Stopped(last: Snapshot) | Panicked(last: Snapshot)

  /**
   * `run`'s loop with its `step_count % print_interval`: when the loop is entered and the print
   * interval is zero, the first step is taken and the remainder by zero panics; otherwise the
   * loop runs to `RunFrom`. A zero dt is excluded: the clock then never moves.
   */
  function RunOutcome(cfg: Config, s: Snapshot, math: Math): RunEnd
    requires cfg.dt != 0.0
  {
    if !(s.time < cfg.maxTime && !s.hasArrived) then Stopped(s)
    else if PrintInterval(cfg.dt) == 0 then Panicked(Next(cfg, s, math))
    else Stopped(RunFrom(cfg, s, math))
  }

  /**
   * `run` panics exactly when its loop is entered with dt negative or above 5 seconds, and then
   * after one step; otherwise it stops with the vehicle arrived or the time limit reached, and
   * for dt in (0, 5] the stopping state is `RunFrom`.
   */
  lemma RunOutcomeSpec(cfg: Config, s: Snapshot, math: Math)
    requires cfg.dt != 0.0
    ensures RunOutcome(cfg, s, math).Panicked? <==>
            (cfg.dt < 0.0 || cfg.dt > 5.0) && s.time < cfg.maxTime && !s.hasArrived
    ensures RunOutcome(cfg, s, math).Panicked? ==> RunOutcome(cfg, s, math).last == Next(cfg, s, math)
    ensures RunOutcome(cfg, s, math).Stopped? ==>
            RunOutcome(cfg, s, math).last.hasArrived || RunOutcome(cfg, s, math).last.time >= cfg.maxTime
    ensures 0.0 < cfg.dt <= 5.0 ==> RunOutcome(cfg, s, math) == Stopped(RunFrom(cfg, s, math))
    ensures s.hasArrived ==> RunOutcome(cfg, s, math) == Stopped(s)
  {
    if 0.0 < cfg.dt {
      RunStops(cfg, s, math);
    }
  }

  /** A simulation: one vehicle, its controller, the clock and the recorded trajectory. */
  class Simulation {
    const world: Map
    const vehicle: Vehicle
    const controller: NavigationController
    var time: real
    const dt: real
    const maxTime: real
    var trajectory: seq<TrajectoryPoint>
    const distanceThreshold: real
    const angleThreshold: real
    const velocityThreshold: real

    /** The vehicle carries its type's preset and the controller was built for that preset's maneuverability. */
    ghost predicate Valid()
      reads this, vehicle, controller, controller.fuzzySystem, controller.fuzzySystem.inputVariables,
            controller.fuzzySystem.outputVariable
    {
      Matched() && controller.Valid()
    }

    /** The vehicle's heading lies in [-pi, pi]: it starts there and every move normalizes it. */
    predicate HeadingInRange()
      reads vehicle
    {
      -Pi <= vehicle.state.angle <= Pi
    }

    /** The part of `Valid` that no step can change: it reads constant fields only. */
    ghost predicate Matched()
    {
      && vehicle.characteristics == Preset(vehicle.vehicleType)
      && controller.maneuverability == vehicle.characteristics.maneuverability
    }

    function Cfg(): Config
    {
      Config(world, vehicle.vehicleType, dt, maxTime, distanceThreshold, angleThreshold,
             ControllerSteering(controller.maneuverability))
    }

    function Current(): Snapshot
      reads this, vehicle
    {
      Snapshot(vehicle.state, vehicle.hasArrived, vehicle.distanceTraveled, vehicle.timeElapsed, time, trajectory)
    }

    /**
     * `Simulation::new`, with the start position and heading as parameters: the vehicle of the
     * type's preset at a tenth of its top speed, clock at 0, no trajectory, arrival within 25
     * units and 2 degrees.
     */
    constructor (world: Map, vehicleType: VehicleType, dt: real, maxTime: real, initialPosition: Point, initialAngle: real)
      requires -Pi <= initialAngle <= Pi
      ensures Valid() && fresh(vehicle) && fresh(controller)
      ensures HeadingInRange()
      ensures this.world == world && this.dt == dt && this.maxTime == maxTime && vehicle.vehicleType == vehicleType
      ensures Current() == Snapshot(VehicleState(initialPosition, initialAngle, Preset(vehicleType).maxVelocity * 0.10),
                                    false, 0.0, 0.0, 0.0, [])
      ensures distanceThreshold == DistanceThreshold && angleThreshold == AngleThreshold
      ensures velocityThreshold == Preset(vehicleType).maxVelocity * 0.10 + 5.0
    {
      var characteristics := Preset(vehicleType);
      var v := new Vehicle(vehicleType, characteristics, initialPosition, initialAngle);
      var constantVelocity := characteristics.maxVelocity * 0.10;
      v.state := v.state.(velocity := constantVelocity);
      var c := new NavigationController(characteristics);
      this.world := world;
      vehicle := v;
      controller := c;
      time := 0.0;
      this.dt := dt;
      this.maxTime := maxTime;
      trajectory := [];
      distanceThreshold := DistanceThreshold;
      angleThreshold := AngleThreshold;
      velocityThreshold := constantVelocity + 5.0;
    }

    /**
     * Steps 3 to 5 of `step`: the heading error toward the aim point, the controller's steering
     * adjustment for it, clamped to the vehicle's maneuverability.
     */
    method SteeringCommand(distanceToTarget: real, math: Math) returns (angularAdjustmentClamped: real)
      requires Valid()
      ensures angularAdjustmentClamped == ClampedSteering(Cfg(), Current(), distanceToTarget, math)
    {
      var angularError := ComputeAngularErrorWithArrival(vehicle.state.position, vehicle.state.angle, world.target, distanceToTarget, math);
      var velocityRelative := vehicle.state.velocity / vehicle.characteristics.maxVelocity;
      var angularAdjustment, _ := controller.ComputeControl(distanceToTarget, angularError, velocityRelative);
      ControllerSteeringApplies(controller.maneuverability, distanceToTarget, angularError, velocityRelative);
      var m := vehicle.characteristics.maneuverability;
      angularAdjustmentClamped := Clamp(angularAdjustment, -m, m);
    }

    /** The arrival branch of `step`: raise the flag and record the current state. */
    method Arrival(distanceToTarget: real)
      modifies this, vehicle
      ensures old(Valid()) ==> Valid()
      ensures old(HeadingInRange()) ==> HeadingInRange()
      ensures Current() == Arrive(old(Current()), distanceToTarget)
    {
      vehicle.hasArrived := true;
      trajectory := trajectory + [Sample(time, vehicle.state, distanceToTarget)];
    }

    /**
     * Steps 6 to 9 of `step` for a clamped turn rate: turn and normalize, advance through
     * `update_position`, move the clock and record the new state.
     */
    method Motion(angularAdjustmentClamped: real, distanceToTarget: real, math: Math)
      requires !vehicle.hasArrived
      modifies this, vehicle
      ensures old(Valid()) ==> Valid()
      ensures HeadingInRange()
      ensures Current() == Move(old(Current()), angularAdjustmentClamped, distanceToTarget, dt, math)
    {
      ghost var s := Current();
      ghost var t := Move(s, angularAdjustmentClamped, distanceToTarget, dt, math);
      MoveSpec(s, angularAdjustmentClamped, distanceToTarget, dt, math);
      vehicle.state := vehicle.state.(angle := vehicle.state.angle + angularAdjustmentClamped * dt);
      assert vehicle.state.angle == Turned(s.state.angle, angularAdjustmentClamped, dt);
      var normalized := NormalizeAngle(vehicle.state.angle);
      vehicle.state := vehicle.state.(angle := normalized);
      assert normalized == t.state.angle;

      var oldPosition := vehicle.state.position;
      var newPosition := Advance(oldPosition, vehicle.state.angle, vehicle.state.velocity, dt, math);
      assert newPosition == t.state.position;
      vehicle.UpdatePosition(newPosition, math);
      assert vehicle.state == t.state;
      assert vehicle.distanceTraveled == t.distanceTraveled;

      time := time + dt;
      vehicle.timeElapsed := time;
      trajectory := trajectory + [Sample(time, vehicle.state, distanceToTarget)];
      assert trajectory == t.trajectory;
    }

    /** `step`: the new state is `Next` of the old one. */
    method Step(math: Math)
      requires Valid()
      modifies this, vehicle
      ensures Valid()
      ensures old(HeadingInRange()) ==> HeadingInRange()
      ensures Current() == Next(Cfg(), old(Current()), math)
    {
      if vehicle.hasArrived {
        return;
      }
      var distanceToTarget := EuclideanDistance(vehicle.state.position, world.target.position, math);
      var angleError := Abs(world.target.requiredAngle - vehicle.state.angle);
      if distanceToTarget < distanceThreshold && angleError < angleThreshold {
        ArrivalStep(distanceToTarget, math);
        return;
      }
      MovingStep(distanceToTarget, math);
    }

    /** A step that arrives. */
    method ArrivalStep(distanceToTarget: real, math: Math)
      requires Valid() && !vehicle.hasArrived
      requires distanceToTarget == EuclideanDistance(vehicle.state.position, world.target.position, math)
      requires Arrives(Cfg(), Current(), distanceToTarget)
      modifies this, vehicle
      ensures Valid()
      ensures old(HeadingInRange()) ==> HeadingInRange()
      ensures Current() == Next(Cfg(), old(Current()), math)
    {
      ghost var s := Current();
      assert Next(Cfg(), s, math) == Arrive(s, distanceToTarget) by {
        NextCases(Cfg(), s, distanceToTarget, math);
      }
      Arrival(distanceToTarget);
    }

    /** A step that moves. */
    method MovingStep(distanceToTarget: real, math: Math)
      requires Valid() && !vehicle.hasArrived
      requires distanceToTarget == EuclideanDistance(vehicle.state.position, world.target.position, math)
      requires !Arrives(Cfg(), Current(), distanceToTarget)
      modifies this, vehicle
      ensures Valid()
      ensures HeadingInRange()
      ensures Current() == Next(Cfg(), old(Current()), math)
    {
      ghost var s := Current();
      var angularAdjustmentClamped := SteeringCommand(distanceToTarget, math);
      assert Next(Cfg(), s, math) == Move(s, angularAdjustmentClamped, distanceToTarget, dt, math) by {
        NextCases(Cfg(), s, distanceToTarget, math);
      }
      Motion(angularAdjustmentClamped, distanceToTarget, math);
    }

    /**
     * `run`: step while the clock is below the limit and the vehicle has not arrived, then report
     * the trajectory and the metrics. After each step the step count is taken modulo the print
     * interval, which panics when that interval is zero. The loop ends because each step either
     * arrives or advances the clock by dt > 0.
     */
    method Run(math: Math) returns (outcome: RunResult)
      requires Valid() && dt != 0.0
      modifies this, vehicle
      ensures Valid()
      ensures old(HeadingInRange()) ==> HeadingInRange()
      ensures RunOutcome(Cfg(), old(Current()), math) ==
              (if outcome.Finished? then Stopped(Current()) else Panicked(Current()))
      ensures outcome.Finished? ==>
              outcome.result == SimulationResult(Name(vehicle.vehicleType), trajectory, Metrics(Cfg(), Current(), math))
      ensures outcome.Panic? ==> outcome.message == RemainderByZero
    {
      ghost var start := Current();
      var printInterval := PrintInterval(dt);
      while time < maxTime && !vehicle.hasArrived
        invariant Valid()
        invariant old(HeadingInRange()) ==> HeadingInRange()
        invariant printInterval == 0 ==> Current() == start
        invariant printInterval != 0 ==> RunFrom(Cfg(), Current(), math) == RunFrom(Cfg(), start, math)
        decreases if dt > 0.0 then Remaining(Cfg(), Current()) else 0
      {
        ghost var before := Current();
        Step(math);
        if printInterval == 0 {
          outcome := Panic(RemainderByZero);
          return;
        }
        assert RunFrom(Cfg(), Current(), math) == RunFrom(Cfg(), before, math) by {
          RunFromNext(Cfg(), before, math);
        }
        assert Remaining(Cfg(), Current()) < Remaining(Cfg(), before) by {
          NextDecreases(Cfg(), before, math);
        }
      }
      var result := Report(math);
      outcome := Finished(result);
    }

    /** The end of `run`: the final distance and heading error, and the result with the trajectory. */
    method Report(math: Math) returns (result: SimulationResult)
      ensures result == SimulationResult(Name(vehicle.vehicleType), trajectory, Metrics(Cfg(), Current(), math))
    {
      var finalDistance := EuclideanDistance(vehicle.state.position, world.target.position, math);
      var finalAngleError := Abs(world.target.requiredAngle - vehicle.state.angle);
      var metrics := SimulationMetrics(
        vehicle.hasArrived,
        if vehicle.hasArrived then Some(time) else None,
        vehicle.distanceTraveled,
        Degrees(finalAngleError),
        finalDistance);
      result := SimulationResult(Name(vehicle.vehicleType), trajectory, metrics);
    }
  }
}
