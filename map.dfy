/** The environment and the planar geometry helpers (src/map/mod.rs). */
module Maps {
  import opened Numeric

  datatype Point = Point(x: real, y: real)

  /** The fraction of the map height, from the bottom, where vehicles start. */
  datatype StartZone = StartZone(heightPercentage: real)

  datatype Target = Target(position: Point, requiredAngle: real)

  datatype Map = Map(width: real, height: real, startZone: StartZone, target: Target)

  /** `Map::new`: the target at the given position, to be reached heading north (pi/2), start zone 8%. */
  function NewMap(width: real, height: real, targetX: real, targetY: real): (m: Map)
    ensures m.width == width && m.height == height
    ensures m.target.position == Point(targetX, targetY)
    ensures m.target.requiredAngle == Pi / 2.0 && -Pi <= m.target.requiredAngle <= Pi
    ensures m.startZone.heightPercentage == 0.08
  {
    Map(width, height, StartZone(0.08), Target(Point(targetX, targetY), Pi / 2.0))
  }

  /** `euclidean_distance`: the root of the sum of squared differences. */
  function EuclideanDistance(p1: Point, p2: Point, math: Math): (r: real)
    ensures Lawful(math) ==> r >= 0.0
  {
    var dx := p2.x - p1.x;
    var dy := p2.y - p1.y;
    SquareNonNegative(dx);
    SquareNonNegative(dy);
    math.sqrt(dx * dx + dy * dy)
  }

  lemma SquareNonNegative(a: real)
    ensures a * a >= 0.0
  {
    if a < 0.0 {
      assert a * a == (-a) * (-a);
    }
  }

  /** The distance does not depend on the order of the points. */
  lemma DistanceSymmetric(p1: Point, p2: Point, math: Math)
    ensures EuclideanDistance(p1, p2, math) == EuclideanDistance(p2, p1, math)
  {
    assert (p2.x - p1.x) * (p2.x - p1.x) == (p1.x - p2.x) * (p1.x - p2.x);
    assert (p2.y - p1.y) * (p2.y - p1.y) == (p1.y - p2.y) * (p1.y - p2.y);
  }

  /** The case the unit test checks: from (0, 0) to (3, 4) the distance is the root of 25. */
  lemma DocumentedDistance(math: Math)
    ensures EuclideanDistance(Point(0.0, 0.0), Point(3.0, 4.0), math) == math.sqrt(25.0)
  {
  }

  /** The value the first `while` loop of `normalize_angle` leaves: 2 pi subtracted while above pi. */
  function ReduceAbove(a: real): (r: real)
    ensures r <= Pi
    ensures a <= Pi ==> r == a
    decreases if a > Pi then (a / TwoPi).Floor + 1 else 0
  {
    if a > Pi then
      assert ((a - TwoPi) / TwoPi).Floor == (a / TwoPi).Floor - 1 by {
        assert (a - TwoPi) / TwoPi == a / TwoPi - 1.0;
      }
      ReduceAbove(a - TwoPi)
    else a
  }

  /** The value the second `while` loop leaves: 2 pi added while below -pi. */
  function ReduceBelow(a: real): (r: real)
    ensures r >= -Pi
    ensures a <= Pi ==> r <= Pi
    ensures a >= -Pi ==> r == a
    decreases if a < -Pi then (-a / TwoPi).Floor + 1 else 0
  {
    if a < -Pi then
      assert (-(a + TwoPi) / TwoPi).Floor == (-a / TwoPi).Floor - 1 by {
        assert -(a + TwoPi) / TwoPi == -a / TwoPi - 1.0;
      }
      ReduceBelow(a + TwoPi)
    else a
  }

  /** What `normalize_angle` returns. */
  function Normalized(angle: real): real
  {
    ReduceBelow(ReduceAbove(angle))
  }

  /** `normalize_angle`: the two loops of the source. */
  method NormalizeAngle(angle: real) returns (normalized: real)
    ensures normalized == Normalized(angle)
  {
    normalized := angle;
    while normalized > Pi
      invariant ReduceAbove(normalized) == ReduceAbove(angle)
      decreases (normalized / TwoPi).Floor
    {
      assert ((normalized - TwoPi) / TwoPi).Floor == (normalized / TwoPi).Floor - 1 by {
        assert (normalized - TwoPi) / TwoPi == normalized / TwoPi - 1.0;
      }
      normalized := normalized - 2.0 * Pi;
    }
    ghost var above := normalized;
    while normalized < -Pi
      invariant ReduceBelow(normalized) == ReduceBelow(above)
      decreases (-normalized / TwoPi).Floor
    {
      assert (-(normalized + TwoPi) / TwoPi).Floor == (-normalized / TwoPi).Floor - 1 by {
        assert -(normalized + TwoPi) / TwoPi == -normalized / TwoPi - 1.0;
      }
      normalized := normalized + 2.0 * Pi;
    }
  }

  /** k full turns, in radians. */
  function Turns(k: int): real
  {
    (k as real) * TwoPi
  }

  /** d is a whole number of full turns. */
  ghost predicate WholeTurns(d: real)
  {
    exists k: int :: d == Turns(k)
  }

  lemma {:induction false} ReduceAboveTurns(a: real)
    ensures WholeTurns(a - ReduceAbove(a))
    decreases if a > Pi then (a / TwoPi).Floor + 1 else 0
  {
    if a > Pi {
      assert ((a - TwoPi) / TwoPi).Floor == (a / TwoPi).Floor - 1 by {
        assert (a - TwoPi) / TwoPi == a / TwoPi - 1.0;
      }
      ReduceAboveTurns(a - TwoPi);
      var k: int :| a - TwoPi - ReduceAbove(a - TwoPi) == Turns(k);
      assert a - ReduceAbove(a) == Turns(k + 1);
    } else {
      assert a - ReduceAbove(a) == Turns(0);
    }
  }

  lemma {:induction false} ReduceBelowTurns(a: real)
    ensures WholeTurns(a - ReduceBelow(a))
    decreases if a < -Pi then (-a / TwoPi).Floor + 1 else 0
  {
    if a < -Pi {
      assert (-(a + TwoPi) / TwoPi).Floor == (-a / TwoPi).Floor - 1 by {
        assert -(a + TwoPi) / TwoPi == -a / TwoPi - 1.0;
      }
      ReduceBelowTurns(a + TwoPi);
      var k: int :| a + TwoPi - ReduceBelow(a + TwoPi) == Turns(k);
      assert a - ReduceBelow(a) == Turns(k - 1);
    } else {
      assert a - ReduceBelow(a) == Turns(0);
    }
  }

  /**
   * The normalized angle lies in [-pi, pi], differs from the input by whole turns, and is the
   * input itself when that already lies in [-pi, pi] (pi included).
   */
  lemma NormalizedSpec(angle: real)
    ensures -Pi <= Normalized(angle) <= Pi
    ensures WholeTurns(angle - Normalized(angle))
    ensures -Pi <= angle <= Pi ==> Normalized(angle) == angle
  {
    var above := ReduceAbove(angle);
    ReduceAboveTurns(angle);
    ReduceBelowTurns(above);
    var k1: int :| angle - above == Turns(k1);
    var k2: int :| above - ReduceBelow(above) == Turns(k2);
    assert angle - Normalized(angle) == Turns(k1 + k2);
  }

  /** The cases the unit tests check. */
  lemma DocumentedNormalizations()
    ensures Normalized(7.0) == 7.0 - TwoPi
    ensures Normalized(-7.0) == -7.0 + TwoPi
    ensures Normalized(Pi) == Pi
  {
    assert ReduceAbove(7.0) == ReduceAbove(7.0 - TwoPi);
    assert ReduceBelow(-7.0) == ReduceBelow(-7.0 + TwoPi);
  }

  /** `compute_angular_error`: the heading toward the target minus the current heading, normalized. */
  function ComputeAngularError(currentPos: Point, currentAngle: real, targetPos: Point, math: Math): (r: real)
    ensures -Pi <= r <= Pi
  {
    var dx := targetPos.x - currentPos.x;
    var dy := targetPos.y - currentPos.y;
    var desiredAngle := math.atan2(dy, dx);
    NormalizedSpec(desiredAngle - currentAngle);
    Normalized(desiredAngle - currentAngle)
  }

  /** Below this distance the vehicle steers toward an approach point under the target. */
  const ApproachStart: real := 120.0

  /** The approach point's offset at distance ApproachStart. */
  const MaxOffset: real := 100.0

  /** The approach point's offset below the target: MaxOffset * (d / ApproachStart)^1.5. */
  function ApproachOffset(distanceToTarget: real, math: Math): (r: real)
    ensures Lawful(math) && 0.0 <= distanceToTarget <= ApproachStart ==> 0.0 <= r <= MaxOffset
    ensures Lawful(math) && distanceToTarget == 0.0 ==> r == 0.0
  {
    var t := distanceToTarget / ApproachStart;
    MaxOffset * math.powf(t, 1.5)
  }

  /** The point steered toward: the target when far, else the approach point below it. */
  function AimPoint(target: Target, distanceToTarget: real, math: Math): (p: Point)
    ensures p.x == target.position.x
    ensures distanceToTarget > ApproachStart ==> p == target.position
    ensures distanceToTarget <= ApproachStart ==> p.y == target.position.y - ApproachOffset(distanceToTarget, math)
    ensures Lawful(math) && 0.0 <= distanceToTarget <= ApproachStart ==>
              target.position.y - MaxOffset <= p.y <= target.position.y
    ensures Lawful(math) && distanceToTarget == 0.0 ==> p == target.position
  {
    if distanceToTarget > ApproachStart then target.position
    else Point(target.position.x, target.position.y - ApproachOffset(distanceToTarget, math))
  }

  /** `compute_angular_error_with_arrival` */
  function ComputeAngularErrorWithArrival(currentPos: Point, currentAngle: real, target: Target, distanceToTarget: real, math: Math): (r: real)
    ensures -Pi <= r <= Pi
  {
    if distanceToTarget > ApproachStart then
      ComputeAngularError(currentPos, currentAngle, target.position, math)
    else
      var t := distanceToTarget / ApproachStart;
      var offset := MaxOffset * math.powf(t, 1.5);
      var approachPoint := Point(target.position.x, target.position.y - offset);
      ComputeAngularError(currentPos, currentAngle, approachPoint, math)
  }

  /** Steering toward the approach point is steering toward `AimPoint`; far away that is the target itself. */
  lemma ArrivalErrorAimsAtAimPoint(currentPos: Point, currentAngle: real, target: Target, distanceToTarget: real, math: Math)
    ensures ComputeAngularErrorWithArrival(currentPos, currentAngle, target, distanceToTarget, math) ==
            ComputeAngularError(currentPos, currentAngle, AimPoint(target, distanceToTarget, math), math)
    ensures distanceToTarget > ApproachStart ==>
              ComputeAngularErrorWithArrival(currentPos, currentAngle, target, distanceToTarget, math) ==
              ComputeAngularError(currentPos, currentAngle, target.position, math)
  {
  }

  /** `clamp`: min below, max above, the value itself otherwise. */
  function Clamp(value: real, min: real, max: real): (r: real)
    ensures min <= max ==> min <= r <= max
    ensures min <= value <= max ==> r == value
    ensures r == value || r == min || r == max
  {
    if value < min then min
    else if value > max then max
    else value
  }

  /** Clamping to a non-empty interval is idempotent and lands on the nearest end when outside. */
  lemma ClampLaws(value: real, min: real, max: real)
    requires min <= max
    ensures Clamp(Clamp(value, min, max), min, max) == Clamp(value, min, max)
    ensures value < min ==> Clamp(value, min, max) == min
    ensures value > max ==> Clamp(value, min, max) == max
  {
  }

  /** The values the unit tests assert. */
  lemma DocumentedClamps()
    ensures Clamp(5.0, 0.0, 10.0) == 5.0 && Clamp(-5.0, 0.0, 10.0) == 0.0 && Clamp(15.0, 0.0, 10.0) == 10.0
  {
  }
}
