/** Vehicles: their types, presets and the position update (src/vehicle/mod.rs). */
module Vehicles {
  import opened Numeric
  import opened Maps

  /** Size, turning rate (radians per second), top speed and top acceleration. */
  datatype VehicleCharacteristics = VehicleCharacteristics(
    size: real,
    maneuverability: real,
    maxVelocity: real,
    maxAcceleration: real)

  datatype VehicleState = VehicleState(position: Point, angle: real, velocity: real)

  datatype VehicleType = Heavy | Standard | Agile | UltraAgile

  /** `VehicleType::name`: the display name of each type. */
  function Name(vehicleType: VehicleType): (r: string)
    ensures |r| > 0
  {
    match vehicleType
    case Heavy => "Barco"
    case Standard => "Lancha"
    case Agile => "Avión"
    case UltraAgile => "Ultra-Agile"
  }

  /** Different types have different names, so a name identifies its type. */
  lemma NamesDistinct(t1: VehicleType, t2: VehicleType)
    ensures Name(t1) == Name(t2) <==> t1 == t2
  {
    if t1 != t2 {
      assert Name(t1)[0] != Name(t2)[0] || |Name(t1)| != |Name(t2)|;
    }
  }

  /** `create_vehicle_preset`: the characteristics table. */
  function Preset(vehicleType: VehicleType): (c: VehicleCharacteristics)
    ensures c.size > 0.0 && c.maneuverability > 0.0 && c.maxVelocity > 0.0 && c.maxAcceleration > 0.0
    ensures c.maneuverability <= Pi / 2.0
  {
    match vehicleType
    case Heavy => VehicleCharacteristics(15.0, Radians(20.0), 50.0, 10.0)
    case Standard => VehicleCharacteristics(10.0, Radians(35.0), 80.0, 20.0)
    case Agile => VehicleCharacteristics(6.0, Radians(60.0), 100.0, 30.0)
    case UltraAgile => VehicleCharacteristics(8.0, Radians(90.0), 70.0, 25.0)
  }

  /** The values the unit tests assert, and the turning rates in degrees. */
  lemma DocumentedPresets()
    ensures Preset(Heavy).size == 15.0 && Preset(Heavy).maxVelocity == 50.0
    ensures Preset(Agile).size == 6.0 && Preset(Agile).maxVelocity == 100.0
    ensures Degrees(Preset(Heavy).maneuverability) == 20.0
    ensures Degrees(Preset(Standard).maneuverability) == 35.0
    ensures Degrees(Preset(Agile).maneuverability) == 60.0
    ensures Degrees(Preset(UltraAgile).maneuverability) == 90.0
  {
  }

  /** A vehicle; its state and mission counters change in place during a simulation. */
  class Vehicle {
    const vehicleType: VehicleType
    const characteristics: VehicleCharacteristics
    var state: VehicleState
    var hasArrived: bool
    var distanceTraveled: real
    var timeElapsed: real

    /** `Vehicle::new`: at rest, not arrived, nothing travelled. */
    constructor (vehicleType: VehicleType, characteristics: VehicleCharacteristics, initialPosition: Point, initialAngle: real)
      ensures this.vehicleType == vehicleType && this.characteristics == characteristics
      ensures state == VehicleState(initialPosition, initialAngle, 0.0)
      ensures !hasArrived && distanceTraveled == 0.0 && timeElapsed == 0.0
    {
      this.vehicleType := vehicleType;
      this.characteristics := characteristics;
      state := VehicleState(initialPosition, initialAngle, 0.0);
      hasArrived := false;
      distanceTraveled := 0.0;
      timeElapsed := 0.0;
    }

    /**
     * `update_position`: move to the new point and add the length of the step to the distance
     * travelled; heading, speed, arrival flag and elapsed time stay as they were.
     */
    method UpdatePosition(newPosition: Point, math: Math)
      modifies this
      ensures state == old(state).(position := newPosition)
      ensures distanceTraveled == old(distanceTraveled) + EuclideanDistance(old(state.position), newPosition, math)
      ensures hasArrived == old(hasArrived) && timeElapsed == old(timeElapsed)
      ensures Lawful(math) ==> distanceTraveled >= old(distanceTraveled)
    {
      var distanceStep := EuclideanDistance(state.position, newPosition, math);
      distanceTraveled := distanceTraveled + distanceStep;
      state := state.(position := newPosition);
    }
  }
}
