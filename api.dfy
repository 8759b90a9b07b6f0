/**
 * Request models of the HTTP interface (src/api/models.rs): the defaults a request falls back
 * on, and the validation of the requested vehicle type names.
 */
module Api {
  import opened Numeric
  import opened Vehicles

  datatype Result<T> = Ok(value: T) | Err(error: string)

  /** What a simulation request carries once its defaults are filled in. */
  datatype SimulationRequest = SimulationRequest(
    vehicleTypes: seq<string>,
    dt: real,
    maxTime: real,
    mapWidth: real,
    mapHeight: real,
    targetX: real,
    targetY: real)
  {
    /** `SimulationRequest::parse_vehicle_types`. */
    function ParseVehicleTypes(): Result<seq<VehicleType>>
    {
      ParseAll(vehicleTypes)
    }
  }

  /** What a benchmark request carries once its defaults are filled in. */
  datatype BenchmarkRequest = BenchmarkRequest(
    iterations: nat,
    vehicleTypes: seq<string>,
    threads: Option<nat>,
    dt: real,
    maxTime: real)
  {
    /** `BenchmarkRequest::parse_vehicle_types`, the same validation as for a simulation request. */
    function ParseVehicleTypes(): Result<seq<VehicleType>>
    {
      ParseAll(vehicleTypes)
    }
  }

  const DefaultDt: real := 0.05
  const DefaultMaxTime: real := 600.0
  const DefaultMapWidth: real := 1000.0
  const DefaultMapHeight: real := 800.0
  const DefaultTargetX: real := 500.0
  const DefaultTargetY: real := 700.0
  const DefaultIterations: nat := 30

  /** `default_vehicle_types`: all three selectable types, by their variant names. */
  function DefaultVehicleTypes(): seq<string>
  {
    ["Heavy", "Standard", "Agile"]
  }

  /** A simulation request with every field left out. */
  function DefaultSimulationRequest(): SimulationRequest
  {
    SimulationRequest(DefaultVehicleTypes(), DefaultDt, DefaultMaxTime, DefaultMapWidth, DefaultMapHeight,
                      DefaultTargetX, DefaultTargetY)
  }

  /** A benchmark request with every field left out; the thread count has no default. */
  function DefaultBenchmarkRequest(): BenchmarkRequest
  {
    BenchmarkRequest(DefaultIterations, DefaultVehicleTypes(), None, DefaultDt, DefaultMaxTime)
  }

  /** Lower-casing of one character: A to Z become a to z, everything else is kept. */
  function LowerChar(c: char): char
  {
    if 'A' <= c <= 'Z' then (c as int + 32) as char else c
  }

  function ToLower(s: string): string
  {
    seq(|s|, i requires 0 <= i < |s| => LowerChar(s[i]))
  }

  /** The variant name of each type, the spelling the error message lists. */
  function VariantName(t: VehicleType): string
  {
    match t
    case Heavy => "Heavy"
    case Standard => "Standard"
    case Agile => "Agile"
    case UltraAgile => "UltraAgile"
  }

  function UnknownTypeMessage(s: string): string
  {
    "Unknown vehicle type: " + s + ". Valid types: Heavy, Standard, Agile"
  }

  /** The match on the lower-cased name; the error quotes the name as it was given. */
  function ParseVehicleType(s: string): (r: Result<VehicleType>)
    ensures r.Ok? ==> r.value != UltraAgile && ToLower(s) == ToLower(VariantName(r.value))
    ensures r.Err? ==> r.error == UnknownTypeMessage(s)
    ensures r.Err? ==> forall t :: t != UltraAgile ==> ToLower(s) != ToLower(VariantName(t))
  {
    assert ToLower("Heavy") == "heavy" && ToLower("Standard") == "standard" && ToLower("Agile") == "agile";
    var lower := ToLower(s);
    if lower == "heavy" then Ok(Heavy)
    else if lower == "standard" then Ok(Standard)
    else if lower == "agile" then Ok(Agile)
    else Err(UnknownTypeMessage(s))
  }

  /** Collecting the parsed names: the first unknown name ends the parse with its error. */
  function ParseAll(names: seq<string>): Result<seq<VehicleType>>
  {
    if names == [] then Ok([])
    else match ParseVehicleType(names[0])
      case Err(e) => Err(e)
      case Ok(t) =>
        match ParseAll(names[1..])
        case Err(e) => Err(e)
        case Ok(ts) => Ok([t] + ts)
  }

  /** Name i is the first one the parser rejects. */
  predicate FirstUnknown(names: seq<string>, i: int)
  {
    && 0 <= i < |names|
    && ParseVehicleType(names[i]).Err?
    && forall j :: 0 <= j < i ==> ParseVehicleType(names[j]).Ok?
  }

  /**
   * The list parses exactly when every name does; the result then has one type per name, in
   * order, and otherwise the error is the message for the first name that does not parse.
   */
  lemma {:induction false} ParseAllSpec(names: seq<string>)
    ensures ParseAll(names).Ok? <==> forall i :: 0 <= i < |names| ==> ParseVehicleType(names[i]).Ok?
    ensures ParseAll(names).Ok? ==>
              && |ParseAll(names).value| == |names|
              && forall i :: 0 <= i < |names| ==> ParseAll(names).value[i] == ParseVehicleType(names[i]).value
    ensures ParseAll(names).Err? ==>
              exists i :: FirstUnknown(names, i) && ParseAll(names).error == UnknownTypeMessage(names[i])
  {
    if names != [] {
      var tail := names[1..];
      ParseAllSpec(tail);
      assert forall i :: 1 <= i < |names| ==> names[i] == tail[i - 1];
      if ParseVehicleType(names[0]).Err? {
        assert FirstUnknown(names, 0);
      } else if ParseAll(tail).Err? {
        var k :| FirstUnknown(tail, k) && ParseAll(tail).error == UnknownTypeMessage(tail[k]);
        assert FirstUnknown(names, k + 1);
      }
    }
  }

  /** No list of names ever selects the ultra-agile type. */
  lemma NeverUltraAgile(names: seq<string>)
    ensures ParseAll(names).Ok? ==> forall i :: 0 <= i < |ParseAll(names).value| ==> ParseAll(names).value[i] != UltraAgile
  {
    ParseAllSpec(names);
  }

  /** The three selectable types parse from their variant names; the ultra-agile variant name is rejected. */
  lemma VariantNamesParse(t: VehicleType)
    ensures t != UltraAgile ==> ParseVehicleType(VariantName(t)) == Ok(t)
    ensures ParseVehicleType(VariantName(UltraAgile)) == Err(UnknownTypeMessage("UltraAgile"))
  {
    assert ToLower("Heavy") == "heavy";
    assert ToLower("Standard") == "standard";
    assert ToLower("Agile") == "agile";
    assert ToLower("UltraAgile")[0] == 'u';
  }

  /** Case does not matter: a name and its lower-cased form parse to the same type. */
  lemma ParseIgnoresCase(s: string)
    ensures ParseVehicleType(s).Ok? <==> ParseVehicleType(ToLower(s)).Ok?
    ensures ParseVehicleType(s).Ok? ==> ParseVehicleType(s) == ParseVehicleType(ToLower(s))
  {
    assert ToLower(ToLower(s)) == ToLower(s);
  }

  /** A request that leaves the vehicle types out asks for Heavy, Standard and Agile, in that order. */
  lemma DefaultsParse()
    ensures DefaultSimulationRequest().ParseVehicleTypes() == Ok([Heavy, Standard, Agile])
    ensures DefaultBenchmarkRequest().ParseVehicleTypes() == Ok([Heavy, Standard, Agile])
  {
    VariantNamesParse(Heavy);
    VariantNamesParse(Standard);
    VariantNamesParse(Agile);
    var one, two, three := ["Agile"], ["Standard", "Agile"], DefaultVehicleTypes();
    assert ParseVehicleType(one[0]) == Ok(Agile) && one[1..] == [];
    assert ParseVehicleType(two[0]) == Ok(Standard) && two[1..] == one;
    assert ParseVehicleType(three[0]) == Ok(Heavy) && three[1..] == two;
    assert ParseAll(one).value == [Agile];
    assert ParseAll(two).value == [Standard, Agile];
    assert ParseAll(three).value == [Heavy, Standard, Agile];
  }
}
