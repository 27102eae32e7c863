/**
 * DroneState (client.py:18-33): the last telemetry the client has seen.
 * Each part holds whatever value the telemetry carried under its key, as the
 * source stores it without checking its shape.
 */
module Telemetry {
  import opened Json

  datatype DroneState = DroneState(
    position: Value,
    orientation: Value,
    velocity: Value,
    rotationRates: Value,
    timestamp: Value)

  /** The state of a new client (client.py:20-25): every reading zero. */
  const InitialState: DroneState := DroneState(
    Object(map["latitude" := Int(0), "longitude" := Int(0), "altitude" := Int(0)]),
    Object(map["roll" := Int(0), "pitch" := Int(0), "yaw" := Int(0)]),
    Object(map["vx" := Int(0), "vy" := Int(0), "vz" := Int(0)]),
    Object(map["rollRate" := Int(0), "pitchRate" := Int(0), "yawRate" := Int(0)]),
    Int(0))

  /** The four parts of the state that telemetry may replace. */
  datatype Part = Position | Orientation | Velocity | RotationRates

  /** The telemetry key each part is read from; note the camel-case
      `rotationRates` for the attribute `rotation_rates`. */
  function Key(part: Part): string {
    match part
    case Position => "position"
    case Orientation => "orientation"
    case Velocity => "velocity"
    case RotationRates => "rotationRates"
  }

  function Read(s: DroneState, part: Part): Value {
    match part
    case Position => s.position
    case Orientation => s.orientation
    case Velocity => s.velocity
    case RotationRates => s.rotationRates
  }

  /** The keys `Update` looks at. */
  const TelemetryKeys: set<string> := {"position", "orientation", "velocity", "rotationRates", "timestamp"}

  /** DroneState.update (client.py:27-33). A part is replaced exactly when its
      key is present and kept otherwise; the timestamp comes from the telemetry
      when present, else from the clock `nowMs` (milliseconds). */
  function Update(s: DroneState, telemetry: map<string, Value>, nowMs: int): (r: DroneState)
    ensures forall part: Part :: Read(r, part) == if Key(part) in telemetry then telemetry[Key(part)] else Read(s, part)
    ensures "timestamp" in telemetry ==> r.timestamp == telemetry["timestamp"]
    ensures "timestamp" !in telemetry ==> r.timestamp == Int(nowMs)
  {
    DroneState(
      Get(telemetry, "position", s.position),
      Get(telemetry, "orientation", s.orientation),
      Get(telemetry, "velocity", s.velocity),
      Get(telemetry, "rotationRates", s.rotationRates),
      Get(telemetry, "timestamp", Int(nowMs)))
  }
}
