/** Normalized readings and the stored rows they become. */
module Telemetry {
  import opened FieldArea
  import opened Outcomes

  datatype Feed =
    | GearboxTemperature
    | Vibration
    | WheelSlip
    | SoilMoisture
    | ForwardSpeed
    | DepthOfOperation
    | PtoShaftSpeed
    | FieldCapacity
    | Position
    | OtherFeed(key: nat)

  /** `id` is the data point's id at the broker, `hint` the session a reading names, if it names one, and
  `fix` what a position reading holds. */
  datatype Reading = Reading(id: nat, hint: Option<nat>, feed: Feed, value: Option<real>, fix: Option<Fix>)

  datatype Row = Row(reading: Reading, session: Option<nat>)

  /** The readings table: its unique index on the broker id makes it a map. */
  type Rows = map<nat, Row>
}
