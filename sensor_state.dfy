/**
 * The sensor-state record the handlers write into. The caller creates it once and
 * passes it by reference to every handler call; a field stays absent until a frame
 * of the kind that reports it has been decoded.
 */
module SensorState {
  import opened Wrappers

  /** The reporting mode of the sensor: 'active' or 'query'. */
  datatype Mode = Active | Query

  /** The value of every field of a `SensorState` at one moment. */
  datatype Snapshot = Snapshot(
    pm2p5: Option<real>,
    pm10: Option<real>,
    mode: Option<Mode>,
    isSleeping: Option<bool>,
    firmware: Option<string>,
    workingPeriod: Option<nat>)

  /** The state of a record nothing has been written to yet. */
  const UNSET: Snapshot := Snapshot(None, None, None, None, None, None)

  class SensorState {
    /** PM2.5 concentration in micrograms per cubic metre. */
    var pm2p5: Option<real>
    /** PM10 concentration in micrograms per cubic metre. */
    var pm10: Option<real>
    var mode: Option<Mode>
    var isSleeping: Option<bool>
    /** Firmware release date, `year-month-day`. */
    var firmware: Option<string>
    /** Minutes between measurements; 0 means continuous. */
    var workingPeriod: Option<nat>

    constructor ()
      ensures View() == UNSET
    {
      pm2p5, pm10 := None, None;
      mode, isSleeping := None, None;
      firmware, workingPeriod := None, None;
    }

    /** All six fields, as one value. */
    function View(): Snapshot
      reads this
    {
      Snapshot(pm2p5, pm10, mode, isSleeping, firmware, workingPeriod)
    }
  }
}
