/** SensiboAccessory: the per-device cache and the HomeKit handlers that read and change it. */
module Accessory {
  import opened Wrappers
  import opened Hap
  import opened SensiboApi
  import opened StateMapper

  class SensiboAccessory {
    var currentTemperature: real
    var targetTemperature: real
    var currentHeatingCoolingState: int
    var targetHeatingCoolingState: int
    var currentRelativeHumidity: real

    /** The cached values as one snapshot. */
    function State(): Snapshot
      reads this
    {
      Snapshot(currentTemperature, targetTemperature, currentHeatingCoolingState,
               targetHeatingCoolingState, currentRelativeHumidity)
    }

    ghost predicate Valid()
      reads this
    {
      ValidSnapshot(State())
    }

    /** A new accessory: both temperatures 20, humidity 50, both states OFF. */
    constructor ()
      ensures Valid()
      ensures State() == Initial()
    {
      currentTemperature := 20.0;
      targetTemperature := 20.0;
      currentHeatingCoolingState := Code(Off);
      targetHeatingCoolingState := Code(Off);
      currentRelativeHumidity := 50.0;
    }

    /**
     * One reconciliation pass over the two fetched rows. When both fetches answered,
     * every cached value is pushed to HomeKit; that push is returned as `pushed`.
     */
    method UpdateDeviceState(measurementFetch: Fetch<Measurement>, acStateFetch: Fetch<AcState>)
      returns (pushed: Option<Snapshot>)
      requires Valid()
      modifies this
      ensures Valid()
      ensures State() == Reconcile(old(State()), measurementFetch, acStateFetch)
      ensures pushed == if measurementFetch.Fetched? && acStateFetch.Fetched? then Some(State()) else None
    {
      if measurementFetch.FetchFailed? {
        return None;
      }
      var measurements := measurementFetch.row;
      if measurements.Some? {
        currentTemperature := OrDefault(measurements.value.temperature, DEFAULT_TEMPERATURE);
        currentRelativeHumidity := OrDefault(measurements.value.humidity, DEFAULT_HUMIDITY);
      }

      if acStateFetch.FetchFailed? {
        return None;
      }
      var acState := acStateFetch.row;
      if acState.Some? {
        targetTemperature := OrDefault(acState.value.targetTemperature, DEFAULT_TEMPERATURE);
        var pair := HeatingCoolingPair(acState.value.on, acState.value.mode, currentTemperature, targetTemperature);
        currentHeatingCoolingState := Code(pair.current);
        targetHeatingCoolingState := Code(pair.target);
      }
      pushed := Some(State());
    }

    /**
     * The TargetHeatingCoolingState set handler: sends the command for `value` and
     * caches `value` only when the send succeeded; `ok` is false when the error
     * went to the callback.
     */
    method SetTargetHeatingCoolingState(value: int, sendSucceeds: bool) returns (command: AcCommand, ok: bool)
      requires Valid()
      modifies this
      ensures Valid()
      ensures command == ModeCommand(value, old(targetTemperature))
      ensures ok == sendSucceeds
      ensures State() == AfterSetMode(old(State()), value, sendSucceeds)
    {
      command := ModeCommand(value, targetTemperature);
      if !sendSucceeds {
        return command, false;
      }
      targetHeatingCoolingState := value;
      ok := true;
    }

    /**
     * The TargetTemperature set handler: while the cached target mode is OFF it sends
     * nothing and caches `value`; otherwise it sends the bare temperature and caches
     * `value` only when the send succeeded.
     */
    method SetTargetTemperature(value: real, sendSucceeds: bool) returns (sent: Option<AcCommand>, ok: bool)
      requires Valid()
      modifies this
      ensures Valid()
      ensures sent == if TemperatureIsSent(old(State())) then Some(AcCommand(None, None, Some(value))) else None
      ensures ok == (sent.None? || sendSucceeds)
      ensures State() == AfterSetTemperature(old(State()), value, sendSucceeds)
    {
      sent := None;
      if targetHeatingCoolingState != Code(Off) {
        sent := Some(TemperatureCommand(value));
        if !sendSucceeds {
          return sent, false;
        }
      }
      targetTemperature := value;
      ok := true;
    }

    /** The current state HomeKit reads: never AUTO. */
    function GetCurrentHeatingCoolingState(): (r: int)
      reads this
      requires Valid()
      ensures FromCode(r).Some? && FromCode(r).value != Auto
    {
      currentHeatingCoolingState
    }

    /** The cached target state. */
    function GetTargetHeatingCoolingState(): int
      reads this
    {
      targetHeatingCoolingState
    }

    /** The current temperature HomeKit reads: never the falsy 0. */
    function GetCurrentTemperature(): (r: real)
      reads this
      requires Valid()
      ensures r != 0.0
    {
      currentTemperature
    }

    /** The cached target temperature. */
    function GetTargetTemperature(): real
      reads this
    {
      targetTemperature
    }

    /** The display unit is always Celsius. */
    function GetTemperatureDisplayUnits(): int
    {
      CELSIUS
    }

    /** The relative humidity HomeKit reads: never the falsy 0. */
    function GetCurrentRelativeHumidity(): (r: real)
      reads this
      requires Valid()
      ensures r != 0.0
    {
      currentRelativeHumidity
    }
  }
}
