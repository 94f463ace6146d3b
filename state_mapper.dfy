/**
 * The pure part of SensiboAccessory: how a fetched measurement and acState become
 * HomeKit characteristic values, how a HomeKit target mode becomes a Sensibo command,
 * and, as functions on the cached snapshot, what a reconciliation pass and the two
 * set handlers do to the cache.
 */
module StateMapper {
  import opened Wrappers
  import opened Hap
  import opened SensiboApi

  const DEFAULT_TEMPERATURE: real := 20.0
  const DEFAULT_HUMIDITY: real := 50.0

  /** The five values the accessory caches, with the two states as HomeKit codes. */
  datatype Snapshot = Snapshot(
    currentTemperature: real,
    targetTemperature: real,
    currentHeatingCoolingState: int,
    targetHeatingCoolingState: int,
    currentRelativeHumidity: real)

  /** The values a fresh accessory starts from. */
  function Initial(): Snapshot
  {
    Snapshot(DEFAULT_TEMPERATURE, DEFAULT_TEMPERATURE, Code(Off), Code(Off), DEFAULT_HUMIDITY)
  }

  /**
   * What every reachable cache satisfies: the current state is OFF, HEAT or COOL,
   * and the current temperature and humidity are never the falsy 0.
   */
  predicate ValidSnapshot(s: Snapshot)
  {
    && FromCode(s.currentHeatingCoolingState).Some?
    && FromCode(s.currentHeatingCoolingState).value != Auto
    && s.currentTemperature != 0.0
    && s.currentRelativeHumidity != 0.0
  }

  /** JavaScript `reading || fallback` on a number: a missing or zero reading is replaced. */
  function OrDefault(reading: Option<real>, fallback: real): (r: real)
    ensures r == fallback || (reading.Some? && r == reading.value)
    ensures fallback != 0.0 ==> r != 0.0
  {
    if reading.Some? && reading.value != 0.0 then reading.value else fallback
  }

  /** A (current, target) pair of heating/cooling states. */
  datatype StatePair = StatePair(current: HeatingCoolingState, target: HeatingCoolingState)

  /** The current state in `auto` mode: a ±1 °C deadband around the target temperature. */
  function AutoCurrentState(currentTemperature: real, targetTemperature: real): (r: HeatingCoolingState)
    ensures r != Auto
  {
    if currentTemperature < targetTemperature - 1.0 then Heat
    else if currentTemperature > targetTemperature + 1.0 then Cool
    else Off
  }

  /** The heating/cooling pair an acState reconciles to. */
  function HeatingCoolingPair(on: bool, mode: Option<string>, currentTemperature: real, targetTemperature: real): (r: StatePair)
    ensures r.current != Auto
    ensures r.target == Auto <==> on && mode == Some("auto")
    ensures r.target == Off ==> r.current == Off
    ensures r.target == Heat || r.target == Cool ==> r.current == r.target
  {
    if !on then StatePair(Off, Off)
    else if mode == Some("cool") then StatePair(Cool, Cool)
    else if mode == Some("heat") then StatePair(Heat, Heat)
    else if mode == Some("auto") then StatePair(AutoCurrentState(currentTemperature, targetTemperature), Auto)
    else StatePair(Off, Off)
  }

  /** The command sent for a requested target-state code, carrying the cached target temperature. */
  function ModeCommand(value: int, targetTemperature: real): (cmd: AcCommand)
    ensures cmd.on == Some(false) <==> value == Code(Off)
    ensures cmd.on == Some(true) <==> FromCode(value).Some? && value != Code(Off)
    ensures cmd.mode.Some? <==> cmd.on == Some(true)
    ensures cmd.targetTemperature.Some? <==> cmd.on == Some(true)
    ensures cmd.targetTemperature.Some? ==> cmd.targetTemperature.value == targetTemperature
    ensures cmd == EMPTY_COMMAND <==> FromCode(value).None?
  {
    match FromCode(value)
    case None => EMPTY_COMMAND
    case Some(Off) => AcCommand(Some(false), None, None)
    case Some(Heat) => AcCommand(Some(true), Some("heat"), Some(targetTemperature))
    case Some(Cool) => AcCommand(Some(true), Some("cool"), Some(targetTemperature))
    case Some(Auto) => AcCommand(Some(true), Some("auto"), Some(targetTemperature))
  }

  /** The command sent by the target-temperature handler: the temperature and nothing else. */
  function TemperatureCommand(value: real): AcCommand
  {
    AcCommand(None, None, Some(value))
  }

  /** The effect of a measurement row on the cache: temperature and humidity with defaults. */
  function ApplyMeasurement(s: Snapshot, row: Option<Measurement>): Snapshot
  {
    match row
    case None => s
    case Some(m) =>
      s.(currentTemperature := OrDefault(m.temperature, DEFAULT_TEMPERATURE),
         currentRelativeHumidity := OrDefault(m.humidity, DEFAULT_HUMIDITY))
  }

  /** The effect of an acState on the cache: target temperature, then the state pair. */
  function ApplyAcState(s: Snapshot, row: Option<AcState>): Snapshot
  {
    match row
    case None => s
    case Some(a) =>
      var target := OrDefault(a.targetTemperature, DEFAULT_TEMPERATURE);
      var pair := HeatingCoolingPair(a.on, a.mode, s.currentTemperature, target);
      s.(targetTemperature := target,
         currentHeatingCoolingState := Code(pair.current),
         targetHeatingCoolingState := Code(pair.target))
  }

  /**
   * One reconciliation pass. The acState is fetched only after the measurement
   * fetch succeeded; a failed fetch ends the pass with what was assigned so far.
   */
  function Reconcile(s: Snapshot, measurement: Fetch<Measurement>, acState: Fetch<AcState>): (r: Snapshot)
    ensures ValidSnapshot(s) ==> ValidSnapshot(r)
  {
    match measurement
    case FetchFailed => s
    case Fetched(m) =>
      var afterMeasurement := ApplyMeasurement(s, m);
      match acState
      case FetchFailed => afterMeasurement
      case Fetched(a) => ApplyAcState(afterMeasurement, a)
  }

  /** The cache after the mode handler: the requested code is cached only if the send succeeded. */
  function AfterSetMode(s: Snapshot, value: int, sendSucceeded: bool): Snapshot
  {
    if sendSucceeded then s.(targetHeatingCoolingState := value) else s
  }

  /** Whether the temperature handler sends a command: only while the cached target mode is not OFF. */
  predicate TemperatureIsSent(s: Snapshot)
  {
    s.targetHeatingCoolingState != Code(Off)
  }

  /** The cache after the temperature handler: updated unless a send was attempted and failed. */
  function AfterSetTemperature(s: Snapshot, value: real, sendSucceeded: bool): Snapshot
  {
    if !TemperatureIsSent(s) || sendSucceeded then s.(targetTemperature := value) else s
  }
}
