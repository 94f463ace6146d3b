/** What a reconciliation pass and the two set handlers promise about the cache. */
module StateProperties {
  import opened Wrappers
  import opened Hap
  import opened SensiboApi
  import opened StateMapper

  /** A fresh accessory satisfies the cache invariant and shows OFF for both states. */
  lemma InitialIsValid()
    ensures ValidSnapshot(Initial())
    ensures Initial().currentTemperature == 20.0 && Initial().targetTemperature == 20.0
    ensures Initial().currentRelativeHumidity == 50.0
    ensures FromCode(Initial().currentHeatingCoolingState) == Some(Off)
    ensures FromCode(Initial().targetHeatingCoolingState) == Some(Off)
  {
  }

  /** A power-off acState reconciles to (OFF, OFF) whatever the mode. */
  lemma PowerOffOverridesMode(mode: Option<string>, currentTemperature: real, targetTemperature: real)
    ensures HeatingCoolingPair(false, mode, currentTemperature, targetTemperature) == StatePair(Off, Off)
  {
  }

  /** `cool` and `heat` are mirrored into both states; any mode other than cool/heat/auto gives (OFF, OFF). */
  lemma PowerOnModeTable(mode: Option<string>, currentTemperature: real, targetTemperature: real)
    ensures mode == Some("cool") ==> HeatingCoolingPair(true, mode, currentTemperature, targetTemperature) == StatePair(Cool, Cool)
    ensures mode == Some("heat") ==> HeatingCoolingPair(true, mode, currentTemperature, targetTemperature) == StatePair(Heat, Heat)
    ensures mode != Some("cool") && mode != Some("heat") && mode != Some("auto") ==>
      HeatingCoolingPair(true, mode, currentTemperature, targetTemperature) == StatePair(Off, Off)
  {
  }

  /** In `auto`, the current state is HEAT below target − 1, COOL above target + 1, OFF in between (bounds included). */
  lemma AutoDeadband(currentTemperature: real, targetTemperature: real)
    ensures HeatingCoolingPair(true, Some("auto"), currentTemperature, targetTemperature).target == Auto
    ensures HeatingCoolingPair(true, Some("auto"), currentTemperature, targetTemperature).current == Heat
      <==> currentTemperature < targetTemperature - 1.0
    ensures HeatingCoolingPair(true, Some("auto"), currentTemperature, targetTemperature).current == Cool
      <==> currentTemperature > targetTemperature + 1.0
    ensures HeatingCoolingPair(true, Some("auto"), currentTemperature, targetTemperature).current == Off
      <==> targetTemperature - 1.0 <= currentTemperature <= targetTemperature + 1.0
  {
  }

  /** A failed measurement fetch changes nothing. */
  lemma MeasurementFailureKeepsCache(s: Snapshot, acState: Fetch<AcState>)
    ensures Reconcile(s, FetchFailed, acState) == s
  {
  }

  /**
   * A failed acState fetch after a successful measurement fetch keeps the new
   * temperature and humidity and leaves the target temperature and both states alone.
   */
  lemma AcStateFailureKeepsControlFields(s: Snapshot, m: Option<Measurement>)
    ensures var r := Reconcile(s, Fetched(m), FetchFailed);
      && r.targetTemperature == s.targetTemperature
      && r.currentHeatingCoolingState == s.currentHeatingCoolingState
      && r.targetHeatingCoolingState == s.targetHeatingCoolingState
      && r == ApplyMeasurement(s, m)
  {
  }

  /**
   * A measurement row sets temperature and humidity, a missing or zero reading
   * falling back to 20 and 50; without a row both keep their cached values.
   */
  lemma MeasurementDefaults(s: Snapshot, m: Option<Measurement>, acState: Fetch<AcState>)
    ensures var r := Reconcile(s, Fetched(m), acState);
      && (m.None? ==> r.currentTemperature == s.currentTemperature && r.currentRelativeHumidity == s.currentRelativeHumidity)
      && (m.Some? && (m.value.temperature.None? || m.value.temperature == Some(0.0)) ==> r.currentTemperature == 20.0)
      && (m.Some? && m.value.temperature.Some? && m.value.temperature.value != 0.0 ==> r.currentTemperature == m.value.temperature.value)
      && (m.Some? && (m.value.humidity.None? || m.value.humidity == Some(0.0)) ==> r.currentRelativeHumidity == 50.0)
      && (m.Some? && m.value.humidity.Some? && m.value.humidity.value != 0.0 ==> r.currentRelativeHumidity == m.value.humidity.value)
  {
  }

  /**
   * An acState sets the target temperature (20 when missing or zero); without
   * an acState the target temperature and both states keep their cached values.
   */
  lemma AcStateDefaults(s: Snapshot, m: Option<Measurement>, a: Option<AcState>)
    ensures var r := Reconcile(s, Fetched(m), Fetched(a));
      && (a.None? ==> r.targetTemperature == s.targetTemperature
                      && r.currentHeatingCoolingState == s.currentHeatingCoolingState
                      && r.targetHeatingCoolingState == s.targetHeatingCoolingState)
      && (a.Some? && (a.value.targetTemperature.None? || a.value.targetTemperature == Some(0.0)) ==> r.targetTemperature == 20.0)
      && (a.Some? && a.value.targetTemperature.Some? && a.value.targetTemperature.value != 0.0 ==>
            r.targetTemperature == a.value.targetTemperature.value)
  {
  }

  /**
   * In `auto` the deadband compares the target temperature assigned in the same
   * pass with the current temperature assigned in the same pass, or with the
   * cached one when no measurement row arrived.
   */
  lemma AutoUsesThisPassTemperatures(s: Snapshot, m: Option<Measurement>, a: AcState)
    requires a.on && a.mode == Some("auto")
    ensures var r := Reconcile(s, Fetched(m), Fetched(Some(a)));
      var current := if m.Some? then OrDefault(m.value.temperature, 20.0) else s.currentTemperature;
      && r.targetHeatingCoolingState == Code(Auto)
      && r.currentHeatingCoolingState == Code(AutoCurrentState(current, OrDefault(a.targetTemperature, 20.0)))
  {
  }

  /** After any pass that read an acState, the cached states are a pair from the mapping table. */
  lemma ReconciledStatesAreDecodable(s: Snapshot, m: Option<Measurement>, a: AcState)
    ensures var r := Reconcile(s, Fetched(m), Fetched(Some(a)));
      && FromCode(r.targetHeatingCoolingState).Some?
      && FromCode(r.currentHeatingCoolingState).Some?
      && FromCode(r.currentHeatingCoolingState).value != Auto
      && r.currentHeatingCoolingState ==
           Code(HeatingCoolingPair(a.on, a.mode, r.currentTemperature, r.targetTemperature).current)
      && FromCode(r.targetHeatingCoolingState).value ==
           HeatingCoolingPair(a.on, a.mode, r.currentTemperature, r.targetTemperature).target
  {
  }

  /** Reconciling twice with the same remote data gives the same cache as reconciling once. */
  lemma ReconcileIsIdempotent(s: Snapshot, m: Fetch<Measurement>, a: Fetch<AcState>)
    ensures Reconcile(Reconcile(s, m, a), m, a) == Reconcile(s, m, a)
  {
  }

  /** The mode command table: OFF turns the unit off; HEAT, COOL and AUTO turn it on with the cached target. */
  lemma ModeCommandTable(t: real)
    ensures ModeCommand(Code(Off), t) == AcCommand(Some(false), None, None)
    ensures ModeCommand(Code(Heat), t) == AcCommand(Some(true), Some("heat"), Some(t))
    ensures ModeCommand(Code(Cool), t) == AcCommand(Some(true), Some("cool"), Some(t))
    ensures ModeCommand(Code(Auto), t) == AcCommand(Some(true), Some("auto"), Some(t))
  {
  }

  /**
   * The mode command and the reconciliation table agree: an acState that carries
   * what the command for a state sets reconciles back to that target state.
   */
  lemma ModeCommandRoundTrip(s: HeatingCoolingState, t: real, currentTemperature: real)
    ensures var cmd := ModeCommand(Code(s), t);
      && cmd.on.Some?
      && HeatingCoolingPair(cmd.on.value, cmd.mode, currentTemperature, t).target == s
  {
  }

  /** A failed mode send leaves the whole cache unchanged; a successful one changes only the target state. */
  lemma SetModeOnlyOnSuccess(s: Snapshot, value: int, sendSucceeded: bool)
    ensures !sendSucceeded ==> AfterSetMode(s, value, sendSucceeded) == s
    ensures sendSucceeded ==> AfterSetMode(s, value, sendSucceeded) == s.(targetHeatingCoolingState := value)
    ensures ValidSnapshot(s) ==> ValidSnapshot(AfterSetMode(s, value, sendSucceeded))
  {
  }

  /**
   * The temperature handler: while the target mode is OFF nothing is sent and the
   * value is cached; otherwise the value is cached only if the send succeeded.
   */
  lemma SetTemperatureCases(s: Snapshot, value: real, sendSucceeded: bool)
    ensures FromCode(s.targetHeatingCoolingState) == Some(Off) ==> !TemperatureIsSent(s)
    ensures !TemperatureIsSent(s) ==> AfterSetTemperature(s, value, sendSucceeded) == s.(targetTemperature := value)
    ensures TemperatureIsSent(s) && sendSucceeded ==> AfterSetTemperature(s, value, sendSucceeded) == s.(targetTemperature := value)
    ensures TemperatureIsSent(s) && !sendSucceeded ==> AfterSetTemperature(s, value, sendSucceeded) == s
    ensures ValidSnapshot(s) ==> ValidSnapshot(AfterSetTemperature(s, value, sendSucceeded))
  {
  }
}
