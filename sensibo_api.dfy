/** The records exchanged with the Sensibo cloud API, as the accessory reads and writes them. */
module SensiboApi {
  import opened Wrappers

  /** One row of /pods/{id}/measurements; a reading may be missing. */
  datatype Measurement = Measurement(temperature: Option<real>, humidity: Option<real>)

  /** The `acState` of the latest row of /pods/{id}/acStates. */
  datatype AcState = AcState(on: bool, mode: Option<string>, targetTemperature: Option<real>)

  /** The body posted to /pods/{id}/acStates: a JavaScript object whose keys may be absent. */
  datatype AcCommand = AcCommand(on: Option<bool>, mode: Option<string>, targetTemperature: Option<real>)

  /** The empty command `{}`. */
  const EMPTY_COMMAND: AcCommand := AcCommand(None, None, None)

  /**
   * The outcome of one GET: the request threw, or it answered with a result
   * array whose first row (or that row's `acState`) may be absent.
   */
  datatype Fetch<T> = FetchFailed | Fetched(row: Option<T>)
}
