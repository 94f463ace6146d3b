# homebridge-sensibo: the per-device state cache, modelled in Dafny

This project models the core of the homebridge-sensibo plugin (`index.js`). That core is the
state cache a `SensiboAccessory` keeps for one Sensibo air-conditioning unit. The cache holds
five values: current temperature, target temperature, current and target heating/cooling
state, and relative humidity. Three things change it:

- **Reconciliation pass** (`updateDeviceState`). It reads the latest measurement row and the
  latest `acState` and turns them into HomeKit thermostat values. In `auto` mode the current
  state comes from a ±1 °C deadband.
- **Mode command** (`setTargetHeatingCoolingState`). It turns a HomeKit target mode into a
  Sensibo command. The cache changes only when the send succeeds.
- **Temperature command** (`setTargetTemperature`). It sends a temperature only while the
  cached target mode is not OFF. The cache changes unless a send was made and failed.

The smaller second part is the discovery rule of `SensiboPlatform`. Cached accessories are
collected by `configureAccessory`. `discoverDevices` reuses a cached accessory whose UUID
matches a device and registers a new one otherwise.

Layout:

- `wrappers.dfy`: `Option`.
- `hap.dfy`: the HomeKit heating/cooling enumeration. Its codes are OFF=0, HEAT=1, COOL=2,
  AUTO=3, CELSIUS=0.
- `sensibo_api.dfy`: the Sensibo records. A measurement, an `acState` and a posted command are
  JavaScript objects whose keys may be absent. A `Fetch` is either a GET that threw or a GET
  that answered with an optional row.
- `state_mapper.dfy`: the pure mapping.
  - Falsy-reading defaults, the mode table, the deadband and the two command builders.
  - The cache as a `Snapshot` value, with its invariant `ValidSnapshot`.
  - As functions on the snapshot: one reconciliation pass (`Reconcile`) and the cache after
    each set handler (`AfterSetMode`, `AfterSetTemperature`).
- `state_properties.dfy`: lemmas about those functions.
- `accessory.dfy`: class `SensiboAccessory`. It has the five mutable fields and the handlers as
  methods. Each method's postcondition ties the new state to the matching function in
  `StateMapper`. The getters are functions that read the fields. `GetTargetHeatingCoolingState`
  and `GetTargetTemperature` return the cached field unchanged, and `GetTemperatureDisplayUnits`
  always returns CELSIUS. They promise nothing else, so they have no table row.
- `platform.dfy`: class `SensiboPlatform`. It has the accessory list, `ConfigureAccessory`,
  `FindAccessory` (the `find` scan) and `DiscoverDevices` (the loop over the listed devices).

How the model treats the outside world:

- Network calls are inputs. Each GET is a `Fetch` value. Each POST is a `sendSucceeds` flag.
  When the measurement GET fails, the `acState` GET is never made, so that argument is ignored.
- The values pushed to HomeKit by `updateCharacteristic` are returned as
  `UpdateDeviceState`'s `pushed` result. It holds the whole cache when both GETs answered, and
  nothing otherwise.
- `uuid.generate` is a function parameter of `DiscoverDevices`.
- The two heating/cooling fields keep the raw HomeKit number, because that is what the code
  stores. `setTargetHeatingCoolingState` caches its `value` unchanged after a successful send,
  even a value outside 0..3. For such a value the command it sends is the empty `{}`.
- The JavaScript fallback `reading || default` is modelled as: a reading that is absent or
  exactly 0 becomes the default.

What `index.js` does not do, and so the model does not do either:

- It clamps no temperature or humidity. A requested target temperature is sent and cached as
  given.
- It has no noise threshold. Every pass pushes every value.
- It has no overlap guard between passes.
- It has no fleet scheduler and no delay between devices. Each accessory polls on its own
  30 s timer.
- Its temperature command carries only `targetTemperature`, and it is not sent while the
  cached target mode is OFF.

## Model

| member | source | states |
|---|---|---|
| `Hap.FromCode` | test.js:73-74 | A number decodes to a heating/cooling state exactly when it is 0..3, and the state's code is that number |
| `Hap.FromCodeOfCode` | test.js:73-74 | Decoding a state's code gives the state back, so the four codes are distinct |
| `StateMapper.OrDefault` | index.js:177-178 | The falsy-reading fallback yields either the fallback or the reading; with a non-zero fallback the result is never 0 |
| `StateMapper.AutoCurrentState` | index.js:206-213 | The deadband never yields AUTO as a current state |
| `StateMapper.HeatingCoolingPair` | index.js:194-222 | Current is never AUTO; target is AUTO exactly when the unit is on in mode `auto`; target OFF forces current OFF; target HEAT or COOL is mirrored in current |
| `StateMapper.ModeCommand` | index.js:267-288 | `on:false` exactly for OFF; `on:true` with a mode and the cached target temperature exactly for HEAT, COOL and AUTO; the empty command exactly for any other value |
| `StateMapper.Reconcile` | index.js:167-234 | A reconciliation pass preserves the cache invariant (current state never AUTO; temperature and humidity never 0) |
| `StateProperties.InitialIsValid` | index.js:110-115 | A fresh cache is 20 °C current and target, 50 % humidity, both states OFF, and satisfies the invariant |
| `StateProperties.PowerOffOverridesMode` | index.js:219-222 | A powered-off `acState` gives (OFF, OFF) whatever its mode |
| `StateProperties.PowerOnModeTable` | index.js:194-218 | With power on, `cool` gives (COOL, COOL), `heat` gives (HEAT, HEAT), and any mode other than cool/heat/auto gives (OFF, OFF) |
| `StateProperties.AutoDeadband` | index.js:204-214 | In `auto` the target is AUTO; current is HEAT iff current < target − 1, COOL iff current > target + 1, OFF iff within ±1 inclusive |
| `StateProperties.MeasurementFailureKeepsCache` | index.js:168-173 | If the measurement GET throws, no cached value changes |
| `StateProperties.AcStateFailureKeepsControlFields` | index.js:175-192 | If the `acState` GET throws after a good measurement GET, the new temperature and humidity stay and the target temperature and both states keep their old values |
| `StateProperties.MeasurementDefaults` | index.js:175-179 | A row sets temperature and humidity, with a missing or zero reading becoming 20 or 50; with no row both keep their cached values |
| `StateProperties.AcStateDefaults` | index.js:190-193 | An `acState` sets the target temperature, with a missing or zero value becoming 20; with no `acState` the target temperature and both states keep their cached values |
| `StateProperties.AutoUsesThisPassTemperatures` | index.js:192-213 | The deadband compares this pass's target temperature with this pass's current temperature, or with the cached one when no row arrived |
| `StateProperties.ReconciledStatesAreDecodable` | index.js:190-223 | After a pass that read an `acState`, both cached states are valid codes, the current one is not AUTO, and the cached current and target states are the table's pair for that `acState` and this pass's temperatures |
| `StateProperties.ReconcileIsIdempotent` | index.js:167-223 | Reconciling twice with the same remote data leaves the same cache as reconciling once |
| `StateProperties.ModeCommandTable` | index.js:267-288 | OFF → `{on:false}`; HEAT/COOL/AUTO → `{on:true, mode:'heat'/'cool'/'auto', targetTemperature}` |
| `StateProperties.ModeCommandRoundTrip` | index.js:265-291 | An `acState` carrying what the command for a state sets reconciles back to that target state |
| `StateProperties.SetModeOnlyOnSuccess` | index.js:290-295 | A failed send leaves the whole cache unchanged; a successful one changes only the target state, to the requested value |
| `StateProperties.SetTemperatureCases` | index.js:306-322 | With target mode OFF nothing is sent and the value is cached; otherwise the value is cached only if the send succeeded, and a failure leaves the cache unchanged |
| `Accessory.SensiboAccessory.constructor` | index.js:110-115 | A new accessory starts from 20/20/OFF/OFF/50 |
| `Accessory.SensiboAccessory.UpdateDeviceState` | index.js:167-235 | The fields become `Reconcile` of the old fields; the invariant is kept; all five values are pushed exactly when both GETs answered |
| `Accessory.SensiboAccessory.SetTargetHeatingCoolingState` | index.js:265-296 | Sends `ModeCommand` of the requested value and the cached target temperature; caches the value only after a successful send; reports the error otherwise |
| `Accessory.SensiboAccessory.SetTargetTemperature` | index.js:306-322 | Sends `{targetTemperature: value}` and nothing else, only while the target mode is not OFF; caches it unless that send failed; reports the error otherwise |
| `Accessory.SensiboAccessory.GetCurrentHeatingCoolingState` | index.js:257-259 | The current state HomeKit reads is OFF, HEAT or COOL, never AUTO |
| `Accessory.SensiboAccessory.GetCurrentTemperature` | index.js:298-300 | The current temperature HomeKit reads is never 0 |
| `Accessory.SensiboAccessory.GetCurrentRelativeHumidity` | index.js:328-330 | The humidity HomeKit reads is never 0 |
| `Platform.Find` | index.js:64 | Finds an accessory exactly when one has the UUID, and then the first such accessory |
| `Platform.SensiboPlatform.constructor` | index.js:16-33 | Starts with no accessories; discovery is hooked to launch only with a non-empty API key and an API object |
| `Platform.SensiboPlatform.ConfigureAccessory` | index.js:85-89 | Appends the restored accessory and changes nothing else |
| `Platform.SensiboPlatform.FindAccessory` | index.js:64 | The scan returns the first cached accessory with the UUID, or nothing |
| `Platform.SensiboPlatform.DiscoverDevices` | index.js:40-83 | One decision per listed device, in order, each by the UUID rule; nothing when the listing fails; the cached list is untouched |
| `Platform.RegisteredIffNoMatch` | index.js:61-77 | A device is registered anew exactly when no cached accessory has its UUID; otherwise a cached accessory with that UUID is reused |
| `Platform.FindAfterConfigure` | index.js:61-89 | Appending an accessory never changes the match for a UUID that already matched, and makes the new one the match otherwise if its UUID is equal |
| `Platform.ConfiguredAccessoryIsRestored` | index.js:61-89 | After an accessory is configured, a device with its UUID is restored, not registered |

## Left out

- HTTP transport: the axios requests, URLs, query parameters and headers, and dotenv. Each GET
  is a `Fetch` input and each POST a success flag.
- Homebridge/HAP wiring: plugin registration, `setupServices`, the AccessoryInformation
  characteristics, `setProps` and `registerPlatformAccessories`. These are calls into the host
  framework. The `Registered` outcome names the accessory that gets registered.
- The `SensiboAccessory` that discovery builds for each device is not modelled. Neither is the
  first `updateDeviceState` call its constructor starts. A caller of the model builds the
  accessory and then calls `UpdateDeviceState`.
- The 30 s `setInterval` polling and the async scheduling. A pass and a command may interleave
  at their awaits. The model runs each handler to completion.
- `didFinishLaunching` and logging. The constructor records only whether discovery was hooked.
- Readings that are not numbers: strings, `NaN`, or a truthy non-boolean `on`. Temperatures are
  `real`. `NaN` is falsy in JavaScript and would also be replaced by the default.
- The fallback `device || accessory.context.device`. Discovery always passes the device.
- A `forEach` iteration that throws part-way through discovery, for example on a device without
  a `room`. The model assumes every listed device has an id and a room name.
- Floating-point rounding. The logic only compares temperatures and adds or subtracts 1.
- The manual scripts `test.js`, `test-homekit.js`, `validate-plugin.js`, `test-polling.js` and
  `setup.js`. They do live I/O and print to the console.
