# Greenhouse dashboard — a Dafny model

This project models the logic of a React dashboard for an Arduino-driven greenhouse. The dashboard:

- polls the device for a JSON snapshot of sensor readings, actuator states and setpoints;
- lets the operator switch two actuators and change the temperature and humidity setpoints;
- shows a connection badge;
- offers a panel to edit the device's IP, port and timeout.

Every HTTP request, the clock and `window.confirm` are inputs to the model. A request's outcome is a `Result`, or a success flag where the code only looks at success.

Modules, one per source file, plus two helpers:

- `Wrappers` holds `Option` and `Result`.
- `Decimal` holds the JavaScript conversions the code relies on: `String(n)` for integers, `parseInt` in radix 10, and the `Number(s)` coercion of a form field's text.
- `Api` models `src/services/api.js`:
  - configuration defaulting from the environment;
  - the base URL, with its round trip back to host and port;
  - the command and setpoint paths;
  - the ordered classification of a failed state fetch;
  - the shape of a connection test.
- `StatusIndicator` models `src/components/StatusIndicator.js`:
  - the error > connected > disconnected precedence of the badge's text, colour and icon;
  - the s/m/h bucketing of the time since the last update, which reads back to its count.
- `SetpointControl` models `src/components/SetpointControl.js`. It has the clamp, and a class for the control's local value. Each handler returns what it reports to the parent.
- `ConnectionConfig` models `src/components/ConnectionConfig.js`:
  - The IPv4 validator is a split at the dots with a per-group test. It is proved equal both to the language of the source's anchored pattern and to "four groups of one to three digits worth at most 255".
  - The port and timeout range checks.
  - A `ConnectionForm` class holds the form's fields and flags. It has the two effects and the handlers.
- `Dashboard` models `src/App.js`:
  - the sensor classifier;
  - an `App` class with the snapshot map, the loading-flag map and the connection status;
  - poll, toggle and setpoint events.

Each awaited handler is split at its `await`s. A `Begin…` method runs up to the first `await` and returns the request to send. A `Complete…` method takes the request's outcome. handleSubmit awaits twice, so `ContinueSubmit` sits between its two steps. Any value the handler's closure captured before the `await` travels in an "op" value from the first step to the second: the actuator's state read at click time, the form fields at submit time, or the connection info at reset time.

The code has no reconciliation between optimistic writes and polls:

- A successful poll replaces the whole snapshot.
- A toggle writes the negation of the value it read before the request.
- Scenario methods in `Dashboard` show the consequences:
  - a stale poll erases an optimistic toggle;
  - two quick clicks both send ON;
  - the loading flag a toggle raises is not the one its card shows;
  - a snapshot without the temperature (or humidity) setpoint turns every temperature (or humidity) reading into a success.

## Model

| member | source | states |
|---|---|---|
| Decimal.NatToString | src/services/api.js:111 | the decimal text of n has only digits, reads back as n, and has no leading zero |
| Decimal.IntToString | src/services/api.js:111 | the text starts with '-' exactly for negative numbers, and the rest is the decimal text of the absolute value: only digits, worth the absolute value, with no leading zero |
| Decimal.ParseInt | src/services/api.js:6 | a run of digits parses to its value; the result is NaN exactly when no digit follows the leading space and sign |
| Decimal.ParseIntOfDigitRun | src/services/api.js:6 | parseInt reads the leading run of digits and ignores what follows: "5000ms" gives 5000, and a leading '-' negates it, so "-12" gives -12 |
| Decimal.ParseIntOfNegated | src/services/api.js:6 | a '-' in front of a text that starts with a digit negates what parseInt reads |
| Decimal.ToNumber | src/components/ConnectionConfig.js:125-126 | a field's text is a number exactly when it is all digits; the empty text is 0, and a non-empty one agrees with parseInt |
| Decimal.ParseIntOfIntToString | src/components/ConnectionConfig.js:63 | parseInt reads back every integer String writes, for integers written in plain decimal notation |
| Decimal.IntToStringInjective | src/services/api.js:109-129 | distinct integers have distinct decimal texts |
| Api.ConfigFromEnv | src/services/api.js:4-6 | an unset or empty IP or port falls back to 192.168.2.14 or 80; a timeout that is unset, NaN or 0 falls back to 10000, and otherwise is the parsed value |
| Api.TimeoutFromDigits | src/services/api.js:6 | a plain decimal timeout is taken as written unless it is 0, and "" or "0" give 10000 |
| Api.BaseUrlRoundTrip | src/services/api.js:9 | the base URL splits back into the IP and port it was built from, for an IP without ':' |
| Api.GetConnectionInfo | src/services/api.js:71-76 | the info carries the configured IP, port and timeout and the base URL built from them, which splits back into that IP and port for an IP without ':' |
| Api.OnAndOffPathsDiffer | src/services/api.js:109-129 | no ON path equals an OFF path, whatever the two ids |
| Api.ActuatorPathsInjective | src/services/api.js:111-122 | distinct ids give distinct ON paths and distinct OFF paths |
| Api.CommandPathDeterminesRequest | src/services/api.js:109-153 | the path a command helper requests names the request: an ON or OFF path gives back its command and id, a setpoint path its kind and value text |
| Api.SetpointPathsDiffer | src/services/api.js:132-153 | a temperature setpoint path never equals a humidity one, and each ends with its value text |
| Api.ClassifyFetchError | src/services/api.js:84-104 | the cascade in order: an aborted request is a timeout whatever the status; otherwise status 0, 404 and >= 500 are CORS, not-found and server errors; anything else keeps the original message |
| Api.FetchFailureMessageInjective | src/services/api.js:88-104 | the rethrown message tells which branch was taken and, for the generic one, the original message |
| Api.GetData | src/services/api.js:79-105 | the body is returned unchanged on success, and every failure is rethrown with the classified message |
| Api.TestConnection | src/services/api.js:156-163 | never fails: success with the data exactly when the request succeeded, otherwise failure with the raw message |
| StatusIndicator.StatusTone | src/components/StatusIndicator.js:4-36 | a non-empty error wins over the connected flag, then connected, then disconnected |
| StatusIndicator.StatusText | src/components/StatusIndicator.js:10-14 | "Error de conexión" exactly when an error is present; otherwise "Conectado" or "Desconectado" by the flag |
| StatusIndicator.StatusColor | src/components/StatusIndicator.js:4-8 | red exactly when an error is present; otherwise green or yellow by the flag |
| StatusIndicator.StatusIcon | src/components/StatusIndicator.js:16-36 | the check icon exactly when connected without error; the alert icon otherwise |
| StatusIndicator.TextAndColorAgree | src/components/StatusIndicator.js:4-14 | two states show the same text exactly when they show the same colour, and then the same icon |
| StatusIndicator.ElapsedSince | src/components/StatusIndicator.js:41-47 | seconds below one minute, minutes below one hour, hours beyond; each count is the floor of the elapsed time in its unit |
| StatusIndicator.FormatLastUpdate | src/components/StatusIndicator.js:38-48 | "Nunca" exactly when there was no update; otherwise the decimal text of the chosen unit's count followed by the unit's letter |
| StatusIndicator.FormatLastUpdateReadsBack | src/components/StatusIndicator.js:45-47 | the text without its letter is the decimal text of the chosen unit's count, and parses back to that count |
| SetpointControl.Clamp | src/components/SetpointControl.js:29 | the result lies in [min, max] when min <= max; values inside pass unchanged; below gives min and above gives max |
| SetpointControl.ClampIsNearest | src/components/SetpointControl.js:29 | on a well-formed range the clamp is the point of the range nearest to the input |
| SetpointControl.ClampIdempotent | src/components/SetpointControl.js:29 | clamping twice is clamping once |
| SetpointControl.SetpointControl.constructor | src/components/SetpointControl.js:3-15 | defaults min 0, max 100, step 1; the local value starts at the value prop |
| SetpointControl.SetpointControl.PropsChanged | src/components/SetpointControl.js:15 | a new value prop leaves the local value alone |
| SetpointControl.SetpointControl.SliderChange | src/components/SetpointControl.js:17-21 | the slider's value is stored and reported at once, unclamped |
| SetpointControl.SetpointControl.InputChange | src/components/SetpointControl.js:23-26 | typing stores the value and reports nothing |
| SetpointControl.SetpointControl.InputBlur | src/components/SetpointControl.js:28-32 | blur stores and reports the same clamped value, which lies in the range |
| SetpointControl.SetpointControl.InputKeyPress | src/components/SetpointControl.js:34-38 | Enter behaves as blur; any other key changes nothing and reports nothing |
| SetpointControl.TypeOutOfRangeThenEnter | src/components/SetpointControl.js:23-38 | on a 0..100 card, typing 150 reports nothing and Enter commits and reports 100 |
| SetpointControl.NewPropKeepsTypedValue | src/components/SetpointControl.js:15-26 | a polled setpoint does not overwrite a typed value |
| ConnectionConfig.Split | src/components/ConnectionConfig.js:120 | the pieces hold no separator and join back to the input |
| ConnectionConfig.SplitJoin | src/components/ConnectionConfig.js:120 | splitting joined pieces that hold no separator gives the pieces back |
| ConnectionConfig.OctetPatternIsDecimalOctet | src/components/ConnectionConfig.js:120 | the octet alternatives accept exactly the one- to three-digit texts worth at most 255 |
| ConnectionConfig.ValidatorMatchesPattern | src/components/ConnectionConfig.js:119-121 | the split-and-test procedure accepts exactly the pattern's language and exactly the dotted quads |
| ConnectionConfig.ValidateIpAddress | src/components/ConnectionConfig.js:119-121 | an address is accepted iff it is four dot-joined octets of the pattern, iff it is four groups of 1-3 digits each at most 255, with leading zeros allowed and nothing before or after |
| ConnectionConfig.DefaultAddressAccepted | src/components/ConnectionConfig.js:120 | 192.168.2.14 is accepted |
| ConnectionConfig.LeadingZerosAccepted | src/components/ConnectionConfig.js:120 | 010.0.0.255 is accepted |
| ConnectionConfig.GroupAbove255Refused | src/components/ConnectionConfig.js:120 | 256.1.1.1 is refused |
| ConnectionConfig.FourDigitGroupRefused | src/components/ConnectionConfig.js:120 | 1000.1.1.1 is refused |
| ConnectionConfig.EmptyGroupRefused | src/components/ConnectionConfig.js:120 | 1..2.3 is refused |
| ConnectionConfig.ThreeGroupsRefused | src/components/ConnectionConfig.js:120 | 1.2.3 is refused |
| ConnectionConfig.FiveGroupsRefused | src/components/ConnectionConfig.js:120 | 1.2.3.4.5 is refused |
| ConnectionConfig.IsValidPort | src/components/ConnectionConfig.js:125 | the port is valid iff its text is a number from 1 to 65535 inclusive |
| ConnectionConfig.IsValidTimeout | src/components/ConnectionConfig.js:126 | the timeout is valid iff its text is a number from 1000 to 60000 inclusive |
| ConnectionConfig.ValidRangesOfWrittenNumbers | src/components/ConnectionConfig.js:125-126 | a port or timeout written by String(n) is valid exactly when n is in range |
| ConnectionConfig.ConnectionForm.constructor | src/components/ConnectionConfig.js:4-11 | empty IP, port 80, timeout 10000, closed, not loading, no result, unedited, not yet loaded |
| ConnectionConfig.ConnectionForm.ActionsEnabled | src/components/ConnectionConfig.js:239-250 | Test and Save are enabled iff not loading and IP, port and timeout are all valid |
| ConnectionConfig.ConnectionForm.InitialLoadEffect | src/components/ConnectionConfig.js:14-21 | the first present connection info fills the fields and marks the load; later calls change nothing |
| ConnectionConfig.ConnectionForm.SyncEffect | src/components/ConnectionConfig.js:24-30 | after the first load, connection info overwrites the fields only while unedited and closed |
| ConnectionConfig.ConnectionForm.TogglePanel | src/components/ConnectionConfig.js:144 | the panel flips and nothing else changes |
| ConnectionConfig.ConnectionForm.HandleInputChange | src/components/ConnectionConfig.js:32-47 | the edit flag is always set; only the named field changes, and an unknown name changes no field |
| ConnectionConfig.ConnectionForm.BeginSubmit | src/components/ConnectionConfig.js:49-56 | loading on, result cleared, the current fields sent to the test |
| ConnectionConfig.SubmitChange | src/components/ConnectionConfig.js:58-64 | the parent is called exactly after a successful test, with the fields the handler captured and parseInt of the timeout text, which for a digit-only text is its integer value |
| ConnectionConfig.ExponentTimeoutSavedAsOne | src/components/ConnectionConfig.js:60-64 | a successful save of the timeout text "1e4" hands the parent a timeout of 1 |
| ConnectionConfig.TestOutcomeResult | src/components/ConnectionConfig.js:84-91 | a result is a success exactly when the test succeeded, with the success message; otherwise it carries the device's error or the thrown message |
| ConnectionConfig.ConnectionForm.ContinueSubmit | src/components/ConnectionConfig.js:56-71 | after a successful test the parent is called and nothing changes yet; otherwise the failure is shown and loading ends |
| ConnectionConfig.ConnectionForm.CompleteSubmit | src/components/ConnectionConfig.js:60-75 | if the parent did not throw, success is shown, the panel closes and the edit flag clears; if it threw, its message is shown and the panel and edit flag stay; loading ends either way |
| ConnectionConfig.ConnectionForm.BeginTestOnly | src/components/ConnectionConfig.js:78-83 | loading on, result cleared, the current fields sent to the test |
| ConnectionConfig.ConnectionForm.CompleteTestOnly | src/components/ConnectionConfig.js:83-94 | only the result and the loading flag change: the settled test's result is shown and loading ends |
| ConnectionConfig.ConnectionForm.BeginReset | src/components/ConnectionConfig.js:97-101 | without confirmation nothing changes; with it loading starts and the reset is requested |
| ConnectionConfig.ConnectionForm.CompleteReset | src/components/ConnectionConfig.js:101-115 | on success the panel closes, the edit flag clears and the fields reload from the connection info captured at click time; on failure only the result changes; loading always ends |
| ConnectionConfig.EditedFormIgnoresUpdates | src/components/ConnectionConfig.js:24-47 | once the user has typed, later connection info does not overwrite the field |
| ConnectionConfig.SavedTimeoutReadsBack | src/components/ConnectionConfig.js:18-63 | a timeout the form loaded with toString reaches the parent, through parseInt, as the same integer |
| ConnectionConfig.SavedFormFollowsUpdates | src/components/ConnectionConfig.js:49-76 | a successful save passes the typed IP and the integer timeout to the parent, and later connection info fills the form again |
| ConnectionConfig.FailedTestKeepsEdits | src/components/ConnectionConfig.js:56-70 | a failed test does not call the parent, keeps the panel open with the typed text, and shows the device's error |
| Dashboard.ToNumeric | src/App.js:164-170 | undefined is NaN, null is 0, true is 1, false is 0, a number is itself |
| Dashboard.Classify | src/App.js:159-178 | null or undefined and unknown kinds are normal; the temperature, humidity and soil thresholds, each in both directions; a missing setpoint makes every reading a success |
| Dashboard.TemperatureSeverityGrowsWithReading | src/App.js:163-166 | a hotter reading is never less alarming |
| Dashboard.HumiditySeverityFallsWithReading | src/App.js:167-170 | a drier reading is never less alarming |
| Dashboard.SetpointKeysMatchPage | src/App.js:129-147 | temp and hum write setpointTemp and setpointHum and raise tempSetpoint and humSetpoint, all of them keys the page reads |
| Dashboard.App.constructor | src/App.js:50-79 | the initial snapshot, loading flags and disconnected status |
| Dashboard.App.CompletePoll | src/App.js:82-98 | success replaces the snapshot and marks the status connected now; failure keeps the snapshot and the last update time and sets the error; the status stays consistent |
| Dashboard.App.BeginToggle | src/App.js:101-110 | the flag named after the field goes up; OFF is sent exactly when the field read now is truthy, ON otherwise, and the request path is "/cmd/OFF" or "/cmd/ON" followed by the id; the connection invariant is kept |
| Dashboard.App.CompleteToggle | src/App.js:111-124 | on success only the field changes, to the negation of the value read before the request, and a refresh is scheduled; on failure the snapshot is unchanged; the flag goes down either way; the connection invariant is kept |
| Dashboard.App.BeginSetpoint | src/App.js:128-148 | temp and hum send their command with the flag up; any other kind sends nothing, writes the field at once, lowers the flag and schedules a refresh; the connection invariant is kept |
| Dashboard.App.CompleteSetpoint | src/App.js:137-148 | the capitalised setpoint field is written only after success, and a refresh is scheduled exactly then; the flag goes down either way; the connection invariant is kept |
| Dashboard.ToggleSpinnerStaysOff | src/App.js:287-306 | the loading flag a manual card shows stays off during and after its own toggle |
| Dashboard.StalePollOverwritesToggle | src/App.js:82-116 | a poll that still reports the old state erases a successful optimistic toggle |
| Dashboard.DoubleToggleBeforeReply | src/App.js:101-124 | two clicks before the first reply both send ON, the flag drops after the first reply, and the actuator ends on |
| Dashboard.MissingSetpointReadsSuccess | src/App.js:159-166 | with no temperature setpoint in the snapshot any temperature reads as a success |
| Dashboard.BadgeAgreesWithStatus | src/App.js:84-96 | under the connection invariant a connected status reads "Conectado" and never "Nunca", and the error badge shows exactly when a failed poll left its message |
| Dashboard.PollThenBadge | src/App.js:84-90 | right after a successful poll the badge reads "Conectado", updated "0s" ago |
| Dashboard.FailedPollKeepsLastUpdate | src/App.js:91-96 | a failed poll shows the error badge, keeps the last good time and keeps the snapshot |

## Left out

- The HTTP transport is not modelled: the axios instance with its headers and interceptors (src/services/api.js:19-66), and the logging everywhere. Each request's outcome is an input.
- Timers are not modelled: the two-second polling interval and the 500 ms refresh after a command. A handler's `refresh` result says that a refresh was scheduled, and each poll is an event processed to completion.
- React's rendering and effect scheduling are not modelled. Each method applies a handler's state updates in order.
- Dashboard.App.CompletePoll: on failure it keeps the current last-update time, whereas the source keeps the one its `fetchData` closure captured. An older closure scheduled by a command's `setTimeout` can therefore restore an older time in the source.
- Dashboard.App.BeginToggle: it reads the field from the current state, whereas the source reads it from the snapshot of the last render. The two differ only when an update landed after that render.
- Dashboard.Value: snapshot values are null, booleans or reals. Strings, nested objects and NaN coming from the device are not modelled.
- Dashboard.Capitalize upper-cases ASCII letters only; other characters are kept as they are.
- Api.TemperatureSetpointPath and Api.HumiditySetpointPath take the JavaScript text of the number as an input. How JavaScript writes a real number as text is not modelled.
- The command helpers' own error texts (src/services/api.js:116, 127, 139, 151) are not modelled. Their callers only log them, so a command's outcome is a success flag.
- Decimal.IntToString: numbers are unbounded integers, not IEEE doubles. `String(n)` switches to exponent notation from 1e21 on ("1e+21", which `parseInt` reads as 1), and integers above 2^53 are rounded. Neither is modelled, so Decimal.ParseIntOfIntToString holds here for every integer but in JavaScript only below 1e21. A `REACT_APP_API_TIMEOUT` of 22 or more digits would reach this (src/services/api.js:6, src/components/ConnectionConfig.js:18).
- Decimal.ToNumber reads only the empty text and runs of digits. Text that `Number` also accepts reads as NaN in this model: surrounding white space, a sign, decimals, exponents, hexadecimal.
- ConnectionConfig.IsValidPort inherits that restriction: text such as "80.5" or "1e3", which `Number` reads, counts as invalid here. A `type="number"` input mostly produces plain digits anyway.
- ConnectionConfig.IsValidTimeout inherits the same restriction, and this hides a disagreement in the source. "1e4" passes the source's check, since `Number` reads it as 10000 (src/components/ConnectionConfig.js:126). handleSubmit then passes `parseInt("1e4")`, which is 1, so the parent receives a 1 ms timeout (src/components/ConnectionConfig.js:63). The model's range check refuses "1e4", so the form never reaches that path; `ConnectionConfig.ExponentTimeoutSavedAsOne` shows what the save would pass.
- Decimal.ParseInt does not model the `0x` prefix, which `parseInt` reads as hexadecimal when no radix is given.
- Decimal.ParseInt skips only ASCII white space (space, tab, line feed, carriage return, vertical tab, form feed). `parseInt` also skips U+00A0, U+FEFF, U+2028, U+2029 and the other Unicode space separators, so " 5" with a no-break space reads as NaN here and as 5 in JavaScript.
- SetpointControl: a `parseFloat` that yields NaN is not modelled, since values are reals. The slider's gradient percentage and the card's colours are presentation.
- ConnectionConfig: the browser's own `required`/`min`/`max` form validation is not modelled; `window.confirm` is a boolean input.
- Dates are milliseconds since an epoch (`int`); `new Date()` becomes the `now` input.
- The following are not part of this model:
  - src/utils/configStorage.js, a wrapper over localStorage and JSON;
  - proxy-server.js;
  - src/components/ConnectionTest.js and src/components/SimpleTest.js, which are direct probes;
  - the presentation components (SensorCard, ActuatorControl, ActuatorIndicator, RemoteControl).
