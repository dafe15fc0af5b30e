/**
 * The dashboard component: the sensor snapshot, the per-control loading flags and
 * the connection status, and the events that change them — a poll of the device,
 * an actuator toggle and a setpoint change. Each awaited request is split into a
 * Begin step, which runs up to the await and returns the request to send, and a
 * Complete step, which takes whether the request succeeded. There is no
 * reconciliation between optimistic writes and later polls: a poll simply
 * replaces the snapshot, and the scenarios at the end of the module show it.
 */
module Dashboard {
  import opened Wrappers
  import Api
  import StatusIndicator
  import Decimal

  /** A field of the device's JSON snapshot: null, a boolean or a number. */
  datatype Value = Null | Bool(b: bool) | Num(n: real)

  type SensorData = map<string, Value>

  /** `data[key]`, with None standing for `undefined`. */
  function Field(data: SensorData, key: string): Option<Value> {
    if key in data then Some(data[key]) else None
  }

  /** JavaScript truthiness of a field: undefined, null, false and 0 are falsy. */
  predicate Truthy(v: Option<Value>) {
    match v
    case None => false
    case Some(Null) => false
    case Some(Bool(b)) => b
    case Some(Num(n)) => n != 0.0
  }

  /**
   * The number a field turns into inside `+`, `-`, `<` and `>`: null is 0, a
   * boolean is 0 or 1, and undefined is NaN (None).
   */
  function ToNumeric(v: Option<Value>): (x: Option<real>)
    ensures x.None? <==> v.None?
    ensures v == Some(Null) ==> x == Some(0.0)
    ensures v.Some? && v.value.Num? ==> x == Some(v.value.n)
    ensures v.Some? && v.value.Bool? ==> x == Some(if v.value.b then 1.0 else 0.0)
  {
    match v
    case None => None
    case Some(Null) => Some(0.0)
    case Some(Bool(b)) => Some(if b then 1.0 else 0.0)
    case Some(Num(n)) => Some(n)
  }

  /** `x + k` when `x` may be NaN. */
  function Plus(x: Option<real>, k: real): Option<real> {
    match x
    case None => None
    case Some(r) => Some(r + k)
  }

  /** `v > x` and `v < x`: every comparison with NaN is false. */
  predicate Above(v: real, x: Option<real>) { x.Some? && v > x.value }
  predicate Below(v: real, x: Option<real>) { x.Some? && v < x.value }

  // ---------------------------------------------------------------------------
  // The initial state

  const SensorKinds: set<string> := {"temperature", "humidity", "soilHumidity"}

  /** The snapshot before the first poll: no readings, every actuator off, setpoints 80 and 70. */
  function InitialSensorData(): SensorData {
    map[
      "temperature" := Null, "humidity" := Null, "soilHumidity" := Null,
      "bulbOn" := Bool(false), "ventTempOn" := Bool(false), "ventHumOn" := Bool(false),
      "pumpOn" := Bool(false), "remote1On" := Bool(false), "remote2On" := Bool(false),
      "setpointTemp" := Num(80.0), "setpointHum" := Num(70.0)
    ]
  }

  /** The loading flags the page reads, all off. */
  function InitialLoading(): map<string, bool> {
    map[
      "bulb" := false, "ventTemp" := false, "ventHum" := false, "pump" := false,
      "remote1" := false, "remote2" := false, "tempSetpoint" := false, "humSetpoint" := false
    ]
  }

  /**
   * A manual actuator card: the id its toggle sends, the snapshot field its toggle
   * reads and writes, and the loading flag the card shows.
   */
  datatype ManualControl = ManualControl(actuatorId: int, field: string, loadingKey: string)

  const ManualControls: seq<ManualControl> := [
    ManualControl(47, "bulbOn", "bulb"),
    ManualControl(49, "ventTempOn", "ventTemp")
  ]

  // ---------------------------------------------------------------------------
  // Sensor status

  datatype Status = Normal | Danger | Warning | Success

  /** A reading is present: neither undefined nor null. */
  predicate Reading(value: Option<Value>) {
    value.Some? && value.value != Null
  }

  /**
   * getSensorStatus, with the two setpoint fields of the snapshot as inputs.
   * Readings above the temperature setpoint, or below the humidity setpoint, are
   * a warning, and 5 degrees above or 10 points below are a danger; soil humidity
   * has the fixed thresholds 300 and 400. A missing setpoint is NaN, so every
   * comparison with it fails and the reading is a success.
   */
  function Classify(sensorType: string, value: Option<Value>, setpointTemp: Option<Value>, setpointHum: Option<Value>): (s: Status)
    ensures s == Normal <==> !Reading(value) || sensorType !in SensorKinds
    ensures sensorType == "temperature" && Reading(value) && setpointTemp.Some? ==>
              var v, t := ToNumeric(value).value, ToNumeric(setpointTemp).value;
              (s == Danger <==> t + 5.0 < v) && (s == Warning <==> t < v <= t + 5.0) && (s == Success <==> v <= t)
    ensures sensorType == "humidity" && Reading(value) && setpointHum.Some? ==>
              var v, h := ToNumeric(value).value, ToNumeric(setpointHum).value;
              (s == Danger <==> v < h - 10.0) && (s == Warning <==> h - 10.0 <= v < h) && (s == Success <==> h <= v)
    ensures sensorType == "soilHumidity" && Reading(value) ==>
              var v := ToNumeric(value).value;
              (s == Danger <==> v < 300.0) && (s == Warning <==> 300.0 <= v < 400.0) && (s == Success <==> 400.0 <= v)
    ensures sensorType == "temperature" && Reading(value) && setpointTemp.None? ==> s == Success
    ensures sensorType == "humidity" && Reading(value) && setpointHum.None? ==> s == Success
  {
    if !Reading(value) then Normal
    else
      var v := ToNumeric(value).value;
      if sensorType == "temperature" then
        var t := ToNumeric(setpointTemp);
        if Above(v, Plus(t, 5.0)) then Danger else if Above(v, t) then Warning else Success
      else if sensorType == "humidity" then
        var h := ToNumeric(setpointHum);
        if Below(v, Plus(h, -10.0)) then Danger else if Below(v, h) then Warning else Success
      else if sensorType == "soilHumidity" then
        if v < 300.0 then Danger else if v < 400.0 then Warning else Success
      else Normal
  }

  /** How alarming a status is: success and normal 0, warning 1, danger 2. */
  function Severity(s: Status): nat {
    match s
    case Normal => 0
    case Success => 0
    case Warning => 1
    case Danger => 2
  }

  /** A hotter reading is never less alarming, whatever the temperature setpoint. */
  lemma TemperatureSeverityGrowsWithReading(v1: real, v2: real, setpointTemp: Option<Value>, setpointHum: Option<Value>)
    requires v1 <= v2
    ensures Severity(Classify("temperature", Some(Num(v1)), setpointTemp, setpointHum))
         <= Severity(Classify("temperature", Some(Num(v2)), setpointTemp, setpointHum))
  {
  }

  /** A drier reading is never less alarming, whatever the humidity setpoint. */
  lemma HumiditySeverityFallsWithReading(v1: real, v2: real, setpointTemp: Option<Value>, setpointHum: Option<Value>)
    requires v1 <= v2
    ensures Severity(Classify("humidity", Some(Num(v1)), setpointTemp, setpointHum))
         >= Severity(Classify("humidity", Some(Num(v2)), setpointTemp, setpointHum))
  {
  }

  // ---------------------------------------------------------------------------
  // Setpoint keys

  function UpperAscii(c: char): char {
    if 'a' <= c <= 'z' then (c as int - 32) as char else c
  }

  /** `type.charAt(0).toUpperCase() + type.slice(1)`, for ASCII letters. */
  function Capitalize(s: string): string {
    if s == [] then [] else [UpperAscii(s[0])] + s[1..]
  }

  /** The snapshot field updateSetpoint writes. */
  function SetpointField(kind: string): string {
    "setpoint" + Capitalize(kind)
  }

  /** The loading flag updateSetpoint raises. */
  function SetpointLoadingKey(kind: string): string {
    kind + "Setpoint"
  }

  /**
   * The two setpoint kinds the page sends write the very fields it renders and
   * raise the very flags it shows, unlike the toggles (see ToggleSpinnerStaysOff).
   */
  lemma SetpointKeysMatchPage()
    ensures SetpointField("temp") == "setpointTemp" && SetpointField("temp") in InitialSensorData()
    ensures SetpointField("hum") == "setpointHum" && SetpointField("hum") in InitialSensorData()
    ensures SetpointLoadingKey("temp") in InitialLoading() && SetpointLoadingKey("hum") in InitialLoading()
  {
    assert Capitalize("temp") == "Temp";
    assert Capitalize("hum") == "Hum";
    assert SetpointLoadingKey("temp") == "tempSetpoint";
    assert SetpointLoadingKey("hum") == "humSetpoint";
  }

  // ---------------------------------------------------------------------------
  // The component

  datatype ConnectionStatus = ConnectionStatus(isConnected: bool, lastUpdate: Option<int>, error: Option<string>)

  const PollErrorMessage: string := "Error al conectar con el sistema"

  /** What toggleActuator's continuation closed over: the field value read before the await. */
  datatype ToggleOp = ToggleOp(actuatorId: int, actuatorName: string, wasOn: bool)

  /** What updateSetpoint's continuation closed over. */
  datatype SetpointOp = SetpointOp(kind: string, value: real)

  class App {
    var sensorData: SensorData
    var loading: map<string, bool>
    var connectionStatus: ConnectionStatus

    /** A connected status has an update time and no error; a disconnected one has no error or the poll's. */
    predicate Valid()
      reads this
    {
      && (connectionStatus.isConnected ==> connectionStatus.lastUpdate.Some? && connectionStatus.error.None?)
      && (connectionStatus.error.Some? ==> connectionStatus.error == Some(PollErrorMessage))
    }

    constructor ()
      ensures Valid()
      ensures sensorData == InitialSensorData() && loading == InitialLoading()
      ensures connectionStatus == ConnectionStatus(false, None, None)
    {
      sensorData := InitialSensorData();
      loading := InitialLoading();
      connectionStatus := ConnectionStatus(false, None, None);
    }

    /** fetchData settling: `outcome` is what getData resolved to or threw, `now` the clock. */
    method CompletePoll(outcome: Result<SensorData, string>, now: int)
      requires Valid()
      modifies this
      ensures Valid()
      ensures outcome.Ok? ==> sensorData == outcome.value && connectionStatus == ConnectionStatus(true, Some(now), None)
      ensures outcome.Err? ==> sensorData == old(sensorData)
      ensures outcome.Err? ==> connectionStatus == ConnectionStatus(false, old(connectionStatus.lastUpdate), Some(PollErrorMessage))
      ensures loading == old(loading)
    {
      match outcome {
        case Ok(data) =>
          sensorData := data;
          connectionStatus := ConnectionStatus(true, Some(now), None);
        case Err(_) =>
          connectionStatus := ConnectionStatus(false, connectionStatus.lastUpdate, Some(PollErrorMessage));
      }
    }

    /**
     * toggleActuator up to its await: the flag named after the field goes up, the
     * field is read, and OFF is chosen exactly when it is truthy.
     */
    method BeginToggle(actuatorId: int, actuatorName: string) returns (op: ToggleOp, command: Api.Command)
      requires Valid()
      modifies this
      ensures Valid()
      ensures op == ToggleOp(actuatorId, actuatorName, Truthy(Field(old(sensorData), actuatorName)))
      ensures command == if op.wasOn then Api.TurnOff(actuatorId) else Api.TurnOn(actuatorId)
      ensures Api.CommandPath(command, "") == (if op.wasOn then "/cmd/OFF" else "/cmd/ON") + Decimal.IntToString(actuatorId)
      ensures loading == old(loading)[actuatorName := true]
      ensures sensorData == old(sensorData) && connectionStatus == old(connectionStatus)
    {
      loading := loading[actuatorName := true];
      var isCurrentlyOn := Truthy(Field(sensorData, actuatorName));
      op := ToggleOp(actuatorId, actuatorName, isCurrentlyOn);
      command := if isCurrentlyOn then Api.TurnOff(actuatorId) else Api.TurnOn(actuatorId);
    }

    /**
     * The rest of toggleActuator. On success the field becomes the negation of the
     * value read before the await, whatever it holds now, and a refresh is
     * scheduled; on failure the snapshot is left alone. The flag goes down either way.
     */
    method CompleteToggle(op: ToggleOp, sent: bool) returns (refresh: bool)
      requires Valid()
      modifies this
      ensures Valid()
      ensures sent ==> sensorData == old(sensorData)[op.actuatorName := Bool(!op.wasOn)]
      ensures !sent ==> sensorData == old(sensorData)
      ensures refresh == sent
      ensures loading == old(loading)[op.actuatorName := false]
      ensures connectionStatus == old(connectionStatus)
    {
      if sent {
        sensorData := sensorData[op.actuatorName := Bool(!op.wasOn)];
      }
      refresh := sent;
      loading := loading[op.actuatorName := false];
    }

    /**
     * updateSetpoint up to its await. For a kind other than "temp" or "hum" nothing
     * is sent and the handler runs to its end at once: the field is written, a
     * refresh is scheduled and the flag is already down again.
     */
    method BeginSetpoint(kind: string, value: real) returns (op: SetpointOp, command: Option<Api.Command>, refresh: bool)
      requires Valid()
      modifies this
      ensures Valid()
      ensures op == SetpointOp(kind, value)
      ensures kind == "temp" ==> command == Some(Api.SetTemperature(value))
      ensures kind == "hum" ==> command == Some(Api.SetHumidity(value))
      ensures command.None? <==> kind != "temp" && kind != "hum"
      ensures refresh <==> command.None?
      ensures command.Some? ==> loading == old(loading)[SetpointLoadingKey(kind) := true] && sensorData == old(sensorData)
      ensures command.None? ==> loading == old(loading)[SetpointLoadingKey(kind) := false]
      ensures command.None? ==> sensorData == old(sensorData)[SetpointField(kind) := Num(value)]
      ensures connectionStatus == old(connectionStatus)
    {
      op := SetpointOp(kind, value);
      loading := loading[SetpointLoadingKey(kind) := true];
      if kind == "temp" {
        command, refresh := Some(Api.SetTemperature(value)), false;
      } else if kind == "hum" {
        command, refresh := Some(Api.SetHumidity(value)), false;
      } else {
        command := None;
        refresh := CompleteSetpoint(op, true);
      }
    }

    /** The rest of updateSetpoint: the field is written only once the request succeeded. */
    method CompleteSetpoint(op: SetpointOp, sent: bool) returns (refresh: bool)
      requires Valid()
      modifies this
      ensures Valid()
      ensures sent ==> sensorData == old(sensorData)[SetpointField(op.kind) := Num(op.value)]
      ensures !sent ==> sensorData == old(sensorData)
      ensures refresh == sent
      ensures loading == old(loading)[SetpointLoadingKey(op.kind) := false]
      ensures connectionStatus == old(connectionStatus)
    {
      if sent {
        sensorData := sensorData[SetpointField(op.kind) := Num(op.value)];
      }
      refresh := sent;
      loading := loading[SetpointLoadingKey(op.kind) := false];
    }

    /** getSensorStatus on the current snapshot. */
    function SensorStatus(sensorType: string, value: Option<Value>): Status
      reads this
    {
      Classify(sensorType, value, Field(sensorData, "setpointTemp"), Field(sensorData, "setpointHum"))
    }
  }

  // ---------------------------------------------------------------------------
  // Scenarios: short runs of the component that show what its rules add up to

  /**
   * A toggle of a manual card raises and lowers the flag named after the snapshot
   * field ("bulbOn"), while the card shows another flag ("bulb"): the spinner the
   * user sees stays off before, during and after the request.
   */
  method ToggleSpinnerStaysOff(c: ManualControl, sent: bool) returns (during: bool, after: bool)
    requires c in ManualControls
    ensures !during && !after
  {
    var app := new App();
    var op, _ := app.BeginToggle(c.actuatorId, c.field);
    during := app.loading[c.loadingKey];
    var _ := app.CompleteToggle(op, sent);
    after := app.loading[c.loadingKey];
  }

  /**
   * A successful toggle shows the actuator on, and the next poll, if the device
   * still reports it off, shows it off again: nothing protects the optimistic value.
   */
  method StalePollOverwritesToggle(snapshot: SensorData, now: int) returns (optimistic: Option<Value>, polled: Option<Value>)
    requires Field(snapshot, "bulbOn") == Some(Bool(false))
    ensures optimistic == Some(Bool(true))
    ensures polled == Some(Bool(false))
  {
    var app := new App();
    var op, _ := app.BeginToggle(47, "bulbOn");
    var _ := app.CompleteToggle(op, true);
    optimistic := Field(app.sensorData, "bulbOn");
    app.CompletePoll(Ok(snapshot), now);
    polled := Field(app.sensorData, "bulbOn");
  }

  /**
   * Two clicks before the first reply both read "off", so both send ON and the
   * bulb ends up on, not back off; the flag ends down although a request was
   * outstanding when the first reply lowered it.
   */
  method DoubleToggleBeforeReply() returns (first: Api.Command, second: Api.Command, flagBetween: bool, final: Option<Value>)
    ensures first == Api.TurnOn(47) && second == Api.TurnOn(47)
    ensures !flagBetween
    ensures final == Some(Bool(true))
  {
    var app := new App();
    var op1, cmd1 := app.BeginToggle(47, "bulbOn");
    var op2, cmd2 := app.BeginToggle(47, "bulbOn");
    var _ := app.CompleteToggle(op1, true);
    flagBetween := app.loading["bulbOn"];
    var _ := app.CompleteToggle(op2, true);
    first, second := cmd1, cmd2;
    final := Field(app.sensorData, "bulbOn");
  }

  /**
   * A snapshot without a temperature setpoint makes every temperature, however
   * high, read as a success.
   */
  method MissingSetpointReadsSuccess(snapshot: SensorData, now: int) returns (status: Status)
    requires Field(snapshot, "setpointTemp").None? && Reading(Field(snapshot, "temperature"))
    ensures status == Success
  {
    var app := new App();
    app.CompletePoll(Ok(snapshot), now);
    status := app.SensorStatus("temperature", Field(app.sensorData, "temperature"));
  }

  /**
   * What the invariant buys the badge: a connected status always has an update time
   * to show and reads "Conectado", and the error badge appears exactly when a poll
   * failed and left its message.
   */
  lemma BadgeAgreesWithStatus(app: App, now: int)
    requires app.Valid()
    ensures var s := app.connectionStatus;
            s.isConnected ==> StatusIndicator.StatusText(s.isConnected, s.error) == "Conectado"
                              && StatusIndicator.FormatLastUpdate(s.lastUpdate, now) != "Nunca"
    ensures var s := app.connectionStatus;
            StatusIndicator.StatusText(s.isConnected, s.error) == "Error de conexión" <==> !s.isConnected && s.error == Some(PollErrorMessage)
  {
  }

  /** Right after a successful poll the badge reads connected, updated "0s" ago. */
  method PollThenBadge(snapshot: SensorData, now: int) returns (text: string, age: string)
    ensures text == "Conectado"
    ensures age == "0s"
  {
    var app := new App();
    app.CompletePoll(Ok(snapshot), now);
    var s := app.connectionStatus;
    text := StatusIndicator.StatusText(s.isConnected, s.error);
    age := StatusIndicator.FormatLastUpdate(s.lastUpdate, now);
    assert StatusIndicator.ElapsedSince(0) == StatusIndicator.Seconds(0);
  }

  /**
   * A failed poll after a successful one shows the error badge while still telling
   * how old the last good snapshot is, and the snapshot itself is kept.
   */
  method FailedPollKeepsLastUpdate(snapshot: SensorData, t0: int, t1: int, error: string)
    returns (text: string, lastUpdate: Option<int>, data: SensorData)
    ensures text == "Error de conexión"
    ensures lastUpdate == Some(t0)
    ensures data == snapshot
  {
    var app := new App();
    app.CompletePoll(Ok(snapshot), t0);
    app.CompletePoll(Err(error), t1);
    var s := app.connectionStatus;
    text := StatusIndicator.StatusText(s.isConnected, s.error);
    lastUpdate := s.lastUpdate;
    data := app.sensorData;
  }
}
