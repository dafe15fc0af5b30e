/**
 * The device client of the greenhouse dashboard, without its HTTP transport:
 * configuration defaulting, the base URL, the command and setpoint paths, the
 * error classification of the state fetch and the shape of a connection test.
 * Every request outcome is an input (a Result).
 */
module Api {
  import opened Wrappers
  import opened Decimal

  /** The three `REACT_APP_*` environment variables; None when a variable is unset. */
  datatype Env = Env(arduinoIp: Option<string>, arduinoPort: Option<string>, apiTimeout: Option<string>)

  datatype Config = Config(ip: string, port: string, timeout: int)

  datatype ConnectionInfo = ConnectionInfo(ip: string, port: string, baseUrl: string, timeout: int)

  const DefaultIp: string := "192.168.2.14"
  const DefaultPort: string := "80"
  const DefaultTimeout: int := 10000

  /** `value || fallback` on an environment string: unset and empty both fall back. */
  function StringOr(value: Option<string>, fallback: string): string {
    if value.Some? && value.value != [] then value.value else fallback
  }

  /** `parseInt(value) || fallback`: NaN and 0 are both falsy. */
  function TimeoutOr(value: Option<string>, fallback: int): int {
    match value
    case None => fallback
    case Some(text) =>
      match ParseInt(text)
      case Some(n) => if n != 0 then n else fallback
      case None => fallback
  }

  /** The module-level constants ARDUINO_IP, ARDUINO_PORT and API_TIMEOUT. */
  function ConfigFromEnv(env: Env): (c: Config)
    ensures c.ip != [] && c.port != [] && c.timeout != 0
    ensures c.ip == DefaultIp <== env.arduinoIp.None? || env.arduinoIp == Some("")
    ensures c.ip == env.arduinoIp.value <== env.arduinoIp.Some? && env.arduinoIp.value != ""
    ensures c.port == DefaultPort <== env.arduinoPort.None? || env.arduinoPort == Some("")
    ensures c.port == env.arduinoPort.value <== env.arduinoPort.Some? && env.arduinoPort.value != ""
    ensures c.timeout == DefaultTimeout <== env.apiTimeout.None?
    ensures c.timeout == DefaultTimeout <== env.apiTimeout.Some? && ParseInt(env.apiTimeout.value) in {None, Some(0)}
    ensures c.timeout == ParseInt(env.apiTimeout.value).value
              <== env.apiTimeout.Some? && ParseInt(env.apiTimeout.value).Some? && ParseInt(env.apiTimeout.value).value != 0
  {
    Config(StringOr(env.arduinoIp, DefaultIp), StringOr(env.arduinoPort, DefaultPort), TimeoutOr(env.apiTimeout, DefaultTimeout))
  }

  /** A plain decimal timeout such as "5000" is taken as it is; "0" and "abc" give the default. */
  lemma TimeoutFromDigits(ip: Option<string>, port: Option<string>, text: string)
    requires AllDigits(text)
    ensures text != [] && DigitsValue(text) != 0 ==> ConfigFromEnv(Env(ip, port, Some(text))).timeout == DigitsValue(text)
    ensures text == [] || DigitsValue(text) == 0 ==> ConfigFromEnv(Env(ip, port, Some(text))).timeout == DefaultTimeout
  {
  }

  /** API_BASE_URL. */
  function BaseUrl(ip: string, port: string): string {
    "http://" + ip + ":" + port
  }

  /** The first position of `c` in `s`, if any. */
  function IndexOf(s: string, c: char): (k: Option<nat>)
    ensures k.Some? ==> k.value < |s| && s[k.value] == c && c !in s[..k.value]
    ensures k.None? ==> c !in s
  {
    if s == [] then None
    else if s[0] == c then Some(0)
    else match IndexOf(s[1..], c)
      case None => None
      case Some(k) => assert s[..k + 1] == [s[0]] + s[1..][..k]; Some(k + 1)
  }

  /** Host and port of an `http://host:port` URL, split at the first ':' after the scheme. */
  function SplitBaseUrl(url: string): Option<(string, string)> {
    if |url| >= 7 && url[..7] == "http://" then
      var rest := url[7..];
      match IndexOf(rest, ':')
      case Some(k) => Some((rest[..k], rest[k + 1..]))
      case None => None
    else None
  }

  /** The base URL determines the IP and port it was built from (an IPv4 address holds no ':'). */
  lemma BaseUrlRoundTrip(ip: string, port: string)
    requires ':' !in ip
    ensures SplitBaseUrl(BaseUrl(ip, port)) == Some((ip, port))
  {
    var url := BaseUrl(ip, port);
    var rest := url[7..];
    assert rest == ip + ":" + port;
    var k := IndexOf(rest, ':');
    assert rest[|ip|] == ':';
    assert k == Some(|ip|);
    assert rest[..|ip|] == ip;
    assert rest[|ip| + 1..] == port;
  }

  /** greenhouseAPI.getConnectionInfo. */
  function GetConnectionInfo(c: Config): (info: ConnectionInfo)
    ensures info.ip == c.ip && info.port == c.port && info.timeout == c.timeout
    ensures info.baseUrl == BaseUrl(c.ip, c.port)
    ensures ':' !in c.ip ==> SplitBaseUrl(info.baseUrl) == Some((c.ip, c.port))
  {
    if ':' !in c.ip then BaseUrlRoundTrip(c.ip, c.port); ConnectionInfo(c.ip, c.port, BaseUrl(c.ip, c.port), c.timeout)
    else ConnectionInfo(c.ip, c.port, BaseUrl(c.ip, c.port), c.timeout)
  }

  /** The requests the dashboard sends besides the state fetch. */
  datatype Command =
    | TurnOn(actuatorId: int)
    | TurnOff(actuatorId: int)
    | SetTemperature(value: real)
    | SetHumidity(value: real)

  /** Path of turnOnActuator. */
  function TurnOnPath(actuatorId: int): string {
    "/cmd/ON" + IntToString(actuatorId)
  }

  /** Path of turnOffActuator. */
  function TurnOffPath(actuatorId: int): string {
    "/cmd/OFF" + IntToString(actuatorId)
  }

  /** An ON path never equals an OFF path, whatever the two ids. */
  lemma OnAndOffPathsDiffer(onId: int, offId: int)
    ensures TurnOnPath(onId) != TurnOffPath(offId)
  {
    assert TurnOnPath(onId)[6] == 'N';
    assert TurnOffPath(offId)[6] == 'F';
  }

  /** The actuator id can be read back from an ON or OFF path: distinct ids, distinct paths. */
  lemma ActuatorPathsInjective(a: int, b: int)
    ensures TurnOnPath(a) == TurnOnPath(b) ==> a == b
    ensures TurnOffPath(a) == TurnOffPath(b) ==> a == b
  {
    if TurnOnPath(a) == TurnOnPath(b) {
      assert IntToString(a) == TurnOnPath(a)[7..] == TurnOnPath(b)[7..] == IntToString(b);
      IntToStringInjective(a, b);
    }
    if TurnOffPath(a) == TurnOffPath(b) {
      assert IntToString(a) == TurnOffPath(a)[8..] == TurnOffPath(b)[8..] == IntToString(b);
      IntToStringInjective(a, b);
    }
  }

  /**
   * The path each command helper requests. A setpoint path carries the JavaScript
   * text of its value, which is an input here; an actuator path ignores it.
   */
  function CommandPath(c: Command, valueText: string): string {
    match c
    case TurnOn(id) => TurnOnPath(id)
    case TurnOff(id) => TurnOffPath(id)
    case SetTemperature(_) => TemperatureSetpointPath(valueText)
    case SetHumidity(_) => HumiditySetpointPath(valueText)
  }

  /**
   * The path names the request: an actuator path gives back its command and id,
   * and a setpoint path its kind and value text.
   */
  lemma CommandPathDeterminesRequest(c1: Command, t1: string, c2: Command, t2: string)
    requires CommandPath(c1, t1) == CommandPath(c2, t2)
    ensures (c1.TurnOn? || c1.TurnOff?) ==> c1 == c2
    ensures (c1.SetTemperature? || c1.SetHumidity?) ==>
              t1 == t2 && (c2.SetTemperature? || c2.SetHumidity?) && (c1.SetTemperature? <==> c2.SetTemperature?)
  {
    if c1.TurnOn? || c1.TurnOff? {
      ActuatorPathDeterminesCommand(c1, t1, c2, t2);
    } else {
      SetpointPathDeterminesCommand(c1, t1, c2, t2);
    }
  }

  lemma ActuatorPathDeterminesCommand(c1: Command, t1: string, c2: Command, t2: string)
    requires c1.TurnOn? || c1.TurnOff?
    requires CommandPath(c1, t1) == CommandPath(c2, t2)
    ensures c1 == c2
  {
    var p := CommandPath(c1, t1);
    assert p[1] == 'c';
    match c2
    case TurnOn(b) =>
      if c1.TurnOff? { OnAndOffPathsDiffer(b, c1.actuatorId); }
      ActuatorPathsInjective(c1.actuatorId, b);
    case TurnOff(b) =>
      if c1.TurnOn? { OnAndOffPathsDiffer(c1.actuatorId, b); }
      ActuatorPathsInjective(c1.actuatorId, b);
    case SetTemperature(_) =>
      assert false;
    case SetHumidity(_) =>
      assert false;
  }

  lemma SetpointPathDeterminesCommand(c1: Command, t1: string, c2: Command, t2: string)
    requires c1.SetTemperature? || c1.SetHumidity?
    requires CommandPath(c1, t1) == CommandPath(c2, t2)
    ensures t1 == t2 && (c2.SetTemperature? || c2.SetHumidity?) && (c1.SetTemperature? <==> c2.SetTemperature?)
  {
    var p := CommandPath(c1, t1);
    assert p[1] == 's';
    match c2
    case TurnOn(b) =>
      assert false;
    case TurnOff(b) =>
      assert false;
    case SetTemperature(_) =>
      SetpointPathsDiffer(t2, t1);
      SetpointPathsDiffer(t1, t2);
    case SetHumidity(_) =>
      SetpointPathsDiffer(t1, t2);
      SetpointPathsDiffer(t2, t1);
  }

  /** Path of setTemperatureSetpoint; `valueText` is the JavaScript rendering of the number. */
  function TemperatureSetpointPath(valueText: string): string {
    "/setpoint/temp/" + valueText
  }

  /** Path of setHumiditySetpoint. */
  function HumiditySetpointPath(valueText: string): string {
    "/setpoint/hum/" + valueText
  }

  /** A temperature setpoint request is never taken for a humidity one, and each carries its value. */
  lemma SetpointPathsDiffer(t: string, h: string)
    ensures TemperatureSetpointPath(t) != HumiditySetpointPath(h)
    ensures TemperatureSetpointPath(t)[15..] == t && HumiditySetpointPath(h)[14..] == h
  {
    assert TemperatureSetpointPath(t)[10] == 't';
    assert HumiditySetpointPath(h)[10] == 'h';
  }

  /**
   * What an axios error exposes to the classifier: `error.code`, the HTTP status of
   * `error.response` (None when no response arrived) and `error.message`.
   */
  datatype RequestError = RequestError(code: Option<string>, status: Option<int>, message: string)

  datatype FetchFailure = Timeout | Cors | NotFound | ServerError | Other(message: string)

  const Aborted: string := "ECONNABORTED"

  /** The ordered cascade of getData's catch block. */
  function ClassifyFetchError(e: RequestError): (f: FetchFailure)
    ensures f == Timeout <==> e.code == Some(Aborted)
    ensures f == Cors <==> e.code != Some(Aborted) && e.status == Some(0)
    ensures f == NotFound <==> e.code != Some(Aborted) && e.status == Some(404)
    ensures f == ServerError <==> e.code != Some(Aborted) && e.status.Some? && e.status.value >= 500
    ensures f.Other? <==> e.code != Some(Aborted) && (e.status.None? || (e.status.value !in {0, 404} && e.status.value < 500))
    ensures f.Other? ==> f.message == e.message
  {
    if e.code == Some(Aborted) then Timeout
    else if e.status == Some(0) then Cors
    else if e.status == Some(404) then NotFound
    else if e.status.Some? && e.status.value >= 500 then ServerError
    else Other(e.message)
  }

  /** The message of the Error that getData rethrows. */
  function FetchFailureMessage(f: FetchFailure): string {
    match f
    case Timeout => "Timeout: " + "El Arduino no respondió en el tiempo esperado"
    case Cors => "Error de CORS: " + "No se puede conectar al Arduino desde el navegador"
    case NotFound => "Endpoint no encontrado: " + "Verifica que el Arduino esté funcionando"
    case ServerError => "Error del servidor Arduino: " + "Verifica la conexión"
    case Other(m) => "Error de conexión: " + m
  }

  /** The rethrown message tells which branch of the cascade was taken, and the original message. */
  lemma FetchFailureMessageInjective(f: FetchFailure, g: FetchFailure)
    ensures FetchFailureMessage(f) == FetchFailureMessage(g) ==> f == g
  {
    var mf, mg := FetchFailureMessage(f), FetchFailureMessage(g);
    if f != g {
      if f.Other? && g.Other? {
        assert mf[19..] == f.message && mg[19..] == g.message;
      } else {
        // Two different branches: their messages differ in one of the first ten characters.
        var i := if f.Timeout? || g.Timeout? then 0
                 else if f.NotFound? || g.NotFound? then 1
                 else if f.ServerError? || g.ServerError? then 8
                 else 9;
        assert mf[i] != mg[i];
      }
    }
  }

  /** greenhouseAPI.getData: the body on success, otherwise the classified error, always rethrown. */
  function GetData<T>(response: Result<T, RequestError>): (r: Result<T, string>)
    ensures r.Ok? <==> response.Ok?
    ensures r.Ok? ==> r.value == response.value
    ensures r.Err? ==> r.error == FetchFailureMessage(ClassifyFetchError(response.error))
  {
    match response
    case Ok(body) => Ok(body)
    case Err(e) => Err(FetchFailureMessage(ClassifyFetchError(e)))
  }

  /** The object testConnection resolves to: `{success, data}` or `{success, error}`. */
  datatype ConnectionTest<T> = ConnectionTest(success: bool, data: Option<T>, error: Option<string>)

  /** greenhouseAPI.testConnection: never throws; a failure carries the raw, unclassified message. */
  function TestConnection<T>(response: Result<T, RequestError>): (t: ConnectionTest<T>)
    ensures t.success <==> response.Ok?
    ensures t.success ==> t.data == Some(response.value) && t.error.None?
    ensures !t.success ==> t.data.None? && t.error == Some(response.error.message)
  {
    match response
    case Ok(body) => ConnectionTest(true, Some(body), None)
    case Err(e) => ConnectionTest(false, None, Some(e.message))
  }
}
