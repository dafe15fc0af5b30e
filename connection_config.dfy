/**
 * The connection settings panel: the IPv4, port and timeout validators, and the
 * form's state machine (fields, edit flag, open and loading flags, test result).
 * The callbacks it receives (onTestConnection, onConnectionChange, onResetConfig)
 * and window.confirm are inputs: each handler is split into a Begin step, which
 * runs up to the first await and returns what the callback is called with, and a
 * Complete step, which takes the callback's outcome.
 */
module ConnectionConfig {
  import opened Wrappers
  import opened Decimal
  import Api

  // ---------------------------------------------------------------------------
  // Splitting on a separator

  /** The pieces of `s` between occurrences of `sep`, as `s.split(sep)` returns them. */
  function Split(s: string, sep: char): (parts: seq<string>)
    ensures |parts| >= 1
    ensures forall i :: 0 <= i < |parts| ==> sep !in parts[i]
    ensures Join(parts, sep) == s
  {
    if s == [] then
      [[]]
    else
      var rest := Split(s[1..], sep);
      if s[0] == sep then
        [[]] + rest
      else
        JoinConsFirst(s[0], rest, sep);
        [[s[0]] + rest[0]] + rest[1..]
  }

  /** The pieces glued back together with `sep` between them. */
  function Join(parts: seq<string>, sep: char): string
    requires |parts| >= 1
  {
    if |parts| == 1 then parts[0] else parts[0] + [sep] + Join(parts[1..], sep)
  }

  lemma JoinConsFirst(c: char, parts: seq<string>, sep: char)
    requires |parts| >= 1
    ensures Join([[c] + parts[0]] + parts[1..], sep) == [c] + Join(parts, sep)
  {
  }

  /** A piece without the separator, followed by the separator, starts a new piece. */
  lemma {:induction false} SplitAfterPiece(a: string, sep: char, b: string)
    requires sep !in a
    ensures Split(a + [sep] + b, sep) == [a] + Split(b, sep)
    decreases |a|
  {
    if a == [] {
      assert a + [sep] + b == [sep] + b;
      assert ([sep] + b)[1..] == b;
    } else {
      var s := a + [sep] + b;
      assert s[1..] == a[1..] + [sep] + b;
      SplitAfterPiece(a[1..], sep, b);
      assert [a[0]] + a[1..] == a;
    }
  }

  /** Text without the separator is a single piece. */
  lemma SplitWithoutSeparator(a: string, sep: char)
    requires sep !in a
    ensures Split(a, sep) == [a]
  {
  }

  // ---------------------------------------------------------------------------
  // The IPv4 validator

  /**
   * One octet of the address pattern: 25[0-5] | 2[0-4][0-9] | [01]?[0-9][0-9]?,
   * written out alternative by alternative.
   */
  predicate OctetPattern(g: string) {
    || (|g| == 3 && g[0] == '2' && g[1] == '5' && '0' <= g[2] <= '5')
    || (|g| == 3 && g[0] == '2' && '0' <= g[1] <= '4' && IsDigit(g[2]))
    || (|g| == 1 && IsDigit(g[0]))
    || (|g| == 2 && IsDigit(g[0]) && IsDigit(g[1]))
    || (|g| == 3 && (g[0] == '0' || g[0] == '1') && IsDigit(g[1]) && IsDigit(g[2]))
  }

  /** What the octet pattern means: one to three digits whose value is at most 255. */
  predicate DecimalOctet(g: string) {
    1 <= |g| <= 3 && AllDigits(g) && DigitsValue(g) <= 255
  }

  lemma OctetPatternIsDecimalOctet(g: string)
    ensures OctetPattern(g) <==> DecimalOctet(g)
  {
    if 1 <= |g| <= 3 && AllDigits(g) {
      ShortDigitsValue(g);
    }
  }

  /** The value of one, two or three digits, written out. */
  lemma ShortDigitsValue(g: string)
    requires 1 <= |g| <= 3 && AllDigits(g)
    ensures |g| == 1 ==> DigitsValue(g) == DigitValue(g[0])
    ensures |g| == 2 ==> DigitsValue(g) == DigitValue(g[0]) * 10 + DigitValue(g[1])
    ensures |g| == 3 ==> DigitsValue(g) == DigitValue(g[0]) * 100 + DigitValue(g[1]) * 10 + DigitValue(g[2])
  {
  }

  /** The language of the anchored address pattern: four octets joined by dots. */
  ghost predicate MatchesIpPattern(ip: string) {
    exists a, b, c, d ::
      OctetPattern(a) && OctetPattern(b) && OctetPattern(c) && OctetPattern(d) &&
      ip == a + "." + b + "." + c + "." + d
  }

  /** Four dot-separated groups, each of one to three digits worth at most 255; leading zeros allowed. */
  predicate DottedQuad(ip: string) {
    var groups := Split(ip, '.');
    |groups| == 4 && forall i :: 0 <= i < 4 ==> DecimalOctet(groups[i])
  }

  /** validateIpAddress: the pattern test, done by splitting at the dots and testing each group. */
  function ValidateIpAddress(ip: string): (ok: bool)
    ensures ok <==> MatchesIpPattern(ip)
    ensures ok <==> DottedQuad(ip)
  {
    var groups := Split(ip, '.');
    var ok := |groups| == 4 && forall i :: 0 <= i < 4 ==> OctetPattern(groups[i]);
    ValidatorMatchesPattern(ip, groups, ok);
    ok
  }

  lemma ValidatorMatchesPattern(ip: string, groups: seq<string>, ok: bool)
    requires groups == Split(ip, '.')
    requires ok == (|groups| == 4 && forall i :: 0 <= i < 4 ==> OctetPattern(groups[i]))
    ensures ok <==> MatchesIpPattern(ip)
    ensures ok <==> DottedQuad(ip)
  {
    forall i | 0 <= i < |groups| {
      OctetPatternIsDecimalOctet(groups[i]);
    }
    if ok {
      var a, b, c, d := groups[0], groups[1], groups[2], groups[3];
      JoinFour(groups);
      assert OctetPattern(a) && OctetPattern(b) && OctetPattern(c) && OctetPattern(d) &&
             ip == a + "." + b + "." + c + "." + d;
    }
    if MatchesIpPattern(ip) {
      var a, b, c, d :| OctetPattern(a) && OctetPattern(b) && OctetPattern(c) && OctetPattern(d) &&
                        ip == a + "." + b + "." + c + "." + d;
      OctetHasNoDot(a);
      OctetHasNoDot(b);
      OctetHasNoDot(c);
      OctetHasNoDot(d);
      JoinFour([a, b, c, d]);
      SplitJoin([a, b, c, d], '.');
    }
  }

  lemma JoinFour(groups: seq<string>)
    requires |groups| == 4
    ensures Join(groups, '.') == groups[0] + "." + groups[1] + "." + groups[2] + "." + groups[3]
  {
    var tail2 := groups[2..];
    assert groups[1..][1..] == tail2 && tail2[1..] == [groups[3]];
    assert Join(tail2, '.') == groups[2] + "." + groups[3];
    assert Join(groups[1..], '.') == groups[1] + "." + (groups[2] + "." + groups[3]);
  }

  /** Splitting what Join glued gives back the pieces, when no piece holds the separator. */
  lemma {:induction false} SplitJoin(parts: seq<string>, sep: char)
    requires |parts| >= 1
    requires forall i :: 0 <= i < |parts| ==> sep !in parts[i]
    ensures Split(Join(parts, sep), sep) == parts
    decreases |parts|
  {
    if |parts| == 1 {
      SplitWithoutSeparator(parts[0], sep);
    } else {
      SplitAfterPiece(parts[0], sep, Join(parts[1..], sep));
      SplitJoin(parts[1..], sep);
    }
  }

  lemma OctetHasNoDot(g: string)
    requires OctetPattern(g)
    ensures '.' !in g
  {
  }

  /** The address of the default configuration is accepted. */
  lemma DefaultAddressAccepted()
    ensures ValidateIpAddress("192.168.2.14")
  {
    QuadExample(["192", "168", "2", "14"], "192.168.2.14");
  }

  /** Leading zeros are accepted. */
  lemma LeadingZerosAccepted()
    ensures ValidateIpAddress("010.0.0.255")
  {
    QuadExample(["010", "0", "0", "255"], "010.0.0.255");
  }

  /** A group above 255 is refused. */
  lemma GroupAbove255Refused()
    ensures !ValidateIpAddress("256.1.1.1")
  {
  }

  /** A group of four digits is refused. */
  lemma FourDigitGroupRefused()
    ensures !ValidateIpAddress("1000.1.1.1")
  {
  }

  /** An empty group is refused. */
  lemma EmptyGroupRefused()
    ensures !ValidateIpAddress("1..2.3")
  {
  }

  /** Three groups are refused. */
  lemma ThreeGroupsRefused()
    ensures !ValidateIpAddress("1.2.3")
  {
  }

  /** Five groups are refused. */
  lemma FiveGroupsRefused()
    ensures !ValidateIpAddress("1.2.3.4.5")
  {
  }

  lemma QuadExample(parts: seq<string>, ip: string)
    requires |parts| == 4 && parts[0] + "." + parts[1] + "." + parts[2] + "." + parts[3] == ip
    requires forall i :: 0 <= i < |parts| ==> AllDigits(parts[i])
    ensures Split(ip, '.') == parts
  {
    JoinFour(parts);
    SplitExample(parts, ip);
  }

  lemma SplitExample(parts: seq<string>, ip: string)
    requires |parts| >= 1 && Join(parts, '.') == ip
    requires forall i :: 0 <= i < |parts| ==> AllDigits(parts[i])
    ensures Split(ip, '.') == parts
  {
    forall i | 0 <= i < |parts| ensures '.' !in parts[i] {
      assert forall k :: 0 <= k < |parts[i]| ==> IsDigit(parts[i][k]);
    }
    SplitJoin(parts, '.');
  }

  // ---------------------------------------------------------------------------
  // Port and timeout

  /** isValidPort: the field, read as a number, lies in 1..65535. */
  function IsValidPort(port: string): (valid: bool)
    ensures valid <==> port != [] && AllDigits(port) && 1 <= DigitsValue(port) <= 65535
  {
    match ToNumber(port)
    case Some(n) => 1 <= n <= 65535
    case None => false
  }

  /** isValidTimeout: the field, read as a number, lies in 1000..60000. */
  function IsValidTimeout(timeout: string): (valid: bool)
    ensures valid <==> timeout != [] && AllDigits(timeout) && 1000 <= DigitsValue(timeout) <= 60000
  {
    match ToNumber(timeout)
    case Some(n) => 1000 <= n <= 60000
    case None => false
  }

  /** A port or timeout written by `String(n)` is valid exactly when the number is in range. */
  lemma ValidRangesOfWrittenNumbers(n: nat)
    ensures IsValidPort(NatToString(n)) <==> 1 <= n <= 65535
    ensures IsValidTimeout(NatToString(n)) <==> 1000 <= n <= 60000
  {
  }

  // ---------------------------------------------------------------------------
  // The form

  datatype TestResult = TestResult(success: bool, message: string)

  /** The field values a Begin step hands to onTestConnection. */
  datatype FormValues = FormValues(ip: string, port: string, timeout: string)

  /** What onConnectionChange is called with: the timeout goes through parseInt (None is NaN). */
  datatype ConnectionChange = ConnectionChange(ip: string, port: string, timeout: Option<int>)

  /** How the awaited onTestConnection settled: a `{success, error}` response, or a throw. */
  datatype TestOutcome = Responded(success: bool, error: string) | Threw(message: string)

  /** A confirmed reset, with the currentConnectionInfo prop its handler closed over. */
  datatype ResetRequest = ResetRequest(info: Option<Api.ConnectionInfo>)

  const SavedMessage: string := "Conexión exitosa! Configuración actualizada."
  const TestedMessage: string := "Conexión exitosa! Puedes guardar la configuración."
  const ResetMessage: string := "Configuración reseteada a valores por defecto."

  function ConnectionErrorMessage(error: string): string { "Error de conexión: " + error }
  function ThrownMessage(message: string): string { "Error: " + message }
  function ResetErrorMessage(message: string): string { "Error al resetear: " + message }

  /**
   * The call handleSubmit makes to onConnectionChange: only after a successful
   * test, with the fields it closed over and the timeout read by parseInt.
   */
  function SubmitChange(sent: FormValues, test: TestOutcome): (change: Option<ConnectionChange>)
    ensures change.Some? <==> test.Responded? && test.success
    ensures change.Some? ==> change.value.ip == sent.ip && change.value.port == sent.port
    ensures change.Some? ==> change.value.timeout == ParseInt(sent.timeout)
    ensures change.Some? && sent.timeout != [] && AllDigits(sent.timeout) ==> change.value.timeout == Some(DigitsValue(sent.timeout))
  {
    if test.Responded? && test.success then Some(ConnectionChange(sent.ip, sent.port, ParseInt(sent.timeout))) else None
  }

  /**
   * "1e4" is a number to `Number` (10000), but `parseInt` stops at the 'e': a
   * successful save hands the parent a timeout of 1.
   */
  lemma ExponentTimeoutSavedAsOne(ip: string, port: string)
    ensures SubmitChange(FormValues(ip, port, "1e4"), Responded(true, "")) == Some(ConnectionChange(ip, port, Some(1)))
  {
    ParseIntOfDigitRun("1", "e4");
    assert "1" + "e4" == "1e4";
  }

  /**
   * The result a settled connection test shows: the given success message, the
   * device's error, or the message of what was thrown.
   */
  function TestOutcomeResult(test: TestOutcome, successMessage: string): (r: TestResult)
    ensures r.success <==> test.Responded? && test.success
    ensures r.success ==> r.message == successMessage
    ensures test.Responded? && !test.success ==> r.message == ConnectionErrorMessage(test.error)
    ensures test.Threw? ==> r.message == ThrownMessage(test.message)
  {
    match test
    case Threw(message) => TestResult(false, ThrownMessage(message))
    case Responded(success, error) => TestResult(success, if success then successMessage else ConnectionErrorMessage(error))
  }

  class ConnectionForm {
    var isOpen: bool
    var ipAddress: string
    var port: string
    var timeout: string
    var isLoading: bool
    var testResult: Option<TestResult>
    var hasUserEdited: bool
    /** initialLoadRef.current */
    var initialLoad: bool

    constructor ()
      ensures !isOpen && ipAddress == "" && port == "80" && timeout == "10000"
      ensures !isLoading && testResult.None? && !hasUserEdited && !initialLoad
    {
      isOpen := false;
      ipAddress := "";
      port := "80";
      timeout := "10000";
      isLoading := false;
      testResult := None;
      hasUserEdited := false;
      initialLoad := false;
    }

    function Values(): FormValues
      reads this
    {
      FormValues(ipAddress, port, timeout)
    }

    /** Test and Save are enabled: not loading, and IP, port and timeout all valid. */
    function ActionsEnabled(): (enabled: bool)
      reads this
      ensures enabled <==> !isLoading && DottedQuad(ipAddress) &&
                           port != [] && AllDigits(port) && 1 <= DigitsValue(port) <= 65535 &&
                           timeout != [] && AllDigits(timeout) && 1000 <= DigitsValue(timeout) <= 60000
    {
      !isLoading && ValidateIpAddress(ipAddress) && IsValidPort(port) && IsValidTimeout(timeout)
    }

    /** Copies currentConnectionInfo into the three fields. */
    method LoadFields(info: Api.ConnectionInfo)
      modifies this
      ensures ipAddress == info.ip && port == info.port && timeout == IntToString(info.timeout)
      ensures isOpen == old(isOpen) && isLoading == old(isLoading) && testResult == old(testResult)
      ensures hasUserEdited == old(hasUserEdited) && initialLoad == old(initialLoad)
    {
      ipAddress := info.ip;
      port := info.port;
      timeout := IntToString(info.timeout);
    }

    /** The first effect: fill the form the first time connection info is present. */
    method InitialLoadEffect(info: Option<Api.ConnectionInfo>)
      modifies this
      ensures info.Some? && !old(initialLoad) ==>
                ipAddress == info.value.ip && port == info.value.port &&
                timeout == IntToString(info.value.timeout) && initialLoad
      ensures !(info.Some? && !old(initialLoad)) ==> ipAddress == old(ipAddress) && port == old(port) && timeout == old(timeout) && initialLoad == old(initialLoad)
      ensures isOpen == old(isOpen) && isLoading == old(isLoading) && testResult == old(testResult)
      ensures hasUserEdited == old(hasUserEdited)
    {
      if info.Some? && !initialLoad {
        LoadFields(info.value);
        initialLoad := true;
      }
    }

    /** The second effect: later connection info overwrites the form only while unedited and closed. */
    method SyncEffect(info: Option<Api.ConnectionInfo>)
      modifies this
      ensures info.Some? && initialLoad && !hasUserEdited && !isOpen ==>
                ipAddress == info.value.ip && port == info.value.port &&
                timeout == IntToString(info.value.timeout)
      ensures !(info.Some? && initialLoad && !hasUserEdited && !isOpen) ==> ipAddress == old(ipAddress) && port == old(port) && timeout == old(timeout)
      ensures isOpen == old(isOpen) && isLoading == old(isLoading) && testResult == old(testResult)
      ensures hasUserEdited == old(hasUserEdited) && initialLoad == old(initialLoad)
    {
      if info.Some? && initialLoad && !hasUserEdited && !isOpen {
        LoadFields(info.value);
      }
    }

    /** The Configurar/Ocultar button. */
    method TogglePanel()
      modifies this
      ensures isOpen == !old(isOpen)
      ensures ipAddress == old(ipAddress) && port == old(port) && timeout == old(timeout) && isLoading == old(isLoading) && testResult == old(testResult)
      ensures hasUserEdited == old(hasUserEdited) && initialLoad == old(initialLoad)
    {
      isOpen := !isOpen;
    }

    /** handleInputChange: marks the form edited and sets the named field; other names set nothing. */
    method HandleInputChange(field: string, value: string)
      modifies this
      ensures hasUserEdited
      ensures ipAddress == (if field == "ip" then value else old(ipAddress))
      ensures port == (if field == "port" then value else old(port))
      ensures timeout == (if field == "timeout" then value else old(timeout))
      ensures isOpen == old(isOpen) && isLoading == old(isLoading) && testResult == old(testResult)
      ensures initialLoad == old(initialLoad)
    {
      hasUserEdited := true;
      if field == "ip" {
        ipAddress := value;
      } else if field == "port" {
        port := value;
      } else if field == "timeout" {
        timeout := value;
      }
    }

    /** handleSubmit up to its first await: loading, result cleared, the fields sent to the test. */
    method BeginSubmit() returns (sent: FormValues)
      modifies this
      ensures isLoading && testResult.None? && sent == old(Values())
      ensures ipAddress == old(ipAddress) && port == old(port) && timeout == old(timeout) && isOpen == old(isOpen)
      ensures hasUserEdited == old(hasUserEdited) && initialLoad == old(initialLoad)
    {
      isLoading := true;
      testResult := None;
      sent := Values();
    }

    /**
     * handleSubmit once the test settles, up to its second await. `sent` are the
     * fields the handler closed over. After a successful test the handler awaits
     * onConnectionChange, called with `change`, and nothing changes yet; otherwise
     * the failure is shown and loading ends.
     */
    method ContinueSubmit(sent: FormValues, test: TestOutcome) returns (change: Option<ConnectionChange>)
      modifies this`isLoading, this`testResult
      ensures change == SubmitChange(sent, test)
      ensures change.Some? ==> isLoading == old(isLoading) && testResult == old(testResult)
      ensures change.None? ==> !isLoading && testResult == Some(TestOutcomeResult(test, SavedMessage)) && !testResult.value.success
    {
      change := SubmitChange(sent, test);
      if change.None? {
        testResult := Some(TestOutcomeResult(test, SavedMessage));
        isLoading := false;
      }
    }

    /**
     * The rest of handleSubmit; `changeError` is what onConnectionChange threw, if it
     * threw. Only a save that went through closes the panel and clears the edit flag.
     */
    method CompleteSubmit(changeError: Option<string>)
      modifies this`isLoading, this`testResult, this`isOpen, this`hasUserEdited
      ensures !isLoading
      ensures changeError.None? ==> testResult == Some(TestResult(true, SavedMessage)) && !isOpen && !hasUserEdited
      ensures changeError.Some? ==> testResult == Some(TestResult(false, ThrownMessage(changeError.value)))
      ensures changeError.Some? ==> isOpen == old(isOpen) && hasUserEdited == old(hasUserEdited)
    {
      if changeError.Some? {
        testResult := Some(TestResult(false, ThrownMessage(changeError.value)));
      } else {
        testResult := Some(TestResult(true, SavedMessage));
        isOpen := false;
        hasUserEdited := false;
      }
      isLoading := false;
    }

    /** handleTestOnly up to its await. */
    method BeginTestOnly() returns (sent: FormValues)
      modifies this
      ensures isLoading && testResult.None? && sent == old(Values())
      ensures ipAddress == old(ipAddress) && port == old(port) && timeout == old(timeout) && isOpen == old(isOpen)
      ensures hasUserEdited == old(hasUserEdited) && initialLoad == old(initialLoad)
    {
      isLoading := true;
      testResult := None;
      sent := Values();
    }

    /** The rest of handleTestOnly: only the result and the loading flag change. */
    method CompleteTestOnly(test: TestOutcome)
      modifies this`isLoading, this`testResult
      ensures !isLoading && testResult == Some(TestOutcomeResult(test, TestedMessage))
    {
      testResult := Some(TestOutcomeResult(test, TestedMessage));
      isLoading := false;
    }

    /** handleReset up to its await; without the user's confirmation nothing happens at all. */
    method BeginReset(confirmed: bool, info: Option<Api.ConnectionInfo>) returns (request: Option<ResetRequest>)
      modifies this
      ensures request.Some? <==> confirmed
      ensures confirmed ==> request.value.info == info && isLoading
      ensures !confirmed ==> isLoading == old(isLoading)
      ensures ipAddress == old(ipAddress) && port == old(port) && timeout == old(timeout) && isOpen == old(isOpen) && testResult == old(testResult)
      ensures hasUserEdited == old(hasUserEdited) && initialLoad == old(initialLoad)
    {
      request := None;
      if confirmed {
        isLoading := true;
        request := Some(ResetRequest(info));
      }
    }

    /** The rest of handleReset; `error` is what onResetConfig threw, if it threw. */
    method CompleteReset(request: ResetRequest, error: Option<string>)
      modifies this
      ensures !isLoading
      ensures error.Some? ==>
                testResult == Some(TestResult(false, ResetErrorMessage(error.value))) &&
                ipAddress == old(ipAddress) && port == old(port) && timeout == old(timeout) && isOpen == old(isOpen) && hasUserEdited == old(hasUserEdited)
      ensures error.None? ==> testResult == Some(TestResult(true, ResetMessage)) && !isOpen && !hasUserEdited
      ensures error.None? && request.info.Some? ==>
                ipAddress == request.info.value.ip && port == request.info.value.port &&
                timeout == IntToString(request.info.value.timeout)
      ensures error.None? && request.info.None? ==> ipAddress == old(ipAddress) && port == old(port) && timeout == old(timeout)
      ensures initialLoad == old(initialLoad)
    {
      if error.Some? {
        testResult := Some(TestResult(false, ResetErrorMessage(error.value)));
      } else {
        testResult := Some(TestResult(true, ResetMessage));
        isOpen := false;
        hasUserEdited := false;
        if request.info.Some? {
          LoadFields(request.info.value);
        }
      }
      isLoading := false;
    }
  }

  // ---------------------------------------------------------------------------
  // Scenarios

  /**
   * Once the user has typed into the form, later connection info no longer
   * overwrites the field, even with the panel closed again.
   */
  method EditedFormIgnoresUpdates(first: Api.ConnectionInfo, later: Api.ConnectionInfo, typed: string)
    returns (shown: string)
    ensures shown == typed
  {
    var form := new ConnectionForm();
    form.InitialLoadEffect(Some(first));
    form.TogglePanel();
    form.HandleInputChange("ip", typed);
    form.TogglePanel();
    form.SyncEffect(Some(later));
    shown := form.ipAddress;
  }

  /**
   * A successful save hands the typed IP and the loaded timeout (read back by
   * parseInt) to the parent, closes the panel and clears the edit flag, so the
   * next connection info fills the form again.
   */
  method SavedFormFollowsUpdates(first: Api.ConnectionInfo, later: Api.ConnectionInfo, typed: string)
    returns (change: Option<ConnectionChange>, shown: string)
    ensures change == Some(ConnectionChange(typed, first.port, Some(first.timeout)))
    ensures shown == later.ip
  {
    var form := new ConnectionForm();
    form.InitialLoadEffect(Some(first));
    form.TogglePanel();
    form.HandleInputChange("ip", typed);
    var sent := form.BeginSubmit();
    assert sent == FormValues(typed, first.port, IntToString(first.timeout));
    change := form.ContinueSubmit(sent, Responded(true, ""));
    SavedTimeoutReadsBack(sent, first.timeout);
    form.CompleteSubmit(None);
    form.SyncEffect(Some(later));
    shown := form.ipAddress;
  }

  /** A timeout the form loaded from connection info reaches the parent as the same integer. */
  lemma SavedTimeoutReadsBack(sent: FormValues, t: int)
    requires sent.timeout == IntToString(t)
    ensures SubmitChange(sent, Responded(true, "")) == Some(ConnectionChange(sent.ip, sent.port, Some(t)))
  {
    ParseIntOfIntToString(t);
  }

  /** A failed test keeps the panel open with the typed text, and reports the device's error. */
  method FailedTestKeepsEdits(first: Api.ConnectionInfo, typed: string, error: string)
    returns (change: Option<ConnectionChange>, open: bool, shown: string, result: Option<TestResult>)
    ensures change.None? && open && shown == typed
    ensures result == Some(TestResult(false, ConnectionErrorMessage(error)))
  {
    var form := new ConnectionForm();
    form.InitialLoadEffect(Some(first));
    form.TogglePanel();
    form.HandleInputChange("ip", typed);
    var sent := form.BeginSubmit();
    change := form.ContinueSubmit(sent, Responded(false, error));
    open, shown, result := form.isOpen, form.ipAddress, form.testResult;
  }
}
