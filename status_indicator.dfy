/**
 * The connection badge of the dashboard: the precedence between an error, a live
 * connection and no connection, and the age of the last successful update.
 */
module StatusIndicator {
  import opened Wrappers
  import opened Decimal

  /** A JavaScript string used as a condition: null and "" are both falsy. */
  predicate Present(error: Option<string>) {
    error.Some? && error.value != []
  }

  datatype Tone = ErrorTone | ConnectedTone | DisconnectedTone

  /** The precedence getStatusColor, getStatusText and getStatusIcon all follow: error first, then connected. */
  function StatusTone(isConnected: bool, error: Option<string>): (t: Tone)
    ensures t == ErrorTone <==> Present(error)
    ensures t == ConnectedTone <==> !Present(error) && isConnected
    ensures t == DisconnectedTone <==> !Present(error) && !isConnected
  {
    if Present(error) then ErrorTone else if isConnected then ConnectedTone else DisconnectedTone
  }

  /** getStatusText. */
  function StatusText(isConnected: bool, error: Option<string>): (text: string)
    ensures text == "Error de conexión" <==> Present(error)
    ensures text == "Conectado" <==> !Present(error) && isConnected
    ensures text == "Desconectado" <==> !Present(error) && !isConnected
  {
    match StatusTone(isConnected, error)
    case ErrorTone => "Error de conexión"
    case ConnectedTone => "Conectado"
    case DisconnectedTone => "Desconectado"
  }

  /** getStatusColor: the CSS classes of the badge. */
  function StatusColor(isConnected: bool, error: Option<string>): (classes: string)
    ensures classes == "text-red-600 bg-red-100" <==> Present(error)
    ensures classes == "text-green-600 bg-green-100" <==> !Present(error) && isConnected
    ensures classes == "text-yellow-600 bg-yellow-100" <==> !Present(error) && !isConnected
  {
    match StatusTone(isConnected, error)
    case ErrorTone => "text-red-600 bg-red-100"
    case ConnectedTone => "text-green-600 bg-green-100"
    case DisconnectedTone => "text-yellow-600 bg-yellow-100"
  }

  /** The two drawings getStatusIcon chooses from: the error and the disconnected badge share one. */
  datatype Icon = AlertIcon | CheckIcon

  /** getStatusIcon. */
  function StatusIcon(isConnected: bool, error: Option<string>): (icon: Icon)
    ensures icon == CheckIcon <==> !Present(error) && isConnected
  {
    match StatusTone(isConnected, error)
    case ErrorTone => AlertIcon
    case ConnectedTone => CheckIcon
    case DisconnectedTone => AlertIcon
  }

  /** Text and colour always tell the same story: two states show the same text iff they show the same colour. */
  lemma TextAndColorAgree(a: bool, e: Option<string>, b: bool, f: Option<string>)
    ensures StatusText(a, e) == StatusText(b, f) <==> StatusColor(a, e) == StatusColor(b, f)
    ensures StatusText(a, e) == StatusText(b, f) ==> StatusIcon(a, e) == StatusIcon(b, f)
  {
  }

  /** The age of the last update, in the unit formatLastUpdate picks. */
  datatype Elapsed = Seconds(n: int) | Minutes(n: int) | Hours(n: int)

  /**
   * The bucketing of formatLastUpdate for `diff` milliseconds: seconds below one
   * minute, minutes below one hour, hours beyond, each count rounded down.
   */
  function ElapsedSince(diff: int): (e: Elapsed)
    ensures e.Seconds? <==> diff < 60000
    ensures e.Minutes? <==> 60000 <= diff < 3600000
    ensures e.Hours? <==> 3600000 <= diff
    ensures e.Seconds? ==> e.n * 1000 <= diff < e.n * 1000 + 1000
    ensures e.Minutes? ==> 1 <= e.n < 60 && e.n * 60000 <= diff < e.n * 60000 + 60000
    ensures e.Hours? ==> 1 <= e.n && e.n * 3600000 <= diff < e.n * 3600000 + 3600000
  {
    // Dafny's division is Euclidean, which for a positive divisor is Math.floor's.
    var seconds := diff / 1000;
    var minutes := seconds / 60;
    assert seconds * 1000 <= diff < seconds * 1000 + 1000;
    assert minutes * 60 <= seconds < minutes * 60 + 60;
    assert minutes * 60000 <= diff < minutes * 60000 + 60000;
    if seconds < 60 then Seconds(seconds)
    else if minutes < 60 then Minutes(minutes)
    else
      var hours := minutes / 60;
      assert hours * 60 <= minutes < hours * 60 + 60;
      assert hours * 3600000 <= diff < hours * 3600000 + 3600000;
      Hours(hours)
  }

  function UnitLetter(e: Elapsed): char {
    match e
    case Seconds(_) => 's'
    case Minutes(_) => 'm'
    case Hours(_) => 'h'
  }

  /** formatLastUpdate, with the current time `now` (milliseconds) as an input. */
  function FormatLastUpdate(lastUpdate: Option<int>, now: int): (text: string)
    ensures text == "Nunca" <==> lastUpdate.None?
    ensures lastUpdate.Some? ==> |text| >= 2 && text[|text| - 1] == UnitLetter(ElapsedSince(now - lastUpdate.value))
    ensures lastUpdate.Some? ==> text[..|text| - 1] == IntToString(ElapsedSince(now - lastUpdate.value).n)
  {
    match lastUpdate
    case None => "Nunca"
    case Some(t) =>
      var e := ElapsedSince(now - t);
      var text := IntToString(e.n) + [UnitLetter(e)];
      assert text[|text| - 1] != "Nunca"[4];
      text
  }

  /** The shown text is the count of the chosen unit followed by its letter: it reads back. */
  lemma FormatLastUpdateReadsBack(lastUpdate: int, now: int)
    ensures var text := FormatLastUpdate(Some(lastUpdate), now);
            var e := ElapsedSince(now - lastUpdate);
            |text| >= 2 && text[..|text| - 1] == IntToString(e.n)
    ensures var text := FormatLastUpdate(Some(lastUpdate), now);
            var e := ElapsedSince(now - lastUpdate);
            ParseInt(text[..|text| - 1]) == Some(e.n)
  {
    var e := ElapsedSince(now - lastUpdate);
    var text := FormatLastUpdate(Some(lastUpdate), now);
    assert text[..|text| - 1] == IntToString(e.n);
    ParseIntOfIntToString(e.n);
  }
}
