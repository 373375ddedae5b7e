/**
 * The enhanced connection test: every port classified by its description
 * and ranked, an interactive choice that skips the question when exactly one
 * Arduino board is present, and a ten-second listen that counts CSV lines
 * whose flow and volume fields are numbers, stopping at the third.
 */
module ConnectionTestEnhanced {
  import opened Wrappers
  import opened Text
  import opened Numbers
  import opened Samples
  import opened Wire
  import opened Ports
  import opened Readings

  // ---------------------------------------------------------------- ports

  /** The type and priority the script gives a description; the first matching rule wins. */
  function Categorize(description: string): (r: (PortKind, int))
    ensures 1 <= r.1 <= 4
    ensures r.1 == 1 <==> r.0 == Arduino
    ensures r.1 == 4 <==> r.0 == Bluetooth
    ensures r.1 == 2 <==> r.0 == UsbSerial || r.0 == UsbDevice
    ensures var u := Upper(description);
      (r.0 == Arduino <==> ContainsAny(u, BoardKeywords))
      && (r.0 == UsbSerial <==> !ContainsAny(u, BoardKeywords) && ContainsAny(u, BridgeKeywords))
      && (r.0 == UsbDevice <==> !ContainsAny(u, BoardKeywords) && !ContainsAny(u, BridgeKeywords) && Contains(u, "USB"))
      && (r.0 == Bluetooth <==>
            (!ContainsAny(u, BoardKeywords) && !ContainsAny(u, BridgeKeywords) && !Contains(u, "USB") && Contains(u, "BLUETOOTH")))
  {
    var u := Upper(description);
    if ContainsAny(u, BoardKeywords) then (Arduino, 1)
    else if ContainsAny(u, BridgeKeywords) then (UsbSerial, 2)
    else if Contains(u, "USB") then (UsbDevice, 2)
    else if Contains(u, "BLUETOOTH") then (Bluetooth, 4)
    else (Unknown, 3)
  }

  /** One entry of `port_info`, without the hardware id, which nothing decides on. */
  datatype PortEntry = PortEntry(device: string, description: string, kind: PortKind, priority: int)

  function EntryOf(p: SerialPort): PortEntry {
    var c := Categorize(p.description);
    PortEntry(p.device, p.description, c.0, c.1)
  }

  /** `(x['priority'], x['device'])` */
  function EntryKey(e: PortEntry): Key {
    Key(e.priority, e.device)
  }

  /** The priority of an entry is the one its type carries. */
  predicate Ranked(e: PortEntry) {
    (e.priority == 1 <==> e.kind == Arduino) && (e.priority == 4 <==> e.kind == Bluetooth) && 1 <= e.priority <= 4
  }

  lemma EntriesRanked(ports: seq<SerialPort>, r: seq<PortEntry>)
    requires multiset(r) == multiset(Map(EntryOf, ports))
    ensures forall i :: 0 <= i < |r| ==> Ranked(r[i])
  {
    var m := Map(EntryOf, ports);
    forall i | 0 <= i < |r|
      ensures Ranked(r[i])
    {
      assert r[i] in multiset(m);
      var k :| 0 <= k < |m| && m[k] == r[i];
    }
  }

  /**
   * `get_available_ports`: every port, classified, in priority order (Arduino
   * boards, then USB bridges and devices, then unknown ports, then Bluetooth),
   * ports of equal priority ordered by device name.
   */
  function GetAvailablePorts(ports: seq<SerialPort>): (r: seq<PortEntry>)
    ensures |r| == |ports|
    ensures multiset(r) == multiset(Map(EntryOf, ports))
    ensures forall i, j :: 0 <= i < j < |r| ==> r[i].priority <= r[j].priority
    ensures forall i, j :: 0 <= i < j < |r| && r[i].priority == r[j].priority ==> StrLe(r[i].device, r[j].device)
    ensures forall i, j :: 0 <= i < j < |r| && r[j].kind == Arduino ==> r[i].kind == Arduino
    ensures forall i, j :: 0 <= i < j < |r| && r[i].kind == Bluetooth ==> r[j].kind == Bluetooth
  {
    var r := SortBy(Map(EntryOf, ports), EntryKey);
    assert forall i, j :: 0 <= i < j < |r| ==> KeyLe(EntryKey(r[i]), EntryKey(r[j]));
    EntriesRanked(ports, r);
    r
  }

  function IsArduinoEntry(e: PortEntry): bool { e.kind == Arduino }

  // ---------------------------------------------------------------- port selection

  /** One answer at the prompt: a typed line, or Ctrl-C. */
  datatype Keyboard = Typed(text: string) | CtrlC

  /**
   * What `select_port_interactive` ends with: a device, `None` (the user
   * typed `q` or pressed Ctrl-C), or the `EOFError` `input` raises once
   * standard input is exhausted, which nothing catches.
   */
  datatype Selection = Chosen(device: string) | Cancelled | InputClosed

  /**
   * The effect of one answer: `q` (any case, any surrounding blanks) or Ctrl-C
   * cancels, a number from 1 to the number of ports picks that port, anything
   * else (out of range, or not an integer) asks again (`None`).
   */
  function Answer(ports: seq<PortEntry>, key: Keyboard): (r: Option<Selection>)
    ensures r.Some? ==> !r.value.InputClosed?
    ensures r.Some? && r.value.Chosen? ==> exists k :: 0 <= k < |ports| && ports[k].device == r.value.device
  {
    match key
    case CtrlC => Some(Cancelled)
    case Typed(text) =>
      var choice := Lower(Strip(text));
      if choice == "q" then Some(Cancelled)
      else
        match ParseInt(choice)
        case Some(n) =>
          if 0 <= n - 1 < |ports| then Some(Chosen(ports[n - 1].device)) else None
        case None => None
  }

  /** The answer at `i` settles the prompt, and none before it did. */
  predicate SettledAt(ports: seq<PortEntry>, keys: seq<Keyboard>, i: nat) {
    i < |keys| && Answer(ports, keys[i]).Some? && forall k :: 0 <= k < i ==> Answer(ports, keys[k]).None?
  }

  /** The prompt loop over the answers `keys`: the first answer that settles it decides. */
  function FirstAnswer(ports: seq<PortEntry>, keys: seq<Keyboard>): (r: Selection)
    ensures r.Chosen? ==> exists k :: 0 <= k < |ports| && ports[k].device == r.device
  {
    if keys == [] then InputClosed
    else
      match Answer(ports, keys[0])
      case Some(s) => s
      case None => FirstAnswer(ports, keys[1..])
  }

  /**
   * The prompt ends with `EOFError` exactly when no answer settles it;
   * otherwise with the outcome of the first answer that does.
   */
  lemma {:induction false} FirstAnswerSettles(ports: seq<PortEntry>, keys: seq<Keyboard>)
    ensures FirstAnswer(ports, keys) == InputClosed <==> forall k :: 0 <= k < |keys| ==> Answer(ports, keys[k]).None?
    ensures FirstAnswer(ports, keys) != InputClosed ==>
      exists i: nat :: SettledAt(ports, keys, i) && Answer(ports, keys[i]) == Some(FirstAnswer(ports, keys))
    decreases |keys|
  {
    if keys != [] {
      var r := FirstAnswer(ports, keys);
      if Answer(ports, keys[0]).Some? {
        assert SettledAt(ports, keys, 0);
      } else {
        FirstAnswerSettles(ports, keys[1..]);
        assert forall k :: 0 < k < |keys| ==> keys[k] == keys[1..][k - 1];
        if r != InputClosed {
          var i: nat :| SettledAt(ports, keys[1..], i) && Answer(ports, keys[1..][i]) == Some(r);
          assert SettledAt(ports, keys, i + 1);
        }
      }
    }
  }

  /** The selection `select_port_interactive` makes: the only Arduino board, else the first settling answer. */
  function Selected(ports: seq<PortEntry>, keys: seq<Keyboard>): (s: Selection)
    ensures s.Chosen? ==> exists k :: 0 <= k < |ports| && ports[k].device == s.device
    ensures |Filter(ports, IsArduinoEntry)| == 1 ==>
      s.Chosen? && exists k :: 0 <= k < |ports| && ports[k].kind == Arduino && ports[k].device == s.device
  {
    if |Filter(ports, IsArduinoEntry)| == 1 then
      FilterFindsFirst(ports, IsArduinoEntry);
      Chosen(ports[FirstIndex(ports, IsArduinoEntry)].device)
    else FirstAnswer(ports, keys)
  }

  /**
   * `select_port_interactive`: with exactly one Arduino board among the ports,
   * that board is chosen without asking; otherwise the user is asked until an
   * answer settles it.
   */
  method SelectPortInteractive(ports: seq<PortEntry>, keys: seq<Keyboard>) returns (selection: Selection)
    ensures |Filter(ports, IsArduinoEntry)| == 1 ==>
      exists k :: 0 <= k < |ports| && ports[k].kind == Arduino && selection == Chosen(ports[k].device)
    ensures |Filter(ports, IsArduinoEntry)| != 1 ==> selection == FirstAnswer(ports, keys)
    ensures selection == Selected(ports, keys)
  {
    if |Filter(ports, IsArduinoEntry)| == 1 {
      FilterFindsFirst(ports, IsArduinoEntry);
      var index := FirstIndex(ports, IsArduinoEntry);
      return Chosen(ports[index].device);
    }
    var i := 0;
    while i < |keys|
      invariant i <= |keys|
      invariant FirstAnswer(ports, keys[i..]) == FirstAnswer(ports, keys)
    {
      match Answer(ports, keys[i])
      case Some(s) =>
        return s;
      case None =>
        assert keys[i..][1..] == keys[i + 1..];
      i := i + 1;
    }
    return InputClosed;
  }

  /** When some element passes, the first index that passes is inside the list. */
  lemma {:induction false} FilterFindsFirst<T>(s: seq<T>, p: T -> bool)
    requires Filter(s, p) != []
    ensures FirstIndex(s, p) < |s|
    decreases |s|
  {
    if FirstIndex(s, p) == |s| {
      NoneFiltered(s, p);
    }
  }

  lemma {:induction false} NoneFiltered<T>(s: seq<T>, p: T -> bool)
    requires forall k :: 0 <= k < |s| ==> !p(s[k])
    ensures Filter(s, p) == []
    decreases |s|
  {
    if s != [] {
      NoneFiltered(s[..|s| - 1], p);
    }
  }

  /** Typing the number shown next to a port picks that port. */
  lemma AnswerByNumber(ports: seq<PortEntry>, n: nat)
    requires 1 <= n <= |ports|
    ensures Answer(ports, Typed(NatToDigits(n))) == Some(Chosen(ports[n - 1].device))
  {
    var s := NatToDigits(n);
    StripOfTrimmed(s);
    assert Lower(s) == s;
    ParseIntOfDigits(n);
  }

  /** A number with no port beside it asks again. */
  lemma AnswerOutOfRange(ports: seq<PortEntry>, n: nat)
    requires n == 0 || n > |ports|
    ensures Answer(ports, Typed(NatToDigits(n))).None?
  {
    var s := NatToDigits(n);
    StripOfTrimmed(s);
    assert Lower(s) == s;
    ParseIntOfDigits(n);
  }

  /** When the list holds an Arduino board, the list starts with one. */
  lemma ArduinoListedFirst(ports: seq<SerialPort>, k: nat)
    requires k < |ports| && EntryOf(ports[k]).kind == Arduino
    ensures GetAvailablePorts(ports)[0].kind == Arduino
  {
    var r := GetAvailablePorts(ports);
    assert EntryOf(ports[k]) in multiset(Map(EntryOf, ports));
    var j :| 0 <= j < |r| && r[j] == EntryOf(ports[k]);
  }

  // ---------------------------------------------------------------- listening

  /** What a valid CSV line reports: its flow, its volume and its status (`"Unknown"` when absent). */
  datatype CsvSample = CsvSample(flowRate: real, volume: real, status: string)

  /**
   * The CSV check of `test_connection` on a stripped line: a comma, not a
   * banner or header line, at least three fields, and the flow (field 1) and
   * volume (field 2) convert to numbers. Field 0 is not looked at.
   */
  function CsvReading(line: string): (r: Option<CsvSample>)
    ensures r.Some? ==> ',' in line && !StartsWith(line, "===") && !StartsWith(line, "Time")
    ensures r.Some? ==> |Fields(line)| >= 3
    ensures r.Some? ==> ParseReal(Fields(line)[1]) == Some(r.value.flowRate) && ParseReal(Fields(line)[2]) == Some(r.value.volume)
  {
    if ',' in line && !StartsWith(line, "===") && !StartsWith(line, "Time") then
      var parts := Fields(line);
      if |parts| >= 3 then
        match (ParseReal(parts[1]), ParseReal(parts[2]))
        case (Some(flow), Some(volume)) =>
          Some(CsvSample(flow, volume, if |parts| > 3 then parts[3] else "Unknown"))
        case _ => None
      else None
    else None
  }

  /** A line the device prints for a reading is a valid CSV line, reporting its flow, volume and status. */
  lemma DeviceLineIsCsv(d: DeviceReading, extended: bool)
    requires CleanStatus(d.status)
    ensures CsvReading(FormatLine(d, extended)) ==
      Some(CsvSample(d.flowUnits as real / Pow10(FlowScale) as real, d.volumeUnits as real / Pow10(VolumeScale) as real, d.status))
  {
    DeviceLineShape(d, extended);
  }

  /** How the listen ended: still open, three valid lines, or an exception (`SerialException` or another). */
  datatype End = Open | Enough | Raised(serial: bool)

  /** `valid_data_count`, `data_received`, and how the loop ended. */
  datatype Listen = Listen(validCount: nat, dataReceived: bool, end: End)

  const Start: Listen := Listen(0, false, Open)

  /** A received line that is a valid CSV line. */
  predicate Counted(e: ReadEvent) {
    Received(e) && CsvReading(Strip(e.raw)).Some?
  }

  /**
   * One read of the listen loop. Once the loop has ended nothing changes.
   * An empty buffer, a line that is not UTF-8 and a blank line change nothing;
   * any other line marks data as received, and a valid CSV line is counted,
   * the third ending the loop. A `SerialException` (a closed handle raises
   * one too) or any other exception ends it.
   */
  function Hear(s: Listen, e: ReadEvent): Listen {
    if !s.end.Open? then s
    else
      match e
      case Idle => s
      case Line(_, _, _) =>
        if !Received(e) then s
        else if Counted(e) then
          var v := s.validCount + 1;
          Listen(v, true, if v >= 3 then Enough else Open)
        else s.(dataReceived := true)
      case SerialFault => s.(end := Raised(true))
      case PortClosed => s.(end := Raised(true))
      case OtherFault => s.(end := Raised(false))
  }

  /** The state of the listen after the reads `es`, oldest first. */
  function Heard(es: seq<ReadEvent>): Listen {
    if es == [] then Start else Hear(Heard(es[..|es| - 1]), es[|es| - 1])
  }

  lemma HeardStep(es: seq<ReadEvent>, i: nat)
    requires i < |es|
    ensures Heard(es[..i + 1]) == Hear(Heard(es[..i]), es[i])
  {
    assert es[..i + 1][..i] == es[..i];
  }

  /** Once the listen has ended, later reads change nothing. */
  lemma {:induction false} HeardSettled(es: seq<ReadEvent>, k: nat)
    requires k <= |es| && !Heard(es[..k]).end.Open?
    ensures Heard(es) == Heard(es[..k])
    decreases |es|
  {
    if k < |es| {
      var init := es[..|es| - 1];
      assert init[..k] == es[..k];
      HeardSettled(init, k);
    } else {
      assert es[..k] == es;
    }
  }

  /** At most three lines are ever counted, three exactly when the loop broke; counting implies receiving. */
  lemma {:induction false} HeardBounds(es: seq<ReadEvent>)
    ensures Heard(es).validCount <= 3
    ensures Heard(es).end == Enough <==> Heard(es).validCount == 3
    ensures Heard(es).validCount > 0 ==> Heard(es).dataReceived
    decreases |es|
  {
    if es != [] {
      HeardBounds(es[..|es| - 1]);
    }
  }

  /** The number of valid CSV lines among `es`. */
  function CountedIn(es: seq<ReadEvent>): nat {
    |Filter(es, Counted)|
  }

  function Min(a: nat, b: nat): nat { if a <= b then a else b }

  /** A listen with no exception: ended by three lines, or still open with every valid line counted. */
  lemma {:induction false} HeardCounts(es: seq<ReadEvent>)
    requires forall k :: 0 <= k < |es| ==> !Ends(es[k])
    ensures Heard(es).validCount == Min(3, CountedIn(es))
    ensures Heard(es).dataReceived <==> exists k :: 0 <= k < |es| && Received(es[k])
    ensures !Heard(es).end.Raised?
    decreases |es|
  {
    if es != [] {
      var init, e := es[..|es| - 1], es[|es| - 1];
      HeardCounts(init);
      HeardBounds(init);
      SplitLast(es);
      FilterAppend(init, [e], Counted);
      FilterOne(e, Counted);
      HearCounts(Heard(init), e, CountedIn(init));
      ExistsSnoc(init, e, Received);
    }
  }

  /** One read without an exception, in terms of the count of valid lines so far. */
  lemma HearCounts(s: Listen, e: ReadEvent, c: nat)
    requires !s.end.Raised? && !Ends(e) && s.validCount == Min(3, c)
    requires s.end == Enough <==> s.validCount == 3
    requires s.validCount > 0 ==> s.dataReceived
    ensures Hear(s, e).validCount == Min(3, c + if Counted(e) then 1 else 0)
    ensures Hear(s, e).dataReceived == (s.dataReceived || Received(e))
    ensures !Hear(s, e).end.Raised?
  {
  }

  lemma FilterOne<T>(x: T, p: T -> bool)
    ensures |Filter([x], p)| == if p(x) then 1 else 0
  {
    assert [x][..0] == [];
  }

  lemma ExistsSnoc<T>(s: seq<T>, x: T, p: T -> bool)
    ensures (exists k :: 0 <= k < |s + [x]| && p((s + [x])[k])) <==> (exists k :: 0 <= k < |s| && p(s[k])) || p(x)
  {
    if exists k :: 0 <= k < |s| && p(s[k]) {
      var k :| 0 <= k < |s| && p(s[k]);
      assert (s + [x])[k] == s[k];
    }
    if p(x) {
      assert (s + [x])[|s|] == x;
    }
  }

  /**
   * The outcome of `test_connection`: passed with the number of valid lines,
   * partial (data but no valid line), no data, a `SerialException`, or an
   * exception that escapes the function.
   */
  datatype Verdict = Passed(points: nat) | PartialData | NoData | SerialFailure | Crashed

  function VerdictOf(l: Listen): (v: Verdict)
    ensures v.Passed? <==> !l.end.Raised? && l.validCount > 0
    ensures v.Passed? ==> v.points == l.validCount
    ensures v == PartialData <==> !l.end.Raised? && l.validCount == 0 && l.dataReceived
    ensures v == NoData <==> !l.end.Raised? && l.validCount == 0 && !l.dataReceived
    ensures v == SerialFailure <==> l.end == Raised(true)
  {
    match l.end
    case Raised(serial) => if serial then SerialFailure else Crashed
    case _ =>
      if l.validCount > 0 then Passed(l.validCount)
      else if l.dataReceived then PartialData
      else NoData
  }

  /**
   * Without an exception the test passes exactly when some line is valid CSV
   * (reporting up to three of them), is partial exactly when lines arrived but
   * none was valid, and fails with no data exactly when no line arrived.
   */
  lemma VerdictWithoutFaults(es: seq<ReadEvent>)
    requires forall k :: 0 <= k < |es| ==> !Ends(es[k])
    ensures VerdictOf(Heard(es)).Passed? <==> exists k :: 0 <= k < |es| && Counted(es[k])
    ensures VerdictOf(Heard(es)).Passed? ==> VerdictOf(Heard(es)).points == Min(3, CountedIn(es))
    ensures VerdictOf(Heard(es)) == PartialData <==>
      (exists k :: 0 <= k < |es| && Received(es[k])) && forall k :: 0 <= k < |es| ==> !Counted(es[k])
    ensures VerdictOf(Heard(es)) == NoData <==> forall k :: 0 <= k < |es| ==> !Received(es[k])
  {
    HeardCounts(es);
    HeardBounds(es);
    FilterNonEmpty(es, Counted);
  }

  lemma {:induction false} FilterNonEmpty<T>(s: seq<T>, p: T -> bool)
    ensures |Filter(s, p)| > 0 <==> exists k :: 0 <= k < |s| && p(s[k])
    decreases |s|
  {
    if s != [] {
      var init, x := s[..|s| - 1], s[|s| - 1];
      FilterNonEmpty(init, p);
      SplitLast(s);
      ExistsSnoc(init, x, p);
    }
  }

  /**
   * `test_connection`: `opens` says whether the port opened, `events` are
   * the reads made within the timeout. Returns `True` only when the test passed.
   */
  method TestConnection(opens: bool, events: seq<ReadEvent>) returns (passed: bool, verdict: Verdict)
    ensures verdict == if opens then VerdictOf(Heard(events)) else SerialFailure
    ensures passed <==> verdict.Passed?
  {
    if !opens {
      return false, SerialFailure;
    }
    var validCount, dataReceived, end := 0, false, Open;
    var i := 0;
    while i < |events| && end.Open?
      invariant i <= |events|
      invariant Heard(events[..i]) == Listen(validCount, dataReceived, end)
      invariant !end.Open? ==> Heard(events) == Heard(events[..i])
    {
      HeardStep(events, i);
      validCount, dataReceived, end := ListenOnce(events[i], validCount, dataReceived);
      i := i + 1;
      if !end.Open? {
        HeardSettled(events, i);
      }
    }
    if end.Open? {
      assert events[..i] == events;
    }
    match end
    case Raised(serial) =>
      passed, verdict := false, if serial then SerialFailure else Crashed;
    case _ =>
      if validCount > 0 {
        passed, verdict := true, Passed(validCount);
      } else if dataReceived {
        passed, verdict := false, PartialData;
      } else {
        passed, verdict := false, NoData;
      }
  }

  /**
   * One pass of the listen loop: a received line marks data as received and
   * a valid one is counted, the third ending the loop; an exception ends it.
   */
  method ListenOnce(e: ReadEvent, validCount: nat, dataReceived: bool) returns (v: nat, d: bool, end: End)
    ensures Listen(v, d, end) == Hear(Listen(validCount, dataReceived, Open), e)
  {
    v, d, end := validCount, dataReceived, Open;
    match e
    case Idle =>
    case Line(raw, utf8, _) =>
      if utf8 {
        var line := Strip(raw);
        if line != [] {
          d := true;
          if CsvReading(line).Some? {
            v := v + 1;
            if v >= 3 {
              end := Enough;
            }
          }
        }
      }
    case SerialFault =>
      end := Raised(true);
    case PortClosed =>
      end := Raised(true);
    case OtherFault =>
      end := Raised(false);
  }

  // ---------------------------------------------------------------- main

  /** How `main` ends: no port found, no port selected, or a port tested with its verdict. */
  datatype Outcome = NoPorts | NoSelection | SelectionCrashed | Tested(port: string, verdict: Verdict)

  /**
   * `main`, with the command-line argument `arg`, the enumerated `ports`, the
   * answers typed at the prompt, and for each device whether it opens and
   * the reads it yields.
   */
  method Run(arg: Option<string>, ports: seq<SerialPort>, keys: seq<Keyboard>,
             opens: string -> bool, incoming: string -> seq<ReadEvent>) returns (outcome: Outcome)
    ensures arg.Some? ==> outcome == Tested(arg.value, if opens(arg.value) then VerdictOf(Heard(incoming(arg.value))) else SerialFailure)
    ensures arg.None? ==> (outcome == NoPorts <==> ports == [])
    ensures arg.None? && ports != [] ==>
      var s := Selected(GetAvailablePorts(ports), keys);
      (outcome == SelectionCrashed <==> s.InputClosed?)
      && (outcome == NoSelection <==> s.Cancelled? || (s.Chosen? && s.device == []))
      && (s.Chosen? && s.device != [] ==>
        outcome == Tested(s.device, if opens(s.device) then VerdictOf(Heard(incoming(s.device))) else SerialFailure))
    ensures outcome.Tested? && arg.None? ==>
      outcome.port != [] && (exists k :: 0 <= k < |ports| && ports[k].device == outcome.port)
      && outcome.verdict == if opens(outcome.port) then VerdictOf(Heard(incoming(outcome.port))) else SerialFailure
  {
    var port: string;
    if arg.Some? {
      port := arg.value;
    } else {
      var available := GetAvailablePorts(ports);
      if available == [] {
        return NoPorts;
      }
      var selection := SelectPortInteractive(available, keys);
      if selection.InputClosed? {
        return SelectionCrashed;
      }
      if selection.Cancelled? || selection.device == [] {
        return NoSelection;
      }
      ListedIsEnumerated(ports, available, selection.device);
      port := selection.device;
    }
    var _, verdict := TestConnection(opens(port), incoming(port));
    return Tested(port, verdict);
  }

  /** A device listed by `get_available_ports` is one of the enumerated ports. */
  lemma ListedIsEnumerated(ports: seq<SerialPort>, available: seq<PortEntry>, device: string)
    requires available == GetAvailablePorts(ports)
    requires exists k :: 0 <= k < |available| && available[k].device == device
    ensures exists k :: 0 <= k < |ports| && ports[k].device == device
  {
    var k :| 0 <= k < |available| && available[k].device == device;
    var m := Map(EntryOf, ports);
    assert available[k] in multiset(m);
    var j :| 0 <= j < |m| && m[j] == available[k];
  }
}
