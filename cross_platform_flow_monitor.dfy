/**
 * The cross-platform monitor (`CrossPlatformFlowMonitor`): the port list shown
 * as "device (description)" strings, the automatic choice among them, the
 * Windows COM-name rewrite, the connection state, the read loop with its
 * consecutive-error counter, relative timestamps and the CSV export.
 */
module CrossPlatformMonitor {
  import opened Wrappers
  import opened Text
  import opened Numbers
  import opened Samples
  import opened Wire
  import opened Ports
  import opened Series
  import opened Readings

  /** `MAX_POINTS`: the bound of the three history deques. */
  const MaxPoints: nat := 500

  /** `max_consecutive_errors` of the read loop. */
  const MaxConsecutiveErrors: nat := 5

  // ---------------------------------------------------------------- data lines

  /** `is_valid_data_line`: non-empty, has a comma, starts with none of the banner prefixes. */
  function IsValidDataLine(line: string): (valid: bool)
    ensures valid <==> (line != [] && ',' in line
                        && forall k :: 0 <= k < |BannerPrefixes| ==> !StartsWith(line, BannerPrefixes[k]))
  {
    Admits(line, BannerPrefixes)
  }

  /** No banner prefix begins with a digit. */
  lemma BannerNotDigit(k: nat)
    requires k < |BannerPrefixes|
    ensures BannerPrefixes[k] != [] && !IsDigit(BannerPrefixes[k][0])
  {
  }

  /** A line the device prints for a reading always passes the filter. */
  lemma DeviceLinesAreValid(d: DeviceReading, extended: bool)
    ensures IsValidDataLine(FormatLine(d, extended))
  {
    var line := FormatLine(d, extended);
    FormatLineFirst(d, extended);
    forall k | 0 <= k < |BannerPrefixes|
      ensures !StartsWith(line, BannerPrefixes[k])
    {
      BannerNotDigit(k);
      FirstCharDiffers(line, BannerPrefixes[k]);
    }
  }

  // ---------------------------------------------------------------- port list

  /** `port.description or "Unknown device"` */
  function Describe(p: SerialPort): string {
    if p.description == [] then "Unknown device" else p.description
  }

  /** The string the port list shows for a port: `f"{device} ({description})"`. */
  function DisplayName(p: SerialPort): string {
    p.device + " (" + Describe(p) + ")"
  }

  /**
   * `get_available_ports`: one display string per enumerated port, in
   * enumeration order (its keyword test picks between two identical branches).
   */
  function AvailablePorts(ports: seq<SerialPort>): (r: seq<string>)
    ensures |r| == |ports|
    ensures forall i :: 0 <= i < |ports| ==> '(' in r[i]
  {
    forall i | 0 <= i < |ports|
      ensures '(' in DisplayName(ports[i])
    {
      assert DisplayName(ports[i])[|ports[i].device| + 1] == '(';
    }
    Map(DisplayName, ports)
  }

  /** `extract_port_name`: the part before the first "(", or the whole string, stripped. */
  function ExtractPortName(s: string): (r: string)
    ensures '(' !in r && Strip(r) == r
  {
    var b := if '(' in s then Before(s, '(') else s;
    StripIsSlice(b);
    StripIdempotent(b);
    Strip(b)
  }

  /** A device name with no "(" and no surrounding whitespace is recovered from its display string. */
  lemma ExtractDisplayName(p: SerialPort)
    requires '(' !in p.device
    requires p.device == [] || (!IsSpace(p.device[0]) && !IsSpace(p.device[|p.device| - 1]))
    ensures ExtractPortName(DisplayName(p)) == p.device
  {
    var s := DisplayName(p);
    var head := p.device + " ";
    assert s == head + ['('] + (Describe(p) + ")");
    assert '(' in s by { assert s[|head|] == '('; }
    BeforeAt(head, Describe(p) + ")", '(');
    StripTrimmedThenSpace(p.device, " ");
  }

  /** Every entry of the port list leads back to its device. */
  lemma ExtractAvailable(ports: seq<SerialPort>, i: nat)
    requires i < |ports| && '(' !in ports[i].device
    requires var d := ports[i].device; d == [] || (!IsSpace(d[0]) && !IsSpace(d[|d| - 1]))
    ensures ExtractPortName(AvailablePorts(ports)[i]) == ports[i].device
  {
    ExtractDisplayName(ports[i]);
  }

  /** Extracting twice changes nothing. */
  lemma ExtractIdempotent(s: string)
    ensures ExtractPortName(ExtractPortName(s)) == ExtractPortName(s)
  {
  }

  /** The auto-select test: the lower-cased display string mentions "arduino" or "usb". */
  predicate BoardLike(display: string) {
    Contains(Lower(display), "arduino") || Contains(Lower(display), "usb")
  }

  /**
   * The choice `refresh_ports` makes: nothing when there are no ports or a port
   * is already chosen; otherwise the first board-like entry, or else the first.
   */
  function AutoSelect(displays: seq<string>, current: string): (r: Option<string>)
    ensures r.Some? <==> displays != [] && current == []
    ensures r.Some? ==> r.value in displays
  {
    if displays == [] || current != [] then None
    else
      var k := FirstIndex(displays, BoardLike);
      Some(if k < |displays| then displays[k] else displays[0])
  }

  /** The first board-like entry is the one chosen. */
  lemma AutoSelectFirstBoard(displays: seq<string>, k: nat)
    requires k < |displays| && BoardLike(displays[k])
    requires forall j :: 0 <= j < k ==> !BoardLike(displays[j])
    ensures AutoSelect(displays, []) == Some(displays[k])
  {
  }

  /** With no board-like entry, the first port is chosen. */
  lemma AutoSelectFallback(displays: seq<string>)
    requires displays != []
    requires forall j :: 0 <= j < |displays| ==> !BoardLike(displays[j])
    ensures AutoSelect(displays, []) == Some(displays[0])
  {
  }

  // ---------------------------------------------------------------- COM names

  /** The maximal run of ASCII digits at the start of `s`: `\d+`, with `\d` read as ASCII `[0-9]`. */
  function LeadingDigits(s: string): (r: string)
    ensures AllDigits(r) && StartsWith(s, r)
    ensures |r| < |s| ==> !IsDigit(s[|r|])
  {
    if s != [] && IsDigit(s[0]) then [s[0]] + LeadingDigits(s[1..]) else []
  }

  /** "COM" followed by an ASCII digit occurs in `u` at index `i`. */
  predicate ComAt(u: string, i: nat) {
    i + 3 < |u| && u[i..i + 3] == "COM" && IsDigit(u[i + 3])
  }

  /** The leftmost index from `i` on where `COM\d` occurs, or `|u|` when there is none. */
  function FirstComFrom(u: string, i: nat): (r: nat)
    requires i <= |u|
    ensures i <= r <= |u|
    ensures forall j :: i <= j < r ==> !ComAt(u, j)
    ensures r < |u| ==> ComAt(u, r)
    decreases |u| - i
  {
    if i == |u| then |u|
    else if ComAt(u, i) then i
    else FirstComFrom(u, i + 1)
  }

  /** `re.search(r"COM(\d+)", u)`: group 1 of the leftmost match, if there is one. */
  function ComNumber(u: string): (r: Option<string>)
    ensures r.Some? ==> r.value != [] && AllDigits(r.value)
  {
    var k := FirstComFrom(u, 0);
    if k < |u| then Some(LeadingDigits(u[k + 3..])) else None
  }

  /** The port-name rewrite `connect_arduino` applies before opening the port. */
  function NormalizeComPort(system: string, name: string): (r: string)
    ensures r == name || (system == "Windows" && !StartsWith(name, "COM") && |r| > 3 && r[..3] == "COM" && AllDigits(r[3..]))
  {
    if system == "Windows" && !StartsWith(name, "COM") && Contains(Upper(name), "COM") then
      match ComNumber(Upper(name))
      case Some(d) =>
        assert ("COM" + d)[..3] == "COM" && ("COM" + d)[3..] == d;
        "COM" + d
      case None => name
    else name
  }

  /** A match exists exactly when the leftmost search finds one. */
  lemma ComFound(u: string)
    ensures (exists i :: ComAt(u, i)) <==> FirstComFrom(u, 0) < |u|
  {
  }

  /** A match of `COM\d` is in particular an occurrence of "COM". */
  lemma ComContains(u: string)
    requires FirstComFrom(u, 0) < |u|
    ensures Contains(u, "COM")
  {
    var k := FirstComFrom(u, 0);
    assert OccursAt(u, "COM", k);
    ContainsIffOccurs(u, "COM");
  }

  /** "COM" followed by anything starts with "COM". */
  lemma ComPrefixed(d: string)
    ensures StartsWith("COM" + d, "COM")
  {
    assert ("COM" + d)[..3] == "COM";
  }

  /**
   * On Windows, a name not starting with "COM" whose upper-cased form contains
   * "COM" and a digit becomes "COM" and the digits of the leftmost such match;
   * every other name is left alone.
   */
  lemma NormalizeComPortSpec(system: string, name: string)
    ensures var r := NormalizeComPort(system, name); var u := Upper(name);
      (r != name <==> system == "Windows" && !StartsWith(name, "COM") && exists i :: ComAt(u, i))
      && (r != name ==> r == "COM" + LeadingDigits(u[FirstComFrom(u, 0) + 3..]))
  {
    var u := Upper(name);
    ComFound(u);
    NormalizeComPortUnfold(system, name);
    if FirstComFrom(u, 0) < |u| {
      ComPrefixed(LeadingDigits(u[FirstComFrom(u, 0) + 3..]));
    }
  }

  /** The rewrite in terms of the leftmost match: the `"COM" in` guard adds nothing to it. */
  lemma NormalizeComPortUnfold(system: string, name: string)
    ensures var u := Upper(name); var k := FirstComFrom(u, 0);
      NormalizeComPort(system, name)
      == if system == "Windows" && !StartsWith(name, "COM") && k < |u| then "COM" + LeadingDigits(u[k + 3..]) else name
  {
    var u := Upper(name);
    var k := FirstComFrom(u, 0);
    if k < |u| {
      ComContains(u);
      assert ComNumber(u) == Some(LeadingDigits(u[k + 3..]));
    } else {
      assert ComNumber(u) == None;
    }
  }

  /** A rewritten name starts with "COM", so rewriting it again leaves it alone. */
  lemma NormalizeComPortIdempotent(system: string, name: string)
    ensures NormalizeComPort(system, NormalizeComPort(system, name)) == NormalizeComPort(system, name)
  {
    var u := Upper(name);
    NormalizeComPortUnfold(system, name);
    if FirstComFrom(u, 0) < |u| {
      ComPrefixed(LeadingDigits(u[FirstComFrom(u, 0) + 3..]));
    }
  }

  // ---------------------------------------------------------------- read loop

  /** A read that produced a line with something left after `strip()`. */
  predicate NonEmptyLine(e: ReadEvent) {
    e.Line? && Strip(e.raw) != []
  }

  /** The counter after one read: a line resets it, an exception adds one, an empty read keeps it. */
  function ErrorStep(c: nat, e: ReadEvent): (r: nat)
    ensures IsFault(e) ==> r == c + 1
    ensures r > c ==> IsFault(e) && r == c + 1
    ensures r < c ==> r == 0 && NonEmptyLine(e)
  {
    if NonEmptyLine(e) then 0 else if IsFault(e) then c + 1 else c
  }

  /** `consecutive_errors` after the reads `es`, starting from 0. */
  function Errors(es: seq<ReadEvent>): nat {
    if es == [] then 0 else ErrorStep(Errors(es[..|es| - 1]), es[|es| - 1])
  }

  /** The read that ends the loop: a closed handle, or the exception that brings the counter to the limit. */
  predicate StopEvent(e: ReadEvent, c: nat) {
    e.PortClosed? || (IsFault(e) && c >= MaxConsecutiveErrors)
  }

  predicate StopsAt(es: seq<ReadEvent>, k: nat)
    requires k < |es|
  {
    StopEvent(es[k], Errors(es[..k + 1]))
  }

  function HaltFrom(es: seq<ReadEvent>, k: nat): (r: nat)
    requires k <= |es|
    ensures k <= r <= |es|
    ensures forall j :: k <= j < r ==> !StopsAt(es, j)
    ensures r < |es| ==> StopsAt(es, r)
    decreases |es| - k
  {
    if k == |es| then k else if StopsAt(es, k) then k else HaltFrom(es, k + 1)
  }

  /** The index of the read that ends the loop, or `|es|` when none does. */
  function Halt(es: seq<ReadEvent>): (r: nat)
    ensures r <= |es|
    ensures forall j :: 0 <= j < r ==> !StopsAt(es, j)
    ensures r < |es| ==> StopsAt(es, r)
  {
    HaltFrom(es, 0)
  }

  lemma HaltIs(es: seq<ReadEvent>, h: nat)
    requires h <= |es|
    requires forall j :: 0 <= j < h ==> !StopsAt(es, j)
    requires h < |es| ==> StopsAt(es, h)
    ensures Halt(es) == h
  {
  }

  /** Scanning past a read that does not end the loop keeps the end ahead; a read that ends it is the end. */
  lemma HaltStep(es: seq<ReadEvent>, i: nat)
    requires i < |es| && i <= Halt(es)
    ensures StopsAt(es, i) ==> Halt(es) == i
    ensures !StopsAt(es, i) ==> i + 1 <= Halt(es)
  {
  }

  lemma ErrorsStep(es: seq<ReadEvent>, i: nat)
    requires i < |es|
    ensures Errors(es[..i + 1]) == ErrorStep(Errors(es[..i]), es[i])
  {
    PrefixStep(es, i);
  }

  /** The reads after the last non-empty line (all of them when there is none). */
  function SinceLastLine(es: seq<ReadEvent>): (r: seq<ReadEvent>)
    ensures |r| <= |es|
  {
    if es == [] then []
    else if NonEmptyLine(es[|es| - 1]) then []
    else SinceLastLine(es[..|es| - 1]) + [es[|es| - 1]]
  }

  /** `SinceLastLine` is the suffix after the last non-empty line. */
  lemma {:induction false} SinceLastLineIsSuffix(es: seq<ReadEvent>)
    ensures var r := SinceLastLine(es);
      r == es[|es| - |r|..]
      && (forall i :: 0 <= i < |r| ==> !NonEmptyLine(r[i]))
      && (|r| < |es| ==> NonEmptyLine(es[|es| - |r| - 1]))
    decreases |es|
  {
    if es != [] && !NonEmptyLine(es[|es| - 1]) {
      var init := es[..|es| - 1];
      SinceLastLineIsSuffix(init);
      var r0 := SinceLastLine(init);
      assert es[|es| - |r0| - 1..] == init[|init| - |r0|..] + [es[|es| - 1]];
    }
  }

  /** The number of exceptions among `es`. */
  function FaultCount(es: seq<ReadEvent>): nat {
    |Filter(es, IsFault)|
  }

  /** The counter is the number of exceptions since the last non-empty line. */
  lemma {:induction false} ErrorsCountFaults(es: seq<ReadEvent>)
    ensures Errors(es) == FaultCount(SinceLastLine(es))
    decreases |es|
  {
    if es != [] {
      var init, e := es[..|es| - 1], es[|es| - 1];
      ErrorsCountFaults(init);
      if !NonEmptyLine(e) {
        FilterAppend(SinceLastLine(init), [e], IsFault);
      }
    }
  }

  /** Before the loop ends the counter stays below the limit. */
  lemma {:induction false} ErrorsBelowLimit(es: seq<ReadEvent>, k: nat)
    requires k <= Halt(es)
    ensures Errors(es[..k]) < MaxConsecutiveErrors
  {
    if k > 0 {
      ErrorsBelowLimit(es, k - 1);
      ErrorsStep(es, k - 1);
      assert !StopsAt(es, k - 1);
    }
  }

  /** The loop gives up on exactly the fifth consecutive exception. */
  lemma LostAtLimit(es: seq<ReadEvent>)
    requires Halt(es) < |es| && IsFault(es[Halt(es)])
    ensures Errors(es[..Halt(es) + 1]) == MaxConsecutiveErrors
  {
    ErrorsBelowLimit(es, Halt(es));
    ErrorsStep(es, Halt(es));
  }

  // ---------------------------------------------------------------- export

  const ExportHeader: string := "Time(s),FlowRate(L/min),TotalVolume(L)"

  /** The two characters backslash and `n` that the export writes after every line. */
  const WrittenEol: string := "\\n"

  /** A real line break. */
  const Newline: string := "\n"

  /** One export row, with `fmt(x, n)` standing for Python's `f"{x:.nf}"`. */
  function ExportRow(t: real, flow: real, volume: real, fmt: (real, nat) -> string): string {
    fmt(t, 3) + "," + fmt(flow, 4) + "," + fmt(volume, 5)
  }

  /** `zip(timestamps, flow_rates, total_volumes)` turned into rows. */
  function ExportRows(ts: seq<real>, fl: seq<real>, vs: seq<real>, fmt: (real, nat) -> string): (r: seq<string>)
    requires |fl| == |ts| && |vs| == |ts|
    ensures |r| == |ts|
    ensures forall i :: 0 <= i < |ts| ==> r[i] == ExportRow(ts[i], fl[i], vs[i], fmt)
  {
    if ts == [] then []
    else
      var n := |ts| - 1;
      ExportRows(ts[..n], fl[..n], vs[..n], fmt) + [ExportRow(ts[n], fl[n], vs[n], fmt)]
  }

  /** Each line followed by `eol`. */
  function Terminated(lines: seq<string>, eol: string): string {
    if lines == [] then [] else Terminated(lines[..|lines| - 1], eol) + lines[|lines| - 1] + eol
  }

  /** The file the export writes: the header and every row, each followed by `eol`. */
  function ExportText(rows: seq<string>, eol: string): string {
    ExportHeader + eol + Terminated(rows, eol)
  }

  lemma TerminatedSnoc(lines: seq<string>, line: string, eol: string)
    ensures Terminated(lines + [line], eol) == Terminated(lines, eol) + line + eol
  {
    assert (lines + [line])[..|lines|] == lines;
  }

  lemma {:induction false} TerminatedNoBreak(lines: seq<string>)
    requires forall i :: 0 <= i < |lines| ==> '\n' !in lines[i]
    ensures '\n' !in Terminated(lines, WrittenEol)
    decreases |lines|
  {
    if lines != [] {
      TerminatedNoBreak(lines[..|lines| - 1]);
    }
  }

  /**
   * As written: the export contains no line break at all, so however many
   * samples it holds, the file is a single line.
   */
  lemma ExportIsOneLine(rows: seq<string>)
    requires forall i :: 0 <= i < |rows| ==> '\n' !in rows[i]
    ensures Split(ExportText(rows, WrittenEol), '\n') == [ExportText(rows, WrittenEol)]
  {
    TerminatedNoBreak(rows);
    SplitNoSep(ExportText(rows, WrittenEol), '\n');
  }

  /** Lines each followed by a newline are the lines joined with newlines, then an empty last line. */
  lemma {:induction false} TerminatedIsJoin(lines: seq<string>)
    ensures Terminated(lines, Newline) == Join(lines + [""], '\n')
    decreases |lines|
  {
    if lines != [] {
      var init, last := lines[..|lines| - 1], lines[|lines| - 1];
      TerminatedIsJoin(init);
      JoinSnoc(init, last);
      assert lines == init + [last];
    }
  }

  lemma {:induction false} JoinSnoc(init: seq<string>, last: string)
    ensures Join(init + [last] + [""], '\n') == Join(init + [""], '\n') + last + "\n"
    decreases |init|
  {
    if init == [] {
      assert [last] + [""] == [last, ""];
      assert ([last, ""])[1..] == [""];
    } else {
      JoinSnoc(init[1..], last);
      assert (init + [last] + [""])[1..] == init[1..] + [last] + [""];
      assert (init + [""])[1..] == init[1..] + [""];
    }
  }

  /**
   * Intended: with a real newline after each line, the file splits into the
   * header, one line per row, and the empty string after the final newline.
   */
  lemma ExportLines(rows: seq<string>)
    requires forall i :: 0 <= i < |rows| ==> '\n' !in rows[i]
    ensures Split(ExportText(rows, Newline), '\n') == [ExportHeader] + rows + [""]
  {
    var all := [ExportHeader] + rows;
    TerminatedIsJoin(all);
    assert Terminated(all, Newline) == ExportText(rows, Newline) by {
      TerminatedPrepend(ExportHeader, rows, Newline);
    }
    assert all + [""] == [ExportHeader] + rows + [""];
    SplitJoin(all + [""], '\n');
  }

  lemma {:induction false} TerminatedPrepend(first: string, lines: seq<string>, eol: string)
    ensures Terminated([first] + lines, eol) == first + eol + Terminated(lines, eol)
    decreases |lines|
  {
    if lines == [] {
      assert [first] + lines == [first];
      assert [first][..0] == [];
    } else {
      var init, last := lines[..|lines| - 1], lines[|lines| - 1];
      TerminatedPrepend(first, init, eol);
      assert ([first] + lines)[..|lines|] == [first] + init;
    }
  }

  /** The text `export_data` writes for the three histories, built row by row. */
  method ExportFile(ts: seq<real>, fl: seq<real>, vs: seq<real>, fmt: (real, nat) -> string) returns (text: string)
    requires |fl| == |ts| && |vs| == |ts|
    ensures text == ExportText(ExportRows(ts, fl, vs, fmt), WrittenEol)
  {
    ghost var rows := ExportRows(ts, fl, vs, fmt);
    text := ExportHeader + WrittenEol;
    var i := 0;
    while i < |ts|
      invariant 0 <= i <= |ts|
      invariant text == ExportHeader + WrittenEol + Terminated(rows[..i], WrittenEol)
    {
      var row := ExportRow(ts[i], fl[i], vs[i], fmt);
      SnocPrefix(rows, i);
      TerminatedSnoc(rows[..i], row, WrittenEol);
      text := text + row + WrittenEol;
      i := i + 1;
    }
    assert rows[..i] == rows;
  }

  /**
   * How `export_data` ends: the no-data warning, the dialog cancelled, the
   * error dialog after `open` or `write` raised, or the text written.
   */
  datatype ExportOutcome = NoData | ExportCancelled | ExportFailed(filename: string) | Exported(filename: string, text: string)

  // ---------------------------------------------------------------- the monitor

  /** `CrossPlatformFlowMonitor` with its connection state, port selection and histories. */
  class CrossPlatformFlowMonitor {
    const system: string
    var timestamps: seq<real>
    var flowRates: seq<real>
    var totalVolumes: seq<real>
    var dataCount: nat
    var startTime: Option<real>
    var selectedPort: Option<string>
    var isConnected: bool
    var isRunning: bool
    var portVar: string
    var portChoices: seq<string>

    /** The histories, the counter and `start_time`. */
    function Data(): Store
      reads this
    {
      Store(Series(timestamps, flowRates, totalVolumes, dataCount), startTime)
    }

    predicate Valid()
      reads this
    {
      Lockstep(Data().series, MaxPoints)
    }

    /** `__init__`, including the port refresh the toolbar set-up performs. */
    constructor(system: string, ports: seq<SerialPort>)
      ensures Valid() && Data() == Store(Empty, None)
      ensures this.system == system && selectedPort.None? && !isConnected && isRunning
      ensures portChoices == AvailablePorts(ports) && portVar == AutoSelect(portChoices, []).GetOr([])
    {
      this.system := system;
      timestamps, flowRates, totalVolumes := [], [], [];
      dataCount := 0;
      startTime := None;
      selectedPort := None;
      isConnected := false;
      isRunning := true;
      portVar := [];
      portChoices := [];
      new;
      RefreshPorts(ports);
    }

    /** `refresh_ports`: list every port, and choose one when none is chosen yet. */
    method RefreshPorts(ports: seq<SerialPort>)
      modifies this`portChoices, this`portVar
      ensures portChoices == AvailablePorts(ports)
      ensures portVar == AutoSelect(portChoices, old(portVar)).GetOr(old(portVar))
    {
      portChoices := AvailablePorts(ports);
      if portChoices != [] && portVar == [] {
        var k := FirstIndex(portChoices, BoardLike);
        portVar := if k < |portChoices| then portChoices[k] else portChoices[0];
      }
    }

    /** `select_port`: warn when there is no port, otherwise refresh. */
    method SelectPort(ports: seq<SerialPort>) returns (warned: bool)
      modifies this`portChoices, this`portVar
      ensures warned <==> ports == []
      ensures warned ==> portChoices == old(portChoices) && portVar == old(portVar)
      ensures !warned ==> portChoices == AvailablePorts(ports)
      ensures !warned ==> portVar == AutoSelect(portChoices, old(portVar)).GetOr(old(portVar))
    {
      warned := ports == [];
      if !warned {
        RefreshPorts(ports);
      }
    }

    /** The part of `connect_arduino` after its guards: choose the name, then open or clean up. */
    method OpenSelected(opens: bool)
      modifies this`selectedPort, this`isConnected
      ensures selectedPort == Some(NormalizeComPort(system, ExtractPortName(portVar)))
      ensures isConnected == opens
    {
      selectedPort := Some(NormalizeComPort(system, ExtractPortName(portVar)));
      if opens {
        isConnected := true;
      } else {
        CleanupConnection();
      }
    }

    /**
     * `connect_arduino`; `opens` says whether `serial.Serial` succeeded. Already
     * connected, or no port chosen: nothing changes.
     */
    method ConnectArduino(opens: bool)
      modifies this`selectedPort, this`isConnected
      ensures old(isConnected) || portVar == [] ==> selectedPort == old(selectedPort) && isConnected == old(isConnected)
      ensures !old(isConnected) && portVar != [] ==>
        selectedPort == Some(NormalizeComPort(system, ExtractPortName(portVar))) && isConnected == opens
    {
      if isConnected || portVar == [] {
        return;
      }
      OpenSelected(opens);
    }

    /** `cleanup_connection` */
    method CleanupConnection()
      modifies this`isConnected
      ensures !isConnected
    {
      isConnected := false;
    }

    /** `disconnect_arduino`: stop the reader and clean up. */
    method DisconnectArduino()
      modifies this`isRunning, this`isConnected
      ensures !isRunning && !isConnected
    {
      isRunning := false;
      CleanupConnection();
    }

    /** `handle_connection_lost` */
    method HandleConnectionLost()
      modifies this`isConnected
      ensures !isConnected
    {
      CleanupConnection();
    }

    /**
     * `reconnect` as written: disconnecting clears `is_running` and connecting
     * never sets it again, so after a reconnect the reader stops at once.
     */
    method Reconnect(opens: bool)
      modifies this`selectedPort, this`isConnected, this`isRunning
      ensures old(isConnected) ==> !isRunning
      ensures !old(isConnected) ==> isRunning == old(isRunning)
      ensures portVar != [] ==> isConnected == opens && selectedPort == Some(NormalizeComPort(system, ExtractPortName(portVar)))
      ensures portVar == [] ==> !isConnected && selectedPort == old(selectedPort)
    {
      if isConnected {
        DisconnectArduino();
      }
      ConnectArduino(opens);
    }

    /** `reconnect` with the reader re-enabled once the port is open again. */
    method ReconnectRestarting(opens: bool)
      modifies this`selectedPort, this`isConnected, this`isRunning
      ensures portVar != [] && opens ==> isConnected && isRunning
      ensures portVar != [] ==> selectedPort == Some(NormalizeComPort(system, ExtractPortName(portVar)))
      ensures portVar == [] ==> !isConnected && selectedPort == old(selectedPort)
    {
      if isConnected {
        DisconnectArduino();
      }
      ConnectArduino(opens);
      if isConnected {
        isRunning := true;
      }
    }

    /** Store a new value of the histories, the counter and `start_time`. */
    method SetData(st: Store)
      requires Lockstep(st.series, MaxPoints)
      modifies this`timestamps, this`flowRates, this`totalVolumes, this`dataCount, this`startTime
      ensures Valid() && Data() == st
    {
      timestamps, flowRates, totalVolumes := st.series.timestamps, st.series.flowRates, st.series.totalVolumes;
      dataCount, startTime := st.series.dataCount, st.start;
    }

    /**
     * `parse_data_line`: a line that decodes (fields 4 and 5 read as integers,
     * no sign check) is stored at its seconds relative to `start_time`, which
     * the first stored line sets; any other line changes nothing.
     */
    method ParseDataLine(line: string)
      requires Valid()
      modifies this`timestamps, this`flowRates, this`totalVolumes, this`dataCount, this`startTime
      ensures Valid() && Data() == Absorb(old(Data()), DecodeFrame(line, true), MaxPoints)
    {
      match DecodeFrame(line, true)
      case Some(f) =>
        SetData(RecordOneRelative(Data(), f, MaxPoints));
      case None =>
    }

    /** One pass of the read loop: the new counter, whether the loop ends, and the line it stored. */
    method ProcessRead(e: ReadEvent, errors: nat) returns (next: nat, stop: bool)
      requires Valid()
      modifies this`timestamps, this`flowRates, this`totalVolumes, this`dataCount, this`startTime
      ensures Valid() && Data() == Absorb(old(Data()), LineFrame(e, BannerPrefixes, true), MaxPoints)
      ensures next == ErrorStep(errors, e) && stop == StopEvent(e, next)
    {
      next, stop := errors, false;
      match e {
        case PortClosed =>
          stop := true;
        case Line(raw, _, _) =>
          var line := Strip(raw);
          if line != [] {
            next := 0;
            if IsValidDataLine(line) {
              ParseDataLine(line);
            }
          }
        case Idle =>
        case SerialFault =>
          next := errors + 1;
          stop := next >= MaxConsecutiveErrors;
        case OtherFault =>
          next := errors + 1;
          stop := next >= MaxConsecutiveErrors;
      }
    }

    /** Pass `i` of the loop of `read_serial_data`, with the loop's bookkeeping carried forward. */
    method ReadAt(events: seq<ReadEvent>, i: nat, errors: nat, ghost start: Store) returns (next: nat, stop: bool)
      requires Valid() && Lockstep(start.series, MaxPoints)
      requires i < |events| && i <= Halt(events) && errors == Errors(events[..i])
      requires Data() == RecordRelative(start, FramesOf(events[..i], BannerPrefixes, true), MaxPoints)
      modifies this`timestamps, this`flowRates, this`totalVolumes, this`dataCount, this`startTime
      ensures Valid() && next == Errors(events[..i + 1])
      ensures if stop then Halt(events) == i else i + 1 <= Halt(events)
      ensures Data() == RecordRelative(start, FramesOf(events[..i + 1], BannerPrefixes, true), MaxPoints)
    {
      HaltStep(events, i);
      ErrorsStep(events, i);
      FramesStep(events, i, BannerPrefixes, true);
      RecordRelativeSnoc(start, FramesOf(events[..i], BannerPrefixes, true), LineFrame(events[i], BannerPrefixes, true), MaxPoints);
      next, stop := ProcessRead(events[i], errors);
    }

    /** The loop of `read_serial_data`, over the reads `events`, until one of them ends it. */
    method ReadUntilStop(events: seq<ReadEvent>) returns (lost: bool)
      requires Valid()
      modifies this`timestamps, this`flowRates, this`totalVolumes, this`dataCount, this`startTime
      ensures Valid()
      ensures Data() == RecordRelative(old(Data()), FramesOf(events[..Halt(events)], BannerPrefixes, true), MaxPoints)
      ensures lost == (Halt(events) < |events| && IsFault(events[Halt(events)]))
    {
      var i, errors, stop := 0, 0, false;
      while i < |events| && !stop
        invariant Valid()
        invariant 0 <= i <= |events|
        invariant errors == Errors(events[..i])
        invariant if stop then 0 < i && Halt(events) == i - 1 else i <= Halt(events)
        invariant Data() == RecordRelative(old(Data()), FramesOf(events[..i], BannerPrefixes, true), MaxPoints)
      {
        errors, stop := ReadAt(events, i, errors, old(Data()));
        i := i + 1;
      }
      lost := stop && IsFault(events[i - 1]);
      if stop {
        NoFrameAt(events, i - 1, BannerPrefixes, true);
      }
    }

    /**
     * `read_serial_data`: nothing happens unless the monitor is running and
     * connected; otherwise every accepted line up to the read that ends the loop
     * is stored, and the fifth consecutive exception drops the connection.
     */
    method ReadSerialData(events: seq<ReadEvent>) returns (lost: bool)
      requires Valid()
      modifies this`timestamps, this`flowRates, this`totalVolumes, this`dataCount, this`startTime, this`isConnected
      ensures Valid()
      ensures !old(isRunning && isConnected) ==> !lost && Data() == old(Data()) && isConnected == old(isConnected)
      ensures old(isRunning && isConnected) ==>
        Data() == RecordRelative(old(Data()), FramesOf(events[..Halt(events)], BannerPrefixes, true), MaxPoints)
        && lost == (Halt(events) < |events| && IsFault(events[Halt(events)]))
        && isConnected == !lost
    {
      lost := false;
      if !(isRunning && isConnected) {
        return;
      }
      lost := ReadUntilStop(events);
      if lost {
        HandleConnectionLost();
      }
    }

    /** As written, a reconnect from a connected state leaves a reader that stores nothing. */
    method ReconnectThenRead(opens: bool, events: seq<ReadEvent>) returns (lost: bool)
      requires Valid()
      modifies this`timestamps, this`flowRates, this`totalVolumes, this`dataCount, this`startTime
      modifies this`selectedPort, this`isConnected, this`isRunning
      ensures old(isConnected) ==> Data() == old(Data()) && !lost
    {
      Reconnect(opens);
      lost := ReadSerialData(events);
    }

    /** With the reader re-enabled, a successful reconnect stores the lines that follow. */
    method ReconnectRestartingThenRead(opens: bool, events: seq<ReadEvent>) returns (lost: bool)
      requires Valid()
      modifies this`timestamps, this`flowRates, this`totalVolumes, this`dataCount, this`startTime
      modifies this`selectedPort, this`isConnected, this`isRunning
      ensures old(portVar) != [] && opens ==>
        Data() == RecordRelative(old(Data()), FramesOf(events[..Halt(events)], BannerPrefixes, true), MaxPoints)
    {
      ReconnectRestarting(opens);
      lost := ReadSerialData(events);
    }

    /**
     * `export_data`: warn when there is nothing to export, stop when the file
     * dialog is cancelled (an empty name), report the error when `open` or
     * `write` raises (`writes` false), otherwise write the header and a row
     * per sample, each followed by a backslash and `n`.
     */
    method ExportData(filename: string, writes: bool, fmt: (real, nat) -> string) returns (outcome: ExportOutcome)
      requires Valid()
      ensures timestamps == [] ==> outcome == NoData
      ensures timestamps != [] && filename == [] ==> outcome == ExportCancelled
      ensures timestamps != [] && filename != [] && !writes ==> outcome == ExportFailed(filename)
      ensures timestamps != [] && filename != [] && writes ==>
        outcome == Exported(filename, ExportText(ExportRows(timestamps, flowRates, totalVolumes, fmt), WrittenEol))
    {
      if timestamps == [] {
        return NoData;
      }
      if filename == [] {
        return ExportCancelled;
      }
      if !writes {
        return ExportFailed(filename);
      }
      var text := ExportFile(timestamps, flowRates, totalVolumes, fmt);
      outcome := Exported(filename, text);
    }
  }
}
