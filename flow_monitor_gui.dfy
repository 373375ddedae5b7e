/**
 * The production monitor, `flow_monitor_gui.py`: a `FlowMonitor` object that
 * reads telemetry lines, keeps four parallel bounded histories (time, flow,
 * volume, status) plus running statistics, can pause recording, reset, save,
 * reports link health and reconnects when data stops; and the `PortSelector`
 * rules that classify, order and auto-select serial ports.
 *
 * The thread that reads the port is `FlowMonitor.ReadSerialData`, run on a
 * finite sequence of read outcomes; wall-clock readings are parameters.
 */
module FlowMonitorGui {
  import opened Wrappers
  import opened Text
  import opened Numbers
  import opened Samples
  import opened Wire
  import opened Ports

  const DefaultSensorStatus: string := "NO DATA"
  const DataTimeoutSeconds: real := 5.0
  const ReconnectAfterSeconds: real := 15.0
  const ReconnectRetrySeconds: real := 5.0
  const MaxPoints: nat := 500

  /** Python truthiness of an `Optional[float]`: `None` and `0.0` are false. */
  predicate Truthy(x: Option<real>) {
    x.Some? && x.value != 0.0
  }

  /** Python truthiness of an `Optional[str]` port name. */
  predicate PortSet(port: Option<string>) {
    port.Some? && port.value != []
  }

  // ---------------------------------------------------------------------
  // Line parsing
  // ---------------------------------------------------------------------

  /**
   * `_parse_data_line` up to the point where it changes state: the reading it
   * accepts, or `None` when it returns early or catches a conversion error.
   * The status is defaulted and negative flow is rejected; flows above 20 L/min
   * are only logged, so there is no upper bound here.
   */
  function ReadingOf(line: string): (r: Option<Frame>)
    ensures r.Some? ==> r.value.flowRate >= 0.0 && r.value.status != [] && ',' !in r.value.status
  {
    match DecodeFrame(line, true)
    case None => None
    case Some(f) =>
      if f.flowRate < 0.0 then None
      else Some(f.(status := if f.status == [] then DefaultSensorStatus else f.status))
  }

  /**
   * A line is accepted exactly when it has four fields, the first three read as
   * floats, the pulse fields (when present) as integers, and the flow is not
   * negative; the reading carries those values, an empty status read as
   * `"NO DATA"`.
   */
  lemma ReadingOfFields(line: string)
    ensures var f := Fields(line); var r := ReadingOf(line);
      r.Some? <==>
        |f| >= 4 && ParseReal(f[0]).Some? && ParseReal(f[1]).Some? && ParseReal(f[2]).Some?
        && PulseField(f, 4, true).Some? && PulseField(f, 5, true).Some?
        && ParseReal(f[1]).value >= 0.0
    ensures var f := Fields(line); var r := ReadingOf(line);
      r.Some? ==>
        r.value.timestampMs == ParseReal(f[0]).value && r.value.flowRate == ParseReal(f[1]).value
        && r.value.totalVolume == ParseReal(f[2]).value
        && r.value.status == (if Strip(f[3]) == [] then DefaultSensorStatus else Strip(f[3]))
        && r.value.currentPulses == PulseField(f, 4, true).value
        && r.value.totalPulses == PulseField(f, 5, true).value
  {
  }

  /** What `ReadingOf` makes of a line that decodes with a flow that is not negative. */
  lemma ReadingOfDecoded(line: string, f: Frame)
    requires DecodeFrame(line, true) == Some(f) && f.flowRate >= 0.0
    ensures ReadingOf(line) == Some(f.(status := if f.status == [] then DefaultSensorStatus else f.status))
  {
  }

  /** Every line the device prints is accepted with exactly the values it printed, however high the flow. */
  lemma {:induction false} ReadingOfDeviceLine(d: DeviceReading, extended: bool)
    requires CleanStatus(d.status)
    ensures ReadingOf(FormatLine(d, extended)) ==
      Some(Expected(d, extended, true).(status := if d.status == [] then DefaultSensorStatus else d.status))
  {
    var line := FormatLine(d, extended);
    var e := Expected(d, extended, true);
    DecodeFormatLine(d, extended, true);
    NonNegativeRatio(d.flowUnits, Pow10(FlowScale));
    ReadingOfDecoded(line, e);
  }

  lemma NonNegativeRatio(a: nat, b: nat)
    requires b > 0
    ensures a as real / b as real >= 0.0
  {
  }

  // ---------------------------------------------------------------------
  // Sample store
  // ---------------------------------------------------------------------

  /** The monitor's data: the four parallel deques, the counters and the latest values. */
  datatype MonitorData = MonitorData(
    timestamps: seq<real>,
    flowRates: seq<real>,
    totalVolumes: seq<real>,
    statusHistory: seq<string>,
    totalDataPoints: nat,
    maxFlowRate: real,
    lastDataTimestamp: Option<real>,
    sensorStatus: string,
    latestFlowRate: real,
    latestTotalVolume: real)

  /** The deques always have equal length, hold at least one sample, and at most `MaxPoints`. */
  predicate BuffersOk(d: MonitorData) {
    |d.flowRates| == |d.timestamps| && |d.totalVolumes| == |d.timestamps|
    && |d.statusHistory| == |d.timestamps| && 1 <= |d.timestamps| <= MaxPoints
  }

  /** The data after `_reset_data_internal` and the counter resets: one zero sample. */
  const Fresh: MonitorData := MonitorData([0.0], [0.0], [0.0], [DefaultSensorStatus], 0, 0.0, None, DefaultSensorStatus, 0.0, 0.0)

  lemma FreshHoldsOneZeroSample()
    ensures BuffersOk(Fresh)
    ensures |Fresh.timestamps| == 1 && Fresh.timestamps[0] == 0.0 && Fresh.flowRates[0] == 0.0
    ensures Fresh.totalVolumes[0] == 0.0 && Fresh.statusHistory[0] == DefaultSensorStatus
  {
  }

  /** An accepted reading and the wall-clock time it was processed. */
  datatype Arrival = Arrival(reading: Frame, at: real)

  function TimeOf(a: Arrival): real { a.reading.timestampMs / 1000.0 }
  function FlowOf(a: Arrival): real { a.reading.flowRate }
  function VolumeOf(a: Arrival): real { a.reading.totalVolume }
  function StatusOf(a: Arrival): string { a.reading.status }

  /**
   * The locked block of `_parse_data_line`: the latest values always change;
   * the deques and counters only while recording.
   */
  function AbsorbOne(d: MonitorData, a: Arrival, recording: bool): (r: MonitorData)
    requires BuffersOk(d)
    ensures BuffersOk(r)
  {
    var latest := d.(lastDataTimestamp := Some(a.at), sensorStatus := StatusOf(a),
                     latestFlowRate := FlowOf(a), latestTotalVolume := VolumeOf(a));
    if recording then
      latest.(timestamps := Push(d.timestamps, TimeOf(a), MaxPoints),
              flowRates := Push(d.flowRates, FlowOf(a), MaxPoints),
              totalVolumes := Push(d.totalVolumes, VolumeOf(a), MaxPoints),
              statusHistory := Push(d.statusHistory, StatusOf(a), MaxPoints),
              totalDataPoints := d.totalDataPoints + 1,
              maxFlowRate := Max(d.maxFlowRate, FlowOf(a)))
    else latest
  }

  /** The data after a run of accepted readings, oldest first. */
  function Absorb(d: MonitorData, arr: seq<Arrival>, recording: bool): (r: MonitorData)
    requires BuffersOk(d)
    ensures BuffersOk(r)
  {
    if arr == [] then d
    else AbsorbOne(Absorb(d, arr[..|arr| - 1], recording), arr[|arr| - 1], recording)
  }

  lemma AbsorbSnoc(d: MonitorData, arr: seq<Arrival>, a: Arrival, recording: bool)
    requires BuffersOk(d)
    ensures Absorb(d, arr + [a], recording) == AbsorbOne(Absorb(d, arr, recording), a, recording)
  {
    assert (arr + [a])[..|arr|] == arr;
  }

  /**
   * While recording, the deques hold the newest `MaxPoints` samples in arrival
   * order, all four in lockstep; every reading is counted and the maximum flow
   * is the running maximum.
   */
  lemma {:induction false} AbsorbWhileRecording(d: MonitorData, arr: seq<Arrival>)
    requires BuffersOk(d)
    ensures var r := Absorb(d, arr, true);
      r.timestamps == LastN(d.timestamps + Map(TimeOf, arr), MaxPoints)
      && r.flowRates == LastN(d.flowRates + Map(FlowOf, arr), MaxPoints)
      && r.totalVolumes == LastN(d.totalVolumes + Map(VolumeOf, arr), MaxPoints)
      && r.statusHistory == LastN(d.statusHistory + Map(StatusOf, arr), MaxPoints)
      && r.totalDataPoints == d.totalDataPoints + |arr|
      && r.maxFlowRate == MaxAll(d.maxFlowRate, Map(FlowOf, arr))
    decreases |arr|
  {
    if arr != [] {
      AbsorbWhileRecording(d, arr[..|arr| - 1]);
      RecordingStep(Absorb(d, arr[..|arr| - 1], true), arr, d);
    }
  }

  /** The last arrival of `arr` while recording, given the windows the earlier ones left. */
  lemma RecordingStep(p: MonitorData, arr: seq<Arrival>, d: MonitorData)
    requires BuffersOk(p) && arr != []
    requires var init := arr[..|arr| - 1];
      p.timestamps == LastN(d.timestamps + Map(TimeOf, init), MaxPoints)
      && p.flowRates == LastN(d.flowRates + Map(FlowOf, init), MaxPoints)
      && p.totalVolumes == LastN(d.totalVolumes + Map(VolumeOf, init), MaxPoints)
      && p.statusHistory == LastN(d.statusHistory + Map(StatusOf, init), MaxPoints)
      && p.totalDataPoints == d.totalDataPoints + |init|
      && p.maxFlowRate == MaxAll(d.maxFlowRate, Map(FlowOf, init))
    ensures var r := AbsorbOne(p, arr[|arr| - 1], true);
      r.timestamps == LastN(d.timestamps + Map(TimeOf, arr), MaxPoints)
      && r.flowRates == LastN(d.flowRates + Map(FlowOf, arr), MaxPoints)
      && r.totalVolumes == LastN(d.totalVolumes + Map(VolumeOf, arr), MaxPoints)
      && r.statusHistory == LastN(d.statusHistory + Map(StatusOf, arr), MaxPoints)
      && r.totalDataPoints == d.totalDataPoints + |arr|
      && r.maxFlowRate == MaxAll(d.maxFlowRate, Map(FlowOf, arr))
  {
    var init, a := arr[..|arr| - 1], arr[|arr| - 1];
    assert arr == init + [a];
    NewestAfterPush(d.timestamps, TimeOf, init, a);
    NewestAfterPush(d.flowRates, FlowOf, init, a);
    NewestAfterPush(d.totalVolumes, VolumeOf, init, a);
    NewestAfterPush(d.statusHistory, StatusOf, init, a);
    assert Map(FlowOf, arr)[..|init|] == Map(FlowOf, init);
  }

  /** One more arrival extends the window of newest values of any one deque. */
  lemma NewestAfterPush<T>(buf: seq<T>, f: Arrival -> T, init: seq<Arrival>, a: Arrival)
    ensures Push(LastN(buf + Map(f, init), MaxPoints), f(a), MaxPoints) == LastN(buf + Map(f, init + [a]), MaxPoints)
  {
    MapSnoc(f, init, a);
    PushLastN(buf + Map(f, init), f(a), MaxPoints);
    assert buf + Map(f, init + [a]) == (buf + Map(f, init)) + [f(a)];
  }

  /** While paused, the deques and counters do not move; only the latest values follow the readings. */
  lemma {:induction false} AbsorbWhilePaused(d: MonitorData, arr: seq<Arrival>)
    requires BuffersOk(d)
    ensures var r := Absorb(d, arr, false);
      r.timestamps == d.timestamps && r.flowRates == d.flowRates
      && r.totalVolumes == d.totalVolumes && r.statusHistory == d.statusHistory
      && r.totalDataPoints == d.totalDataPoints && r.maxFlowRate == d.maxFlowRate
    decreases |arr|
  {
    if arr != [] {
      AbsorbWhilePaused(d, arr[..|arr| - 1]);
    }
  }

  /** After any readings, the latest values and the data timestamp are those of the last one. */
  lemma AbsorbLatest(d: MonitorData, arr: seq<Arrival>, recording: bool)
    requires BuffersOk(d) && arr != []
    ensures var r := Absorb(d, arr, recording); var a := arr[|arr| - 1];
      r.lastDataTimestamp == Some(a.at) && r.sensorStatus == a.reading.status
      && r.latestFlowRate == a.reading.flowRate && r.latestTotalVolume == a.reading.totalVolume
  {
  }

  // ---------------------------------------------------------------------
  // The read loop's view of a run of read outcomes
  // ---------------------------------------------------------------------

  /** The reading, if any, one read outcome contributes: a line that passes the header filter and parses. */
  function ArrivalOf(e: ReadEvent): seq<Arrival> {
    match e
    case Line(raw, _, at) =>
      var line := Strip(raw);
      if Admits(line, HeaderPrefixes) then
        match ReadingOf(line)
        case Some(r) => [Arrival(r, at)]
        case None => []
      else []
    case _ => []
  }

  /** The readings a run of read outcomes delivers, in order. */
  function Arrivals(events: seq<ReadEvent>): (r: seq<Arrival>)
    ensures |r| <= |events|
  {
    if events == [] then []
    else Arrivals(events[..|events| - 1]) + ArrivalOf(events[|events| - 1])
  }

  function IsSerialFault(e: ReadEvent): bool { e.SerialFault? }

  /** How many outcomes the loop consumes before a `SerialException` ends it (all of them if none does). */
  function FirstSerialFault(events: seq<ReadEvent>): (n: nat)
    ensures n <= |events|
    ensures forall k :: 0 <= k < n ==> !events[k].SerialFault?
    ensures n < |events| ==> events[n].SerialFault?
  {
    FirstIndex(events, IsSerialFault)
  }

  // ---------------------------------------------------------------------
  // Link health
  // ---------------------------------------------------------------------

  datatype DataState = Waiting | Receiving | Stale(delta: real) | NoConnection

  /** `_compute_status_summary`: connection label, data state, sensor text, seconds since the last data. */
  datatype StatusSummary = StatusSummary(
    connection: string, data: DataState, sensor: string, sinceLastData: Option<real>, now: real)

  function ComputeStatusSummary(connected: bool, lastData: Option<real>, sensorStatus: string, now: real): (r: StatusSummary)
    ensures r.connection == if connected then "Connected" else "Disconnected"
    ensures r.data == NoConnection <==> !connected
    ensures r.data == Waiting <==> connected && lastData.None?
    ensures r.data.Stale? <==> connected && lastData.Some? && now - lastData.value > DataTimeoutSeconds
    ensures r.data == Receiving <==> connected && lastData.Some? && now - lastData.value <= DataTimeoutSeconds
    ensures r.data.Stale? ==> r.data.delta == now - lastData.value
    ensures r.sinceLastData == if lastData.Some? then Some(now - lastData.value) else None
    ensures !connected ==> r.sensor == sensorStatus + " (disconnected)"
    ensures r.data == Waiting ==> r.sensor == DefaultSensorStatus
    ensures r.data.Stale? ==> r.sensor == sensorStatus + " (stale)"
    ensures r.data == Receiving ==> r.sensor == sensorStatus
    ensures r.now == now
  {
    var (data, sensor, since) :=
      match lastData
      case Some(t) =>
        var delta := now - t;
        if delta > DataTimeoutSeconds then (Stale(delta), sensorStatus + " (stale)", Some(delta))
        else (Receiving, sensorStatus, Some(delta))
      case None => (Waiting, DefaultSensorStatus, None);
    if !connected then
      StatusSummary("Disconnected", NoConnection, sensorStatus + " (disconnected)", since, now)
    else StatusSummary("Connected", data, sensor, since, now)
  }

  /** The two gates of `_handle_auto_reconnect`, with Python's truthiness of the optional times. */
  function ReconnectDue(connected: bool, lastData: Option<real>, lastAttempt: Option<real>, now: real): (due: bool)
    ensures due ==> connected && lastData.Some? && now > lastData.value + ReconnectAfterSeconds
    ensures due && Truthy(lastAttempt) ==> now > lastAttempt.value + ReconnectRetrySeconds
    ensures connected && Truthy(lastData) && now - lastData.value > ReconnectAfterSeconds && lastAttempt.None? ==> due
  {
    connected && Truthy(lastData) && now - lastData.value > ReconnectAfterSeconds
    && (!Truthy(lastAttempt) || now - lastAttempt.value > ReconnectRetrySeconds)
  }

  /** Whenever a reconnect fires, the status line already shows the data as stale. */
  lemma ReconnectOnlyWhenStale(connected: bool, lastData: Option<real>, lastAttempt: Option<real>, sensorStatus: string, now: real)
    requires ReconnectDue(connected, lastData, lastAttempt, now)
    ensures ComputeStatusSummary(connected, lastData, sensorStatus, now).data.Stale?
  {
  }

  /** Attempts are at least 5 s apart: after an attempt at `t`, none fires until after `t + 5`. */
  lemma ReconnectAttemptsSpaced(connected: bool, lastData: Option<real>, t: real, now: real)
    requires t != 0.0 && now <= t + ReconnectRetrySeconds
    ensures !ReconnectDue(connected, lastData, Some(t), now)
  {
  }

  // ---------------------------------------------------------------------
  // Ports
  // ---------------------------------------------------------------------

  /** `PortSelector`'s classification: the first rule that matches the upper-cased description. */
  function ClassifyPort(description: string): (k: PortKind)
    ensures k != Bluetooth
    ensures var u := Upper(description);
      (k == Arduino <==> ContainsAny(u, BoardKeywords))
      && (k == UsbSerial <==> !ContainsAny(u, BoardKeywords) && ContainsAny(u, BridgeKeywords))
      && (k == UsbDevice <==> !ContainsAny(u, BoardKeywords) && !ContainsAny(u, BridgeKeywords) && Contains(u, "USB"))
  {
    var u := Upper(description);
    if ContainsAny(u, BoardKeywords) then Arduino
    else if ContainsAny(u, BridgeKeywords) then UsbSerial
    else if Contains(u, "USB") then UsbDevice
    else Unknown
  }

  /** `PortInfo` without the hardware id, which nothing decides on. */
  datatype PortInfo = PortInfo(device: string, description: string, kind: PortKind)

  function InfoOf(p: SerialPort): PortInfo {
    PortInfo(p.device, p.description, ClassifyPort(p.description))
  }

  /** `(x.type != "Arduino", x.device)`: `False` sorts before `True`. */
  function SelectorKey(p: PortInfo): Key {
    Key(if p.kind == Arduino then 0 else 1, p.device)
  }

  function IsArduino(p: PortInfo): bool { p.kind == Arduino }

  /** `get_available_ports`: every port, classified, Arduino boards first, then by device name. */
  function GetAvailablePorts(ports: seq<SerialPort>): (r: seq<PortInfo>)
    ensures |r| == |ports|
    ensures multiset(r) == multiset(Map(InfoOf, ports))
    ensures forall i, j :: 0 <= i < j < |r| && r[j].kind == Arduino ==> r[i].kind == Arduino
    ensures forall i, j :: 0 <= i < j < |r| && IsArduino(r[i]) == IsArduino(r[j]) ==> StrLe(r[i].device, r[j].device)
  {
    var r := SortBy(Map(InfoOf, ports), SelectorKey);
    assert forall i, j :: 0 <= i < j < |r| ==> KeyLe(SelectorKey(r[i]), SelectorKey(r[j]));
    r
  }

  /** Two lists with the same elements, one of them a single element, are the same list. */
  lemma SingletonPermutation<T>(a: seq<T>, b: seq<T>)
    requires multiset(a) == multiset(b) && |a| == 1
    ensures b == a
  {
    assert a[0] in multiset(b);
    assert |b| == |multiset(b)| == 1;
  }

  /**
   * `select_port_interactively`: no ports gives `None`; exactly one Arduino
   * port (counted over the ports as enumerated) is chosen without asking;
   * otherwise the dialog's answer is returned.
   */
  function SelectPortInteractively(ports: seq<SerialPort>, dialog: Option<string>): (r: Option<string>)
    ensures ports == [] ==> r == None
    ensures var a := Filter(Map(InfoOf, ports), IsArduino);
      ports != [] && |a| == 1 ==> r == Some(a[0].device)
    ensures ports != [] && |Filter(Map(InfoOf, ports), IsArduino)| != 1 ==> r == dialog
  {
    var infos := GetAvailablePorts(ports);
    var arduinos := Filter(infos, IsArduino);
    SortedArduinos(ports);
    if infos == [] then None
    else if |arduinos| == 1 then Some(arduinos[0].device)
    else dialog
  }

  /** Sorting does not change how many Arduino ports there are, nor which one when there is only one. */
  lemma SortedArduinos(ports: seq<SerialPort>)
    ensures var a := Filter(Map(InfoOf, ports), IsArduino); var b := Filter(GetAvailablePorts(ports), IsArduino);
      |a| == |b| && (|a| == 1 ==> a == b)
  {
    FilterSortBy(Map(InfoOf, ports), SelectorKey, IsArduino);
    var a := Filter(Map(InfoOf, ports), IsArduino);
    var b := Filter(GetAvailablePorts(ports), IsArduino);
    assert |multiset(a)| == |multiset(b)|;
    if |a| == 1 {
      SingletonPermutation(a, b);
    }
  }

  const FinderKeywords: seq<string> := ["ARDUINO", "CH340", "CH341", "USB"]

  function LooksLikeArduino(p: SerialPort): bool {
    ContainsAny(Upper(p.description), FinderKeywords)
  }

  /**
   * `_find_arduino_port`: the first port, in enumeration order, whose description
   * names an Arduino, a CH340/CH341 bridge or USB; else the first port; else none.
   */
  function FindArduinoPort(ports: seq<SerialPort>): (r: Option<string>)
    ensures r.None? <==> ports == []
    ensures r.Some? ==> exists k :: (0 <= k < |ports| && r.value == ports[k].device
      && (forall j :: 0 <= j < k ==> !LooksLikeArduino(ports[j]))
      && (LooksLikeArduino(ports[k]) || (k == 0 && forall j :: 0 <= j < |ports| ==> !LooksLikeArduino(ports[j]))))
  {
    var i := FirstIndex(ports, LooksLikeArduino);
    if i < |ports| then Some(ports[i].device)
    else if ports != [] then Some(ports[0].device)
    else None
  }

  /** The port `_connect_to_arduino` ends up using. */
  function ChosenPort(port: Option<string>, available: seq<SerialPort>): (r: Option<string>)
    ensures PortSet(port) ==> r == port
    ensures !PortSet(port) ==> (r.None? <==> available == [])
    ensures !PortSet(port) && r.Some? ==> exists k :: 0 <= k < |available| && available[k].device == r.value
  {
    if PortSet(port) then port else FindArduinoPort(available)
  }

  // ---------------------------------------------------------------------
  // Saving
  // ---------------------------------------------------------------------

  const SaveHeader: string := "Time(s),FlowRate(L/min),TotalVolume(L),Status"

  /** One saved row: time from the oldest retained sample, flow, volume, status. */
  datatype Row = Row(time: real, flowRate: real, totalVolume: real, status: string)

  /**
   * How `save_data` ends: a warning that there is nothing to save; the file
   * dialog raising `TclError` on an option Tk does not know (outside the
   * `try`, so the exception leaves the button callback); the dialog cancelled;
   * the error dialog after `open` or `write` raised; or the rows saved.
   */
  datatype SaveOutcome =
    | NothingToSave
    | DialogRaised(option: string)
    | Cancelled
    | SaveFailed(filename: string)
    | Saved(filename: string, rows: seq<Row>)

  /** The options Tk's `tk_getSaveFile` accepts; any other makes the call raise `TclError`. */
  const TkSaveOptions: seq<string> :=
    ["confirmoverwrite", "defaultextension", "filetypes", "initialdir", "initialfile", "parent", "title", "typevariable"]

  /** The options `save_data` passes to `asksaveasfilename`, as written. */
  const WrittenSaveOptions: seq<string> := ["title", "defaultextension", "filetypes", "initialname"]

  /** The same call with the suggested file name under Tk's own option name. */
  const SaveOptions: seq<string> := ["title", "defaultextension", "filetypes", "initialfile"]

  datatype DialogResult = Answered(filename: string) | BadOption(option: string)

  function UnknownToTk(option: string): bool { option !in TkSaveOptions }

  /**
   * `filedialog.asksaveasfilename(**options)`: an option Tk does not know
   * raises; otherwise the name the user picked (empty when cancelled).
   */
  function AskSaveAsFilename(options: seq<string>, answer: string): (r: DialogResult)
    ensures r.BadOption? <==> exists i :: 0 <= i < |options| && UnknownToTk(options[i])
    ensures r.BadOption? ==> r.option in options && r.option !in TkSaveOptions
    ensures r.Answered? ==> r.filename == answer
  {
    var i := FirstIndex(options, UnknownToTk);
    if i < |options| then BadOption(options[i]) else Answered(answer)
  }

  /** As written, the save dialog raises on `initialname`, whatever the user would have picked. */
  lemma WrittenSaveDialogRaises(answer: string)
    ensures AskSaveAsFilename(WrittenSaveOptions, answer) == BadOption("initialname")
  {
    var o := WrittenSaveOptions;
    assert !UnknownToTk(o[0]) && !UnknownToTk(o[1]) && !UnknownToTk(o[2]);
    assert "initialname"[7] == 'n';
    assert UnknownToTk(o[3]);
  }

  /** With `initialfile`, the save dialog returns the user's answer. */
  lemma SaveDialogAnswers(answer: string)
    ensures AskSaveAsFilename(SaveOptions, answer) == Answered(answer)
  {
    var o := SaveOptions;
    assert forall i :: 0 <= i < |o| ==> !UnknownToTk(o[i]);
  }

  // ---------------------------------------------------------------------
  // The monitor object
  // ---------------------------------------------------------------------

  class FlowMonitor {
    var port: Option<string>
    var isConnected: bool
    var isRecording: bool
    var isRunning: bool
    var startTime: real
    var lastReconnectAttempt: Option<real>

    var timestamps: seq<real>
    var flowRates: seq<real>
    var totalVolumes: seq<real>
    var statusHistory: seq<string>
    var totalDataPoints: nat
    var maxFlowRate: real
    var lastDataTimestamp: Option<real>
    var sensorStatus: string
    var latestFlowRate: real
    var latestTotalVolume: real

    function Data(): MonitorData
      reads this
    {
      MonitorData(timestamps, flowRates, totalVolumes, statusHistory, totalDataPoints, maxFlowRate,
                  lastDataTimestamp, sensorStatus, latestFlowRate, latestTotalVolume)
    }

    predicate Valid()
      reads this
    {
      BuffersOk(Data())
    }

    /** `__init__`: one zero sample, counters cleared, then a connection attempt. */
    constructor (port: Option<string>, now: real, available: seq<SerialPort>, opens: bool)
      ensures Valid() && Data() == Fresh
      ensures isRecording && isRunning && startTime == now && lastReconnectAttempt.None?
      ensures this.port == ChosenPort(port, available)
      ensures isConnected == (opens && PortSet(ChosenPort(port, available)))
    {
      this.port := port;
      isConnected := false;
      isRecording := true;
      isRunning := true;
      timestamps, flowRates, totalVolumes, statusHistory := [0.0], [0.0], [0.0], [DefaultSensorStatus];
      startTime := now;
      totalDataPoints := 0;
      maxFlowRate := 0.0;
      lastDataTimestamp := None;
      lastReconnectAttempt := None;
      sensorStatus := DefaultSensorStatus;
      latestFlowRate := 0.0;
      latestTotalVolume := 0.0;
      new;
      var ok := ConnectToArduino(available, opens);
    }

    /**
     * `_connect_to_arduino`: find a port if none is set; with no port, fail and
     * change nothing else; otherwise `opens` says whether the serial port
     * opened. Success clears the data timestamp and the sensor status.
     */
    method ConnectToArduino(available: seq<SerialPort>, opens: bool) returns (ok: bool)
      modifies this`port, this`isConnected, this`lastDataTimestamp, this`sensorStatus
      ensures port == ChosenPort(old(port), available)
      ensures ok == (opens && PortSet(port))
      ensures !PortSet(port) ==> (isConnected == old(isConnected) && lastDataTimestamp == old(lastDataTimestamp)
        && sensorStatus == old(sensorStatus))
      ensures PortSet(port) ==> isConnected == opens
      ensures ok ==> lastDataTimestamp.None? && sensorStatus == DefaultSensorStatus
      ensures !ok ==> lastDataTimestamp == old(lastDataTimestamp) && sensorStatus == old(sensorStatus)
    {
      if !PortSet(port) {
        port := FindArduinoPort(available);
      }
      if !PortSet(port) {
        return false;
      }
      if opens {
        isConnected := true;
        lastDataTimestamp := None;
        sensorStatus := DefaultSensorStatus;
        ok := true;
      } else {
        isConnected := false;
        ok := false;
      }
    }

    /** `_parse_data_line` with `time.time()` read as `now`. */
    method ParseDataLine(line: string, now: real)
      requires Valid()
      modifies this`timestamps, this`flowRates, this`totalVolumes, this`statusHistory, this`totalDataPoints,
        this`maxFlowRate, this`lastDataTimestamp, this`sensorStatus, this`latestFlowRate, this`latestTotalVolume
      ensures Valid()
      ensures Data() == match ReadingOf(line)
        case Some(r) => AbsorbOne(old(Data()), Arrival(r, now), isRecording)
        case None => old(Data())
    {
      match ReadingOf(line)
      case None =>
      case Some(r) =>
        SetData(AbsorbOne(Data(), Arrival(r, now), isRecording));
    }

    /** Store `d` in the data fields, as the locked blocks do field by field. */
    method SetData(d: MonitorData)
      modifies this`timestamps, this`flowRates, this`totalVolumes, this`statusHistory, this`totalDataPoints,
        this`maxFlowRate, this`lastDataTimestamp, this`sensorStatus, this`latestFlowRate, this`latestTotalVolume
      ensures Data() == d
    {
      timestamps, flowRates, totalVolumes, statusHistory := d.timestamps, d.flowRates, d.totalVolumes, d.statusHistory;
      totalDataPoints, maxFlowRate := d.totalDataPoints, d.maxFlowRate;
      lastDataTimestamp, sensorStatus := d.lastDataTimestamp, d.sensorStatus;
      latestFlowRate, latestTotalVolume := d.latestFlowRate, d.latestTotalVolume;
    }

    /**
     * `_read_serial_data` over a run of read outcomes: lines that pass the
     * header filter are parsed; a `SerialException` marks the link down and ends
     * the loop; other exceptions and idle polls are skipped.
     */
    method ReadSerialData(events: seq<ReadEvent>)
      requires Valid()
      modifies this`isConnected, this`timestamps, this`flowRates, this`totalVolumes, this`statusHistory,
        this`totalDataPoints, this`maxFlowRate, this`lastDataTimestamp, this`sensorStatus,
        this`latestFlowRate, this`latestTotalVolume
      ensures Valid()
      ensures !old(isConnected && isRunning) ==> Data() == old(Data()) && isConnected == old(isConnected)
      ensures old(isConnected && isRunning) ==>
        var n := FirstSerialFault(events);
        Data() == Absorb(old(Data()), Arrivals(events[..n]), isRecording) && isConnected == (n == |events|)
    {
      if !(isConnected && isRunning) {
        return;
      }
      var n := ReadUntilFault(events);
      if n < |events| {
        isConnected := false;
      }
    }

    /** The loop body repeated until a `SerialException`: how many outcomes it consumed. */
    method ReadUntilFault(events: seq<ReadEvent>) returns (n: nat)
      requires Valid()
      modifies this`timestamps, this`flowRates, this`totalVolumes, this`statusHistory, this`totalDataPoints,
        this`maxFlowRate, this`lastDataTimestamp, this`sensorStatus, this`latestFlowRate, this`latestTotalVolume
      ensures n == FirstSerialFault(events)
      ensures Valid() && Data() == Absorb(old(Data()), Arrivals(events[..n]), isRecording)
    {
      ghost var d0 := Data();
      n := 0;
      while n < |events| && !events[n].SerialFault?
        invariant n <= FirstSerialFault(events)
        invariant Valid() && Data() == Absorb(d0, Arrivals(events[..n]), isRecording)
      {
        ArrivalsStep(d0, events, n, isRecording);
        ProcessOutcome(events[n]);
        n := n + 1;
      }
      if n < |events| {
        FaultEndsRun(events, n);
      }
    }

    /** One pass of the read loop for an outcome other than a `SerialException`. */
    method ProcessOutcome(e: ReadEvent)
      requires Valid()
      modifies this`timestamps, this`flowRates, this`totalVolumes, this`statusHistory, this`totalDataPoints,
        this`maxFlowRate, this`lastDataTimestamp, this`sensorStatus, this`latestFlowRate, this`latestTotalVolume
      ensures Valid()
      ensures Data() == if ArrivalOf(e) == [] then old(Data()) else AbsorbOne(old(Data()), ArrivalOf(e)[0], isRecording)
    {
      if e.Line? {
        var line := Strip(e.raw);
        if Admits(line, HeaderPrefixes) {
          ParseDataLine(line, e.at);
        }
      }
    }

    /** `_close_connection`: the link is down afterwards, whatever closing the port did. */
    method CloseConnection()
      modifies this`isConnected
      ensures !isConnected
    {
      isConnected := false;
    }

    /**
     * `_handle_auto_reconnect`: when due, record the attempt time, close the
     * link and connect again.
     */
    method HandleAutoReconnect(now: real, available: seq<SerialPort>, opens: bool) returns (attempted: bool)
      modifies this`port, this`isConnected, this`lastDataTimestamp, this`sensorStatus, this`lastReconnectAttempt
      ensures attempted == ReconnectDue(old(isConnected), old(lastDataTimestamp), old(lastReconnectAttempt), now)
      ensures !attempted ==> (port == old(port) && isConnected == old(isConnected)
        && lastDataTimestamp == old(lastDataTimestamp) && lastReconnectAttempt == old(lastReconnectAttempt)
        && sensorStatus == old(sensorStatus))
      ensures attempted ==> (lastReconnectAttempt == Some(now) && port == ChosenPort(old(port), available)
        && isConnected == (opens && PortSet(port)))
      ensures attempted && isConnected ==> (lastDataTimestamp.None?
        && forall later :: !ReconnectDue(isConnected, lastDataTimestamp, lastReconnectAttempt, later))
    {
      attempted := ReconnectDue(isConnected, lastDataTimestamp, lastReconnectAttempt, now);
      if attempted {
        lastReconnectAttempt := Some(now);
        CloseConnection();
        var ok := ConnectToArduino(available, opens);
      }
    }

    /** `reset_data`: back to one zero sample with cleared counters; recording and link state are kept. */
    method ResetData(now: real)
      modifies this`timestamps, this`flowRates, this`totalVolumes, this`statusHistory, this`totalDataPoints,
        this`maxFlowRate, this`lastDataTimestamp, this`sensorStatus, this`latestFlowRate, this`latestTotalVolume,
        this`startTime
      ensures Valid() && Data() == Fresh && startTime == now
    {
      SetData(Fresh);
      startTime := now;
    }

    /** `toggle_recording`: pause or resume. */
    method ToggleRecording()
      modifies this`isRecording
      ensures isRecording == !old(isRecording)
    {
      isRecording := !isRecording;
    }

    /**
     * `save_data` with the file dialog called with `options`: refuse with at
     * most one sample; the dialog may raise; an empty file name cancels; a
     * failed `open` or `write` (`writes` false) shows the error dialog;
     * otherwise one row per sample, timed from the oldest.
     */
    method SaveWith(options: seq<string>, answer: string, writes: bool) returns (outcome: SaveOutcome)
      requires Valid()
      ensures outcome == NothingToSave <==> |timestamps| <= 1
      ensures |timestamps| > 1 ==> match AskSaveAsFilename(options, answer)
        case BadOption(o) => outcome == DialogRaised(o)
        case Answered(name) =>
          (outcome == Cancelled <==> name == [])
          && (outcome == SaveFailed(name) <==> name != [] && !writes)
          && (outcome.Saved? <==> name != [] && writes)
      ensures outcome.Saved? ==> outcome.filename == answer && |outcome.rows| == |timestamps|
      ensures outcome.Saved? ==> forall i :: 0 <= i < |timestamps| ==>
        outcome.rows[i] == Row(timestamps[i] - timestamps[0], flowRates[i], totalVolumes[i], statusHistory[i])
    {
      if |timestamps| <= 1 {
        return NothingToSave;
      }
      var filename: string;
      match AskSaveAsFilename(options, answer)
      case BadOption(o) =>
        return DialogRaised(o);
      case Answered(name) =>
        filename := name;
      if filename == [] {
        return Cancelled;
      }
      if !writes {
        return SaveFailed(filename);
      }
      var times, flows, volumes, statuses := timestamps, flowRates, totalVolumes, statusHistory;
      var start := times[0];
      var rows: seq<Row> := [];
      var i := 0;
      while i < |times|
        invariant 0 <= i <= |times| && |rows| == i
        invariant forall k :: 0 <= k < i ==> rows[k] == Row(times[k] - start, flows[k], volumes[k], statuses[k])
      {
        var status := if i < |statuses| then statuses[i] else sensorStatus;
        rows := rows + [Row(times[i] - start, flows[i], volumes[i], status)];
        i := i + 1;
      }
      return Saved(filename, rows);
    }

    /** `save_data` as written: with more than one sample, the dialog call always raises. */
    method SaveDataAsWritten(answer: string, writes: bool) returns (outcome: SaveOutcome)
      requires Valid()
      ensures |timestamps| <= 1 ==> outcome == NothingToSave
      ensures |timestamps| > 1 ==> outcome == DialogRaised("initialname")
    {
      WrittenSaveDialogRaises(answer);
      outcome := SaveWith(WrittenSaveOptions, answer, writes);
    }

    /**
     * `save_data` with the suggested name passed as `initialfile`: refuse with
     * at most one sample; an empty answer cancels; a failed write reports the
     * error; otherwise one row per sample, timed from the oldest.
     */
    method SaveData(answer: string, writes: bool) returns (outcome: SaveOutcome)
      requires Valid()
      ensures outcome == NothingToSave <==> |timestamps| <= 1
      ensures outcome == Cancelled <==> |timestamps| > 1 && answer == []
      ensures outcome == SaveFailed(answer) <==> |timestamps| > 1 && answer != [] && !writes
      ensures outcome.Saved? <==> |timestamps| > 1 && answer != [] && writes
      ensures !outcome.DialogRaised?
      ensures outcome.Saved? ==> outcome.filename == answer && |outcome.rows| == |timestamps|
      ensures outcome.Saved? ==> forall i :: 0 <= i < |timestamps| ==>
        outcome.rows[i] == Row(timestamps[i] - timestamps[0], flowRates[i], totalVolumes[i], statusHistory[i])
    {
      SaveDialogAnswers(answer);
      outcome := SaveWith(SaveOptions, answer, writes);
    }
  }

  /** One more read outcome adds its reading, if any, to what the loop has absorbed. */
  lemma ArrivalsStep(d: MonitorData, events: seq<ReadEvent>, i: nat, recording: bool)
    requires BuffersOk(d) && i < FirstSerialFault(events)
    ensures i + 1 <= FirstSerialFault(events)
    ensures Absorb(d, Arrivals(events[..i + 1]), recording) ==
      (if ArrivalOf(events[i]) == [] then Absorb(d, Arrivals(events[..i]), recording)
       else AbsorbOne(Absorb(d, Arrivals(events[..i]), recording), ArrivalOf(events[i])[0], recording))
  {
    assert events[..i + 1] == events[..i] + [events[i]];
    AbsorbSnocEvents(d, events[..i], events[i], recording);
  }

  /** A `SerialException` met before the first one is the first one. */
  lemma FaultEndsRun(events: seq<ReadEvent>, i: nat)
    requires i <= FirstSerialFault(events) && i < |events| && events[i].SerialFault?
    ensures FirstSerialFault(events) == i
  {
  }

  lemma AbsorbSnocEvents(d: MonitorData, prefix: seq<ReadEvent>, e: ReadEvent, recording: bool)
    requires BuffersOk(d)
    ensures Arrivals(prefix + [e]) == Arrivals(prefix) + ArrivalOf(e)
    ensures Absorb(d, Arrivals(prefix + [e]), recording) ==
      (if ArrivalOf(e) == [] then Absorb(d, Arrivals(prefix), recording)
       else AbsorbOne(Absorb(d, Arrivals(prefix), recording), ArrivalOf(e)[0], recording))
  {
    assert (prefix + [e])[..|prefix|] == prefix;
    if ArrivalOf(e) == [] {
      assert Arrivals(prefix) + ArrivalOf(e) == Arrivals(prefix);
    } else {
      AbsorbSnoc(d, Arrivals(prefix), ArrivalOf(e)[0], recording);
    }
  }
}
