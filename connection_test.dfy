/**
 * The plain connection test: the ports whose description suggests an
 * Arduino board or a USB bridge, each listened to for ten seconds; a port
 * works when it sends any text at all, and the first working port is the
 * one suggested for the monitor.
 */
module ConnectionTest {
  import opened Wrappers
  import opened Text
  import opened Numbers
  import opened Samples
  import opened Wire
  import opened Ports
  import opened Readings

  // ---------------------------------------------------------------- ports

  const FinderKeywords: seq<string> := ["ARDUINO", "CH340", "USB", "SERIAL"]

  function IsCandidate(p: SerialPort): bool {
    ContainsAny(Upper(p.description), FinderKeywords)
  }

  /**
   * `find_arduino_ports`: the ports whose description names one of the
   * keywords, in enumeration order.
   */
  function FindArduinoPorts(ports: seq<SerialPort>): (r: seq<SerialPort>)
    ensures forall p :: p in r <==> p in ports && IsCandidate(p)
  {
    var r := Filter(ports, IsCandidate);
    forall p
      ensures p in r <==> p in ports && IsCandidate(p)
    {
      FilterMembers(ports, IsCandidate, p);
    }
    r
  }

  /** The candidates are the matching ports at increasing positions of the enumeration. */
  lemma CandidatesInOrder(ports: seq<SerialPort>) returns (idx: seq<nat>)
    ensures |idx| == |FindArduinoPorts(ports)|
    ensures forall i :: 0 <= i < |idx| ==> idx[i] < |ports| && ports[idx[i]] == FindArduinoPorts(ports)[i]
    ensures forall i, j :: 0 <= i < j < |idx| ==> idx[i] < idx[j]
    ensures forall k :: 0 <= k < |ports| ==> (k in idx <==> IsCandidate(ports[k]))
  {
    idx := FilterIsSubsequence(ports, IsCandidate);
  }

  // ---------------------------------------------------------------- listening

  /** What the script prints for a line it takes for flow data: the flow and the volume. */
  datatype FlowReport = FlowReport(flowRate: real, volume: real)

  /**
   * The check of `test_connection` on a stripped line, which only decides
   * what is printed: a comma, not a `===` banner, at least three fields, and
   * the flow (field 1) and volume (field 2) convert to numbers.
   */
  function FlowData(line: string): (r: Option<FlowReport>)
    ensures r.Some? ==> ',' in line && !StartsWith(line, "===") && |Fields(line)| >= 3
    ensures r.Some? ==> ParseReal(Fields(line)[1]) == Some(r.value.flowRate) && ParseReal(Fields(line)[2]) == Some(r.value.volume)
  {
    if ',' in line && !StartsWith(line, "===") then
      var parts := Fields(line);
      if |parts| >= 3 then
        match (ParseReal(parts[1]), ParseReal(parts[2]))
        case (Some(flow), Some(volume)) => Some(FlowReport(flow, volume))
        case _ => None
      else None
    else None
  }

  /** A line the device prints for a reading is reported with its flow and volume. */
  lemma DeviceLineReported(d: DeviceReading, extended: bool)
    requires CleanStatus(d.status)
    ensures FlowData(FormatLine(d, extended)) ==
      Some(FlowReport(d.flowUnits as real / Pow10(FlowScale) as real, d.volumeUnits as real / Pow10(VolumeScale) as real))
  {
    DeviceLineShape(d, extended);
  }

  /** A header line whose fields 1 and 2 happen to be numbers is reported as flow data here. */
  lemma TimeLineReported()
    ensures FlowData("Time,1,2") == Some(FlowReport(1.0, 2.0))
  {
    var line := "Time,1,2";
    TimeLineFields();
    NumbersOneTwo();
    FirstCharDiffers(line, "===");
    assert line[4] == ',';
  }

  lemma TimeLineFields()
    ensures Fields("Time,1,2") == ["Time", "1", "2"]
  {
    var parts := ["Time", "1", "2"];
    assert Join(parts, ',') == "Time,1,2" by {
      assert Join(parts[2..], ',') == "2";
      assert Join(parts[1..], ',') == "1" + [','] + "2";
    }
    SplitJoin(parts, ',');
  }

  lemma NumbersOneTwo()
    ensures ParseReal("1") == Some(1.0) && ParseReal("2") == Some(2.0)
  {
    assert NatToDigits(1) == "1" && NatToDigits(2) == "2";
    ParseRealOfDigits(1);
    ParseRealOfDigits(2);
  }

  /** The flow reports printed for the reads `es`, oldest first. */
  function Reports(es: seq<ReadEvent>): (r: seq<FlowReport>)
  {
    if es == [] then []
    else
      var e := es[|es| - 1];
      Reports(es[..|es| - 1]) + if Received(e) then Opt(FlowData(Strip(e.raw))) else []
  }

  /** Where `test_connection` ends: a returned result, or an exception other than `SerialException` escaping it. */
  datatype PortTest = Returned(result: bool) | Escaped

  /**
   * The result for a port: `False` when it does not open or a read raises a
   * `SerialException` (a closed handle raises one too); an escaping exception
   * for any other read error; otherwise whether any non-empty line arrived.
   */
  function Probe(opens: bool, es: seq<ReadEvent>): (r: PortTest)
    ensures r == Returned(true) <==>
      opens && FirstEnd(es) == |es| && exists k :: 0 <= k < |es| && Received(es[k])
    ensures r == Escaped <==> opens && FirstEnd(es) < |es| && es[FirstEnd(es)].OtherFault?
  {
    var h := FirstEnd(es);
    if !opens then Returned(false)
    else if h < |es| then (if es[h].OtherFault? then Escaped else Returned(false))
    else Returned(exists k :: 0 <= k < |es| && Received(es[k]))
  }

  lemma ReportsStep(es: seq<ReadEvent>, i: nat)
    requires i < |es|
    ensures Reports(es[..i + 1]) ==
      Reports(es[..i]) + if Received(es[i]) then Opt(FlowData(Strip(es[i].raw))) else []
  {
    assert es[..i + 1][..i] == es[..i];
  }

  /**
   * The reports are the flow data of received lines, in order: there are no
   * more of them than reads, and each comes from a received line.
   */
  lemma {:induction false} ReportsFromReceived(es: seq<ReadEvent>)
    ensures |Reports(es)| <= |es|
    ensures forall i :: 0 <= i < |Reports(es)| ==>
      exists k :: 0 <= k < |es| && Received(es[k]) && FlowData(Strip(es[k].raw)) == Some(Reports(es)[i])
  {
    if es != [] {
      var n := |es| - 1;
      var init := es[..n];
      ReportsFromReceived(init);
      var e := es[n];
      var tail := if Received(e) then Opt(FlowData(Strip(e.raw))) else [];
      assert Reports(es) == Reports(init) + tail;
      forall i | 0 <= i < |Reports(es)|
        ensures exists k :: 0 <= k < |es| && Received(es[k]) && FlowData(Strip(es[k].raw)) == Some(Reports(es)[i])
      {
        if i < |Reports(init)| {
          var r := Reports(init)[i];
          assert exists k :: 0 <= k < |init| && Received(init[k]) && FlowData(Strip(init[k].raw)) == Some(r);
          var k :| 0 <= k < |init| && Received(init[k]) && FlowData(Strip(init[k].raw)) == Some(r);
          assert es[k] == init[k] && Reports(es)[i] == r;
        } else {
          assert Reports(es)[i] == tail[i - |Reports(init)|];
          assert Received(es[n]) && FlowData(Strip(es[n].raw)) == Some(Reports(es)[i]);
        }
      }
    }
  }

  /** The reports of the first `j` reads begin the reports of all of them. */
  lemma {:induction false} ReportsPrefix(es: seq<ReadEvent>, j: nat)
    requires j <= |es|
    ensures Reports(es[..j]) <= Reports(es)
  {
    if j < |es| {
      var n := |es| - 1;
      assert es[..n][..j] == es[..j];
      ReportsPrefix(es[..n], j);
      ReportsStep(es, n);
      assert es[..n + 1] == es;
    } else {
      assert es[..j] == es;
    }
  }

  /**
   * Every received line with flow data is reported, in order: its report
   * comes right after the reports of the reads before it.
   */
  lemma ReportedAt(es: seq<ReadEvent>, k: nat)
    requires k < |es| && Received(es[k]) && FlowData(Strip(es[k].raw)).Some?
    ensures |Reports(es[..k])| < |Reports(es)|
    ensures Reports(es)[|Reports(es[..k])|] == FlowData(Strip(es[k].raw)).value
  {
    ReportsStep(es, k);
    ReportsPrefix(es, k + 1);
  }

  /**
   * `test_connection`: `opens` says whether the port opened, `events` are the
   * reads made within the timeout. Besides the result, the flow reports it prints.
   */
  method TestConnection(opens: bool, events: seq<ReadEvent>) returns (test: PortTest, reports: seq<FlowReport>)
    ensures test == Probe(opens, events)
    ensures opens ==> reports == Reports(events[..FirstEnd(events)])
  {
    reports := [];
    if !opens {
      return Returned(false), reports;
    }
    var dataReceived := false;
    var i := 0;
    while i < |events|
      invariant i <= |events| && i <= FirstEnd(events)
      invariant dataReceived <==> exists k :: 0 <= k < i && Received(events[k])
      invariant reports == Reports(events[..i])
    {
      var e := events[i];
      if Ends(e) {
        return if e.OtherFault? then Escaped else Returned(false), reports;
      }
      ReportsStep(events, i);
      if e.Line? && e.utf8 {
        var line := Strip(e.raw);
        if line != [] {
          dataReceived := true;
          match FlowData(line)
          case Some(report) =>
            reports := reports + [report];
          case None =>
        }
      }
      i := i + 1;
    }
    return Returned(dataReceived), reports;
  }

  /** A port that sends only text that is not flow data still passes. */
  lemma AnyTextPasses()
    ensures Probe(true, [Line("hello", true, 0.0)]) == Returned(true)
    ensures Reports([Line("hello", true, 0.0)]) == []
  {
    var es := [Line("hello", true, 0.0)];
    assert Received(es[0]);
    assert ',' !in "hello";
  }

  // ---------------------------------------------------------------- main

  function Device(p: SerialPort): string { p.device }

  /** The port test of the script, for the given opening and reading behaviour of each device. */
  function Works(opens: string -> bool, incoming: string -> seq<ReadEvent>): SerialPort -> bool {
    (p: SerialPort) => Probe(opens(p.device), incoming(p.device)) == Returned(true)
  }

  /** `working_ports`: the devices whose test passed, in test order. */
  function WorkingPorts(candidates: seq<SerialPort>, opens: string -> bool, incoming: string -> seq<ReadEvent>): (r: seq<string>)
  {
    Map(Device, Filter(candidates, Works(opens, incoming)))
  }

  /**
   * How `main` ends: the port given on the command line tested; no
   * candidate port; the summary of working ports with the one suggested; or
   * an exception escaping the test of `port`, which stops the script.
   */
  datatype Outcome =
    | Single(port: string, test: PortTest)
    | NoCandidates
    | Summary(working: seq<string>, suggested: Option<string>)
    | Aborted(port: string)

  /** The suggestion: the first working port, if any. */
  function Suggest(working: seq<string>): (r: Option<string>)
    ensures r.None? <==> working == []
    ensures r.Some? ==> r.value in working
  {
    if working == [] then None else Some(working[0])
  }

  /** Testing the device of `p` raises an exception that escapes `test_connection`. */
  function Escapes(opens: string -> bool, incoming: string -> seq<ReadEvent>): SerialPort -> bool {
    (p: SerialPort) => Probe(opens(p.device), incoming(p.device)) == Escaped
  }

  /**
   * `main`, with the command-line argument `arg`, the enumerated `ports`, and
   * for each device whether it opens and the reads it yields. Without an
   * argument, the candidates are tested in order: the first whose test
   * escapes stops the script; when none does, the summary lists the working
   * ports and suggests the first.
   */
  method Run(arg: Option<string>, ports: seq<SerialPort>, opens: string -> bool, incoming: string -> seq<ReadEvent>)
    returns (outcome: Outcome)
    ensures arg.Some? ==> outcome == Single(arg.value, Probe(opens(arg.value), incoming(arg.value)))
    ensures arg.None? && FindArduinoPorts(ports) == [] ==> outcome == NoCandidates
    ensures arg.None? && FindArduinoPorts(ports) != [] ==>
      var candidates := FindArduinoPorts(ports);
      var e := FirstIndex(candidates, Escapes(opens, incoming));
      (e < |candidates| ==> outcome == Aborted(candidates[e].device))
      && (e == |candidates| ==>
        outcome == Summary(WorkingPorts(candidates, opens, incoming), Suggest(WorkingPorts(candidates, opens, incoming))))
    ensures outcome.Aborted? ==>
      exists k :: 0 <= k < |ports| && ports[k].device == outcome.port
        && Probe(opens(outcome.port), incoming(outcome.port)) == Escaped
  {
    if arg.Some? {
      var test, _ := TestConnection(opens(arg.value), incoming(arg.value));
      return Single(arg.value, test);
    }
    var candidates := FindArduinoPorts(ports);
    if candidates == [] {
      return NoCandidates;
    }
    var working, aborted := TestEach(candidates, opens, incoming);
    if aborted.Some? {
      var e := FirstIndex(candidates, Escapes(opens, incoming));
      assert candidates[e] in ports;
      return Aborted(aborted.value);
    }
    return Summary(working, Suggest(working));
  }

  /**
   * The loop of `main` over the candidates: each is tested in turn and the
   * devices that passed are collected, unless a test raises an exception
   * that escapes, which ends the script at the first such port.
   */
  method TestEach(candidates: seq<SerialPort>, opens: string -> bool, incoming: string -> seq<ReadEvent>)
    returns (working: seq<string>, aborted: Option<string>)
    ensures aborted.None? <==> FirstIndex(candidates, Escapes(opens, incoming)) == |candidates|
    ensures aborted.Some? ==> aborted.value == candidates[FirstIndex(candidates, Escapes(opens, incoming))].device
    ensures aborted.None? ==> working == WorkingPorts(candidates, opens, incoming)
  {
    working := [];
    var i := 0;
    while i < |candidates|
      invariant i <= |candidates|
      invariant working == WorkingPorts(candidates[..i], opens, incoming)
      invariant forall k :: 0 <= k < i ==> !Escapes(opens, incoming)(candidates[k])
    {
      var device := candidates[i].device;
      var test, _ := TestConnection(opens(device), incoming(device));
      if test.Escaped? {
        FirstEscapeAt(candidates, opens, incoming, i);
        return working, Some(device);
      }
      WorkingStep(candidates, i, opens, incoming);
      if test.result {
        working := working + [device];
      }
      i := i + 1;
    }
    assert candidates[..i] == candidates;
    NoEscape(candidates, opens, incoming);
    return working, None;
  }

  lemma FirstEscapeAt(candidates: seq<SerialPort>, opens: string -> bool, incoming: string -> seq<ReadEvent>, i: nat)
    requires i < |candidates|
    requires forall k :: 0 <= k < i ==> !Escapes(opens, incoming)(candidates[k])
    requires Probe(opens(candidates[i].device), incoming(candidates[i].device)) == Escaped
    ensures FirstIndex(candidates, Escapes(opens, incoming)) == i
  {
    assert Escapes(opens, incoming)(candidates[i]);
  }

  lemma NoEscape(candidates: seq<SerialPort>, opens: string -> bool, incoming: string -> seq<ReadEvent>)
    requires forall k :: 0 <= k < |candidates| ==> !Escapes(opens, incoming)(candidates[k])
    ensures FirstIndex(candidates, Escapes(opens, incoming)) == |candidates|
  {
  }

  lemma WorkingStep(candidates: seq<SerialPort>, i: nat, opens: string -> bool, incoming: string -> seq<ReadEvent>)
    requires i < |candidates|
    ensures WorkingPorts(candidates[..i + 1], opens, incoming) ==
      WorkingPorts(candidates[..i], opens, incoming) + if Works(opens, incoming)(candidates[i]) then [candidates[i].device] else []
  {
    var w := Works(opens, incoming);
    assert candidates[..i + 1] == candidates[..i] + [candidates[i]];
    FilterAppend(candidates[..i], [candidates[i]], w);
    assert [candidates[i]][..0] == [];
    if w(candidates[i]) {
      MapSnoc(Device, Filter(candidates[..i], w), candidates[i]);
    } else {
      assert Filter(candidates[..i] + [candidates[i]], w) == Filter(candidates[..i], w);
    }
  }

  /** A device is listed as working exactly when it is a candidate whose test passed. */
  lemma WorkingMembers(candidates: seq<SerialPort>, opens: string -> bool, incoming: string -> seq<ReadEvent>, d: string)
    ensures d in WorkingPorts(candidates, opens, incoming) <==>
      exists k :: 0 <= k < |candidates| && candidates[k].device == d && Probe(opens(d), incoming(d)) == Returned(true)
  {
    if d in WorkingPorts(candidates, opens, incoming) {
      WorkingMemberTested(candidates, opens, incoming, d);
    }
    if exists k :: 0 <= k < |candidates| && candidates[k].device == d && Probe(opens(d), incoming(d)) == Returned(true) {
      var k :| 0 <= k < |candidates| && candidates[k].device == d && Probe(opens(d), incoming(d)) == Returned(true);
      TestedMemberWorking(candidates, opens, incoming, k);
    }
  }

  lemma WorkingMemberTested(candidates: seq<SerialPort>, opens: string -> bool, incoming: string -> seq<ReadEvent>, d: string)
    requires d in WorkingPorts(candidates, opens, incoming)
    ensures exists k :: 0 <= k < |candidates| && candidates[k].device == d && Probe(opens(d), incoming(d)) == Returned(true)
  {
    var w := Works(opens, incoming);
    var f := Filter(candidates, w);
    var m := Map(Device, f);
    var j :| 0 <= j < |m| && m[j] == d;
    FilterMembers(candidates, w, f[j]);
    var k :| 0 <= k < |candidates| && candidates[k] == f[j];
    assert candidates[k].device == d;
  }

  lemma TestedMemberWorking(candidates: seq<SerialPort>, opens: string -> bool, incoming: string -> seq<ReadEvent>, k: nat)
    requires k < |candidates|
    requires Probe(opens(candidates[k].device), incoming(candidates[k].device)) == Returned(true)
    ensures candidates[k].device in WorkingPorts(candidates, opens, incoming)
  {
    var w := Works(opens, incoming);
    var f := Filter(candidates, w);
    FilterMembers(candidates, w, candidates[k]);
    var j :| 0 <= j < |f| && f[j] == candidates[k];
    assert Map(Device, f)[j] == candidates[k].device;
  }
}
