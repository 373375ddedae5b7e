/**
 * `SimpleFlowMonitor`: one fixed port, three 500-sample histories whose
 * times are measured from the first reading, a read loop that gives up at
 * the first exception, and the flow indicator at the end of the status line.
 */
module SimpleFlowGui {
  import opened Wrappers
  import opened Samples
  import opened Wire
  import opened Series
  import opened Readings

  /** `MAX_POINTS` */
  const MaxPoints: nat := 500

  /** The flow above which the status line reports flow. */
  const FlowThreshold: real := 0.1

  const FlowDetected: string := "FLOW DETECTED!"
  const WaitingForFlow: string := "Waiting for flow..."

  /**
   * The indicator `animate` puts at the end of the status line: none while
   * nothing is stored (the status line is left as it is), otherwise whether
   * the newest flow exceeds the threshold.
   */
  function FlowIndicator(flows: seq<real>): (r: Option<string>)
    ensures r.None? <==> flows == []
    ensures r == Some(FlowDetected) <==> flows != [] && flows[|flows| - 1] > FlowThreshold
    ensures r.Some? ==> r.value == FlowDetected || r.value == WaitingForFlow
  {
    if flows == [] then None
    else if flows[|flows| - 1] > FlowThreshold then Some(FlowDetected)
    else Some(WaitingForFlow)
  }

  /** Right after a reading is stored, the indicator reports that reading's flow. */
  lemma IndicatorAfterReading(st: Store, f: Frame)
    requires Lockstep(st.series, MaxPoints)
    ensures FlowIndicator(RecordOneRelative(st, f, MaxPoints).series.flowRates)
      == Some(if f.flowRate > FlowThreshold then FlowDetected else WaitingForFlow)
  {
    var flows := RecordOneRelative(st, f, MaxPoints).series.flowRates;
    var all := st.series.flowRates + [f.flowRate];
    assert flows == LastN(all, MaxPoints);
    assert flows[|flows| - 1] == all[|all| - 1];
  }

  /** `SimpleFlowMonitor` */
  class SimpleFlowMonitor {
    var timestamps: seq<real>
    var flowRates: seq<real>
    var totalVolumes: seq<real>
    var dataCount: nat
    var startTime: Option<real>
    /** `serial_connection` is set. */
    var connected: bool
    var running: bool

    /** The histories, the counter and `start_time`. */
    function Data(): Store
      reads this
    {
      Store(Series(timestamps, flowRates, totalVolumes, dataCount), startTime)
    }

    predicate Valid()
      reads this
    {
      Lockstep(Data().series, MaxPoints)
    }

    constructor()
      ensures Valid() && Data() == Store(Empty, None)
      ensures !connected && running
    {
      timestamps, flowRates, totalVolumes := [], [], [];
      dataCount := 0;
      startTime := None;
      connected := false;
      running := true;
    }

    /** `connect_arduino`; `opens` says whether opening the fixed port succeeded. */
    method ConnectArduino(opens: bool) returns (ok: bool)
      modifies this`connected
      ensures ok == opens
      ensures connected == (old(connected) || opens)
    {
      ok := opens;
      if opens {
        connected := true;
      }
    }

    method SetData(st: Store)
      requires Lockstep(st.series, MaxPoints)
      modifies this`timestamps, this`flowRates, this`totalVolumes, this`dataCount, this`startTime
      ensures Valid() && Data() == st
    {
      timestamps, flowRates, totalVolumes := st.series.timestamps, st.series.flowRates, st.series.totalVolumes;
      dataCount, startTime := st.series.dataCount, st.start;
    }

    /**
     * `parse_data_line`: a line that decodes (pulse fields read as integers,
     * no sign check, status not defaulted) is stored at its seconds since
     * `start_time`, which the first stored line sets; any other line, whatever
     * the exception, changes nothing.
     */
    method ParseDataLine(line: string)
      requires Valid()
      modifies this`timestamps, this`flowRates, this`totalVolumes, this`dataCount, this`startTime
      ensures Valid() && Data() == Absorb(old(Data()), DecodeFrame(line, true), MaxPoints)
    {
      match DecodeFrame(line, true)
      case Some(f) =>
        SetData(RecordOneRelative(Data(), f, MaxPoints));
      case None =>
    }

    /** One pass of the read loop: parse an admitted line; report whether the read ends the loop. */
    method ProcessRead(e: ReadEvent) returns (stop: bool)
      requires Valid()
      modifies this`timestamps, this`flowRates, this`totalVolumes, this`dataCount, this`startTime
      ensures Valid() && Data() == Absorb(old(Data()), LineFrame(e, BannerPrefixes, true), MaxPoints)
      ensures stop == Ends(e)
    {
      stop := Ends(e);
      if e.Line? {
        var line := Text.Strip(e.raw);
        if Admits(line, BannerPrefixes) {
          ParseDataLine(line);
        }
      }
    }

    /** Pass `i` of the read loop, with the loop's bookkeeping carried forward. */
    method ReadAt(events: seq<ReadEvent>, i: nat, ghost start: Store) returns (stop: bool)
      requires Valid() && Lockstep(start.series, MaxPoints)
      requires i < |events| && i <= FirstEnd(events)
      requires Data() == RecordRelative(start, FramesOf(events[..i], BannerPrefixes, true), MaxPoints)
      modifies this`timestamps, this`flowRates, this`totalVolumes, this`dataCount, this`startTime
      ensures Valid()
      ensures if stop then FirstEnd(events) == i else i + 1 <= FirstEnd(events)
      ensures Data() == RecordRelative(start, FramesOf(events[..i + 1], BannerPrefixes, true), MaxPoints)
    {
      FirstEndStep(events, i);
      FramesStep(events, i, BannerPrefixes, true);
      RecordRelativeSnoc(start, FramesOf(events[..i], BannerPrefixes, true), LineFrame(events[i], BannerPrefixes, true), MaxPoints);
      stop := ProcessRead(events[i]);
    }

    /** The loop of `read_serial_data`, over the reads `events`, until the first exception. */
    method ReadUntilEnd(events: seq<ReadEvent>)
      requires Valid()
      modifies this`timestamps, this`flowRates, this`totalVolumes, this`dataCount, this`startTime
      ensures Valid()
      ensures Data() == RecordRelative(old(Data()), FramesOf(events[..FirstEnd(events)], BannerPrefixes, true), MaxPoints)
    {
      var i, stop := 0, false;
      while i < |events| && !stop
        invariant Valid()
        invariant 0 <= i <= |events|
        invariant if stop then 0 < i && FirstEnd(events) == i - 1 else i <= FirstEnd(events)
        invariant Data() == RecordRelative(old(Data()), FramesOf(events[..i], BannerPrefixes, true), MaxPoints)
      {
        stop := ReadAt(events, i, old(Data()));
        i := i + 1;
      }
      FramesAtExit(events, i, stop, BannerPrefixes, true);
    }

    /**
     * `read_serial_data`: without a connection (or once stopped) nothing is
     * read; otherwise every admitted line that decodes is stored, up to the
     * first exception, which ends the loop with no retry.
     */
    method ReadSerialData(events: seq<ReadEvent>)
      requires Valid()
      modifies this`timestamps, this`flowRates, this`totalVolumes, this`dataCount, this`startTime
      ensures Valid()
      ensures !(connected && running) ==> Data() == old(Data())
      ensures connected && running ==>
        Data() == RecordRelative(old(Data()), FramesOf(events[..FirstEnd(events)], BannerPrefixes, true), MaxPoints)
    {
      if connected && running {
        ReadUntilEnd(events);
      }
    }

    /** The clean-up after the plot window closes: the loop is told to stop. */
    method Stop()
      modifies this`running
      ensures !running
    {
      running := false;
    }
  }
}
