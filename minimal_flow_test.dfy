/**
 * `MinimalFlowMonitor`: one fixed port, three 100-sample histories holding
 * absolute seconds, a read loop that gives up at the first exception, and
 * plot times measured from the oldest retained sample.
 */
module MinimalFlowTest {
  import opened Wrappers
  import opened Samples
  import opened Wire
  import opened Series
  import opened Readings

  /** `MAX_POINTS` */
  const MaxPoints: nat := 100

  /** `MinimalFlowMonitor` */
  class MinimalFlowMonitor {
    var timestamps: seq<real>
    var flowRates: seq<real>
    var totalVolumes: seq<real>
    var dataCount: nat
    /** `serial_connection` is set. */
    var connected: bool
    var running: bool

    /** The histories and the counter. */
    function Data(): Series
      reads this
    {
      Series(timestamps, flowRates, totalVolumes, dataCount)
    }

    predicate Valid()
      reads this
    {
      Lockstep(Data(), MaxPoints)
    }

    constructor()
      ensures Valid() && Data() == Empty
      ensures !connected && running
    {
      timestamps, flowRates, totalVolumes := [], [], [];
      dataCount := 0;
      connected := false;
      running := true;
    }

    /** `connect_arduino`; `opens` says whether opening the fixed port succeeded. */
    method ConnectArduino(opens: bool) returns (ok: bool)
      modifies this`connected
      ensures ok == opens
      ensures connected == (old(connected) || opens)
    {
      ok := opens;
      if opens {
        connected := true;
      }
    }

    method SetData(s: Series)
      requires Lockstep(s, MaxPoints)
      modifies this`timestamps, this`flowRates, this`totalVolumes, this`dataCount
      ensures Valid() && Data() == s
    {
      timestamps, flowRates, totalVolumes, dataCount := s.timestamps, s.flowRates, s.totalVolumes, s.dataCount;
    }

    /**
     * `parse_data_line`: fields 0-2 must convert (no sign check); fields past
     * the status are never converted. The reading is stored at its absolute
     * seconds; any other line changes nothing.
     */
    method ParseDataLine(line: string)
      requires Valid()
      modifies this`timestamps, this`flowRates, this`totalVolumes, this`dataCount
      ensures Valid() && Data() == AbsorbTimed(old(Data()), DecodeFrame(line, false), Secs, MaxPoints)
    {
      match DecodeFrame(line, false)
      case Some(f) =>
        SetData(Record(Data(), Secs(f), Flow(f), Volume(f), MaxPoints));
      case None =>
    }

    /** One pass of the read loop: parse an admitted line; report whether the read ends the loop. */
    method ProcessRead(e: ReadEvent) returns (stop: bool)
      requires Valid()
      modifies this`timestamps, this`flowRates, this`totalVolumes, this`dataCount
      ensures Valid() && Data() == AbsorbTimed(old(Data()), LineFrame(e, BannerPrefixes, false), Secs, MaxPoints)
      ensures stop == Ends(e)
    {
      stop := Ends(e);
      if e.Line? {
        var line := Text.Strip(e.raw);
        if Admits(line, BannerPrefixes) {
          ParseDataLine(line);
        }
      }
    }

    /** Pass `i` of the read loop, with the loop's bookkeeping carried forward. */
    method ReadAt(events: seq<ReadEvent>, i: nat, ghost start: Series) returns (stop: bool)
      requires Valid() && Lockstep(start, MaxPoints)
      requires i < |events| && i <= FirstEnd(events)
      requires Data() == RecordTimed(start, FramesOf(events[..i], BannerPrefixes, false), Secs, MaxPoints)
      modifies this`timestamps, this`flowRates, this`totalVolumes, this`dataCount
      ensures Valid()
      ensures if stop then FirstEnd(events) == i else i + 1 <= FirstEnd(events)
      ensures Data() == RecordTimed(start, FramesOf(events[..i + 1], BannerPrefixes, false), Secs, MaxPoints)
    {
      FirstEndStep(events, i);
      FramesStep(events, i, BannerPrefixes, false);
      RecordTimedSnoc(start, FramesOf(events[..i], BannerPrefixes, false), LineFrame(events[i], BannerPrefixes, false), Secs, MaxPoints);
      stop := ProcessRead(events[i]);
    }

    /** The loop of `read_serial_data`, over the reads `events`, until the first exception. */
    method ReadUntilEnd(events: seq<ReadEvent>)
      requires Valid()
      modifies this`timestamps, this`flowRates, this`totalVolumes, this`dataCount
      ensures Valid()
      ensures Data() == RecordTimed(old(Data()), FramesOf(events[..FirstEnd(events)], BannerPrefixes, false), Secs, MaxPoints)
    {
      var i, stop := 0, false;
      while i < |events| && !stop
        invariant Valid()
        invariant 0 <= i <= |events|
        invariant if stop then 0 < i && FirstEnd(events) == i - 1 else i <= FirstEnd(events)
        invariant Data() == RecordTimed(old(Data()), FramesOf(events[..i], BannerPrefixes, false), Secs, MaxPoints)
      {
        stop := ReadAt(events, i, old(Data()));
        i := i + 1;
      }
      FramesAtExit(events, i, stop, BannerPrefixes, false);
    }

    /**
     * `read_serial_data`: without a connection (or once stopped) nothing is
     * read; otherwise every admitted line that decodes is stored, up to the
     * first exception, which ends the loop.
     */
    method ReadSerialData(events: seq<ReadEvent>)
      requires Valid()
      modifies this`timestamps, this`flowRates, this`totalVolumes, this`dataCount
      ensures Valid()
      ensures !(connected && running) ==> Data() == old(Data())
      ensures connected && running ==>
        Data() == RecordTimed(old(Data()), FramesOf(events[..FirstEnd(events)], BannerPrefixes, false), Secs, MaxPoints)
    {
      if connected && running {
        ReadUntilEnd(events);
      }
    }

    /**
     * The times `animate` plots: nothing while the histories are empty,
     * otherwise each time minus the oldest retained one, so the oldest is 0
     * and gaps between samples are kept.
     */
    method Animate() returns (times: Option<seq<real>>)
      ensures times.None? <==> timestamps == []
      ensures times.Some? ==> |times.value| == |timestamps| && times.value[0] == 0.0
      ensures times.Some? ==> forall i, j :: 0 <= i < |timestamps| && 0 <= j < |timestamps| ==>
        times.value[j] - times.value[i] == timestamps[j] - timestamps[i]
    {
      if timestamps == [] {
        return None;
      }
      times := Some(Rebase(timestamps));
    }

    /** The clean-up after the plot window closes: the loop is told to stop. */
    method Stop()
      modifies this`running
      ensures !running
    {
      running := false;
    }
  }

  /**
   * After the loop, the histories hold the newest 100 readings' absolute
   * seconds, flows and volumes, and every reading was counted.
   */
  lemma MinimalRun(s: Series, events: seq<ReadEvent>)
    requires Lockstep(s, MaxPoints)
    ensures var fs := FramesOf(events[..FirstEnd(events)], BannerPrefixes, false);
      var r := RecordTimed(s, fs, Secs, MaxPoints);
      r.timestamps == LastN(s.timestamps + Map(Secs, fs), MaxPoints)
      && r.flowRates == LastN(s.flowRates + Map(Flow, fs), MaxPoints)
      && r.totalVolumes == LastN(s.totalVolumes + Map(Volume, fs), MaxPoints)
      && r.dataCount == s.dataCount + |fs|
  {
    TimedRun(s, FramesOf(events[..FirstEnd(events)], BannerPrefixes, false), Secs, MaxPoints);
  }
}
