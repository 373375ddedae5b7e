/**
 * The three parallel histories (time, flow, volume) and the reading counter
 * kept by the cross-platform, simple and minimal monitors, and the two ways
 * they timestamp a sample: absolute seconds, or seconds since the first
 * accepted reading.
 */
module Series {
  import opened Wrappers
  import opened Samples
  import opened Wire

  /** Three bounded deques appended together, and `data_count`. */
  datatype Series = Series(timestamps: seq<real>, flowRates: seq<real>, totalVolumes: seq<real>, dataCount: nat)

  /** The deques have equal length, at most `cap`. */
  predicate Lockstep(s: Series, cap: nat) {
    |s.flowRates| == |s.timestamps| && |s.totalVolumes| == |s.timestamps| && |s.timestamps| <= cap
  }

  const Empty: Series := Series([], [], [], 0)

  /** The locked block that stores one sample in all three deques and counts it. */
  function Record(s: Series, t: real, flow: real, volume: real, cap: nat): (r: Series)
    requires Lockstep(s, cap)
    ensures Lockstep(r, cap)
  {
    Series(Push(s.timestamps, t, cap), Push(s.flowRates, flow, cap), Push(s.totalVolumes, volume, cap), s.dataCount + 1)
  }

  /** `timestamp_ms / 1000.0` */
  function Secs(f: Frame): real { f.timestampMs / 1000.0 }
  function Flow(f: Frame): real { f.flowRate }
  function Volume(f: Frame): real { f.totalVolume }

  /** Stores each reading at the time `time` gives it, oldest first. */
  function RecordTimed(s: Series, fs: seq<Frame>, time: Frame -> real, cap: nat): (r: Series)
    requires Lockstep(s, cap)
    ensures Lockstep(r, cap)
  {
    if fs == [] then s
    else
      var f := fs[|fs| - 1];
      Record(RecordTimed(s, fs[..|fs| - 1], time, cap), time(f), Flow(f), Volume(f), cap)
  }

  /** Seconds since the anchor `a`: `timestamp - start_time`. */
  function Since(a: real): Frame -> real {
    f => Secs(f) - a
  }

  /** The series and `start_time`, for the monitors that store relative times. */
  datatype Store = Store(series: Series, start: Option<real>)

  /** `if start_time is None: start_time = timestamp`, then store `timestamp - start_time`. */
  function RecordOneRelative(st: Store, f: Frame, cap: nat): (r: Store)
    requires Lockstep(st.series, cap)
    ensures Lockstep(r.series, cap)
  {
    var a := st.start.GetOr(Secs(f));
    Store(Record(st.series, Secs(f) - a, Flow(f), Volume(f), cap), Some(a))
  }

  function RecordRelative(st: Store, fs: seq<Frame>, cap: nat): (r: Store)
    requires Lockstep(st.series, cap)
    ensures Lockstep(r.series, cap)
  {
    if fs == [] then st
    else RecordOneRelative(RecordRelative(st, fs[..|fs| - 1], cap), fs[|fs| - 1], cap)
  }

  /** One more sample extends each deque's window by one element. */
  lemma RecordStep(s: Series, ts: seq<real>, fl: seq<real>, vs: seq<real>, t: real, flow: real, volume: real, cap: nat)
    requires Lockstep(s, cap)
    requires s.timestamps == LastN(ts, cap) && s.flowRates == LastN(fl, cap) && s.totalVolumes == LastN(vs, cap)
    ensures var r := Record(s, t, flow, volume, cap);
      r.timestamps == LastN(ts + [t], cap) && r.flowRates == LastN(fl + [flow], cap)
      && r.totalVolumes == LastN(vs + [volume], cap) && r.dataCount == s.dataCount + 1
  {
    PushLastN(ts, t, cap);
    PushLastN(fl, flow, cap);
    PushLastN(vs, volume, cap);
  }

  /**
   * Each deque holds the newest `cap` values of its history, the times being
   * what `time` gives the readings; every reading is counted.
   */
  lemma {:induction false} TimedRun(s: Series, fs: seq<Frame>, time: Frame -> real, cap: nat)
    requires Lockstep(s, cap)
    ensures var r := RecordTimed(s, fs, time, cap);
      r.timestamps == LastN(s.timestamps + Map(time, fs), cap)
      && r.flowRates == LastN(s.flowRates + Map(Flow, fs), cap)
      && r.totalVolumes == LastN(s.totalVolumes + Map(Volume, fs), cap)
      && r.dataCount == s.dataCount + |fs|
    decreases |fs|
  {
    if fs == [] {
      assert s.timestamps + Map(time, fs) == s.timestamps;
      assert s.flowRates + Map(Flow, fs) == s.flowRates;
      assert s.totalVolumes + Map(Volume, fs) == s.totalVolumes;
    } else {
      var init, f := fs[..|fs| - 1], fs[|fs| - 1];
      TimedRun(s, init, time, cap);
      SplitLast(fs);
      MapSnoc(time, init, f);
      MapSnoc(Flow, init, f);
      MapSnoc(Volume, init, f);
      ConcatSnoc(s.timestamps, Map(time, init), time(f));
      ConcatSnoc(s.flowRates, Map(Flow, init), Flow(f));
      ConcatSnoc(s.totalVolumes, Map(Volume, init), Volume(f));
      RecordStep(RecordTimed(s, init, time, cap), s.timestamps + Map(time, init), s.flowRates + Map(Flow, init),
        s.totalVolumes + Map(Volume, init), time(f), Flow(f), Volume(f), cap);
    }
  }

  lemma ConcatSnoc<T>(a: seq<T>, b: seq<T>, x: T)
    ensures a + (b + [x]) == (a + b) + [x]
  {
  }

  /** The anchor `start_time` takes: the one already set, or else the first reading's seconds. */
  function AnchorOf(start: Option<real>, fs: seq<Frame>): real
    requires start.Some? || fs != []
  {
    if start.Some? then start.value else Secs(fs[0])
  }

  /** `start_time` is set by the first reading and kept from then on. */
  lemma {:induction false} RelativeStart(st: Store, fs: seq<Frame>, cap: nat)
    requires Lockstep(st.series, cap)
    ensures var r := RecordRelative(st, fs, cap);
      (st.start.Some? || fs != [] ==> r.start == Some(AnchorOf(st.start, fs)))
      && (st.start.None? && fs == [] ==> r.start.None?)
      && r.series.dataCount == st.series.dataCount + |fs|
    decreases |fs|
  {
    if fs != [] {
      RelativeStart(st, fs[..|fs| - 1], cap);
    }
  }

  /** One relative store is a timed store, once `start_time` holds (or is about to hold) `a`. */
  lemma RelativeStepEq(p: Store, f: Frame, a: real, t: Series, cap: nat)
    requires Lockstep(p.series, cap) && p.series == t && p.start.GetOr(Secs(f)) == a
    ensures RecordOneRelative(p, f, cap).series == Record(t, Since(a)(f), Flow(f), Volume(f), cap)
  {
  }

  /** With the anchor `a` that `start_time` holds, the relative store is the store timed by `Since(a)`. */
  lemma {:induction false} RelativeIsTimed(st: Store, fs: seq<Frame>, a: real, cap: nat)
    requires Lockstep(st.series, cap)
    requires st.start.Some? ==> a == st.start.value
    requires st.start.None? && fs != [] ==> a == Secs(fs[0])
    ensures RecordRelative(st, fs, cap).series == RecordTimed(st.series, fs, Since(a), cap)
    decreases |fs|
  {
    if fs != [] {
      var init, f := fs[..|fs| - 1], fs[|fs| - 1];
      RelativeIsTimed(st, init, a, cap);
      var p := RecordRelative(st, init, cap);
      assert p.start.GetOr(Secs(f)) == a by {
        RelativeStart(st, init, cap);
        if st.start.None? {
          if init == [] {
            assert f == fs[0];
          } else {
            assert init[0] == fs[0];
          }
        }
      }
      RelativeStepEq(p, f, a, RecordTimed(st.series, init, Since(a), cap), cap);
    }
  }

  /**
   * Relative storage: `start_time` is fixed by the first reading ever accepted
   * (so that reading is stored at time 0) and never moves again; each deque holds
   * the newest `cap` values, times measured from that anchor.
   */
  lemma RelativeRun(st: Store, fs: seq<Frame>, cap: nat)
    requires Lockstep(st.series, cap) && (st.start.Some? || fs != [])
    ensures var r := RecordRelative(st, fs, cap); var a := AnchorOf(st.start, fs);
      r.start == Some(a)
      && r.series.timestamps == LastN(st.series.timestamps + Map(Since(a), fs), cap)
      && r.series.flowRates == LastN(st.series.flowRates + Map(Flow, fs), cap)
      && r.series.totalVolumes == LastN(st.series.totalVolumes + Map(Volume, fs), cap)
      && r.series.dataCount == st.series.dataCount + |fs|
  {
    var a := AnchorOf(st.start, fs);
    RelativeStart(st, fs, cap);
    RelativeIsTimed(st, fs, a, cap);
    TimedRun(st.series, fs, Since(a), cap);
  }

  /** Without an anchor, the first stored reading gets time 0. */
  lemma FirstRelativeIsZero(st: Store, f: Frame, cap: nat)
    requires Lockstep(st.series, cap) && st.start.None? && cap > 0
    ensures var r := RecordOneRelative(st, f, cap);
      r.start == Some(Secs(f)) && r.series.timestamps[|r.series.timestamps| - 1] == 0.0
  {
  }
}
