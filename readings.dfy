/**
 * Sequences of port reads. The monitors that read in a background loop (the
 * cross-platform, simple and minimal ones) take readings from them: a read
 * that yields a line passing the banner filter and decoding contributes one
 * reading, every other read contributes none. Both connection tests listen
 * to them until the first exception.
 */
module Readings {
  import opened Wrappers
  import opened Text
  import opened Wire
  import opened Series

  /** `SerialException` or any other exception raised by a read. */
  predicate IsFault(e: ReadEvent) {
    e.SerialFault? || e.OtherFault?
  }

  /** A read that yields text: it decodes as UTF-8 to a non-empty stripped line. */
  predicate Received(e: ReadEvent) {
    e.Line? && e.utf8 && Strip(e.raw) != []
  }

  /**
   * The reading a read contributes: the stripped line, if it is admitted by
   * `prefixes` and decodes (pulse fields read or not).
   */
  function LineFrame(e: ReadEvent, prefixes: seq<string>, readPulses: bool): (r: Option<Frame>)
    ensures r.Some? ==> e.Line? && Admits(Strip(e.raw), prefixes)
    ensures r.Some? ==> r == DecodeFrame(Strip(e.raw), readPulses)
  {
    if e.Line? && Admits(Strip(e.raw), prefixes) then DecodeFrame(Strip(e.raw), readPulses) else None
  }

  function Opt<T>(f: Option<T>): seq<T> {
    match f
    case Some(x) => [x]
    case None => []
  }

  /** The readings `es` contribute, oldest first. */
  function FramesOf(es: seq<ReadEvent>, prefixes: seq<string>, readPulses: bool): (r: seq<Frame>)
    ensures |r| <= |es|
  {
    if es == [] then [] else FramesOf(es[..|es| - 1], prefixes, readPulses) + Opt(LineFrame(es[|es| - 1], prefixes, readPulses))
  }

  lemma PrefixStep<T>(s: seq<T>, i: nat)
    requires i < |s|
    ensures s[..i + 1][..i] == s[..i] && s[..i + 1][i] == s[i]
  {
  }

  lemma SnocPrefix<T>(s: seq<T>, i: nat)
    requires i < |s|
    ensures s[..i + 1] == s[..i] + [s[i]]
  {
  }

  lemma FramesStep(es: seq<ReadEvent>, i: nat, prefixes: seq<string>, readPulses: bool)
    requires i < |es|
    ensures FramesOf(es[..i + 1], prefixes, readPulses)
      == FramesOf(es[..i], prefixes, readPulses) + Opt(LineFrame(es[i], prefixes, readPulses))
  {
    PrefixStep(es, i);
  }

  /** A read that is not a line contributes no reading. */
  lemma NoFrameAt(es: seq<ReadEvent>, k: nat, prefixes: seq<string>, readPulses: bool)
    requires k < |es| && !es[k].Line?
    ensures FramesOf(es[..k + 1], prefixes, readPulses) == FramesOf(es[..k], prefixes, readPulses)
  {
    FramesStep(es, k, prefixes, readPulses);
    assert FramesOf(es[..k], prefixes, readPulses) + [] == FramesOf(es[..k], prefixes, readPulses);
  }

  /** `e` is a line admitted by `prefixes` that decodes to `f`. */
  predicate Yields(e: ReadEvent, prefixes: seq<string>, readPulses: bool, f: Frame) {
    e.Line? && Admits(Strip(e.raw), prefixes) && DecodeFrame(Strip(e.raw), readPulses) == Some(f)
  }

  /** Every reading taken comes from an admitted line that decodes to it. */
  lemma {:induction false} FramesFromAdmittedLines(es: seq<ReadEvent>, prefixes: seq<string>, readPulses: bool, j: nat)
    requires j < |FramesOf(es, prefixes, readPulses)|
    ensures exists i :: 0 <= i < |es| && Yields(es[i], prefixes, readPulses, FramesOf(es, prefixes, readPulses)[j])
    decreases |es|
  {
    var init := es[..|es| - 1];
    var k := |FramesOf(init, prefixes, readPulses)|;
    if j < k {
      FramesFromAdmittedLines(init, prefixes, readPulses, j);
      var i :| 0 <= i < |init| && Yields(init[i], prefixes, readPulses, FramesOf(init, prefixes, readPulses)[j]);
      assert es[i] == init[i];
    } else {
      assert Yields(es[|es| - 1], prefixes, readPulses, FramesOf(es, prefixes, readPulses)[j]);
    }
  }

  /** One decoded reading more, or none, stored at its time relative to `start_time`. */
  function Absorb(st: Store, f: Option<Frame>, cap: nat): (r: Store)
    requires Lockstep(st.series, cap)
    ensures Lockstep(r.series, cap)
  {
    match f
    case Some(x) => RecordOneRelative(st, x, cap)
    case None => st
  }

  lemma RecordRelativeSnoc(st: Store, fs: seq<Frame>, f: Option<Frame>, cap: nat)
    requires Lockstep(st.series, cap)
    ensures RecordRelative(st, fs + Opt(f), cap) == Absorb(RecordRelative(st, fs, cap), f, cap)
  {
    if f.Some? {
      assert (fs + Opt(f))[..|fs|] == fs;
    } else {
      assert fs + Opt(f) == fs;
    }
  }

  /** One decoded reading more, or none, stored at its absolute time. */
  function AbsorbTimed(s: Series, f: Option<Frame>, time: Frame -> real, cap: nat): (r: Series)
    requires Lockstep(s, cap)
    ensures Lockstep(r, cap)
  {
    match f
    case Some(x) => Record(s, time(x), Flow(x), Volume(x), cap)
    case None => s
  }

  lemma RecordTimedSnoc(s: Series, fs: seq<Frame>, f: Option<Frame>, time: Frame -> real, cap: nat)
    requires Lockstep(s, cap)
    ensures RecordTimed(s, fs + Opt(f), time, cap) == AbsorbTimed(RecordTimed(s, fs, time, cap), f, time, cap)
  {
    if f.Some? {
      assert (fs + Opt(f))[..|fs|] == fs;
    } else {
      assert fs + Opt(f) == fs;
    }
  }

  /** A read that ends a loop with no retry: any exception, or a closed handle. */
  predicate Ends(e: ReadEvent) {
    IsFault(e) || e.PortClosed?
  }

  /** The index of the first read that ends such a loop, or `|es|`. */
  function FirstEnd(es: seq<ReadEvent>): (r: nat)
    ensures r <= |es|
    ensures forall k :: 0 <= k < r ==> !Ends(es[k])
    ensures r < |es| ==> Ends(es[r])
  {
    if es == [] then 0 else if Ends(es[0]) then 0 else 1 + FirstEnd(es[1..])
  }

  /** Where a loop with no retry leaves off, it has taken the readings of the reads before the first end. */
  lemma FramesAtExit(es: seq<ReadEvent>, i: nat, stop: bool, prefixes: seq<string>, readPulses: bool)
    requires i <= |es|
    requires if stop then 0 < i && FirstEnd(es) == i - 1 else i == |es| && i <= FirstEnd(es)
    ensures FramesOf(es[..i], prefixes, readPulses) == FramesOf(es[..FirstEnd(es)], prefixes, readPulses)
  {
    var h := FirstEnd(es);
    if stop {
      NoFrameAt(es, h, prefixes, readPulses);
      assert h + 1 == i;
    } else {
      assert h == i;
    }
  }

  /** Reading past a read that does not end the loop keeps the end ahead; one that ends it is the end. */
  lemma FirstEndStep(es: seq<ReadEvent>, i: nat)
    requires i < |es| && i <= FirstEnd(es)
    ensures Ends(es[i]) ==> FirstEnd(es) == i
    ensures !Ends(es[i]) ==> i + 1 <= FirstEnd(es)
  {
  }
}
