/**
 * The telemetry line protocol shared by all monitors. The device sends one
 * line per reading, `timestamp_ms,flow,volume,status[,pulses,total_pulses]`,
 * interleaved with banner and header lines. Fields are separated by every
 * comma, with no quoting. What each monitor does with a line (which prefixes
 * it skips, whether it defaults the status, rejects negative flow or reads
 * the pulse fields) lives in that monitor's module; this module holds the
 * common pieces.
 */
module Wire {
  import opened Wrappers
  import opened Text
  import opened Numbers

  /**
   * One outcome of reading the serial port: nothing waiting (or a read that
   * timed out empty), a line (already stripped of its terminator, with whether
   * its bytes were valid UTF-8 and the wall-clock time it arrived), a
   * `SerialException`, any other exception, or a handle found closed.
   */
  datatype ReadEvent =
    | Idle
    | Line(raw: string, utf8: bool, at: real)
    | SerialFault
    | OtherFault
    | PortClosed

  /** The header prefixes `flow_monitor_gui.py` skips. */
  const HeaderPrefixes: seq<string> := ["===", "Time", "CSV"]

  /** The banner and header prefixes the other monitors skip. */
  const BannerPrefixes: seq<string> :=
    ["===", "Time", "CSV", "Arduino", "Initializing", "System", "Starting", "---"]

  /** `line and "," in line and not line.startswith(prefixes)` */
  predicate Admits(line: string, prefixes: seq<string>) {
    line != [] && ',' in line && !StartsWithAny(line, prefixes)
  }

  /** The fields of a line: `line.split(",")`. */
  function Fields(line: string): (r: seq<string>)
    ensures |r| >= 1 && Join(r, ',') == line
    ensures forall i :: 0 <= i < |r| ==> ',' !in r[i]
  {
    Split(line, ',')
  }

  /** The values a monitor takes from a data line, before its own checks. */
  datatype Frame = Frame(
    timestampMs: real,
    flowRate: real,
    totalVolume: real,
    status: string,
    currentPulses: int,
    totalPulses: int)

  /** `int(f[k]) if len(f) > k else 0` when the pulse fields are read, else 0. */
  function PulseField(f: seq<string>, k: nat, read: bool): Option<int> {
    if read && |f| > k then ParseInt(f[k]) else Some(0)
  }

  /**
   * The conversions every monitor applies: at least four fields, fields 0-2 as
   * floats, field 3 stripped, and (when `readPulses`) fields 4 and 5 as
   * integers, defaulting to 0 when absent. Any failed conversion rejects the
   * whole line.
   */
  function DecodeFrame(line: string, readPulses: bool): (r: Option<Frame>)
    ensures var f := Fields(line);
      r.Some? <==>
        |f| >= 4 && ParseReal(f[0]).Some? && ParseReal(f[1]).Some? && ParseReal(f[2]).Some?
        && PulseField(f, 4, readPulses).Some? && PulseField(f, 5, readPulses).Some?
    ensures var f := Fields(line);
      r.Some? ==>
        r.value.timestampMs == ParseReal(f[0]).value && r.value.flowRate == ParseReal(f[1]).value
        && r.value.totalVolume == ParseReal(f[2]).value && r.value.status == Strip(f[3])
    ensures r.Some? && readPulses && |Fields(line)| > 4 ==> ParseInt(Fields(line)[4]) == Some(r.value.currentPulses)
    ensures r.Some? && (!readPulses || |Fields(line)| <= 4) ==> r.value.currentPulses == 0
    ensures r.Some? && readPulses && |Fields(line)| > 5 ==> ParseInt(Fields(line)[5]) == Some(r.value.totalPulses)
    ensures r.Some? && (!readPulses || |Fields(line)| <= 5) ==> r.value.totalPulses == 0
    ensures r.Some? ==> ',' !in r.value.status
  {
    var f := Fields(line);
    if |f| < 4 then None
    else
      match (ParseReal(f[0]), ParseReal(f[1]), ParseReal(f[2]))
      case (Some(ts), Some(flow), Some(vol)) =>
        (match (PulseField(f, 4, readPulses), PulseField(f, 5, readPulses))
         case (Some(p), Some(tp)) =>
           StripIsSlice(f[3]);
           Some(Frame(ts, flow, vol, Strip(f[3]), p, tp))
         case _ => None)
      case _ => None
  }

  /** What the device measured: the reading it prints, in its own fixed-point units. */
  datatype DeviceReading = DeviceReading(
    ms: nat,             // milliseconds since the device started
    flowUnits: nat,      // flow in units of 0.0001 L/min (printed with 4 decimals)
    volumeUnits: nat,    // volume in units of 0.00001 L (printed with 5 decimals)
    status: string,
    pulses: nat,
    totalPulses: nat)

  const FlowScale: nat := 4
  const VolumeScale: nat := 5

  /** A status word the device can send: no comma, no surrounding whitespace. */
  predicate CleanStatus(s: string) {
    ',' !in s && (s == [] || (!IsSpace(s[0]) && !IsSpace(s[|s| - 1])))
  }

  /** The printed fields of a reading; `extended` adds the two pulse fields. */
  function LineParts(d: DeviceReading, extended: bool): (parts: seq<string>)
    ensures |parts| == if extended then 6 else 4
  {
    [NatToDigits(d.ms), FormatFixed(d.flowUnits, FlowScale), FormatFixed(d.volumeUnits, VolumeScale), d.status]
      + if extended then [NatToDigits(d.pulses), NatToDigits(d.totalPulses)] else []
  }

  /** The line the device prints for a reading. */
  function FormatLine(d: DeviceReading, extended: bool): (line: string)
    ensures ',' in line
  {
    var parts := LineParts(d, extended);
    var line := Join(parts, ',');
    assert line == parts[0] + [','] + Join(parts[1..], ',');
    line
  }

  /** A line the device prints begins with the first digit of its timestamp. */
  lemma FormatLineFirst(d: DeviceReading, extended: bool)
    ensures FormatLine(d, extended)[0] == NatToDigits(d.ms)[0]
  {
    var parts := LineParts(d, extended);
    assert FormatLine(d, extended) == parts[0] + [','] + Join(parts[1..], ',');
  }

  /** The frame a monitor should decode from a device line. */
  function Expected(d: DeviceReading, extended: bool, readPulses: bool): Frame {
    Frame(
      d.ms as real,
      d.flowUnits as real / Pow10(FlowScale) as real,
      d.volumeUnits as real / Pow10(VolumeScale) as real,
      d.status,
      if extended && readPulses then d.pulses else 0,
      if extended && readPulses then d.totalPulses else 0)
  }

  /** `float` reads back a printed natural number exactly. */
  lemma ParseRealOfDigits(n: nat)
    ensures ParseReal(NatToDigits(n)) == Some(n as real)
  {
    var s := NatToDigits(n);
    UnsignedParseReal(s);
    assert '.' !in s;
  }

  lemma NoCommaInNumber(n: nat)
    ensures ',' !in NatToDigits(n)
  {
    assert AllDigits(NatToDigits(n));
  }

  lemma NoCommaInFixed(units: nat, scale: nat)
    ensures ',' !in FormatFixed(units, scale)
  {
    var d := PadZeros(NatToDigits(units), scale + 1);
    FixedDigits(units, scale, d);
    var k := |d| - scale;
    DigitsAroundPoint(d[..k], d[k..]);
  }

  lemma DigitsAroundPoint(x: string, y: string)
    requires AllDigits(x) && AllDigits(y)
    ensures ',' !in x + "." + y
  {
  }

  lemma LinePartsCommaFree(d: DeviceReading, extended: bool)
    requires CleanStatus(d.status)
    ensures forall i :: 0 <= i < |LineParts(d, extended)| ==> ',' !in LineParts(d, extended)[i]
  {
    NoCommaInNumber(d.ms);
    NoCommaInFixed(d.flowUnits, FlowScale);
    NoCommaInFixed(d.volumeUnits, VolumeScale);
    NoCommaInNumber(d.pulses);
    NoCommaInNumber(d.totalPulses);
    CommaFreeParts(NatToDigits(d.ms), FormatFixed(d.flowUnits, FlowScale),
      FormatFixed(d.volumeUnits, VolumeScale), d.status, NatToDigits(d.pulses), NatToDigits(d.totalPulses), extended);
  }

  lemma CommaFreeParts(a: string, b: string, c: string, s: string, e: string, f: string, extended: bool)
    requires ',' !in a && ',' !in b && ',' !in c && ',' !in s && ',' !in e && ',' !in f
    ensures var p := if extended then [a, b, c, s] + [e, f] else [a, b, c, s];
      forall i :: 0 <= i < |p| ==> ',' !in p[i]
  {
  }

  /** The fields of a device line are exactly the values it printed. */
  lemma FieldsOfFormatLine(d: DeviceReading, extended: bool)
    requires CleanStatus(d.status)
    ensures Fields(FormatLine(d, extended)) == LineParts(d, extended)
  {
    LinePartsCommaFree(d, extended);
    SplitJoin(LineParts(d, extended), ',');
  }

  /**
   * What the listening checks look at in a device line: it starts with a
   * digit, and fields 1, 2 and 3 are the flow, the volume and the status.
   */
  lemma DeviceLineShape(d: DeviceReading, extended: bool)
    requires CleanStatus(d.status)
    ensures var line := FormatLine(d, extended);
      !StartsWith(line, "===") && !StartsWith(line, "Time") && |Fields(line)| >= 4
      && ParseReal(Fields(line)[1]) == Some(d.flowUnits as real / Pow10(FlowScale) as real)
      && ParseReal(Fields(line)[2]) == Some(d.volumeUnits as real / Pow10(VolumeScale) as real)
      && Fields(line)[3] == d.status
  {
    DeviceLineStart(d, extended);
    DeviceLineValues(d, extended);
  }

  /** A device line is neither a `===` banner nor a `Time` header. */
  lemma DeviceLineStart(d: DeviceReading, extended: bool)
    ensures !StartsWith(FormatLine(d, extended), "===") && !StartsWith(FormatLine(d, extended), "Time")
  {
    var line := FormatLine(d, extended);
    FormatLineFirst(d, extended);
    FirstCharDiffers(line, "===");
    FirstCharDiffers(line, "Time");
  }

  lemma LinePartsValues(d: DeviceReading, extended: bool)
    ensures var parts := LineParts(d, extended);
      parts[1] == FormatFixed(d.flowUnits, FlowScale) && parts[2] == FormatFixed(d.volumeUnits, VolumeScale) && parts[3] == d.status
  {
    FourThen(NatToDigits(d.ms), FormatFixed(d.flowUnits, FlowScale), FormatFixed(d.volumeUnits, VolumeScale), d.status,
      if extended then [NatToDigits(d.pulses), NatToDigits(d.totalPulses)] else []);
  }

  lemma FourThen<T>(a: T, b: T, c: T, e: T, tail: seq<T>)
    ensures var s := [a, b, c, e] + tail; s[1] == b && s[2] == c && s[3] == e
  {
  }

  /** Fields 1, 2 and 3 of a device line read back as the flow, the volume and the status. */
  lemma DeviceLineValues(d: DeviceReading, extended: bool)
    requires CleanStatus(d.status)
    ensures var parts := Fields(FormatLine(d, extended));
      |parts| >= 4
      && ParseReal(parts[1]) == Some(d.flowUnits as real / Pow10(FlowScale) as real)
      && ParseReal(parts[2]) == Some(d.volumeUnits as real / Pow10(VolumeScale) as real)
      && parts[3] == d.status
  {
    FieldsOfFormatLine(d, extended);
    LinePartsValues(d, extended);
    ParseFormatFixed(d.flowUnits, FlowScale);
    ParseFormatFixed(d.volumeUnits, VolumeScale);
  }

  /**
   * Round trip: decoding a line the device printed gives back exactly what it
   * measured, whatever the flow (no upper bound is involved).
   */
  lemma {:induction false} DecodeFormatLine(d: DeviceReading, extended: bool, readPulses: bool)
    requires CleanStatus(d.status)
    ensures DecodeFrame(FormatLine(d, extended), readPulses) == Some(Expected(d, extended, readPulses))
  {
    FieldsOfFormatLine(d, extended);
    ParseRealOfDigits(d.ms);
    ParseFormatFixed(d.flowUnits, FlowScale);
    ParseFormatFixed(d.volumeUnits, VolumeScale);
    StripOfTrimmed(d.status);
    ParseIntOfDigits(d.pulses);
    ParseIntOfDigits(d.totalPulses);
    var e := Expected(d, extended, readPulses);
    DecodeParts(FormatLine(d, extended), NatToDigits(d.ms), FormatFixed(d.flowUnits, FlowScale),
      FormatFixed(d.volumeUnits, VolumeScale), d.status, NatToDigits(d.pulses), NatToDigits(d.totalPulses),
      extended, readPulses, e.timestampMs, e.flowRate, e.totalVolume, d.pulses, d.totalPulses);
  }

  /** Decoding depends only on what each field converts to. */
  lemma DecodeParts(line: string, a: string, b: string, c: string, s: string, g: string, h: string,
                    extended: bool, readPulses: bool, x: real, y: real, z: real, p: int, q: int)
    requires Fields(line) == if extended then [a, b, c, s] + [g, h] else [a, b, c, s]
    requires ParseReal(a) == Some(x) && ParseReal(b) == Some(y) && ParseReal(c) == Some(z)
    requires ParseInt(g) == Some(p) && ParseInt(h) == Some(q) && Strip(s) == s
    ensures DecodeFrame(line, readPulses) ==
      Some(Frame(x, y, z, s, if extended && readPulses then p else 0, if extended && readPulses then q else 0))
  {
  }

  /** Lines that start with a letter in field 0 (headers such as `Time(ms),...`) never decode. */
  lemma {:induction false} HeaderNeverDecodes(line: string, readPulses: bool)
    requires var f0 := Fields(line)[0];
      f0 != [] && 'A' <= f0[0] <= 'Z'
    ensures DecodeFrame(line, readPulses) == None
  {
    NotNumberWhenFirstIsLetter(Fields(line)[0]);
  }
}
