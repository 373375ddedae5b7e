/**
 * The monitors and connection tests side by side: how each treats the
 * readings the device prints (the five sample readings of
 * `tests/test_gui_parsing.py` among them), and where their rules differ.
 */
module Variants {
  import opened Wrappers
  import opened Text
  import opened Numbers
  import opened Wire
  import opened Ports
  import FlowMonitorGui
  import CrossPlatformMonitor
  import ConnectionTestEnhanced
  import ConnectionTest

  /**
   * The readings behind the five sample lines: three idle readings, then
   * 1.2 and 2.4 L/min with 9 and 18 pulses in the last second. Printed in
   * the extended format they give `1715,0.0000,0.00000,WAITING,0,0` and so on.
   */
  const SampleReadings: seq<DeviceReading> := [
    DeviceReading(1715, 0, 0, "WAITING", 0, 0),
    DeviceReading(2717, 0, 0, "WAITING", 0, 0),
    DeviceReading(3719, 0, 0, "WAITING", 0, 0),
    DeviceReading(4721, 12000, 20, "CONNECTED", 9, 15),
    DeviceReading(5723, 24000, 60, "CONNECTED", 18, 33)
  ]

  /** The device prints flow with 4 decimals and volume with 5. */
  lemma Scales()
    ensures Pow10(FlowScale) == 10000 && Pow10(VolumeScale) == 100000
  {
  }

  /**
   * Every program takes a printed reading for data and reads back what was
   * measured: the production monitor, the cross-platform filter, the minimal
   * monitor, both connection tests.
   */
  lemma DeviceLineEverywhere(d: DeviceReading)
    requires CleanStatus(d.status) && d.status != []
    ensures FlowMonitorGui.ReadingOf(FormatLine(d, true))
      == Some(Frame(d.ms as real, d.flowUnits as real / Pow10(FlowScale) as real, d.volumeUnits as real / Pow10(VolumeScale) as real, d.status, d.pulses, d.totalPulses))
    ensures CrossPlatformMonitor.IsValidDataLine(FormatLine(d, true))
    ensures DecodeFrame(FormatLine(d, true), false)
      == Some(Frame(d.ms as real, d.flowUnits as real / Pow10(FlowScale) as real, d.volumeUnits as real / Pow10(VolumeScale) as real, d.status, 0, 0))
    ensures ConnectionTestEnhanced.CsvReading(FormatLine(d, true))
      == Some(ConnectionTestEnhanced.CsvSample(d.flowUnits as real / Pow10(FlowScale) as real, d.volumeUnits as real / Pow10(VolumeScale) as real, d.status))
    ensures ConnectionTest.FlowData(FormatLine(d, true))
      == Some(ConnectionTest.FlowReport(d.flowUnits as real / Pow10(FlowScale) as real, d.volumeUnits as real / Pow10(VolumeScale) as real))
  {
    FlowMonitorGui.ReadingOfDeviceLine(d, true);
    CrossPlatformMonitor.DeviceLinesAreValid(d, true);
    DecodeFormatLine(d, true, false);
    ConnectionTestEnhanced.DeviceLineIsCsv(d, true);
    ConnectionTest.DeviceLineReported(d, true);
  }

  /** The fifth sample line decodes to 2.4 L/min, 0.0006 L and 18 of 33 pulses. */
  lemma FifthSample()
    ensures FlowMonitorGui.ReadingOf(FormatLine(SampleReadings[4], true))
      == Some(Frame(5723.0, 2.4, 0.0006, "CONNECTED", 18, 33))
  {
    var d := SampleReadings[4];
    DeviceLineEverywhere(d);
    Scales();
    FifthQuotients();
  }

  lemma FifthQuotients()
    ensures 24000 as real / 10000 as real == 2.4 && 60 as real / 100000 as real == 0.0006
  {
  }

  /**
   * The enhanced test adds a Bluetooth class; otherwise it classifies a port
   * as the production selector does.
   */
  lemma CategorizeExtendsSelector(description: string)
    ensures var gui := FlowMonitorGui.ClassifyPort(description); var kind := ConnectionTestEnhanced.Categorize(description).0;
      kind == (if gui == Unknown && Contains(Upper(description), "BLUETOOTH") then Bluetooth else gui)
  {
  }

  /**
   * A pulse field that is not an integer rejects the line in every monitor
   * but the minimal one, which never converts it.
   */
  lemma PulseFieldOnlyReadByMost(line: string)
    requires var f := Fields(line);
      |f| >= 5 && ParseReal(f[0]).Some? && ParseReal(f[1]).Some? && ParseReal(f[2]).Some? && ParseInt(f[4]).None?
    ensures DecodeFrame(line, true).None? && FlowMonitorGui.ReadingOf(line).None?
    ensures DecodeFrame(line, false).Some?
  {
  }

  /**
   * A header line beginning with `Time` is never counted by the enhanced
   * test, while the plain test reports it as flow data whenever its fields 1
   * and 2 are numbers.
   */
  lemma TimeHeaderSeenDifferently(line: string)
    requires StartsWith(line, "Time")
    ensures ConnectionTestEnhanced.CsvReading(line).None?
    ensures ConnectionTest.FlowData(line).Some? <==>
      ',' in line && |Fields(line)| >= 3 && ParseReal(Fields(line)[1]).Some? && ParseReal(Fields(line)[2]).Some?
  {
    assert line[0] == line[..4][0] == 'T';
    FirstCharDiffers(line, "===");
  }
}
