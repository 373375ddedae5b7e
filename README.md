# Flow monitor: a verified model

This project models the host side of a liquid-flow measurement system. An
Arduino with a flow sensor prints one text line per reading over a serial port:
`timestamp_ms,flow,volume,status[,pulses,total_pulses]`. Several Python
programs read these lines:

- `FlowMonitor`: the production monitor (`flow_monitor_gui.py`).
- `CrossPlatformFlowMonitor`: the cross-platform monitor.
- `SimpleFlowMonitor` and `MinimalFlowMonitor`: two smaller monitors.
- Two connection-test scripts, which probe the serial ports and listen for data.

The programs are near duplicates but their rules differ. They skip different
banner prefixes, default the status or not, reject negative flow or not, read
the pulse fields or not, and store absolute or relative times. Each program is
modelled on its own, and module `Variants` states where they agree and where
they differ.

The modules:

- Shared modules:
  - `Text`: Python's `split`, `startswith`, `in` and string order, and ASCII-only versions of `strip`, `upper` and `lower`.
  - `Numbers`: decimal `float()`/`int()` over ASCII digits, plus a fixed-point printer for round trips.
  - `Samples`: a bounded `deque` and `append`, last-N windows, rebased times.
  - `Series`: three deques appended in lockstep, absolute or relative times.
  - `Wire`: read outcomes, field splitting, the common field conversions, and the lines the device prints.
  - `Ports`: port entries, a stable insertion sort by key, and filtering.
  - `Readings`: what a run of reads contributes to a monitor.
- One module per program.
  - A mutable monitor is a `class` whose fields are its deques and flags. Its read loop is a `while` loop proved against a function of the read outcomes.
  - Pure logic (port classification and ordering, the line checks, the status summary, the COM-port rewrite) is functions and lemmas.

The environment is modelled as inputs:

- the enumerated ports, as a sequence of `(device, description)`;
- whether a port opens, as a boolean;
- the reads, as a sequence of outcomes (`Idle`, `Line`, `SerialFault`, `OtherFault`, `PortClosed`);
- wall-clock times, as `real` parameters;
- the user's answers and file names, as strings;
- whether writing a file succeeds, as a boolean.

## Model

| member | source | states |
|---|---|---|
| FlowMonitorGui.ReadingOf | flow_monitor_gui.py:512-567 | an accepted reading never has a negative flow, and its status is never empty and holds no comma |
| FlowMonitorGui.ReadingOfFields | flow_monitor_gui.py:515-536 | a line is accepted iff it has at least 4 fields, fields 0-2 are floats, fields 4/5 (when present) are integers and the flow is not negative; the reading carries exactly those values, with the status stripped or "NO DATA" when empty and absent pulse fields read as 0 |
| FlowMonitorGui.ReadingOfDecoded | flow_monitor_gui.py:523-536 | a line that decodes with a non-negative flow is accepted with its decoded values and the defaulted status |
| FlowMonitorGui.ReadingOfDeviceLine | flow_monitor_gui.py:512-567 | every line the device prints is accepted with exactly the values printed, with no upper bound on the flow (a flow above 20.0 only logs) |
| FlowMonitorGui.FreshHoldsOneZeroSample | flow_monitor_gui.py:309-319 | after the reset the four deques hold exactly one sample (0.0, 0.0, 0.0, "NO DATA") and the buffer invariant holds |
| FlowMonitorGui.AbsorbOne | flow_monitor_gui.py:546-560 | one accepted reading keeps the deques equal in length, between 1 and 500 |
| FlowMonitorGui.Absorb | flow_monitor_gui.py:546-560 | any run of accepted readings keeps the deques equal in length, between 1 and 500 |
| FlowMonitorGui.AbsorbWhileRecording | flow_monitor_gui.py:546-560 | while recording, each deque holds the newest 500 values of its history in arrival order (seconds = ms/1000); `total_data_points` grows by the number of readings and `max_flow_rate` is the running maximum |
| FlowMonitorGui.AbsorbWhilePaused | flow_monitor_gui.py:548-554 | while paused, the deques, `total_data_points` and `max_flow_rate` do not change |
| FlowMonitorGui.AbsorbLatest | flow_monitor_gui.py:548-552 | after any readings, `last_data_timestamp`, `sensor_status` and the latest flow and volume are those of the last reading, recording or not |
| FlowMonitorGui.Arrivals | flow_monitor_gui.py:496-501 | the read loop delivers at most one reading per read outcome |
| FlowMonitorGui.FirstSerialFault | flow_monitor_gui.py:503-506 | the loop consumes every outcome before the first `SerialException`, and stops at it |
| FlowMonitorGui.ComputeStatusSummary | flow_monitor_gui.py:569-593 | "Connected" iff connected; "No connection" iff disconnected; "Waiting..." iff connected with no data yet; "Stale" iff connected and more than 5 s since the last data; "Receiving" iff connected and at most 5 s; and the sensor text and elapsed time that go with each case |
| FlowMonitorGui.ReconnectOnlyWhenStale | flow_monitor_gui.py:575-579 | whenever an auto-reconnect fires, the status summary already reports the data as stale |
| FlowMonitorGui.ReconnectAttemptsSpaced | flow_monitor_gui.py:693-694 | for 5 s after an attempt at a non-zero time `t`, no further attempt fires |
| FlowMonitorGui.ClassifyPort | flow_monitor_gui.py:73-81 | Arduino iff the upper-cased description names ARDUINO/UNO/NANO/MEGA; USB-Serial iff it names none of those but CH340/CH341/FTDI/CP210; USB Device iff it names none of those but USB; never Bluetooth |
| FlowMonitorGui.GetAvailablePorts | flow_monitor_gui.py:68-92 | one entry per enumerated port (same multiset of classified entries), every Arduino entry before every other, and device names in order among the Arduino entries and among all other entries, whatever their type |
| FlowMonitorGui.SingletonPermutation | flow_monitor_gui.py:827-829 | a one-element list and a permutation of it are equal, so the sole Arduino entry is the same before and after sorting |
| FlowMonitorGui.SortedArduinos | flow_monitor_gui.py:827-829 | sorting keeps the number of Arduino ports, and which one when there is exactly one |
| FlowMonitorGui.SelectPortInteractively | flow_monitor_gui.py:816-834 | no ports gives None; exactly one Arduino port is chosen without the dialog; otherwise the dialog's answer |
| FlowMonitorGui.FindArduinoPort | flow_monitor_gui.py:333-346 | None iff there are no ports; otherwise the first port (in enumeration order) whose description names ARDUINO/CH340/CH341/USB, or the first port when none does |
| FlowMonitorGui.ChosenPort | flow_monitor_gui.py:349-350 | a port already set is kept; otherwise the lookup's result, which is None iff there are no ports and else the device of an enumerated port |
| FlowMonitorGui.ReconnectDue | flow_monitor_gui.py:690-693 | an attempt is due only while connected, with a data timestamp more than 15 s old, and (after a non-zero attempt time) more than 5 s after that attempt; with a non-zero timestamp more than 15 s old and no attempt yet, it is due |
| FlowMonitorGui.FlowMonitor.constructor | flow_monitor_gui.py:264-307 | one zero sample, recording and running, no reconnect attempt yet, the chosen port, connected iff a port was found and it opened |
| FlowMonitorGui.FlowMonitor.ConnectToArduino | flow_monitor_gui.py:348-373 | looks a port up when none is set; no port: fail and change nothing else; success clears `last_data_timestamp` and resets the sensor status; failure marks the link down |
| FlowMonitorGui.FlowMonitor.ParseDataLine | flow_monitor_gui.py:512-567 | an accepted line is absorbed at time `now` (deques and counters only while recording); any other line leaves all data unchanged |
| FlowMonitorGui.FlowMonitor.ReadSerialData | flow_monitor_gui.py:494-510 | without a live link nothing changes; otherwise every reading up to the first `SerialException` is absorbed in order, and the link is down iff such an exception came |
| FlowMonitorGui.FlowMonitor.ReadUntilFault | flow_monitor_gui.py:496-510 | the loop consumes exactly the outcomes before the first `SerialException` and absorbs their readings |
| FlowMonitorGui.FlowMonitor.ProcessOutcome | flow_monitor_gui.py:497-509 | one outcome other than a `SerialException` absorbs its reading, if it has one, and otherwise changes nothing |
| FlowMonitorGui.FlowMonitor.CloseConnection | flow_monitor_gui.py:704-713 | the link is down afterwards |
| FlowMonitorGui.FlowMonitor.HandleAutoReconnect | flow_monitor_gui.py:688-702 | fires exactly when the gate is open; if not, nothing changes; if it fires, the attempt time is `now` and the link is re-established iff the port opens; after a successful reconnect the gate stays shut until new data arrives |
| FlowMonitorGui.FlowMonitor.ResetData | flow_monitor_gui.py:716-726 | back to one zero sample with counters, latest values and data timestamp cleared; the start time is `now` |
| FlowMonitorGui.FlowMonitor.ToggleRecording | flow_monitor_gui.py:730-732 | recording flips |
| FlowMonitorGui.FlowMonitor.SaveData | flow_monitor_gui.py:746-784 | with the dialog option corrected: refuses iff at most one sample; cancels iff the file name is empty; reports the error iff the write fails; saves iff it succeeds, one row per sample, timed from the oldest, with that sample's flow, volume and status |
| FlowMonitorGui.FlowMonitor.SaveWith | flow_monitor_gui.py:746-784 | for any dialog options: refuses iff at most one sample, then the dialog's `TclError`, cancel, write error and saved rows each exactly in their case |
| FlowMonitorGui.FlowMonitor.SaveDataAsWritten | flow_monitor_gui.py:753-758 | as written: with more than one sample the dialog raises on `initialname`, so nothing is ever saved |
| FlowMonitorGui.AskSaveAsFilename | flow_monitor_gui.py:753-758 | the dialog raises iff some option is unknown to Tk, naming such an option; otherwise it returns the user's answer |
| FlowMonitorGui.WrittenSaveDialogRaises | flow_monitor_gui.py:757 | the options as written always raise, naming `initialname` |
| FlowMonitorGui.SaveDialogAnswers | flow_monitor_gui.py:753-758 | with `initialfile`, the dialog returns the user's answer |
| FlowMonitorGui.ArrivalsStep | flow_monitor_gui.py:496-506 | before the first `SerialException`, one more outcome adds its reading, if any, to what the loop has absorbed |
| FlowMonitorGui.FaultEndsRun | flow_monitor_gui.py:503-506 | a `SerialException` met before the end of the run is the one that ends it |
| CrossPlatformMonitor.BannerNotDigit | src/core/cross_platform_flow_monitor.py:502-511 | no skipped prefix begins with a digit |
| CrossPlatformMonitor.DeviceLinesAreValid | src/core/cross_platform_flow_monitor.py:496-512 | every line the device prints passes `is_valid_data_line` |
| CrossPlatformMonitor.AvailablePorts | src/core/cross_platform_flow_monitor.py:277-307 | one display string per port, in enumeration order, each of the form `device (description)` with "Unknown device" for an empty description |
| CrossPlatformMonitor.ExtractPortName | src/core/cross_platform_flow_monitor.py:337-341 | the result holds no "(" and no surrounding whitespace |
| CrossPlatformMonitor.ExtractDisplayName | src/core/cross_platform_flow_monitor.py:337-341 | the device is recovered from its display string whenever it has no "(" and no surrounding whitespace |
| CrossPlatformMonitor.ExtractAvailable | src/core/cross_platform_flow_monitor.py:277-341 | every entry of the port list leads back to its port's device, under the same condition |
| CrossPlatformMonitor.ExtractIdempotent | src/core/cross_platform_flow_monitor.py:337-341 | extracting twice gives the same name as extracting once |
| CrossPlatformMonitor.AutoSelect | src/core/cross_platform_flow_monitor.py:315-322 | chooses iff there are ports and none is chosen; what it chooses is one of the listed strings |
| CrossPlatformMonitor.AutoSelectFirstBoard | src/core/cross_platform_flow_monitor.py:317-320 | the first entry mentioning "arduino" or "usb" (any case) is chosen |
| CrossPlatformMonitor.AutoSelectFallback | src/core/cross_platform_flow_monitor.py:321-322 | with no such entry, the first port is chosen |
| CrossPlatformMonitor.LeadingDigits | src/core/cross_platform_flow_monitor.py:364 | the maximal run of ASCII digits `[0-9]` at the start of a string |
| CrossPlatformMonitor.FirstComFrom | src/core/cross_platform_flow_monitor.py:364 | the leftmost position of "COM" followed by a digit, or the end when there is none |
| CrossPlatformMonitor.ComNumber | src/core/cross_platform_flow_monitor.py:364-366 | a match's number is a non-empty digit string |
| CrossPlatformMonitor.ComFound | src/core/cross_platform_flow_monitor.py:364-365 | a match exists iff the leftmost search finds one |
| CrossPlatformMonitor.ComContains | src/core/cross_platform_flow_monitor.py:360-365 | a match implies the `"COM" in` guard holds |
| CrossPlatformMonitor.ComPrefixed | src/core/cross_platform_flow_monitor.py:366 | a rewritten name starts with "COM" |
| CrossPlatformMonitor.NormalizeComPortSpec | src/core/cross_platform_flow_monitor.py:359-366 | a name changes iff the system is Windows, the name does not start with "COM", and its upper-cased form holds "COM" followed by a digit; it then becomes "COM" and the digits of the leftmost such match |
| CrossPlatformMonitor.NormalizeComPort | src/core/cross_platform_flow_monitor.py:359-366 | the name is returned unchanged, or (only on Windows, for a name not starting with "COM") it becomes "COM" followed by a non-empty run of ASCII digits |
| CrossPlatformMonitor.NormalizeComPortUnfold | src/core/cross_platform_flow_monitor.py:359-366 | the rewrite in terms of the leftmost match: the `"COM" in` guard adds nothing |
| CrossPlatformMonitor.NormalizeComPortIdempotent | src/core/cross_platform_flow_monitor.py:359-366 | rewriting a rewritten name leaves it alone |
| CrossPlatformMonitor.IsValidDataLine | src/core/cross_platform_flow_monitor.py:496-512 | a line is valid iff it is non-empty, has a comma, and starts with none of the banner and status prefixes |
| CrossPlatformMonitor.Halt | src/core/cross_platform_flow_monitor.py:453-492 | the read that ends the loop (a closed handle, or the exception that brings the counter to 5) is the first such read |
| CrossPlatformMonitor.HaltFrom | src/core/cross_platform_flow_monitor.py:453-492 | the first read from position `k` on that ends the loop |
| CrossPlatformMonitor.HaltIs | src/core/cross_platform_flow_monitor.py:453-492 | a position before which no read ends the loop, and at which one does (or the end of the reads), is the halt |
| CrossPlatformMonitor.HaltStep | src/core/cross_platform_flow_monitor.py:453-492 | scanning past a read that does not end the loop keeps the halt ahead |
| CrossPlatformMonitor.ErrorStep | src/core/cross_platform_flow_monitor.py:464-485 | an exception adds one to the counter; the counter rises only on an exception, and falls only to 0, on a non-empty line |
| CrossPlatformMonitor.ErrorsStep | src/core/cross_platform_flow_monitor.py:464-485 | the counter after one more read is one step of the counter rule |
| CrossPlatformMonitor.SinceLastLineIsSuffix | src/core/cross_platform_flow_monitor.py:464-465 | the reads after the last non-empty line are a suffix with no non-empty line, preceded by one |
| CrossPlatformMonitor.ErrorsCountFaults | src/core/cross_platform_flow_monitor.py:450-492 | `consecutive_errors` is the number of exceptions since the last non-empty line (valid or not); empty reads leave it alone |
| CrossPlatformMonitor.ErrorsBelowLimit | src/core/cross_platform_flow_monitor.py:477-490 | before the loop ends the counter stays below 5 |
| CrossPlatformMonitor.LostAtLimit | src/core/cross_platform_flow_monitor.py:477-490 | when an exception ends the loop, the counter is exactly 5 |
| CrossPlatformMonitor.ExportRows | src/core/cross_platform_flow_monitor.py:682-685 | one row per sample, zipping the three histories |
| CrossPlatformMonitor.TerminatedNoBreak | src/core/cross_platform_flow_monitor.py:681-685 | lines each followed by backslash and `n` contain no line break |
| CrossPlatformMonitor.ExportIsOneLine | src/core/cross_platform_flow_monitor.py:681-685 | as written, the exported file is a single line however many samples it holds |
| CrossPlatformMonitor.TerminatedIsJoin | src/core/cross_platform_flow_monitor.py:681-685 | lines each followed by a real newline are the lines joined by newlines, then an empty last line |
| CrossPlatformMonitor.ExportLines | src/core/cross_platform_flow_monitor.py:681-685 | with real newlines the file splits back into the header, one line per row, and an empty last line |
| CrossPlatformMonitor.ExportFile | src/core/cross_platform_flow_monitor.py:680-685 | the text written row by row is the header and every row, each followed by backslash and `n` |
| CrossPlatformMonitor.CrossPlatformFlowMonitor.constructor | src/core/cross_platform_flow_monitor.py:93-115 | empty histories, no `start_time`, not connected, running, the port list filled and a port auto-selected |
| CrossPlatformMonitor.CrossPlatformFlowMonitor.RefreshPorts | src/core/cross_platform_flow_monitor.py:309-322 | the list is the ports' display strings; the choice is auto-selected only when none was made |
| CrossPlatformMonitor.CrossPlatformFlowMonitor.SelectPort | src/core/cross_platform_flow_monitor.py:327-335 | warns and changes nothing iff there are no ports; otherwise refreshes |
| CrossPlatformMonitor.CrossPlatformFlowMonitor.OpenSelected | src/core/cross_platform_flow_monitor.py:353-407 | the selected port is the rewritten extracted name; connected iff the port opened |
| CrossPlatformMonitor.CrossPlatformFlowMonitor.ConnectArduino | src/core/cross_platform_flow_monitor.py:343-407 | already connected or nothing chosen: nothing changes; otherwise the rewritten name is selected and the link is up iff it opened |
| CrossPlatformMonitor.CrossPlatformFlowMonitor.CleanupConnection | src/core/cross_platform_flow_monitor.py:423-436 | the link is down |
| CrossPlatformMonitor.CrossPlatformFlowMonitor.DisconnectArduino | src/core/cross_platform_flow_monitor.py:409-417 | the reader is stopped and the link is down |
| CrossPlatformMonitor.CrossPlatformFlowMonitor.HandleConnectionLost | src/core/cross_platform_flow_monitor.py:654-657 | the link is down |
| CrossPlatformMonitor.CrossPlatformFlowMonitor.Reconnect | src/core/cross_platform_flow_monitor.py:659-664 | as written: reconnecting from a connected state leaves the reader stopped; the link is up iff a port is chosen and it opened |
| CrossPlatformMonitor.CrossPlatformFlowMonitor.ReconnectRestarting | src/core/cross_platform_flow_monitor.py:659-664 | corrected: after a successful reconnect both the link and the reader are up |
| CrossPlatformMonitor.CrossPlatformFlowMonitor.ParseDataLine | src/core/cross_platform_flow_monitor.py:514-549 | a line that decodes (pulse fields read as integers, no sign check) is stored at its seconds since `start_time`, which the first stored line sets; any other line changes nothing |
| CrossPlatformMonitor.CrossPlatformFlowMonitor.ProcessRead | src/core/cross_platform_flow_monitor.py:453-492 | one pass: an admitted line is parsed; the counter takes one step and the pass reports whether the loop ends |
| CrossPlatformMonitor.CrossPlatformFlowMonitor.ReadAt | src/core/cross_platform_flow_monitor.py:453-492 | pass `i` keeps the counter and the stored readings equal to their definitions over the reads so far |
| CrossPlatformMonitor.CrossPlatformFlowMonitor.ReadUntilStop | src/core/cross_platform_flow_monitor.py:453-492 | stores every accepted line before the read that ends the loop, and reports the link lost iff that read is the fifth consecutive exception |
| CrossPlatformMonitor.CrossPlatformFlowMonitor.ReadSerialData | src/core/cross_platform_flow_monitor.py:446-494 | nothing happens unless running and connected; otherwise as `ReadUntilStop`, and the link is down iff it was lost |
| CrossPlatformMonitor.CrossPlatformFlowMonitor.ReconnectThenRead | src/core/cross_platform_flow_monitor.py:659-664 | as written: after reconnecting from a connected state the reader stores nothing |
| CrossPlatformMonitor.CrossPlatformFlowMonitor.ReconnectRestartingThenRead | src/core/cross_platform_flow_monitor.py:659-664 | corrected: after a successful reconnect the reader stores the lines that follow |
| CrossPlatformMonitor.CrossPlatformFlowMonitor.ExportData | src/core/cross_platform_flow_monitor.py:666-693 | warns iff there is no data; cancels on an empty file name; reports the error when the write fails; otherwise writes the header and one row per sample, each followed by backslash and `n` |
| SimpleFlowGui.FlowIndicator | simple_flow_gui.py:139-177 | nothing while no flow is stored; "FLOW DETECTED!" iff the newest flow exceeds 0.1; otherwise "Waiting for flow..." |
| SimpleFlowGui.IndicatorAfterReading | simple_flow_gui.py:170-177 | right after a reading is stored, the indicator reports that reading's flow |
| SimpleFlowGui.SimpleFlowMonitor.constructor | simple_flow_gui.py:27-34 | empty histories, no `start_time`, no connection, running |
| SimpleFlowGui.SimpleFlowMonitor.ConnectArduino | simple_flow_gui.py:70-80 | succeeds iff the fixed port opens, and then holds a connection |
| SimpleFlowGui.SimpleFlowMonitor.ParseDataLine | simple_flow_gui.py:101-137 | a line that decodes (pulse fields as integers, status stripped but not defaulted, no sign check) is stored at its seconds since `start_time`, fixed by the first stored line; any other line changes nothing |
| SimpleFlowGui.SimpleFlowMonitor.ProcessRead | simple_flow_gui.py:89-97 | one pass: a line passing the 8-prefix filter is parsed; the pass ends the loop iff the read raised |
| SimpleFlowGui.SimpleFlowMonitor.ReadAt | simple_flow_gui.py:89-99 | pass `i` keeps the stored data equal to the relative store of the readings so far |
| SimpleFlowGui.SimpleFlowMonitor.ReadUntilEnd | simple_flow_gui.py:89-99 | stores every admitted, decoding line before the first exception, with no retry |
| SimpleFlowGui.SimpleFlowMonitor.ReadSerialData | simple_flow_gui.py:82-99 | without a connection (or once stopped) nothing changes; otherwise as `ReadUntilEnd` |
| SimpleFlowGui.SimpleFlowMonitor.Stop | simple_flow_gui.py:207-210 | the loop is told to stop |
| MinimalFlowTest.MinimalFlowMonitor.constructor | minimal_flow_test.py:19-25 | empty 100-bounded histories, no connection, running |
| MinimalFlowTest.MinimalFlowMonitor.ConnectArduino | minimal_flow_test.py:39-47 | succeeds iff the fixed port opens, and then holds a connection |
| MinimalFlowTest.MinimalFlowMonitor.ParseDataLine | minimal_flow_test.py:68-95 | a line with at least 4 fields whose fields 0-2 are floats is stored at its absolute seconds (fields past the status never converted, no sign check); any other line changes nothing |
| MinimalFlowTest.MinimalFlowMonitor.ProcessRead | minimal_flow_test.py:56-64 | one pass: a line passing the 8-prefix filter is parsed; the pass ends the loop iff the read raised |
| MinimalFlowTest.MinimalFlowMonitor.ReadAt | minimal_flow_test.py:56-66 | pass `i` keeps the stored data equal to the timed store of the readings so far |
| MinimalFlowTest.MinimalFlowMonitor.ReadUntilEnd | minimal_flow_test.py:56-66 | stores every admitted, decoding line before the first exception |
| MinimalFlowTest.MinimalFlowMonitor.ReadSerialData | minimal_flow_test.py:49-66 | without a connection (or once stopped) nothing changes; otherwise as `ReadUntilEnd` |
| MinimalFlowTest.MinimalFlowMonitor.Animate | minimal_flow_test.py:97-111 | nothing to plot iff the history is empty; otherwise one time per sample, the oldest at 0, every gap between samples kept |
| MinimalFlowTest.MinimalFlowMonitor.Stop | minimal_flow_test.py:147-150 | the loop is told to stop |
| MinimalFlowTest.MinimalRun | minimal_flow_test.py:16-88 | after the loop, the histories hold the newest 100 absolute seconds, flows and volumes, and every reading was counted |
| ConnectionTestEnhanced.Categorize | src/core/connection_test_enhanced.py:21-35 | the first matching rule decides: Arduino (1), USB-Serial (2), USB Device (2), Bluetooth (4), otherwise Unknown (3); each type iff its keywords match and no earlier rule's do |
| ConnectionTestEnhanced.EntriesRanked | src/core/connection_test_enhanced.py:21-43 | every entry of a listing of the ports carries the priority of its type |
| ConnectionTestEnhanced.GetAvailablePorts | src/core/connection_test_enhanced.py:14-47 | one entry per port (same multiset), sorted by priority and then device; Arduino boards first, Bluetooth last |
| ConnectionTestEnhanced.ArduinoListedFirst | src/core/connection_test_enhanced.py:24-46 | when some port is an Arduino board, the list starts with one |
| ConnectionTestEnhanced.ListedIsEnumerated | src/core/connection_test_enhanced.py:19-47 | every listed device is one of the enumerated ports |
| ConnectionTestEnhanced.Answer | src/core/connection_test_enhanced.py:68-86 | `q` or Ctrl-C cancels; a number from 1 to the number of ports picks that port's device; anything else asks again |
| ConnectionTestEnhanced.AnswerByNumber | src/core/connection_test_enhanced.py:74-78 | typing the number shown next to a port picks that port |
| ConnectionTestEnhanced.AnswerOutOfRange | src/core/connection_test_enhanced.py:74-80 | a number with no port beside it asks again |
| ConnectionTestEnhanced.FirstAnswer | src/core/connection_test_enhanced.py:67-86 | a chosen device is one of the listed ports |
| ConnectionTestEnhanced.FirstAnswerSettles | src/core/connection_test_enhanced.py:67-86 | the prompt ends with end of input iff no answer settles it; otherwise with the outcome of the first answer that does |
| ConnectionTestEnhanced.Selected | src/core/connection_test_enhanced.py:49-86 | a chosen device is one of the listed ports; with exactly one Arduino board listed, a device is chosen and it is an Arduino board's |
| ConnectionTestEnhanced.SelectPortInteractive | src/core/connection_test_enhanced.py:49-86 | with exactly one Arduino board, that board's device is chosen without reading input; otherwise the prompt loop's outcome, `FirstAnswer` |
| ConnectionTestEnhanced.CsvReading | src/core/connection_test_enhanced.py:126-135 | a valid line has a comma, starts with neither "===" nor "Time", has at least 3 fields, and reports the floats of fields 1 and 2 |
| ConnectionTestEnhanced.DeviceLineIsCsv | src/core/connection_test_enhanced.py:126-135 | every line the device prints is valid, reporting its flow, volume and status |
| ConnectionTestEnhanced.ListenOnce | src/core/connection_test_enhanced.py:116-148 | one pass of the loop leaves the count, the received flag and the end marker exactly as one step of the listen specification does |
| ConnectionTestEnhanced.HeardSettled | src/core/connection_test_enhanced.py:116-148 | once the listen has ended, later reads change nothing |
| ConnectionTestEnhanced.HeardBounds | src/core/connection_test_enhanced.py:123-137 | at most three lines are counted, exactly three iff the loop broke, and counting implies data was received |
| ConnectionTestEnhanced.HeardCounts | src/core/connection_test_enhanced.py:116-148 | without an exception, the count is min(3, number of valid lines) and data was received iff some non-blank text line arrived |
| ConnectionTestEnhanced.VerdictOf | src/core/connection_test_enhanced.py:153-186 | passed iff no exception and some valid line, with that many points; partial iff no exception, no valid line, but data received; no data iff neither; a serial failure iff a `SerialException` ended the listen |
| ConnectionTestEnhanced.VerdictWithoutFaults | src/core/connection_test_enhanced.py:153-176 | without an exception: passed iff some line is valid, reporting min(3, valid lines); partial iff lines arrived but none was valid; failed iff no line arrived |
| ConnectionTestEnhanced.TestConnection | src/core/connection_test_enhanced.py:88-191 | the verdict is that of the reads, or a serial failure when the port does not open; the function returns True iff the verdict is a pass |
| ConnectionTestEnhanced.Run | src/core/connection_test_enhanced.py:193-234 | a port argument is tested directly; without one: no ports iff none is enumerated, the crash iff input runs out, no selection iff the user cancels or picks an empty name, and otherwise the selected device is tested, with its verdict |
| ConnectionTest.FindArduinoPorts | connection_test.py:14-23 | a port is kept iff it is enumerated and its description names ARDUINO, CH340, USB or SERIAL |
| ConnectionTest.CandidatesInOrder | connection_test.py:16-23 | the kept ports sit at strictly increasing positions of the enumeration, exactly the positions that match |
| ConnectionTest.FlowData | connection_test.py:55-61 | a reported line has a comma, does not start with "===", has at least 3 fields, and reports the floats of fields 1 and 2 |
| ConnectionTest.DeviceLineReported | connection_test.py:55-61 | every line the device prints is reported with its flow and volume |
| ConnectionTest.TimeLineReported | connection_test.py:55-61 | a "Time" header with numeric fields 1 and 2 is reported as flow data |
| ConnectionTest.ReportsFromReceived | connection_test.py:55-61 | `Reports`, the flow reports printed for the reads: there are no more of them than reads, and each is the flow data of a received line |
| ConnectionTest.ReportsPrefix | connection_test.py:50-61 | the reports of the first reads begin the reports of all reads, so later reads only add reports |
| ConnectionTest.ReportedAt | connection_test.py:50-61 | every received line with flow data is reported, in order: its report comes right after the reports of the reads before it |
| ConnectionTest.Probe | connection_test.py:25-89 | True iff the port opens, no read raises, and some non-blank text line arrives; an exception other than `SerialException` escapes |
| ConnectionTest.TestConnection | connection_test.py:25-89 | the result is `Probe`'s, and the flow reports are those of the reads before the first exception |
| ConnectionTest.AnyTextPasses | connection_test.py:50-79 | a port sending only text that is not flow data still passes |
| ConnectionTest.Suggest | connection_test.py:128-133 | no suggestion iff no port works; the suggestion is a working port |
| ConnectionTest.TestEach | connection_test.py:119-124 | aborts iff some candidate's test escapes, naming the first such candidate; otherwise the working devices, in test order |
| ConnectionTest.WorkingMembers | connection_test.py:119-124 | `WorkingPorts`, the list `working_ports`: a device is in it iff it is a candidate whose test passed |
| ConnectionTest.Run | connection_test.py:91-140 | a port argument is tested alone; no candidate ends the run; otherwise the first candidate whose test escapes stops the script, and when none does the summary lists the working ports and suggests the first |
| Wire.Fields | src/core/cross_platform_flow_monitor.py:517 | `split(",")`: at least one field, none with a comma, joined back to the line |
| Wire.DecodeFrame | src/core/cross_platform_flow_monitor.py:514-549 | decodes iff at least 4 fields, fields 0-2 floats, and (when read) fields 4/5 integers; the values are those fields, the status stripped, and each pulse count is its integer field when read and present, else 0 |
| Wire.FieldsOfFormatLine | tests/test_gui_parsing.py:41-47 | the fields of a printed line are the printed values |
| Wire.DecodeFormatLine | src/core/cross_platform_flow_monitor.py:514-549 | decoding a printed line gives back exactly the measured values, whatever the flow |
| Wire.DecodeParts | src/core/cross_platform_flow_monitor.py:517-527 | decoding depends only on what each field converts to |
| Wire.HeaderNeverDecodes | src/core/cross_platform_flow_monitor.py:521-549 | a line whose field 0 starts with a letter (a header such as `Time(ms),...`) never decodes |
| Numbers.ParseInt | flow_monitor_gui.py:526-527 | `int()`: a result comes from a non-blank string, and a negative one from a leading minus |
| Numbers.ParseReal | flow_monitor_gui.py:520-522 | `float()`: a result comes from a non-blank string, and a negative one from a leading minus |
| Numbers.NotNumberWhenFirstIsLetter | flow_monitor_gui.py:520-567 | a string starting with a letter or comma is neither a float nor an integer |
| Numbers.ParseFormatFixed | tests/test_gui_parsing.py:42-46 | `float` reads back exactly the value a fixed-point field prints |
| Numbers.ParseIntOfDigits | flow_monitor_gui.py:526-527 | `int` reads back a printed natural number |
| Numbers.ParseIntOfNegated | flow_monitor_gui.py:526-527 | `int` reads a minus sign followed by digits as the negated value |
| Text.Strip | flow_monitor_gui.py:499 | `strip()` leaves no ASCII whitespace at either end |
| Text.StripIsSlice | flow_monitor_gui.py:499 | `strip()` keeps a contiguous slice and removes only whitespace around it |
| Text.StripIdempotent | flow_monitor_gui.py:499 | stripping twice is stripping once |
| Text.Split | flow_monitor_gui.py:515 | `split` on one character: at least one field, none holding the separator, joined back to the input |
| Text.SplitJoin | flow_monitor_gui.py:515 | splitting a join of separator-free fields gives the fields back |
| Text.ContainsIffOccurs | flow_monitor_gui.py:500 | `needle in hay` iff it occurs at some position |
| Text.Upper | flow_monitor_gui.py:73 | `upper()` on ASCII: each lower-case ASCII letter becomes its capital, every other character is kept |
| Text.Lower | src/core/cross_platform_flow_monitor.py:318 | `lower()` on ASCII: each capital ASCII letter becomes lower case, every other character is kept |
| Text.StrLeTotal | flow_monitor_gui.py:92 | Python's string order is total |
| Text.StrLeTransitive | flow_monitor_gui.py:92 | Python's string order is transitive |
| Text.StrLeAntisymmetric | flow_monitor_gui.py:92 | Python's string order is antisymmetric |
| Samples.Push | flow_monitor_gui.py:555-558 | `append` on a bounded deque keeps the newest `maxlen` elements of the old contents plus the new one |
| Samples.PushAllKeepsNewest | flow_monitor_gui.py:273-276 | a bounded deque fed a run of values holds the newest `maxlen` of everything given, in order |
| Samples.PushAllLength | flow_monitor_gui.py:273-276 | a bounded deque grows by one per append until full, then stays at its bound |
| Samples.Rebase | minimal_flow_test.py:106-109 | times from the oldest sample: the oldest is 0 and every gap is kept |
| Samples.RebaseIdempotent | flow_monitor_gui.py:643-646 | rebasing rebased times changes nothing |
| Samples.MaxAll | flow_monitor_gui.py:560 | the running maximum is at least every value seen, and is one of them or the start |
| Series.TimedRun | simple_flow_gui.py:124-128 | each deque holds the newest `cap` values of its history, times as the time function gives them; every reading counted |
| Series.RelativeStart | src/core/cross_platform_flow_monitor.py:531-532 | `start_time` is set by the first reading and never moves |
| Series.RelativeIsTimed | src/core/cross_platform_flow_monitor.py:530-533 | relative storage is storage timed by seconds since `start_time` |
| Series.RelativeRun | src/core/cross_platform_flow_monitor.py:530-540 | relative storage keeps the newest values, timed from the first reading ever accepted, and counts every reading |
| Series.FirstRelativeIsZero | simple_flow_gui.py:118-121 | the first stored reading is stored at time 0 |
| Ports.SortBy | flow_monitor_gui.py:92 | `sorted` by key: ordered and a permutation |
| Ports.InsertSorted | flow_monitor_gui.py:92 | inserting into a sorted list keeps it sorted |
| Ports.FilterMembers | connection_test.py:19-21 | an element is kept iff it is in the list and passes |
| Ports.FilterIsSubsequence | connection_test.py:16-23 | the kept elements appear at increasing positions, exactly those that pass |
| Ports.FilterSortBy | flow_monitor_gui.py:827 | sorting keeps the elements passing any test |
| Ports.FirstIndex | src/core/connection_test_enhanced.py:63 | the first index passing the test, or the length when none does |
| Readings.FramesFromAdmittedLines | simple_flow_gui.py:91-93 | every stored reading comes from an admitted line that decodes to it |
| Readings.FirstEnd | simple_flow_gui.py:95-97 | the first read that ends a loop with no retry, or the end of the reads |
| Readings.FramesAtExit | minimal_flow_test.py:62-64 | where such a loop leaves off, it has stored the readings of the reads before the first end |
| Variants.DeviceLineEverywhere | tests/test_gui_parsing.py:41-47 | every printed reading is read back with its printed values by the production monitor, the cross-platform filter and parser, the minimal monitor and both connection tests |
| Variants.FifthSample | tests/test_gui_parsing.py:46 | the fifth sample line decodes to 2.4 L/min, 0.0006 L and 18 of 33 pulses |
| Variants.CategorizeExtendsSelector | src/core/connection_test_enhanced.py:21-35 | the enhanced test classifies as the production selector, except that an otherwise unknown Bluetooth port becomes Bluetooth |
| Variants.PulseFieldOnlyReadByMost | minimal_flow_test.py:75-86 | a non-integer pulse field rejects the line in the production and cross-platform parsers but not in the minimal one |
| Variants.TimeHeaderSeenDifferently | connection_test.py:55 | a line starting with "Time" is never valid for the enhanced test, while the plain test reports it whenever fields 1 and 2 are numbers |

## Left out

- Serial I/O is an input: opening a port, `readline`, `in_waiting`, `flushInput` and the settle delays. Each read is one outcome of a sequence. `errors="ignore"` decoding is taken to have already happened in the monitors' `Line` text.
- Timeouts and wall-clock time are inputs. The 10 s listen of the connection tests is the finite sequence of reads made within it.
- Threads and locks are left out. Each locked block is one atomic step, and the background read loop is a method called with its reads.
- tkinter and matplotlib are left out: dialogs, widgets, plot set-up, axis scaling, colours and message boxes. Dialog answers and file names are inputs, and the plot's time normalisation is modelled.
- Printing and logging are left out, except the flow reports of the plain connection test, which are that test's only visible output.
- `FlowMonitor._normalize_port_device` (flow_monitor_gui.py:321-331) is not modelled. It depends on the operating system and on the file system, so the model opens the port name as chosen.
- `FlowMonitor.run`, `animate`, `_update_displays` and `_start_data_thread` are not modelled. They are GUI and thread plumbing; the status summary and auto-reconnect that `animate` drives are modelled.
- `SimpleFlowMonitor.start`, `MinimalFlowMonitor.start` and `CrossPlatformFlowMonitor.on_closing` are not modelled. They connect, start threads and show windows; their clean-up is `Stop`/`DisconnectArduino`.
- The hardware id of a port is not modelled: no decision depends on it.
- KeyboardInterrupt during a connection test or in `main` is not modelled. Ctrl-C at the port prompt is modelled.
- The number formats `:.3f`/`:.4f`/`:.5f` of the export and save files are parameters (`fmt`) or left as numbers (`Row`). No rounding is modelled.
- Numbers.ParseReal: reads only decimal notation (optional sign, digits, optional point and digits, surrounding whitespace). It does not accept exponents, `inf`/`nan` or underscores, so such fields are rejected where Python would accept them.
- Numbers.ParseInt: does not accept underscores.
- Numbers.ParseReal and Numbers.ParseInt: accept ASCII digits only. Python's `float()` and `int()` also read other Unicode decimal digits (`int('٣') == 3`) and strip Unicode whitespace; such fields are rejected here.
- CrossPlatformMonitor.LeadingDigits: `\d` is modelled as ASCII `[0-9]`. Python's `\d` also matches other Unicode decimal digits, so `re.search(r'COM(\d+)', ...)` finds more matches than the model does.
- CrossPlatformMonitor.NormalizeComPortSpec: `\d` is modelled as ASCII `[0-9]`. Python rewrites `xcom١` to `COM١`; the model leaves it unchanged.
- Text.Strip: removes ASCII whitespace only. Python's `strip()` also removes Unicode whitespace such as U+00A0 (`'\u00a05'.strip() == '5'`), so such an answer at the enhanced prompt is re-asked here.
- Text.Upper: maps ASCII letters only. Python's `upper()` maps every cased letter and can change the length (`'ß'.upper() == 'SS'`, `'ſ'.upper() == 'S'`), so a description such as `uſb` that Python matches against `USB` is not matched here.
- Text.Lower: maps ASCII letters only, unlike Python's `lower()` (`'İ'.lower()` has two characters).
- FlowMonitorGui.FlowMonitor.SaveData and CrossPlatformMonitor.CrossPlatformFlowMonitor.ExportData: a failed `open` or `write` is one boolean input. A file left partly written before the error is not modelled.
- Wire.FormatLine: the sample lines of tests/test_gui_parsing.py:41-47 are stated as device readings printed in fixed point. The literal text of those lines is not compared character by character.

## Findings

| source | as written | input that shows it | evidently intended | confidence | as-written member | corrected member |
|---|---|---|---|---|---|---|
| src/core/cross_platform_flow_monitor.py:681-685 | `export_data` writes `\\n`, a backslash and the letter `n`, after the header and after every row | any export with one or more samples: the file is one line such as `Time(s),...\n0.000,...\n` | a real newline after each line, so the file has a header line and one line per sample | not executed | CrossPlatformMonitor.ExportIsOneLine | CrossPlatformMonitor.ExportLines |
| src/core/cross_platform_flow_monitor.py:659-664 | `reconnect` from a connected state calls `disconnect_arduino`, which clears `is_running`; `connect_arduino` never sets it again, so the new reader thread leaves its loop at once | a connected monitor, then Reconnect with the port opening and lines arriving: nothing is stored | the reader runs again after a successful reconnect | not executed | CrossPlatformMonitor.CrossPlatformFlowMonitor.ReconnectThenRead | CrossPlatformMonitor.CrossPlatformFlowMonitor.ReconnectRestartingThenRead |
| flow_monitor_gui.py:753-758 | `save_data` passes `initialname=` to `filedialog.asksaveasfilename`. Tk's save dialog knows `initialfile`, not `initialname`, so the call raises `TclError`. It is outside the `try`, so no error dialog is shown and nothing is saved | any monitor with two or more samples, then Save: the dialog call raises before a file name exists | pass the suggested name as `initialfile`, so the dialog opens and the rows are saved | not executed | FlowMonitorGui.FlowMonitor.SaveDataAsWritten | FlowMonitorGui.FlowMonitor.SaveData |
