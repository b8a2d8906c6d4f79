# Scanning-probe logic, FPGA fast counter and stream channels of qudi, modelled in Dafny

This project models three parts of the qudi laboratory framework. It proves
properties of each.

- **Scanning-probe logic** (`ScanTypes`, `ScanningProbe`). The logic module stores
  a scan range and a resolution per axis and one pixel frequency. Each write
  is clipped against the scanner's axis constraints. An idle/locked
  acquisition machine (`toggle_scan`, `_scan_loop`) points one single-shot
  timer either at the position poll or at the scan poll, with an adaptive
  scan-poll interval. A bounded scan history with a cursor can be walked with
  `restore_from_history`, `history_previous` and `history_next`.
  `save_2d_scan` looks up the newest frame whose axes match. The scanner
  device is not modelled. Its answers are method parameters: the settings
  `configure_scan` accepted, the return codes of `start_scan` and `stop_scan`,
  the current frame, the current target.
- **FPGA time tagger** (`FpgaStatus`, `FastCounter`). This covers:
  - how the 32-bit status register decodes into status flags and error
    messages;
  - the DAC command words that set the eight input thresholds;
  - the DAC-channel-to-SMA wiring;
  - the integer status machine (-1 error, 0 unconfigured, 1 idle, 2 running,
    3 paused) driven by `configure`, `start_measure`, `stop_measure`,
    `pause_measure`, `continue_measure` and `get_data_trace`;
  - the rule that counts saved at a pause are added back only when the shapes
    agree.

  Every register poll the source repeats until a five-second timeout is
  modelled as the sequence of register values read before the deadline.
- **Stream channel value types** (`DataInStream`). `StreamChannel` covers the
  default unit per channel type, the type-checked unit setter and `copy`.
  `DataInStreamConstraints` covers channel-list defaulting and copying, the
  data-type default, the truth value of the circular-buffer flag, and `copy`.

Python behaviour is modelled where the code depends on it:
- A dictionary lookup that misses raises `KeyError`. Tuple indexing past the
  end raises `IndexError`. Division by zero raises `ZeroDivisionError`. An
  invalid enum value raises `ValueError`. These appear as `Raised` replies.
- Writes made before the exception stay in place.
- History indices follow Python's negative indexing.
- A slice end past the array's size is cut to that size.
- `np.rint` rounds half to even.

Stateful source objects are Dafny classes, with a ghost `Valid()` invariant
that every method keeps:
- `ScanningProbeLogic`: the cursor is a valid index, and the timer handler
  agrees with the lock.
- `FastCounterFpga`: the status is one of -1..3, the count arrays are
  rectangular, and every SMA input has a threshold.

`StreamChannel` and `DataInStreamConstraints` are classes without an
invariant. Their constructors and methods state each field outright.

The source's `while` loops, and its `for` loops that update state, are
`while` loops with invariants in the model. Each is proved against a
specification function:
- the ranges, resolutions and reconciliation loops: `ApplyClipped`,
  `Reconcile`;
- the history restore: `RestoreAxes`;
- the history eviction: `AppendBounded`;
- the frequency minimum/maximum scans;
- the register polls: `Reached`;
- the DAC loop: `DacWord`;
- the frame search and the channel copies.

The two `for` loops that only filter the encoding tables into a new list
(`_get_status_messages`, `_get_error_messages`) are the recursive function
`Decode` instead.

Lemmas then prove what the source promises about those functions.

Where the source and its natural reading differ, the model follows the code:
- An unknown axis ends `set_scan_range` without undoing the axes already
  written.
- The frequency is checked against the hull of all axes: the smallest minimum
  and the largest maximum.
- A negative history index is accepted.
- A failed stop still appends the frame to the history.
- Stopping while idle reports "running".
- The settings the device accepted are kept even when `start_scan` fails.
- An exception raised after `module_state.lock()` leaves the module locked.
- `continue_measure` zeroes the counts even when it then refuses to continue.

## Model

| member | source | states |
|---|---|---|
| ScanTypes.Clip | qudi/logic/scanning_probe_logic.py:231-234 | `min(hi, max(lo, x))`: never above hi; at least lo when lo <= hi; an in-bounds value is unchanged; a value below lo becomes lo (when lo <= hi); a value above hi, or any value when lo > hi, becomes hi |
| ScanTypes.ClipPair | qudi/logic/scanning_probe_logic.py:517-522 | each end is its own input clipped by ClipValue, independently of the other; with ordered bounds both ends lie in [min_value, max_value]; an end above max_value becomes max_value, one below min_value becomes min_value; an in-bounds range is untouched |
| ScanTypes.ClipRange | qudi/logic/scanning_probe_logic.py:231-237 | the low end is the clipped low end; when the clipped ends are ordered they are stored as they are; when they cross, the range becomes (clipped low, clipped low); with ordered bounds, min_value <= low <= high <= max_value; an in-bounds ordered range is stored as given |
| ScanTypes.ClipRangeExamples | qudi/logic/scanning_probe_logic.py:231-237 | on bounds [0, 1], (-1, 2) is stored as (0, 1), and the crossed (0.8, 0.2) as (0.8, 0.8) |
| ScanTypes.ClipResolution | qudi/logic/scanning_probe_logic.py:260-261 | the stored resolution lies in [min_resolution, max_resolution]; an in-bounds value is kept; a value above the maximum becomes the maximum, one below the minimum the minimum |
| ScanTypes.ClipValue | qudi/logic/scanning_probe_logic.py:332 | a target position is clipped into the axis' value bounds: an in-bounds position is kept, one above max_value becomes max_value, one below min_value becomes min_value |
| ScanTypes.Targeted | qudi/logic/scanning_probe_logic.py:239 | the set of axes a request names: every requested axis is in it, and nothing else |
| ScanTypes.ApplyClipped | qudi/logic/scanning_probe_logic.py:224-237 | the setter loop never adds or removes an axis of the store |
| ScanTypes.SettingsReply | qudi/logic/scanning_probe_logic.py:225-241 | a completed loop returns exactly the targeted known axes, each with its value in the updated store; an unknown axis returns the whole map; a missing constraint raises KeyError, and only then |
| ScanTypes.ApplyCompletesIff | qudi/logic/scanning_probe_logic.py:224-237 | the loop completes iff every requested axis is known to the store and to the constraints |
| ScanTypes.ApplyPrefix | qudi/logic/scanning_probe_logic.py:224-237 | writes made before the loop stops persist: the loop over the whole request is the loop over any fully known prefix followed by the loop over the rest |
| ScanTypes.ApplyUntargeted | qudi/logic/scanning_probe_logic.py:224-237 | an axis the request does not name keeps its value, however the loop ends |
| ScanTypes.ApplyTargeted | qudi/logic/scanning_probe_logic.py:231-237 | after a completed loop, each targeted axis holds its requested value clipped against its own constraint |
| ScanTypes.RangesWithinBounds | qudi/logic/scanning_probe_logic.py:231-241 | after a completed set_scan_range, every targeted axis has min_value <= low <= high <= max_value |
| ScanTypes.ResolutionsWithinBounds | qudi/logic/scanning_probe_logic.py:253-265 | after a completed set_scan_resolution, every targeted axis lies in [min_resolution, max_resolution] |
| ScanTypes.RestoreAxes | qudi/logic/scanning_probe_logic.py:517-522 | the restore loop never drops an axis and only adds the frame's axes; it raises only KeyError or IndexError, and KeyError only when one of the frame's axes has no constraint |
| ScanTypes.RestoreAxesWrites | qudi/logic/scanning_probe_logic.py:517-522 | restoring a frame whose axes are distinct and known raises nothing; each of its axes gets the frame's clipped range and clipped resolution |
| ScanTypes.RestoreAxesKeeps | qudi/logic/scanning_probe_logic.py:517-522 | an axis the frame does not scan keeps its range and resolution, even when the restore raises part-way |
| ScanTypes.Reconcile | qudi/logic/scanning_probe_logic.py:385-399 | the reconciliation loop only overwrites entries and never drops an axis |
| ScanTypes.ReconcileAddsOnlyScanAxes | qudi/logic/scanning_probe_logic.py:385-399 | every axis the reconciliation adds to the ranges or resolutions is one of the scan axes; it adds no other |
| ScanTypes.ReconcileAdopts | qudi/logic/scanning_probe_logic.py:385-399 | when the device answers one range and one resolution per distinct scan axis, each scan axis takes exactly the device's values, other axes keep theirs, and nothing raises |
| ScanTypes.AppendBounded | qudi/logic/scanning_probe_logic.py:434-437 | after eviction and append, the history has length min(len + 1, max); its last element is the new frame; the others are the newest previous frames in their order |
| ScanTypes.PyIndex | qudi/logic/scanning_probe_logic.py:512 | a Python index in [-n, n) denotes a position in [0, n): itself when non-negative, n + i when negative |
| ScanTypes.Lower | qudi/logic/scanning_probe_logic.py:553 | lower-casing keeps the length, maps each character, and leaves no upper-case ASCII letter |
| ScanningProbe.ScanInterval | qudi/logic/scanning_probe_logic.py:407-411 | the scan-poll interval is line_points / frequency clamped into [min interval, max interval]: never below the minimum; the quotient itself when it lies in between; the minimum when the quotient is smaller; the maximum when the quotient is larger and the bounds are ordered |
| ScanningProbe.LinePoints | qudi/logic/scanning_probe_logic.py:407 | the points per scan line: the first axis' resolution for a 2-D scan, 1 for a 1-D scan |
| ScanningProbe.Lowest | qudi/logic/scanning_probe_logic.py:278-283 | the minimum pass over the axes finds a value that is in the map and is below every entry; it reports nothing exactly for an empty map |
| ScanningProbe.Highest | qudi/logic/scanning_probe_logic.py:278-283 | the maximum pass finds a value that is in the map and is above every entry; it reports nothing exactly for an empty map |
| ScanningProbe.ScanningProbeLogic.constructor | qudi/logic/scanning_probe_logic.py:104-130 | restored settings are kept; missing ones default to the full value range, max(min_resolution, min(128, max_resolution)) and the smallest max_frequency; the cursor is len - 1 (0 for an empty history); idle with the position poll |
| ScanningProbe.ScanningProbeLogic.ScanData | qudi/logic/scanning_probe_logic.py:149-154 | while locked or with no history, the device's frame; otherwise the history frame under the cursor, with Python indexing |
| ScanningProbe.ScanningProbeLogic.SetScanRange | qudi/logic/scanning_probe_logic.py:214-241 | when locked, nothing changes and the current ranges are returned; otherwise the new ranges and the reply are those of ApplyClipped with ClipRange |
| ScanningProbe.ScanningProbeLogic.SetScanResolution | qudi/logic/scanning_probe_logic.py:243-265 | when locked, nothing changes and the current resolutions are returned; otherwise the result is that of ApplyClipped with ClipResolution |
| ScanningProbe.ScanningProbeLogic.SetScanFrequency | qudi/logic/scanning_probe_logic.py:267-291 | when locked, unchanged; otherwise f is stored unclipped iff some axis has min_frequency <= f and some axis has f <= max_frequency, else the old value stays; the stored value is returned |
| ScanningProbe.ScanningProbeLogic.SetScannerTargetPosition | qudi/logic/scanning_probe_logic.py:319-340 | while locked, or when an axis is unknown to the constraints, the device's target is returned and nothing is moved; otherwise every position is clipped into its axis' bounds and the clipped mapping is sent |
| ScanningProbe.ScanningProbeLogic.AppendToHistory | qudi/logic/scanning_probe_logic.py:434-437 | the eviction loop and append give AppendBounded of the old history; the cursor points at the new frame |
| ScanningProbe.ScanningProbeLogic.StartScan | qudi/logic/scanning_probe_logic.py:356-431 | an already locked start returns 0 and changes nothing; a scan-axis tuple of the wrong length returns -1 before locking; an axis without stored settings raises KeyError with the module locked; an axes mismatch unlocks and returns -1; the accepted settings are adopted even if the start fails; a failed start unlocks and returns -1; success connects the scan poll at the clamped interval |
| ScanningProbe.ScanningProbeLogic.AdoptSettings | qudi/logic/scanning_probe_logic.py:385-399 | the reconciliation loop leaves the store and the error as Reconcile describes |
| ScanningProbe.ScanningProbeLogic.Launch | qudi/logic/scanning_probe_logic.py:385-431 | after a successful configure: adopt the accepted settings and frequency; a zero frequency raises while locked; the interval is ScanInterval over the line points; a negative start code unlocks; otherwise the timer is the scan poll at that interval |
| ScanningProbe.ScanningProbeLogic.StopScan | qudi/logic/scanning_probe_logic.py:356-453 | stopping while idle returns 0, signals running and changes nothing; when locked, the frame is appended before the device stops; a failed stop returns -1 and stays locked with the timer as it was; a successful stop unlocks and restores the position poll |
| ScanningProbe.ScanningProbeLogic.ScanLoopTick | qudi/logic/scanning_probe_logic.py:455-481 | an idle tick does nothing; a locked tick publishes the frame; a finished frame always unlocks, restores the position poll and is appended, whatever stop_scan answers |
| ScanningProbe.ScanningProbeLogic.RestoreFromHistory | qudi/logic/scanning_probe_logic.py:501-532 | refused while locked or for an index outside [-len, len), changing nothing; otherwise the store is RestoreAxes of the frame; on success, the frequency is copied verbatim and the cursor set to the index; on failure, the partial writes persist and cursor and frequency are kept |
| ScanningProbe.ScanningProbeLogic.HistoryPrevious | qudi/logic/scanning_probe_logic.py:483-490 | nothing when cursor < 1; otherwise a restore of cursor - 1 |
| ScanningProbe.ScanningProbeLogic.HistoryNext | qudi/logic/scanning_probe_logic.py:492-499 | nothing when cursor >= len - 1; otherwise a restore of cursor + 1 |
| ScanningProbe.ScanningProbeLogic.FindScanToSave | qudi/logic/scanning_probe_logic.py:552-568 | refused while locked; otherwise it finds no scan iff no history frame has the lower-cased axes; a found frame is the newest such frame |
| FpgaStatus.Decode | src/qudi/hardware/fpga_fastcounter/fast_counter_fpga_qo.py:249-271 | the decoded list has one entry per table bit set in the register |
| FpgaStatus.StatusMessages | src/qudi/hardware/fpga_fastcounter/fast_counter_fpga_qo.py:249-259 | at most five status flags; a flag is present iff one of its bits is set in the register |
| FpgaStatus.ErrorMessages | src/qudi/hardware/fpga_fastcounter/fast_counter_fpga_qo.py:261-271 | at most 22 error messages; a message is present iff one of its bits is set in the register |
| FpgaStatus.DecodeMember | src/qudi/hardware/fpga_fastcounter/fast_counter_fpga_qo.py:254-259 | a message is reported iff some table entry carrying it has its bit set in the register |
| FpgaStatus.DecodeMembers | src/qudi/hardware/fpga_fastcounter/fast_counter_fpga_qo.py:254-259 | DecodeMember for every message at once |
| FpgaStatus.DecodeAppend | src/qudi/hardware/fpga_fastcounter/fast_counter_fpga_qo.py:256-258 | the output follows table order: decoding a split table is decoding each part in turn |
| FpgaStatus.NothingDecodedIff | src/qudi/hardware/fpga_fastcounter/fast_counter_fpga_qo.py:266-271 | the list is empty iff no bit of the table is set |
| FpgaStatus.StatusMessagesByBit | src/qudi/hardware/fpga_fastcounter/fast_counter_fpga_qo.py:73-77 | the status list is initialization, pulling_data, idle_ready, running, TDC_in_reset, each present iff bit 0, 1, 2, 3 or 31 is set |
| FpgaStatus.IdleAndResetIff | src/qudi/hardware/fpga_fastcounter/fast_counter_fpga_qo.py:231-232 | the connect/stop condition (exactly idle_ready and TDC_in_reset) holds iff, of the status bits, exactly bits 2 and 31 are set |
| FpgaStatus.StartedIff | src/qudi/hardware/fpga_fastcounter/fast_counter_fpga_qo.py:394 | the start condition (at most two flags, running among them) holds iff bit 3 is set and at most one other status bit is |
| FpgaStatus.RunningOnlyIff | src/qudi/hardware/fpga_fastcounter/fast_counter_fpga_qo.py:430 | the data-read condition (running alone) holds iff bit 3 is the only status bit set |
| FpgaStatus.NoErrorsIff | src/qudi/hardware/fpga_fastcounter/fast_counter_fpga_qo.py:419-420 | there are no error messages iff none of the 22 error bits is set |
| FpgaStatus.ClampDac | src/qudi/hardware/fpga_fastcounter/fast_counter_fpga_qo.py:282-285 | the DAC value lies in [0, 4095]; greater values become 4095, negative ones 0; in-range values are kept |
| FpgaStatus.DacCommand | src/qudi/hardware/fpga_fastcounter/fast_counter_fpga_qo.py:278-286 | a command word lies in [0x03000000, 0x03800000) with a zero low byte |
| FpgaStatus.DacCommandRoundTrip | src/qudi/hardware/fpga_fastcounter/fast_counter_fpga_qo.py:286 | the channel and value fields do not overlap: both are recovered from the word |
| FpgaStatus.DacCommandInjective | src/qudi/hardware/fpga_fastcounter/fast_counter_fpga_qo.py:286 | distinct (channel, value) pairs give distinct words |
| FpgaStatus.RoundHalfEven | src/qudi/hardware/fpga_fastcounter/fast_counter_fpga_qo.py:281 | np.rint: the result is within 0.5 of the argument, and even on a tie |
| FpgaStatus.RoundHalfEvenUnique | src/qudi/hardware/fpga_fastcounter/fast_counter_fpga_qo.py:281 | any integer that is nearest with ties to even is the result of RoundHalfEven |
| FpgaStatus.SmaOf | src/qudi/hardware/fpga_fastcounter/fast_counter_fpga_qo.py:277-280 | every DAC channel 0..7 is wired to an SMA input in 1..8 |
| FpgaStatus.DacOf | src/qudi/hardware/fpga_fastcounter/fast_counter_fpga_qo.py:277 | every SMA input 1..8 is wired to a DAC channel in 0..7 |
| FpgaStatus.DacSmaMappingIsPermutation | src/qudi/hardware/fpga_fastcounter/fast_counter_fpga_qo.py:277-280 | the wiring's keys are exactly 1..8, and DacOf inverts SmaOf on both sides |
| FpgaStatus.SmaOfInjective | src/qudi/hardware/fpga_fastcounter/fast_counter_fpga_qo.py:277-280 | no two DAC channels serve the same SMA input |
| FpgaStatus.DacWord | src/qudi/hardware/fpga_fastcounter/fast_counter_fpga_qo.py:279-286 | the word for DAC channel d carries channel d and the clamped, rounded value of its SMA input's threshold |
| FpgaStatus.ThresholdSentOnce | src/qudi/hardware/fpga_fastcounter/fast_counter_fpga_qo.py:277-286 | each SMA threshold is sent by exactly one of the eight words, with its clamped value |
| FastCounter.TicksToSeconds | src/qudi/hardware/fpga_fastcounter/fast_counter_fpga_qo.py:363 | a duration in 950 MHz clock ticks, times the clock, gives back the ticks |
| FastCounter.Zeros | src/qudi/hardware/fpga_fastcounter/fast_counter_fpga_qo.py:386-387 | a rectangular array of the requested shape, all zero |
| FastCounter.Add | src/qudi/hardware/fpga_fastcounter/fast_counter_fpga_qo.py:464 | element-wise sum of equally shaped arrays, of the same shape |
| FastCounter.SliceLength | src/qudi/hardware/fpga_fastcounter/fast_counter_fpga_qo.py:455-456 | the length of a Python slice [0:stop] is at most the axis size; it is stop when stop is in range, and the size when stop is larger |
| FastCounter.Extract | src/qudi/hardware/fpga_fastcounter/fast_counter_fpga_qo.py:452-459 | the requested gates and bins of the 512 x 65536 block, cut by Python slicing, element for element |
| FastCounter.Poll | src/qudi/hardware/fpga_fastcounter/fast_counter_fpga_qo.py:392-401 | the polling loop succeeds iff some register value read before the timeout meets the condition |
| FastCounter.Merge | src/qudi/hardware/fpga_fastcounter/fast_counter_fpga_qo.py:461-467 | the saved counts are added element by element exactly when their shape equals the new counts'; otherwise the new counts stand alone |
| FastCounter.TraceCounts | src/qudi/hardware/fpga_fastcounter/fast_counter_fpga_qo.py:417-473 | new counts are delivered only when no error bit is set, the counter is not paused, running is the only flag and the transfer is complete; then the result has the shape of the slice [0:gates, 0:bins] of the 512 x 65536 block, and each cell is the transferred word plus the saved cell, the latter only when the saved counts have exactly that shape; otherwise the old count data is returned |
| FastCounter.TraceAfterStart | src/qudi/hardware/fpga_fastcounter/fast_counter_fpga_qo.py:461-464 | once a start has cleared the saved counts, a delivering read returns exactly the requested slice of the block |
| FastCounter.TraceAfterPause | src/qudi/hardware/fpga_fastcounter/fast_counter_fpga_qo.py:461-464 | a pause that kept the counts of a delivering read, then a delivering read under the same configuration, gives the cell-by-cell sum of the two reads' words |
| FastCounter.TraceStatus | src/qudi/hardware/fpga_fastcounter/fast_counter_fpga_qo.py:419-424 | get_data_trace changes the status only when some error bit is set and the stop it triggers sees idle and reset; then the status becomes idle |
| FastCounter.TraceSaved | src/qudi/hardware/fpga_fastcounter/fast_counter_fpga_qo.py:419-424 | an error bit clears the saved counts, through the stop it triggers; without one they stay |
| FastCounter.FastCounterFpga.constructor | src/qudi/hardware/fpga_fastcounter/fast_counter_fpga_qo.py:156-237 | the eight thresholds by SMA input; bin width 1, gate length 8192, one gate, no counts; status 0 iff a device is present, its FrontPanel is enabled and the power-on poll sees idle and reset, else -1 |
| FastCounter.FastCounterFpga.SetDacVoltages | src/qudi/hardware/fpga_fastcounter/fast_counter_fpga_qo.py:273-290 | the loop sends eight words, word d being DacWord for DAC channel d |
| FastCounter.FastCounterFpga.Configure | src/qudi/hardware/fpga_fastcounter/fast_counter_fpga_qo.py:346-379 | while running or paused nothing changes and the current configuration is reported; otherwise the bin width is rint(width x clock); a zero bin width raises after that write; else the gate length is rint(record / width), the gates are stored and the status becomes idle |
| FastCounter.FastCounterFpga.StartMeasure | src/qudi/hardware/fpga_fastcounter/fast_counter_fpga_qo.py:381-402 | saved counts are cleared; a negative dimension raises ValueError; otherwise the counts are zeroed and the status becomes running iff the poll sees the start condition |
| FastCounter.FastCounterFpga.GetDataTrace | src/qudi/hardware/fpga_fastcounter/fast_counter_fpga_qo.py:404-473 | the count data becomes TraceCounts; an error bit triggers a stop, which clears the saved counts and may make the status idle |
| FastCounter.FastCounterFpga.StopMeasure | src/qudi/hardware/fpga_fastcounter/fast_counter_fpga_qo.py:475-495 | saved counts are cleared; the status becomes idle iff the poll sees idle and reset, else it is kept |
| FastCounter.FastCounterFpga.PauseMeasure | src/qudi/hardware/fpga_fastcounter/fast_counter_fpga_qo.py:497-520 | the counts read by get_data_trace become the saved counts; the status becomes paused iff the poll sees idle and reset |
| FastCounter.FastCounterFpga.ContinueMeasure | src/qudi/hardware/fpga_fastcounter/fast_counter_fpga_qo.py:522-549 | the counts are zeroed first, even when the status is not paused; a status other than paused is returned unchanged; from paused, running iff the poll sees the start condition |
| FastCounter.FastCounterFpga.Deactivate | src/qudi/hardware/fpga_fastcounter/fast_counter_fpga_qo.py:189-195 | after the stop, the saved counts are cleared and the status is -1 |
| FastCounter.FastCounterFpga.GetStatus | src/qudi/hardware/fpga_fastcounter/fast_counter_fpga_qo.py:567-577 | the status is always one of -1, 0, 1, 2, 3 |
| FastCounter.FastCounterFpga.GetBinwidth | src/qudi/hardware/fpga_fastcounter/fast_counter_fpga_qo.py:559-565 | the bin width in seconds, times the clock, is the configured number of ticks per bin |
| DataInStream.ChannelTypeOf | src/qudi/interface/data_instream_interface.py:277-286 | an enum member is kept; False gives DIGITAL and True ANALOG; a float is accepted iff it equals 0.0 or 1.0, and then names the member with that value; None and strings raise ValueError; the only exception ever raised is ValueError |
| DataInStream.ChannelTypeByValue | src/qudi/interface/data_instream_interface.py:277-279 | a member's own value, as int or float, looks up that member |
| DataInStream.ChannelTypeOfInt | src/qudi/interface/data_instream_interface.py:277-279 | an integer names a channel type iff it is 0 or 1, and then that type's value is the integer |
| DataInStream.StreamChannel.constructor | src/qudi/interface/data_instream_interface.py:284-293 | with no unit, an analog channel measures in V and a digital one in counts; a given unit is stored as is |
| DataInStream.NewStreamChannel | src/qudi/interface/data_instream_interface.py:284-293 | an invalid type raises ValueError; otherwise a new channel with the looked-up type and the default or given unit |
| DataInStream.StreamChannel.SetUnit | src/qudi/interface/data_instream_interface.py:307-313 | a string is stored; anything else raises TypeError and leaves the unit unchanged |
| DataInStream.StreamChannel.Copy | src/qudi/interface/data_instream_interface.py:315-316 | a new channel with equal name, type and unit |
| DataInStream.CopyChannels | src/qudi/interface/data_instream_interface.py:329 | new channel objects, equal to the originals position by position, of the same length |
| DataInStream.DataInStreamConstraints.constructor | src/qudi/interface/data_instream_interface.py:323-370 | omitted channel lists are empty; given ones are element-wise copies in order; the data type defaults to float64; the flag is the truth value of the argument |
| DataInStream.DataInStreamConstraints.Copy | src/qudi/interface/data_instream_interface.py:372-373 | a new record preserving every field, with copied channels |
| Common.Truthy | src/qudi/interface/data_instream_interface.py:369 | bool() of a value: a bool is itself, None is false, an int or float is true iff non-zero, a string is true iff non-empty |

## Left out

- Qt signals are left out, except for the scan-state flag that `StartScan` and `StopScan` return. The settings-changed, data-changed and target-changed emissions and all log messages are left out.
- The real `QTimer` is modelled only as its handler and interval. Intervals are kept in seconds; the conversion to whole milliseconds (`int(round(x * 1000))`) is not modelled. `_update_scanner_position_loop` and `update_scanner_position` only forward the device position, so they are left out, and so are the logic's `on_deactivate` timer teardown and the device pass-through properties.
- The `Mutex`/thread locks and concurrency are not modelled; everything is sequential. Two consequences are not captured. `history_previous` and `history_next` read the cursor after releasing the lock. `get_data_trace` calls `stop_measure` while holding the same lock; whether that deadlocks depends on the mutex class, which is not part of this model.
- `set_scan_settings` (a call of each setter in turn) and `set_full_scan_ranges` (a `set_scan_range` with each axis' full bounds) are left out, because both are compositions of the modelled setters. The commented-out `set_optimizer_settings` and the `optimizer_settings` copy are also left out.
- The status-variable conversion of the history to and from dictionaries, file saving and figure drawing in `save_2d_scan` / `draw_2d_scan_figure`, and the `print` in `restore_from_history` are left out. Only the frame search is modelled.
- ScanningProbe.ScanningProbeLogic.constructor: requires at least one axis when no frequency was restored, because the source's `min()` over an empty sequence raises `ValueError`. It also requires `max_history_length >= 1`, because with 0 the eviction loop would `pop(0)` an empty list. It assumes that the constraint map's keys are the axes' names.
- ScanTypes.ClipValue, ScanTypes.ClipPair, ScanTypes.ClipResolution: the axis constraint's `clip_value` / `clip_resolution` come from a class that is not part of this model. They are modelled as `min(max, max(min, x))`.
- ScanningProbe.ScanningProbeLogic.SetScannerTargetPosition: the source clips values into the caller's own dictionary in place. That aliasing is not captured; the clipped mapping is returned as a new value. The device's answer from `move_absolute` is not modelled either.
- ScanningProbe.ScanningProbeLogic.SetScanFrequency: the frequency is already a real. `float(frequency)` on a value that is not a number (a TypeError or ValueError) is not modelled.
- ScanningProbe.ScanningProbeLogic.RestoreFromHistory: the index is an integer, so the `isinstance(index, int)` refusal of other types is not modelled.
- ScanningProbe.ScanningProbeLogic.StartScan: the device settings are compared with `!=` of whole values. `tuple(new)` / `int(new)` / `float(new)` conversions of the device's answer are taken as identities.
- ScanTypes.Lower: the model lower-cases ASCII letters only. Python's `str.lower` also folds other Unicode letters, and `str(ax)` of a non-string axis is not modelled.
- Floating point is modelled as exact reals. `np.rint` is exact round-half-even, and configure's bin-width and gate-length arithmetic is exact.
- FastCounter.FastCounterFpga.Configure: the gate count is always passed; the default `number_of_gates=0` is the call with 0.
- FastCounter.Add: counts are unbounded integers. int64 overflow of the sum is not modelled, and neither are the uint32 bounds of the transferred words (`IsBlock` checks the shape only).
- The FrontPanel/USB calls, bitfile upload, DAC reset (`_reset_dac`), DAC reference activation (`_activate_dac_ref`, the fixed word 0x08000001) and the trigger writes are left out. So are `time.sleep` and the clock-based timeouts: register readings and transfer results are inputs. `SetDacVoltages` returns the words the device would be sent.
- `get_constraints` (a constant dict whose `hardware_binwidth_list` entry is the list `[1/950e6]`) and `is_gated` (always true) are left out; `info_dict` (always two `None` entries) is not modelled.
- The sample-rate and block-size `ScalarConstraint`s of `DataInStreamConstraints` are left out. They come from a class that is not part of this model.
- DataInStream.DataInStreamConstraints.constructor: an omitted channel list is an empty sequence. The source leaves an empty `dict` there, not an empty tuple, and the model does not keep that distinction. `np.dtype` normalisation of the data type is not modelled; the string is stored.
- DataInStream.StreamChannel.constructor: names and units are strings already. `str()` of other values is not modelled.
- DataInStream.ChannelTypeOf: only None, bool, int, float and str arguments are modelled.
- The abstract `DataInStreamInterface` methods define no behaviour and are left out. The laser-scanner and POI-manager GUIs and the wavemeter dummy are outside the modelled core.
