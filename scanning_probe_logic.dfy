/**
 * The scanning-probe acquisition logic: a settings store (per-axis range and
 * resolution, one scan frequency), an idle/locked acquisition machine that
 * re-points a single-shot timer between the position poll and the scan poll,
 * and a bounded scan history with a cursor.
 *
 * The scanner device is not modelled; what it answers (the accepted settings of
 * `configure_scan`, the return codes of `start_scan` / `stop_scan`, the frame
 * of `get_scan_data`, the current target) is passed in as a parameter.
 */
module ScanningProbe {
  import opened Common
  import opened ScanTypes

  /** Which handler the timer's timeout is connected to. */
  datatype TimerHandler = PositionLoop | ScanLoop

  /** How a history navigation ended. */
  datatype RestoreResult = Restored | Busy | OutOfRange | AtBoundary | Failed(exception: PyException)

  /** `set_scanner_target_position`: the device target echoed back, or the clipped target sent to `move_absolute`. */
  datatype TargetResult = Rejected(target: map<string, real>) | Moved(sent: map<string, real>)

  /** The frame search at the start of `save_2d_scan`. */
  datatype SaveLookup = SaveBusy | NoMatchingScan | FoundScan(index: nat, frame: Frame)

  /** `toggle_scan` accepts a scan-axes tuple of length 1 or 2 only. */
  predicate AxisCountOk(scanAxes: Option<seq<string>>) {
    scanAxes.Some? && 0 < |scanAxes.value| < 3
  }

  /** Every scan axis has a stored range and resolution (otherwise the settings snapshot raises). */
  predicate Registered(scanAxes: seq<string>, ranges: map<string, Range>, resolution: map<string, int>) {
    forall k :: 0 <= k < |scanAxes| ==> scanAxes[k] in ranges && scanAxes[k] in resolution
  }

  /** Points per scan line: the first axis' resolution for a 2-D scan, 1 for a 1-D scan. */
  function LinePoints(scanAxes: seq<string>, resolution: map<string, int>): (n: int)
    requires |scanAxes| > 1 ==> scanAxes[0] in resolution
    ensures |scanAxes| > 1 ==> n == resolution[scanAxes[0]]
    ensures |scanAxes| <= 1 ==> n == 1
  {
    if |scanAxes| > 1 then resolution[scanAxes[0]] else 1
  }

  /** `max(min_interval, min(max_interval, line_points / frequency))`. */
  function ScanInterval(minInterval: real, maxInterval: real, linePoints: int, frequency: real): (t: real)
    requires frequency != 0.0
    ensures minInterval <= t
    ensures minInterval <= maxInterval ==> t <= maxInterval
    ensures minInterval <= linePoints as real / frequency <= maxInterval ==> t == linePoints as real / frequency
    ensures t > linePoints as real / frequency ==> t == minInterval
    ensures linePoints as real / frequency < minInterval ==> t == minInterval
    ensures linePoints as real / frequency > maxInterval && minInterval <= maxInterval ==> t == maxInterval
  {
    Max(minInterval, Min(maxInterval, linePoints as real / frequency))
  }

  function MinFrequencies(axes: Constraints): map<string, real> {
    map ax | ax in axes :: axes[ax].minFrequency
  }

  function MaxFrequencies(axes: Constraints): map<string, real> {
    map ax | ax in axes :: axes[ax].maxFrequency
  }

  /** The smallest value, or None for an empty map (where the source starts from infinity). */
  method Lowest(values: map<string, real>) returns (lo: Option<real>)
    ensures lo.None? <==> values.Keys == {}
    ensures lo.Some? ==> forall ax :: ax in values ==> lo.value <= values[ax]
    ensures lo.Some? ==> exists ax :: ax in values && values[ax] == lo.value
  {
    lo := None;
    var todo := values.Keys;
    while todo != {}
      invariant todo <= values.Keys
      invariant lo.None? <==> todo == values.Keys
      invariant lo.Some? ==> forall ax :: ax in values.Keys - todo ==> lo.value <= values[ax]
      invariant lo.Some? ==> exists ax :: ax in values.Keys - todo && values[ax] == lo.value
      decreases todo
    {
      var ax :| ax in todo;
      if lo.None? || values[ax] < lo.value {
        lo := Some(values[ax]);
      }
      todo := todo - {ax};
    }
  }

  /** The largest value, or None for an empty map (where the source starts from minus infinity). */
  method Highest(values: map<string, real>) returns (hi: Option<real>)
    ensures hi.None? <==> values.Keys == {}
    ensures hi.Some? ==> forall ax :: ax in values ==> values[ax] <= hi.value
    ensures hi.Some? ==> exists ax :: ax in values && values[ax] == hi.value
  {
    hi := None;
    var todo := values.Keys;
    while todo != {}
      invariant todo <= values.Keys
      invariant hi.None? <==> todo == values.Keys
      invariant hi.Some? ==> forall ax :: ax in values.Keys - todo ==> values[ax] <= hi.value
      invariant hi.Some? ==> exists ax :: ax in values.Keys - todo && values[ax] == hi.value
      decreases todo
    {
      var ax :| ax in todo;
      if hi.None? || values[ax] > hi.value {
        hi := Some(values[ax]);
      }
      todo := todo - {ax};
    }
  }

  class ScanningProbeLogic {
    // Scanner constraints and configuration options, fixed for the module's life.
    const constraints: Constraints
    const maxHistoryLength: int
    const minScanUpdateInterval: real
    const maxScanUpdateInterval: real
    const positionUpdateInterval: real

    // Settings store.
    var ranges: map<string, Range>
    var resolution: map<string, int>
    var frequency: real

    // Scan history and its cursor (a Python index, so it may be negative).
    var history: seq<Frame>
    var cursor: int

    // Acquisition machine: module state, the running scan's axes, the timer.
    var locked: bool
    var currentScan: Option<seq<string>>
    var scanUpdateInterval: real
    var timerHandler: TimerHandler
    var timerInterval: real

    /**
     * The cursor is a valid Python index into a non-empty history (0 for an
     * empty one); while idle the timer polls the position at the position
     * interval; the scan poll is connected only while locked, at the scan interval.
     */
    ghost predicate Valid()
      reads this
    {
      && maxHistoryLength >= 1
      && (if history == [] then cursor == 0 else -|history| <= cursor < |history|)
      && (!locked ==> timerHandler == PositionLoop && timerInterval == positionUpdateInterval)
      && (timerHandler == ScanLoop ==> locked && timerInterval == scanUpdateInterval)
    }

    /**
     * Construction and activation. Settings restored from the status variables
     * are kept; missing ones default from the constraints: the full value range,
     * the resolution `max(min_resolution, min(128, max_resolution))`, and the
     * smallest `max_frequency` of all axes.
     */
    constructor (constraints: Constraints, maxHistoryLength: int,
                 minScanUpdateInterval: real, maxScanUpdateInterval: real, positionUpdateInterval: real,
                 savedRanges: Option<map<string, Range>>, savedResolution: Option<map<string, int>>,
                 savedFrequency: Option<real>, savedHistory: seq<Frame>)
      requires maxHistoryLength >= 1
      requires savedFrequency.Some? || constraints.Keys != {}
      ensures Valid()
      ensures this.constraints == constraints && this.maxHistoryLength == maxHistoryLength
      ensures this.minScanUpdateInterval == minScanUpdateInterval
      ensures this.maxScanUpdateInterval == maxScanUpdateInterval
      ensures this.positionUpdateInterval == positionUpdateInterval
      ensures ranges == if savedRanges.Some? then savedRanges.value
                        else map ax | ax in constraints :: (constraints[ax].minValue, constraints[ax].maxValue)
      ensures resolution == if savedResolution.Some? then savedResolution.value
                            else map ax | ax in constraints ::
                                   MaxInt(constraints[ax].minResolution, MinInt(128, constraints[ax].maxResolution))
      ensures savedFrequency.Some? ==> frequency == savedFrequency.value
      ensures savedFrequency.None? ==>
        && (forall ax :: ax in constraints ==> frequency <= constraints[ax].maxFrequency)
        && (exists ax :: ax in constraints && constraints[ax].maxFrequency == frequency)
      ensures history == savedHistory
      ensures cursor == if savedHistory == [] then 0 else |savedHistory| - 1
      ensures !locked && currentScan.None? && scanUpdateInterval == 0.0
      ensures timerHandler == PositionLoop && timerInterval == positionUpdateInterval
    {
      this.constraints := constraints;
      this.maxHistoryLength := maxHistoryLength;
      this.minScanUpdateInterval := minScanUpdateInterval;
      this.maxScanUpdateInterval := maxScanUpdateInterval;
      this.positionUpdateInterval := positionUpdateInterval;
      ranges := if savedRanges.Some? then savedRanges.value
                else map ax | ax in constraints :: (constraints[ax].minValue, constraints[ax].maxValue);
      resolution := if savedResolution.Some? then savedResolution.value
                    else map ax | ax in constraints ::
                           MaxInt(constraints[ax].minResolution, MinInt(128, constraints[ax].maxResolution));
      if savedFrequency.Some? {
        frequency := savedFrequency.value;
      } else {
        var lowestMax := Lowest(MaxFrequencies(constraints));
        assert MaxFrequencies(constraints).Keys == constraints.Keys;
        frequency := lowestMax.value;
      }
      history := savedHistory;
      cursor := if savedHistory == [] then 0 else |savedHistory| - 1;
      locked := false;
      currentScan := None;
      scanUpdateInterval := 0.0;
      timerHandler := PositionLoop;
      timerInterval := positionUpdateInterval;
    }

    /** The `scan_data` property: the device's frame while scanning or with no history, else the frame under the cursor. */
    method ScanData(deviceFrame: Frame) returns (f: Frame)
      requires Valid()
      ensures locked || history == [] ==> f == deviceFrame
      ensures !locked && history != [] ==> f == history[PyIndex(cursor, |history|)]
    {
      if locked || history == [] {
        return deviceFrame;
      }
      f := history[PyIndex(cursor, |history|)];
    }

    /**
     * `set_scan_range`: rejected wholesale while locked (the current ranges are
     * returned); otherwise the requested axes are clipped and written in order,
     * as `ApplyClipped` describes.
     */
    method SetScanRange(req: seq<(string, Range)>) returns (r: Reply<map<string, Range>>)
      requires Valid()
      modifies this`ranges
      ensures Valid()
      ensures old(locked) ==> ranges == old(ranges) && r == Returned(old(ranges))
      ensures !old(locked) ==>
        var o := ApplyClipped(old(ranges), constraints, req, ClipRange);
        ranges == o.settings && r == SettingsReply(o, Targeted(req))
    {
      if locked {
        return Returned(ranges);
      }
      var i := 0;
      while i < |req|
        invariant 0 <= i <= |req|
        invariant ApplyClipped(old(ranges), constraints, req, ClipRange)
               == ApplyClipped(ranges, constraints, req[i..], ClipRange)
      {
        assert req[i..][0] == req[i] && req[i..][1..] == req[i + 1..];
        var (ax, axRange) := req[i];
        if ax !in ranges {
          return Returned(ranges);
        }
        if ax !in constraints {
          return Raised(KeyError);
        }
        ranges := ranges[ax := ClipRange(constraints[ax], axRange)];
        i := i + 1;
      }
      var targeted := Targeted(req);
      r := Returned(map ax | ax in ranges && ax in targeted :: ranges[ax]);
    }

    /** `set_scan_resolution`: the same rules as `set_scan_range`, each value clipped into the resolution bounds. */
    method SetScanResolution(req: seq<(string, int)>) returns (r: Reply<map<string, int>>)
      requires Valid()
      modifies this`resolution
      ensures Valid()
      ensures old(locked) ==> resolution == old(resolution) && r == Returned(old(resolution))
      ensures !old(locked) ==>
        var o := ApplyClipped(old(resolution), constraints, req, ClipResolution);
        resolution == o.settings && r == SettingsReply(o, Targeted(req))
    {
      if locked {
        return Returned(resolution);
      }
      var i := 0;
      while i < |req|
        invariant 0 <= i <= |req|
        invariant ApplyClipped(old(resolution), constraints, req, ClipResolution)
               == ApplyClipped(resolution, constraints, req[i..], ClipResolution)
      {
        assert req[i..][0] == req[i] && req[i..][1..] == req[i + 1..];
        var (ax, axRes) := req[i];
        if ax !in resolution {
          return Returned(resolution);
        }
        if ax !in constraints {
          return Raised(KeyError);
        }
        resolution := resolution[ax := ClipResolution(constraints[ax], axRes)];
        i := i + 1;
      }
      var targeted := Targeted(req);
      r := Returned(map ax | ax in resolution && ax in targeted :: resolution[ax]);
    }

    /**
     * `set_scan_frequency`: while idle, `f` is stored iff it lies between the
     * smallest `min_frequency` and the largest `max_frequency` of all axes; it is
     * never clipped. The stored frequency is returned.
     */
    method SetScanFrequency(f: real) returns (r: real)
      requires Valid()
      modifies this`frequency
      ensures Valid()
      ensures old(locked) ==> frequency == old(frequency)
      ensures !old(locked) ==> frequency == if InFrequencyHull(constraints, f) then f else old(frequency)
      ensures r == frequency
    {
      if locked {
        return frequency;
      }
      var lo := Lowest(MinFrequencies(constraints));
      var hi := Highest(MaxFrequencies(constraints));
      assert lo.Some? && hi.Some? && lo.value <= f <= hi.value <==> InFrequencyHull(constraints, f) by {
        if InFrequencyHull(constraints, f) {
          var a :| a in constraints && constraints[a].minFrequency <= f;
          var b :| b in constraints && f <= constraints[b].maxFrequency;
          assert MinFrequencies(constraints)[a] == constraints[a].minFrequency;
          assert MaxFrequencies(constraints)[b] == constraints[b].maxFrequency;
        }
      }
      if lo.Some? && hi.Some? && lo.value <= f <= hi.value {
        frequency := f;
      }
      r := frequency;
    }

    /**
     * `set_scanner_target_position`: refused while scanning or for an axis the
     * constraints do not know (the device's current target is returned);
     * otherwise every requested position is clipped into its axis' bounds and
     * the clipped mapping is sent to the device.
     */
    method SetScannerTargetPosition(pos: map<string, real>, deviceTarget: map<string, real>)
      returns (res: TargetResult)
      requires Valid()
      ensures locked ==> res == Rejected(deviceTarget)
      ensures !locked && !(pos.Keys <= constraints.Keys) ==> res == Rejected(deviceTarget)
      ensures !locked && pos.Keys <= constraints.Keys ==>
        res == Moved(map ax | ax in pos :: ClipValue(constraints[ax], pos[ax]))
    {
      if locked {
        return Rejected(deviceTarget);
      }
      var sent := pos;
      var todo := pos.Keys;
      while todo != {}
        invariant todo <= pos.Keys && sent.Keys == pos.Keys
        invariant forall ax :: ax in pos.Keys - todo ==> ax in constraints && sent[ax] == ClipValue(constraints[ax], pos[ax])
        invariant forall ax :: ax in todo ==> sent[ax] == pos[ax]
        decreases todo
      {
        var ax :| ax in todo;
        if ax !in constraints {
          return Rejected(deviceTarget);
        }
        sent := sent[ax := ClipValue(constraints[ax], pos[ax])];
        todo := todo - {ax};
      }
      res := Moved(sent);
    }

    /** Appends a frame: the oldest frames are dropped while the history is full, and the cursor moves to the new frame. */
    method AppendToHistory(f: Frame)
      requires Valid()
      modifies this`history, this`cursor
      ensures Valid()
      ensures history == AppendBounded(old(history), maxHistoryLength, f)
      ensures cursor == |history| - 1
    {
      ghost var dropped := 0;
      while |history| >= maxHistoryLength
        invariant 0 <= dropped <= |old(history)|
        invariant history == old(history)[dropped..]
        invariant dropped > 0 ==> |history| >= maxHistoryLength - 1
        decreases |history|
      {
        history := history[1..];
        dropped := dropped + 1;
      }
      history := history + [f];
      cursor := |history| - 1;
    }

    /**
     * `toggle_scan(True, scan_axes)`. Returns the call's result and the running
     * flag of the last scan-state signal it emitted, if any.
     */
    method StartScan(scanAxes: Option<seq<string>>, configured: ScanSettings, startCode: int)
      returns (r: Reply<int>, signal: Option<bool>)
      requires Valid()
      modifies this`ranges, this`resolution, this`frequency, this`locked, this`currentScan,
               this`scanUpdateInterval, this`timerHandler, this`timerInterval
      ensures Valid()
      // already scanning: success, nothing changes
      ensures old(locked) ==> r == Returned(0) && signal == Some(true) && unchanged(this)
      // wrong number of axes: refused before locking
      ensures !old(locked) && !AxisCountOk(scanAxes) ==> r == Returned(-1) && signal.None? && unchanged(this)
      ensures !old(locked) && AxisCountOk(scanAxes) ==> currentScan == scanAxes
      // an axis without stored settings: the snapshot raises while the module is locked
      ensures !old(locked) && AxisCountOk(scanAxes) && !Registered(scanAxes.value, old(ranges), old(resolution)) ==>
        && r == Raised(KeyError) && signal.None? && locked
        && ranges == old(ranges) && resolution == old(resolution) && frequency == old(frequency)
        && scanUpdateInterval == old(scanUpdateInterval)
        && timerHandler == old(timerHandler) && timerInterval == old(timerInterval)
      // the device configured other axes: unlock and fail
      ensures !old(locked) && AxisCountOk(scanAxes) && Registered(scanAxes.value, old(ranges), old(resolution))
              && configured.axes != scanAxes.value ==>
        && r == Returned(-1) && signal == Some(false) && !locked
        && ranges == old(ranges) && resolution == old(resolution) && frequency == old(frequency)
        && scanUpdateInterval == old(scanUpdateInterval)
      // the device's accepted settings are adopted, whatever happens afterwards
      ensures !old(locked) && AxisCountOk(scanAxes) && Registered(scanAxes.value, old(ranges), old(resolution))
              && configured.axes == scanAxes.value ==>
        var rec := Reconcile(Settings(old(ranges), old(resolution)), scanAxes.value, configured, 0);
        && ranges == rec.settings.ranges && resolution == rec.settings.resolution
        && (rec.error.Some? ==>
              && r == Raised(rec.error.value) && signal.None? && locked && frequency == old(frequency)
              && scanUpdateInterval == old(scanUpdateInterval)
              && timerHandler == old(timerHandler) && timerInterval == old(timerInterval))
        && (rec.error.None? ==> frequency == configured.frequency)
        && (rec.error.None? && configured.frequency == 0.0 ==>
              && r == Raised(ZeroDivisionError) && signal.None? && locked
              && scanUpdateInterval == old(scanUpdateInterval)
              && timerHandler == old(timerHandler) && timerInterval == old(timerInterval))
        && (rec.error.None? && configured.frequency != 0.0 ==>
              && scanUpdateInterval == ScanInterval(minScanUpdateInterval, maxScanUpdateInterval,
                                                    LinePoints(scanAxes.value, resolution), configured.frequency)
              && (startCode < 0 ==> r == Returned(-1) && signal == Some(false) && !locked)
              && (startCode >= 0 ==>
                    && r == Returned(0) && signal == Some(true) && locked
                    && timerHandler == ScanLoop && timerInterval == scanUpdateInterval))
    {
      if locked {
        return Returned(0), Some(true);
      }
      if !AxisCountOk(scanAxes) {
        return Returned(-1), None;
      }
      var axes := scanAxes.value;
      locked := true;
      currentScan := scanAxes;
      if !Registered(axes, ranges, resolution) {
        return Raised(KeyError), None;
      }
      if configured.axes != axes {
        locked := false;
        return Returned(-1), Some(false);
      }
      r, signal := Launch(axes, configured, startCode);
    }

    /** The settings the device accepted overwrite the store, in scan-axis order, as `Reconcile` describes. */
    method AdoptSettings(axes: seq<string>, configured: ScanSettings) returns (error: Option<PyException>)
      modifies this`ranges, this`resolution
      ensures var rec := Reconcile(Settings(old(ranges), old(resolution)), axes, configured, 0);
        ranges == rec.settings.ranges && resolution == rec.settings.resolution && error == rec.error
    {
      ghost var s0 := Settings(ranges, resolution);
      var i := 0;
      while i < |axes|
        invariant 0 <= i <= |axes|
        invariant Reconcile(s0, axes, configured, 0) == Reconcile(Settings(ranges, resolution), axes, configured, i)
      {
        // The source writes only differing entries; writing equal ones changes nothing.
        if i >= |configured.ranges| {
          return Some(IndexError);
        }
        ranges := ranges[axes[i] := configured.ranges[i]];
        if i >= |configured.resolutions| {
          return Some(IndexError);
        }
        resolution := resolution[axes[i] := configured.resolutions[i]];
        i := i + 1;
      }
      error := None;
    }

    /** The second half of a scan start, once the module is locked and the device configured the intended axes. */
    method Launch(axes: seq<string>, configured: ScanSettings, startCode: int)
      returns (r: Reply<int>, signal: Option<bool>)
      requires Valid() && locked && timerHandler == PositionLoop && timerInterval == positionUpdateInterval
      requires Registered(axes, ranges, resolution) && configured.axes == axes && 0 < |axes| < 3
      modifies this`ranges, this`resolution, this`frequency, this`locked,
               this`scanUpdateInterval, this`timerHandler, this`timerInterval
      ensures Valid()
      ensures var rec := Reconcile(Settings(old(ranges), old(resolution)), axes, configured, 0);
        && ranges == rec.settings.ranges && resolution == rec.settings.resolution
        && (rec.error.Some? ==>
              && r == Raised(rec.error.value) && signal.None? && locked && frequency == old(frequency)
              && scanUpdateInterval == old(scanUpdateInterval)
              && timerHandler == old(timerHandler) && timerInterval == old(timerInterval))
        && (rec.error.None? ==> frequency == configured.frequency)
        && (rec.error.None? && configured.frequency == 0.0 ==>
              && r == Raised(ZeroDivisionError) && signal.None? && locked
              && scanUpdateInterval == old(scanUpdateInterval)
              && timerHandler == old(timerHandler) && timerInterval == old(timerInterval))
        && (rec.error.None? && configured.frequency != 0.0 ==>
              && scanUpdateInterval == ScanInterval(minScanUpdateInterval, maxScanUpdateInterval,
                                                    LinePoints(axes, resolution), configured.frequency)
              && (startCode < 0 ==> r == Returned(-1) && signal == Some(false) && !locked)
              && (startCode >= 0 ==>
                    && r == Returned(0) && signal == Some(true) && locked
                    && timerHandler == ScanLoop && timerInterval == scanUpdateInterval))
    {
      var error := AdoptSettings(axes, configured);
      if error.Some? {
        return Raised(error.value), None;
      }
      frequency := configured.frequency;
      if frequency == 0.0 {
        return Raised(ZeroDivisionError), None;
      }
      var linePoints := if |axes| > 1 then resolution[axes[0]] else 1;
      scanUpdateInterval := ScanInterval(minScanUpdateInterval, maxScanUpdateInterval, linePoints, frequency);
      if startCode < 0 {
        locked := false;
        return Returned(-1), Some(false);
      }
      timerHandler := ScanLoop;
      timerInterval := scanUpdateInterval;
      r, signal := Returned(0), Some(true);
    }

    /**
     * `toggle_scan(False)`. When scanning, the device's current frame goes into
     * the history before the device is stopped; a failed stop leaves the
     * machine locked with the scan poll connected.
     */
    method StopScan(frame: Frame, stopCode: int) returns (r: int, signal: Option<bool>)
      requires Valid()
      modifies this`history, this`cursor, this`locked, this`timerHandler, this`timerInterval
      ensures Valid()
      ensures !old(locked) ==> r == 0 && signal == Some(true) && unchanged(this)
      ensures old(locked) ==> history == AppendBounded(old(history), maxHistoryLength, frame) && cursor == |history| - 1
      ensures old(locked) && stopCode < 0 ==>
        && r == -1 && signal == Some(true) && locked
        && timerHandler == old(timerHandler) && timerInterval == old(timerInterval)
      ensures old(locked) && stopCode >= 0 ==>
        && r == 0 && signal == Some(false) && !locked
        && timerHandler == PositionLoop && timerInterval == positionUpdateInterval
    {
      if !locked {
        return 0, Some(true);
      }
      AppendToHistory(frame);
      if stopCode < 0 {
        return -1, Some(true);
      }
      timerHandler := PositionLoop;
      timerInterval := positionUpdateInterval;
      locked := false;
      r, signal := 0, Some(false);
    }

    /**
     * `_scan_loop`, one timer tick: nothing when idle; otherwise the device frame
     * is published, and a finished frame ends the scan (whatever `stop_scan`
     * answers) and is appended to the history.
     */
    method ScanLoopTick(frame: Frame) returns (published: Option<Frame>)
      requires Valid()
      modifies this`history, this`cursor, this`locked, this`timerHandler, this`timerInterval
      ensures Valid()
      ensures !old(locked) ==> published.None? && unchanged(this)
      ensures old(locked) ==> published == Some(frame)
      ensures old(locked) && !frame.isFinished ==> unchanged(this)
      ensures old(locked) && frame.isFinished ==>
        && !locked && timerHandler == PositionLoop && timerInterval == positionUpdateInterval
        && history == AppendBounded(old(history), maxHistoryLength, frame) && cursor == |history| - 1
    {
      if !locked {
        return None;
      }
      if frame.isFinished {
        timerHandler := PositionLoop;
        timerInterval := positionUpdateInterval;
        locked := false;
        AppendToHistory(frame);
      }
      published := Some(frame);
    }

    /** The effect of a successful-or-failed restore of the frame at Python index `index` while idle. */
    twostate predicate RestoredFrom(index: int, res: RestoreResult)
      reads this
    {
      && -|old(history)| <= index < |old(history)|
      && history == old(history)
      && var data := old(history)[PyIndex(index, |old(history)|)];
         var step := RestoreAxes(Settings(old(ranges), old(resolution)), constraints, data, 0);
         && ranges == step.settings.ranges && resolution == step.settings.resolution
         && (step.error.None? ==> res == Restored && frequency == data.scanFrequency && cursor == index)
         && (step.error.Some? ==> res == Failed(step.error.value) && frequency == old(frequency) && cursor == old(cursor))
    }

    /**
     * `restore_from_history(index)`: refused while scanning or for an index
     * outside Python's `[-len, len)`; otherwise the frame's axes get its clipped
     * resolution and range, the frequency is copied verbatim and the cursor set.
     */
    method RestoreFromHistory(index: int) returns (res: RestoreResult)
      requires Valid()
      modifies this`ranges, this`resolution, this`frequency, this`cursor
      ensures Valid()
      ensures old(locked) ==> res == Busy && unchanged(this)
      ensures !old(locked) && !(-|history| <= index < |history|) ==> res == OutOfRange && unchanged(this)
      ensures !old(locked) && -|history| <= index < |history| ==> RestoredFrom(index, res)
    {
      if locked {
        return Busy;
      }
      if !(-|history| <= index < |history|) {
        return OutOfRange;
      }
      var data := history[PyIndex(index, |history|)];
      ghost var s0 := Settings(ranges, resolution);
      var i := 0;
      while i < |data.scanAxes|
        invariant 0 <= i <= |data.scanAxes|
        invariant RestoreAxes(s0, constraints, data, 0) == RestoreAxes(Settings(ranges, resolution), constraints, data, i)
        invariant frequency == old(frequency) && cursor == old(cursor)
      {
        var ax := data.scanAxes[i];
        if ax !in constraints {
          return Failed(KeyError);
        }
        if i >= |data.scanResolution| {
          return Failed(IndexError);
        }
        resolution := resolution[ax := ClipResolution(constraints[ax], data.scanResolution[i])];
        if i >= |data.scanRange| {
          return Failed(IndexError);
        }
        ranges := ranges[ax := ClipPair(constraints[ax], data.scanRange[i])];
        i := i + 1;
      }
      frequency := data.scanFrequency;
      cursor := index;
      res := Restored;
    }

    /** `history_previous`: nothing at the earliest entry (cursor < 1), otherwise a restore of `cursor - 1`. */
    method HistoryPrevious() returns (res: RestoreResult)
      requires Valid()
      modifies this`ranges, this`resolution, this`frequency, this`cursor
      ensures Valid()
      ensures old(cursor) < 1 ==> res == AtBoundary && unchanged(this)
      ensures old(cursor) >= 1 && old(locked) ==> res == Busy && unchanged(this)
      ensures old(cursor) >= 1 && !old(locked) ==> RestoredFrom(old(cursor) - 1, res)
    {
      if cursor < 1 {
        return AtBoundary;
      }
      res := RestoreFromHistory(cursor - 1);
    }

    /** `history_next`: nothing at the latest entry (cursor >= len - 1), otherwise a restore of `cursor + 1`. */
    method HistoryNext() returns (res: RestoreResult)
      requires Valid()
      modifies this`ranges, this`resolution, this`frequency, this`cursor
      ensures Valid()
      ensures old(cursor) >= |history| - 1 ==> res == AtBoundary && unchanged(this)
      ensures old(cursor) < |history| - 1 && old(locked) ==> res == Busy && unchanged(this)
      ensures old(cursor) < |history| - 1 && !old(locked) ==> RestoredFrom(old(cursor) + 1, res)
    {
      if cursor >= |history| - 1 {
        return AtBoundary;
      }
      res := RestoreFromHistory(cursor + 1);
    }

    /**
     * The frame search of `save_2d_scan`: refused while scanning; otherwise the
     * newest history frame whose scan axes equal the lower-cased requested axes.
     */
    method FindScanToSave(axes: seq<string>) returns (res: SaveLookup)
      requires Valid()
      ensures locked ==> res == SaveBusy
      ensures !locked ==>
        var want := seq(|axes|, k requires 0 <= k < |axes| => Lower(axes[k]));
        && (res == NoMatchingScan <==> forall i :: 0 <= i < |history| ==> history[i].scanAxes != want)
        && (res.FoundScan? ==>
              && res.index < |history| && res.frame == history[res.index] && res.frame.scanAxes == want
              && forall j :: res.index < j < |history| ==> history[j].scanAxes != want)
        && (res.NoMatchingScan? || res.FoundScan?)
    {
      var want := seq(|axes|, k requires 0 <= k < |axes| => Lower(axes[k]));
      if locked {
        return SaveBusy;
      }
      var i := |history|;
      while i > 0
        invariant 0 <= i <= |history|
        invariant forall j :: i <= j < |history| ==> history[j].scanAxes != want
      {
        i := i - 1;
        if history[i].scanAxes == want {
          return FoundScan(i, history[i]);
        }
      }
      res := NoMatchingScan;
    }
  }
}
