/**
 * Values the scanning-probe logic works with: the scanner's axis constraints,
 * recorded scan frames, and the pure rules by which requested settings are
 * clipped, applied, restored from a frame and adopted from the device.
 */
module ScanTypes {
  import opened Common

  /** Bounds the scanner hardware reports for one axis. Read-only for the logic. */
  datatype AxisConstraint = AxisConstraint(
    minValue: real, maxValue: real,
    minResolution: int, maxResolution: int,
    minFrequency: real, maxFrequency: real)

  /** The scanner's axes, keyed by axis name. */
  type Constraints = map<string, AxisConstraint>

  /** A scan range (low end, high end) on one axis. */
  type Range = (real, real)

  /** The constraint bounds are ordered (the device is expected to report them so). */
  predicate WellFormed(c: AxisConstraint) {
    c.minValue <= c.maxValue && c.minResolution <= c.maxResolution
  }

  /** One recorded scan: its axes (1 or 2), per-axis range and resolution, pixel frequency. */
  datatype Frame = Frame(
    scanAxes: seq<string>,
    scanRange: seq<Range>,
    scanResolution: seq<int>,
    scanFrequency: real,
    isFinished: bool)

  /** The settings the logic hands to the device and the device answers with. */
  datatype ScanSettings = ScanSettings(
    axes: seq<string>,
    ranges: seq<Range>,
    resolutions: seq<int>,
    frequency: real)

  /** The per-axis part of the settings store. */
  datatype Settings = Settings(ranges: map<string, Range>, resolution: map<string, int>)

  /** Settings reached by a loop over axes, and the exception that ended it early, if any. */
  datatype Step = Step(settings: Settings, error: Option<PyException>)

  // ---------------------------------------------------------------------------
  // Clipping

  /** `min(hi, max(lo, x))`, the clip expression of the logic. */
  function Clip(lo: real, hi: real, x: real): (r: real)
    ensures r <= hi
    ensures lo <= hi ==> lo <= r
    ensures lo <= x <= hi ==> r == x
    ensures x < lo && lo <= hi ==> r == lo
    ensures x > hi || lo > hi ==> r == hi
  {
    Min(hi, Max(lo, x))
  }

  /** `min(hi, max(lo, x))` on integers. */
  function ClipInt(lo: int, hi: int, x: int): (r: int)
    ensures r <= hi
    ensures lo <= hi ==> lo <= r
    ensures lo <= x <= hi ==> r == x
    ensures x < lo && lo <= hi ==> r == lo
    ensures x > hi || lo > hi ==> r == hi
  {
    MinInt(hi, MaxInt(lo, x))
  }

  /** Both ends clipped independently into the axis' value bounds. */
  function ClipPair(c: AxisConstraint, r: Range): (p: Range)
    ensures p.0 == ClipValue(c, r.0) && p.1 == ClipValue(c, r.1)
    ensures WellFormed(c) ==> c.minValue <= p.0 <= c.maxValue && c.minValue <= p.1 <= c.maxValue
    ensures c.minValue <= r.0 <= c.maxValue && c.minValue <= r.1 <= c.maxValue ==> p == r
    ensures r.0 > c.maxValue ==> p.0 == c.maxValue
    ensures r.1 > c.maxValue ==> p.1 == c.maxValue
    ensures WellFormed(c) && r.0 < c.minValue ==> p.0 == c.minValue
    ensures WellFormed(c) && r.1 < c.minValue ==> p.1 == c.minValue
  {
    (Clip(c.minValue, c.maxValue, r.0), Clip(c.minValue, c.maxValue, r.1))
  }

  /** The range `set_scan_range` stores: both ends clipped, the high end collapsed onto the low end when they cross. */
  function ClipRange(c: AxisConstraint, r: Range): (p: Range)
    ensures p.0 == ClipPair(c, r).0 && p.0 <= p.1
    ensures ClipPair(c, r).0 <= ClipPair(c, r).1 ==> p == ClipPair(c, r)
    ensures ClipPair(c, r).0 > ClipPair(c, r).1 ==> p == (ClipPair(c, r).0, ClipPair(c, r).0)
    ensures WellFormed(c) ==> c.minValue <= p.0 <= p.1 <= c.maxValue
    ensures c.minValue <= r.0 <= r.1 <= c.maxValue ==> p == r
  {
    var q := ClipPair(c, r);
    if q.0 > q.1 then (q.0, q.0) else q
  }

  /** A resolution clipped into the axis' resolution bounds. */
  function ClipResolution(c: AxisConstraint, n: int): (m: int)
    ensures WellFormed(c) ==> c.minResolution <= m <= c.maxResolution
    ensures c.minResolution <= n <= c.maxResolution ==> m == n
    ensures n > c.maxResolution ==> m == c.maxResolution
    ensures WellFormed(c) && n < c.minResolution ==> m == c.minResolution
  {
    ClipInt(c.minResolution, c.maxResolution, n)
  }

  /** A point clipped into the axis' value bounds, as a target position. */
  function ClipValue(c: AxisConstraint, x: real): (y: real)
    ensures WellFormed(c) ==> c.minValue <= y <= c.maxValue
    ensures c.minValue <= x <= c.maxValue ==> y == x
    ensures x > c.maxValue ==> y == c.maxValue
    ensures WellFormed(c) && x < c.minValue ==> y == c.minValue
  {
    Clip(c.minValue, c.maxValue, x)
  }

  /**
   * On an axis with bounds [0, 1], the range (-1, 2) is stored as (0, 1), and
   * the crossed range (0.8, 0.2) collapses onto its low end, (0.8, 0.8).
   */
  lemma ClipRangeExamples(c: AxisConstraint)
    requires c.minValue == 0.0 && c.maxValue == 1.0
    ensures ClipRange(c, (-1.0, 2.0)) == (0.0, 1.0)
    ensures ClipRange(c, (0.8, 0.2)) == (0.8, 0.8)
  {
  }

  // ---------------------------------------------------------------------------
  // Applying a requested partial mapping (set_scan_range / set_scan_resolution)

  /** Where the loop over the requested axes ended. */
  datatype Applied<T> =
    | Completed(settings: map<string, T>)
    | UnknownAxis(settings: map<string, T>, axis: string)
    | MissingConstraint(settings: map<string, T>, axis: string)

  /** The keys of a requested mapping are distinct, as in a Python dict. */
  predicate DistinctKeys<T>(req: seq<(string, T)>) {
    forall i, j :: 0 <= i < j < |req| ==> req[i].0 != req[j].0
  }

  /** The axes a request targets. */
  function Targeted<T>(req: seq<(string, T)>): (s: set<string>)
    ensures forall k :: 0 <= k < |req| ==> req[k].0 in s
    ensures forall ax :: ax in s ==> exists k :: 0 <= k < |req| && req[k].0 == ax
  {
    set k | 0 <= k < |req| :: req[k].0
  }

  /**
   * The loop of `set_scan_range` / `set_scan_resolution`: each requested axis in
   * order is clipped and written back into `current`. An axis unknown to the
   * store ends the loop; axes already written keep their new value. An axis the
   * store knows but the constraints do not makes the constraint lookup raise.
   */
  function ApplyClipped<T>(current: map<string, T>, axes: Constraints, req: seq<(string, T)>,
                           clip: (AxisConstraint, T) -> T): (o: Applied<T>)
    ensures o.settings.Keys == current.Keys
    decreases |req|
  {
    if req == [] then Completed(current)
    else if req[0].0 !in current then UnknownAxis(current, req[0].0)
    else if req[0].0 !in axes then MissingConstraint(current, req[0].0)
    else ApplyClipped(current[req[0].0 := clip(axes[req[0].0], req[0].1)], axes, req[1..], clip)
  }

  /** What the setter returns: the targeted part when the loop completed, the whole map when it stopped at an unknown axis. */
  function SettingsReply<T>(o: Applied<T>, targeted: set<string>): (r: Reply<map<string, T>>)
    ensures o.Completed? ==> r.Returned? && r.value.Keys == o.settings.Keys * targeted
    ensures o.Completed? ==> forall ax :: ax in r.value ==> r.value[ax] == o.settings[ax]
    ensures o.UnknownAxis? ==> r == Returned(o.settings)
    ensures o.MissingConstraint? <==> r == Raised(KeyError)
  {
    match o
    case Completed(m) => Returned(map ax | ax in m && ax in targeted :: m[ax])
    case UnknownAxis(m, _) => Returned(m)
    case MissingConstraint(_, _) => Raised(KeyError)
  }

  /** The loop completes iff every requested axis is known to the store and to the constraints. */
  lemma {:induction false} ApplyCompletesIff<T>(current: map<string, T>, axes: Constraints,
                                               req: seq<(string, T)>, clip: (AxisConstraint, T) -> T)
    ensures ApplyClipped(current, axes, req, clip).Completed?
        <==> forall k :: 0 <= k < |req| ==> req[k].0 in current && req[k].0 in axes
    decreases |req|
  {
    if req != [] && req[0].0 in current && req[0].0 in axes {
      var next := current[req[0].0 := clip(axes[req[0].0], req[0].1)];
      ApplyCompletesIff(next, axes, req[1..], clip);
      assert next.Keys == current.Keys;
      forall k | 1 <= k < |req| ensures req[k] == req[1..][k - 1] { }
    }
  }

  /**
   * Running the loop over a fully known prefix, then over the rest from there,
   * is running it over the whole request: writes made before the loop stopped persist.
   */
  lemma {:induction false} ApplyPrefix<T>(current: map<string, T>, axes: Constraints,
                                         req: seq<(string, T)>, clip: (AxisConstraint, T) -> T, j: nat)
    requires j <= |req|
    requires forall k :: 0 <= k < j ==> req[k].0 in current && req[k].0 in axes
    ensures ApplyClipped(current, axes, req[..j], clip).Completed?
    ensures ApplyClipped(current, axes, req, clip)
         == ApplyClipped(ApplyClipped(current, axes, req[..j], clip).settings, axes, req[j..], clip)
    decreases j
  {
    if j > 0 {
      var next := current[req[0].0 := clip(axes[req[0].0], req[0].1)];
      assert next.Keys == current.Keys;
      ApplyPrefix(next, axes, req[1..], clip, j - 1);
      assert req[..j][1..] == req[1..][..j - 1];
      assert req[1..][j - 1..] == req[j..];
    }
  }

  /** An axis the request does not target keeps its value, however the loop ends. */
  lemma {:induction false} ApplyUntargeted<T>(current: map<string, T>, axes: Constraints,
                                             req: seq<(string, T)>, clip: (AxisConstraint, T) -> T, ax: string)
    requires ax in current
    requires forall k :: 0 <= k < |req| ==> req[k].0 != ax
    ensures ApplyClipped(current, axes, req, clip).settings[ax] == current[ax]
    decreases |req|
  {
    if req != [] && req[0].0 in current && req[0].0 in axes {
      var next := current[req[0].0 := clip(axes[req[0].0], req[0].1)];
      ApplyUntargeted(next, axes, req[1..], clip, ax);
    }
  }

  /** When the loop completes, every targeted axis holds its requested value clipped against its own constraint. */
  lemma {:induction false} ApplyTargeted<T>(current: map<string, T>, axes: Constraints,
                                           req: seq<(string, T)>, clip: (AxisConstraint, T) -> T, k: nat)
    requires k < |req| && DistinctKeys(req)
    requires ApplyClipped(current, axes, req, clip).Completed?
    ensures req[k].0 in current && req[k].0 in axes
    ensures ApplyClipped(current, axes, req, clip).settings[req[k].0] == clip(axes[req[k].0], req[k].1)
    decreases |req|
  {
    ApplyCompletesIff(current, axes, req, clip);
    var next := current[req[0].0 := clip(axes[req[0].0], req[0].1)];
    if k == 0 {
      ApplyUntargeted(next, axes, req[1..], clip, req[0].0);
    } else {
      ApplyTargeted(next, axes, req[1..], clip, k - 1);
    }
  }

  /** After a completed `set_scan_range`, every targeted axis lies inside its bounds with low end <= high end. */
  lemma RangesWithinBounds(current: map<string, Range>, axes: Constraints, req: seq<(string, Range)>)
    requires DistinctKeys(req)
    requires ApplyClipped(current, axes, req, ClipRange).Completed?
    requires forall ax :: ax in axes ==> WellFormed(axes[ax])
    ensures forall k :: 0 <= k < |req| ==>
      var m := ApplyClipped(current, axes, req, ClipRange).settings;
      var ax := req[k].0;
      ax in axes && ax in m && axes[ax].minValue <= m[ax].0 <= m[ax].1 <= axes[ax].maxValue
  {
    forall k | 0 <= k < |req|
      ensures req[k].0 in axes && req[k].0 in ApplyClipped(current, axes, req, ClipRange).settings
      ensures ApplyClipped(current, axes, req, ClipRange).settings[req[k].0] == ClipRange(axes[req[k].0], req[k].1)
    {
      ApplyCompletesIff(current, axes, req, ClipRange);
      ApplyTargeted(current, axes, req, ClipRange, k);
    }
  }

  /** After a completed `set_scan_resolution`, every targeted axis lies inside its resolution bounds. */
  lemma ResolutionsWithinBounds(current: map<string, int>, axes: Constraints, req: seq<(string, int)>)
    requires DistinctKeys(req)
    requires ApplyClipped(current, axes, req, ClipResolution).Completed?
    requires forall ax :: ax in axes ==> WellFormed(axes[ax])
    ensures forall k :: 0 <= k < |req| ==>
      var m := ApplyClipped(current, axes, req, ClipResolution).settings;
      var ax := req[k].0;
      ax in axes && ax in m && axes[ax].minResolution <= m[ax] <= axes[ax].maxResolution
  {
    forall k | 0 <= k < |req|
      ensures req[k].0 in axes && req[k].0 in ApplyClipped(current, axes, req, ClipResolution).settings
      ensures ApplyClipped(current, axes, req, ClipResolution).settings[req[k].0] == ClipResolution(axes[req[k].0], req[k].1)
    {
      ApplyCompletesIff(current, axes, req, ClipResolution);
      ApplyTargeted(current, axes, req, ClipResolution, k);
    }
  }

  // ---------------------------------------------------------------------------
  // Frequency bounds

  /** `min(min_frequency) <= f <= max(max_frequency)` over all axes, written without infinities. */
  predicate InFrequencyHull(axes: Constraints, f: real) {
    && (exists ax :: ax in axes && axes[ax].minFrequency <= f)
    && (exists ax :: ax in axes && f <= axes[ax].maxFrequency)
  }

  // ---------------------------------------------------------------------------
  // Restoring settings from a history frame (restore_from_history)

  /**
   * The loop of `restore_from_history` from the frame's `i`-th axis on: the
   * resolution is clipped and written, then the range (both ends clipped, no
   * collapse). A missing constraint or a too-short per-axis tuple raises and
   * leaves what was already written.
   */
  function RestoreAxes(s: Settings, axes: Constraints, f: Frame, i: nat): (r: Step)
    requires i <= |f.scanAxes|
    ensures s.ranges.Keys <= r.settings.ranges.Keys && s.resolution.Keys <= r.settings.resolution.Keys
    ensures forall ax :: ax in r.settings.ranges && ax !in s.ranges ==> ax in f.scanAxes[i..]
    ensures forall ax :: ax in r.settings.resolution && ax !in s.resolution ==> ax in f.scanAxes[i..]
    ensures r.error.Some? ==> r.error.value == KeyError || r.error.value == IndexError
    ensures r.error == Some(KeyError) ==> exists k :: i <= k < |f.scanAxes| && f.scanAxes[k] !in axes
    decreases |f.scanAxes| - i
  {
    if i == |f.scanAxes| then Step(s, None)
    else
      var ax := f.scanAxes[i];
      if ax !in axes then Step(s, Some(KeyError))
      else if i >= |f.scanResolution| then Step(s, Some(IndexError))
      else
        var s1 := s.(resolution := s.resolution[ax := ClipResolution(axes[ax], f.scanResolution[i])]);
        if i >= |f.scanRange| then Step(s1, Some(IndexError))
        else RestoreAxes(s1.(ranges := s1.ranges[ax := ClipPair(axes[ax], f.scanRange[i])]), axes, f, i + 1)
  }

  /** A frame whose per-axis tuples cover its distinct axes, all of them known to the constraints. */
  predicate FrameFits(f: Frame, axes: Constraints) {
    && |f.scanRange| >= |f.scanAxes|
    && |f.scanResolution| >= |f.scanAxes|
    && (forall k :: 0 <= k < |f.scanAxes| ==> f.scanAxes[k] in axes)
    && (forall i, j :: 0 <= i < j < |f.scanAxes| ==> f.scanAxes[i] != f.scanAxes[j])
  }

  /** Restoring a fitting frame raises nothing and gives each of its axes the frame's clipped range and resolution. */
  lemma {:induction false} RestoreAxesWrites(s: Settings, axes: Constraints, f: Frame, i: nat)
    requires i <= |f.scanAxes| && FrameFits(f, axes)
    ensures RestoreAxes(s, axes, f, i).error.None?
    ensures forall k :: i <= k < |f.scanAxes| ==>
      var r := RestoreAxes(s, axes, f, i).settings;
      var ax := f.scanAxes[k];
      && ax in r.ranges && ax in r.resolution
      && r.ranges[ax] == ClipPair(axes[ax], f.scanRange[k])
      && r.resolution[ax] == ClipResolution(axes[ax], f.scanResolution[k])
    decreases |f.scanAxes| - i
  {
    if i < |f.scanAxes| {
      var ax := f.scanAxes[i];
      var s1 := s.(resolution := s.resolution[ax := ClipResolution(axes[ax], f.scanResolution[i])]);
      var s2 := s1.(ranges := s1.ranges[ax := ClipPair(axes[ax], f.scanRange[i])]);
      RestoreAxesWrites(s2, axes, f, i + 1);
      RestoreAxesKeeps(s2, axes, f, i + 1, ax);
    }
  }

  /** An axis the frame does not scan (from index `i` on) is left exactly as it was by the restore loop. */
  lemma {:induction false} RestoreAxesKeeps(s: Settings, axes: Constraints, f: Frame, i: nat, ax: string)
    requires i <= |f.scanAxes|
    requires forall k :: i <= k < |f.scanAxes| ==> f.scanAxes[k] != ax
    ensures var r := RestoreAxes(s, axes, f, i).settings;
      && (ax in r.ranges <==> ax in s.ranges)
      && (ax in r.resolution <==> ax in s.resolution)
      && (ax in s.ranges ==> r.ranges[ax] == s.ranges[ax])
      && (ax in s.resolution ==> r.resolution[ax] == s.resolution[ax])
    decreases |f.scanAxes| - i
  {
    if i < |f.scanAxes| && f.scanAxes[i] in axes && i < |f.scanResolution| {
      var b := f.scanAxes[i];
      var s1 := s.(resolution := s.resolution[b := ClipResolution(axes[b], f.scanResolution[i])]);
      if i < |f.scanRange| {
        var s2 := s1.(ranges := s1.ranges[b := ClipPair(axes[b], f.scanRange[i])]);
        RestoreAxesKeeps(s2, axes, f, i + 1, ax);
      }
    }
  }

  // ---------------------------------------------------------------------------
  // Adopting the settings the device accepted (toggle_scan, start branch)

  /**
   * The reconciliation loop of a scan start from the `i`-th scan axis on: the
   * range, then the resolution the device answered, overwrite the store. An
   * answer tuple shorter than the axes raises and leaves what was written.
   */
  function Reconcile(s: Settings, scanAxes: seq<string>, cfg: ScanSettings, i: nat): (r: Step)
    requires i <= |scanAxes|
    ensures s.ranges.Keys <= r.settings.ranges.Keys && s.resolution.Keys <= r.settings.resolution.Keys
    decreases |scanAxes| - i
  {
    if i == |scanAxes| then Step(s, None)
    else if i >= |cfg.ranges| then Step(s, Some(IndexError))
    else
      var s1 := s.(ranges := s.ranges[scanAxes[i] := cfg.ranges[i]]);
      if i >= |cfg.resolutions| then Step(s1, Some(IndexError))
      else Reconcile(s1.(resolution := s1.resolution[scanAxes[i] := cfg.resolutions[i]]), scanAxes, cfg, i + 1)
  }

  /**
   * When the device answers a tuple per distinct scan axis, the reconciliation
   * raises nothing and each scan axis takes exactly the device's value; other
   * axes keep theirs.
   */
  lemma {:induction false} ReconcileAdopts(s: Settings, scanAxes: seq<string>, cfg: ScanSettings, i: nat)
    requires i <= |scanAxes|
    requires |cfg.ranges| >= |scanAxes| && |cfg.resolutions| >= |scanAxes|
    requires forall a, b :: 0 <= a < b < |scanAxes| ==> scanAxes[a] != scanAxes[b]
    ensures var r := Reconcile(s, scanAxes, cfg, i);
      && r.error.None?
      && (forall k :: i <= k < |scanAxes| ==>
            && scanAxes[k] in r.settings.ranges && r.settings.ranges[scanAxes[k]] == cfg.ranges[k]
            && scanAxes[k] in r.settings.resolution && r.settings.resolution[scanAxes[k]] == cfg.resolutions[k])
      && (forall ax :: ax in s.ranges && (forall k :: i <= k < |scanAxes| ==> scanAxes[k] != ax) ==>
            ax in r.settings.ranges && r.settings.ranges[ax] == s.ranges[ax])
      && (forall ax :: ax in s.resolution && (forall k :: i <= k < |scanAxes| ==> scanAxes[k] != ax) ==>
            ax in r.settings.resolution && r.settings.resolution[ax] == s.resolution[ax])
    decreases |scanAxes| - i
  {
    if i < |scanAxes| {
      var s1 := s.(ranges := s.ranges[scanAxes[i] := cfg.ranges[i]]);
      var s2 := s1.(resolution := s1.resolution[scanAxes[i] := cfg.resolutions[i]]);
      ReconcileAdopts(s2, scanAxes, cfg, i + 1);
    }
  }

  /** The reconciliation only overwrites scan axes: every axis it adds is one of them. */
  lemma {:induction false} ReconcileAddsOnlyScanAxes(s: Settings, scanAxes: seq<string>, cfg: ScanSettings, i: nat)
    requires i <= |scanAxes|
    ensures var r := Reconcile(s, scanAxes, cfg, i);
      && (forall ax :: ax in r.settings.ranges && ax !in s.ranges ==> ax in scanAxes[i..])
      && (forall ax :: ax in r.settings.resolution && ax !in s.resolution ==> ax in scanAxes[i..])
    decreases |scanAxes| - i
  {
    if i < |scanAxes| && i < |cfg.ranges| && i < |cfg.resolutions| {
      var s1 := s.(ranges := s.ranges[scanAxes[i] := cfg.ranges[i]]);
      var s2 := s1.(resolution := s1.resolution[scanAxes[i] := cfg.resolutions[i]]);
      ReconcileAddsOnlyScanAxes(s2, scanAxes, cfg, i + 1);
      assert scanAxes[i..] == [scanAxes[i]] + scanAxes[i + 1..];
    }
  }

  // ---------------------------------------------------------------------------
  // Bounded history

  /**
   * The history after appending `f`: the oldest frames are dropped while the
   * history holds at least `maxLen` frames, then `f` is appended.
   */
  function AppendBounded(h: seq<Frame>, maxLen: int, f: Frame): (r: seq<Frame>)
    requires maxLen >= 1
    ensures |r| == (if |h| < maxLen then |h| + 1 else maxLen)
    ensures r[|r| - 1] == f
    ensures r[..|r| - 1] == h[|h| - (|r| - 1)..]
  {
    (if |h| >= maxLen then h[|h| - maxLen + 1..] else h) + [f]
  }

  // ---------------------------------------------------------------------------
  // Python indexing

  /** The position a Python index `i` in `[-n, n)` denotes in a list of length `n`. */
  function PyIndex(i: int, n: nat): (k: nat)
    requires -(n as int) <= i < n
    ensures k < n
    ensures i >= 0 ==> k == i
    ensures i < 0 ==> k + (-i) == n
  {
    if i < 0 then i + n else i
  }

  /** ASCII lower-casing, as `str.lower` on ASCII text. */
  function LowerChar(c: char): char {
    if 'A' <= c <= 'Z' then (c as int + 32) as char else c
  }

  function Lower(s: string): (t: string)
    ensures |t| == |s|
    ensures forall i :: 0 <= i < |s| ==> t[i] == LowerChar(s[i])
    ensures forall i :: 0 <= i < |t| ==> !('A' <= t[i] <= 'Z')
  {
    seq(|s|, i requires 0 <= i < |s| => LowerChar(s[i]))
  }
}
