/**
 * The FPGA time tagger's measurement state machine. The integer status is
 * -1 (error), 0 (unconfigured), 1 (idle), 2 (running) or 3 (paused). The
 * module also keeps the configured bin width, gate length and gate count,
 * and the count histogram saved across a pause.
 *
 * Every status-register poll the source repeats until a five-second
 * timeout is given as the sequence of register values read before the
 * deadline; the poll succeeds iff one of them meets the condition.
 */
module FastCounter {
  import opened Common
  import opened FpgaStatus

  /** The fixed internal clock, 950 MHz. */
  const InternalClockHz: real := 950000000.0

  /** A duration in clock ticks, in seconds. */
  function TicksToSeconds(ticks: int): (s: real)
    ensures s * InternalClockHz == ticks as real
  {
    ticks as real / InternalClockHz
  }

  /** What configure reports: bin width and gate length in seconds, and the gate count. */
  datatype Configuration = Configuration(binwidthS: real, gateLengthS: real, numberOfGates: int)

  /** The FPGA transfers a block of 512 gates of 65536 bins each. */
  const BlockGates: nat := 512
  const BlockBins: nat := 65536

  /** The byte count of a complete transfer (128 MiB). */
  const BufferSize: int := 134217728

  /** A two-dimensional int64 count array with its shape (gates, bins). */
  datatype Counts = Counts(gates: nat, bins: nat, cells: seq<seq<int>>)

  predicate Shaped(c: Counts) {
    |c.cells| == c.gates && forall g :: 0 <= g < |c.cells| ==> |c.cells[g]| == c.bins
  }

  predicate SameShape(a: Counts, b: Counts) {
    a.gates == b.gates && a.bins == b.bins
  }

  /** `np.zeros([gates, bins])`. */
  function Zeros(gates: nat, bins: nat): (z: Counts)
    ensures Shaped(z) && z.gates == gates && z.bins == bins
    ensures forall g, k :: 0 <= g < gates && 0 <= k < bins ==> z.cells[g][k] == 0
  {
    Counts(gates, bins, seq(gates, _ => seq(bins, _ => 0)))
  }

  /** Element-wise sum of two arrays of the same shape. */
  function Add(a: Counts, b: Counts): (c: Counts)
    requires Shaped(a) && Shaped(b) && SameShape(a, b)
    ensures Shaped(c) && SameShape(c, a)
    ensures forall g, k :: 0 <= g < c.gates && 0 <= k < c.bins ==> c.cells[g][k] == a.cells[g][k] + b.cells[g][k]
  {
    Counts(a.gates, a.bins,
      seq(a.gates, (g: int) requires 0 <= g < a.gates =>
        seq(a.bins, (k: int) requires 0 <= k < a.bins => a.cells[g][k] + b.cells[g][k])))
  }

  /** The length of the Python slice `[0:stop]` of an axis of length `size`. */
  function SliceLength(stop: int, size: nat): (len: nat)
    ensures len <= size
    ensures 0 <= stop <= size ==> len == stop
    ensures stop > size ==> len == size
  {
    if stop >= 0 then (if stop < size then stop else size)
    else if size + stop > 0 then size + stop
    else 0
  }

  /** The transferred block of unsigned 32-bit words: 512 rows of 65536. */
  predicate IsBlock(block: seq<seq<int>>) {
    |block| == BlockGates && forall g :: 0 <= g < |block| ==> |block[g]| == BlockBins
  }

  /** `block[0:gates, 0:bins]` as an int64 array. */
  function Extract(block: seq<seq<int>>, gates: int, bins: int): (c: Counts)
    requires IsBlock(block)
    ensures Shaped(c)
    ensures c.gates == SliceLength(gates, BlockGates) && c.bins == SliceLength(bins, BlockBins)
    ensures forall g, k :: 0 <= g < c.gates && 0 <= k < c.bins ==> c.cells[g][k] == block[g][k]
  {
    var ng := SliceLength(gates, BlockGates);
    var nb := SliceLength(bins, BlockBins);
    Counts(ng, nb, seq(ng, (g: int) requires 0 <= g < ng => block[g][..nb]))
  }

  /** What one call of get_data_trace reads from the device. */
  datatype TraceReads = TraceReads(
    errorRegister: Word32,       // the register read for the error check
    stopReadings: seq<Word32>,   // the registers polled by the stop an error triggers
    statusRegister: Word32,      // the register read for the running check
    bytesRead: int,              // the return code of the USB block transfer
    block: seq<seq<int>>)        // the transferred words

  /** The condition a polling loop waits for. */
  datatype Condition = AwaitIdleAndReset | AwaitStarted

  predicate Satisfies(c: Condition, register: Word32) {
    match c
    case AwaitIdleAndReset => IdleAndReset(StatusMessages(register))
    case AwaitStarted => Started(StatusMessages(register))
  }

  /** Some register value read before the timeout meets the condition. */
  predicate Reached(readings: seq<Word32>, c: Condition) {
    exists k :: 0 <= k < |readings| && Satisfies(c, readings[k])
  }

  /** The polling loop: read until the condition holds or the readings (the time) run out. */
  method Poll(readings: seq<Word32>, c: Condition) returns (met: bool)
    ensures met <==> Reached(readings, c)
  {
    var k := 0;
    while k < |readings|
      invariant 0 <= k <= |readings|
      invariant forall j :: 0 <= j < k ==> !Satisfies(c, readings[j])
    {
      if Satisfies(c, readings[k]) {
        return true;
      }
      k := k + 1;
    }
    return false;
  }

  /** get_data_trace reads new counts: no error bit, not paused, running alone, complete transfer. */
  predicate Delivers(status: int, t: TraceReads) {
    ErrorMessages(t.errorRegister) == [] && status != 3
    && RunningOnly(StatusMessages(t.statusRegister)) && t.bytesRead == BufferSize
  }

  /** The new counts plus the saved ones, exactly when the saved counts have the same shape. */
  function Merge(latest: Counts, saved: Option<Counts>): (c: Counts)
    requires Shaped(latest) && (saved.Some? ==> Shaped(saved.value))
    ensures Shaped(c) && SameShape(c, latest)
    ensures forall g, k :: 0 <= g < c.gates && 0 <= k < c.bins ==>
              c.cells[g][k]
              == latest.cells[g][k] + (if saved.Some? && SameShape(saved.value, latest) then saved.value.cells[g][k] else 0)
  {
    if saved.Some? && SameShape(saved.value, latest) then Add(latest, saved.value) else latest
  }

  /** Some error bit of the register is set. */
  predicate AnyErrorBit(register: Word32) {
    exists i :: 0 <= i < |ErrorEncoding| && BitSet(register, ErrorEncoding[i].0)
  }

  /**
   * The count data after get_data_trace. When it delivers, the result has the
   * shape of the slice `[0:gates, 0:bins]` of the block, and each cell is the
   * transferred word plus the saved cell, the latter only when the saved counts
   * have exactly that shape. Otherwise the old count data is returned.
   */
  function TraceCounts(status: int, gates: int, bins: int, countData: Option<Counts>,
                       saved: Option<Counts>, t: TraceReads): (r: Option<Counts>)
    requires IsBlock(t.block) && (saved.Some? ==> Shaped(saved.value))
    ensures !Delivers(status, t) ==> r == countData
    ensures Delivers(status, t) ==>
      && r.Some? && Shaped(r.value)
      && r.value.gates == SliceLength(gates, BlockGates) && r.value.bins == SliceLength(bins, BlockBins)
      && forall g, k :: 0 <= g < r.value.gates && 0 <= k < r.value.bins ==>
           r.value.cells[g][k]
           == t.block[g][k]
              + (if saved.Some? && saved.value.gates == r.value.gates && saved.value.bins == r.value.bins
                 then saved.value.cells[g][k] else 0)
  {
    if Delivers(status, t) then Some(Merge(Extract(t.block, gates, bins), saved)) else countData
  }

  /**
   * Right after a start the saved counts are cleared, so a delivering read
   * returns exactly the requested slice of the block.
   */
  lemma TraceAfterStart(status: int, gates: int, bins: int, countData: Option<Counts>, t: TraceReads)
    requires IsBlock(t.block) && Delivers(status, t)
    ensures TraceCounts(status, gates, bins, countData, None, t) == Some(Extract(t.block, gates, bins))
  {
  }

  /**
   * A pause keeps the counts of a delivering read; when the next read delivers
   * under the same configuration, the two reads' words are summed cell by cell.
   */
  lemma TraceAfterPause(status0: int, status: int, gates: int, bins: int, countData0: Option<Counts>,
                        countData: Option<Counts>, t0: TraceReads, t: TraceReads)
    requires IsBlock(t0.block) && IsBlock(t.block)
    requires Delivers(status0, t0) && Delivers(status, t)
    ensures var saved := TraceCounts(status0, gates, bins, countData0, None, t0);
      var r := TraceCounts(status, gates, bins, countData, saved, t);
      && r.Some? && r.value.gates == SliceLength(gates, BlockGates) && r.value.bins == SliceLength(bins, BlockBins)
      && forall g, k :: 0 <= g < r.value.gates && 0 <= k < r.value.bins ==>
           r.value.cells[g][k] == t.block[g][k] + t0.block[g][k]
  {
    TraceAfterStart(status0, gates, bins, countData0, t0);
  }

  /** The status after get_data_trace: only an error bit, followed by a stop that sees idle and reset, changes it, to idle. */
  function TraceStatus(status: int, t: TraceReads): (s: int)
    ensures s == (if AnyErrorBit(t.errorRegister) && Reached(t.stopReadings, AwaitIdleAndReset) then 1 else status)
  {
    NoErrorsIff(t.errorRegister);
    if ErrorMessages(t.errorRegister) != [] && Reached(t.stopReadings, AwaitIdleAndReset) then 1 else status
  }

  /** The saved counts after get_data_trace: the stop that an error bit triggers clears them; otherwise they stay. */
  function TraceSaved(saved: Option<Counts>, t: TraceReads): (r: Option<Counts>)
    ensures AnyErrorBit(t.errorRegister) ==> r.None?
    ensures !AnyErrorBit(t.errorRegister) ==> r == saved
  {
    NoErrorsIff(t.errorRegister);
    if ErrorMessages(t.errorRegister) != [] then None else saved
  }

  class FastCounterFpga {
    /** Threshold voltage for each SMA input 1..8. */
    const switchingVoltage: map<int, real>
    var status: int
    var binwidth: int
    var gateLengthBins: int
    var numberOfGates: int
    var countData: Option<Counts>
    var savedCountData: Option<Counts>

    ghost predicate Valid()
      reads this
    {
      CoversSmaInputs(switchingVoltage)
      && -1 <= status <= 3
      && (countData.Some? ==> Shaped(countData.value))
      && (savedCountData.Some? ==> Shaped(savedCountData.value))
    }

    /**
     * Activation: the eight configured thresholds, the default configuration,
     * and the connect step, which reaches status 0 only when a device is
     * present, its FrontPanel is enabled and the power-on poll sees idle and
     * reset.
     */
    constructor (thresholds: seq<real>, deviceCount: int, frontPanelEnabled: bool, initReadings: seq<Word32>)
      requires |thresholds| == 8
      ensures Valid()
      ensures forall sma :: 1 <= sma <= 8 ==> switchingVoltage[sma] == thresholds[sma - 1]
      ensures binwidth == 1 && gateLengthBins == 8192 && numberOfGates == 1
      ensures countData == None && savedCountData == None
      ensures status == if deviceCount != 0 && frontPanelEnabled && Reached(initReadings, AwaitIdleAndReset) then 0 else -1
    {
      switchingVoltage := map[1 := thresholds[0], 2 := thresholds[1], 3 := thresholds[2], 4 := thresholds[3],
                              5 := thresholds[4], 6 := thresholds[5], 7 := thresholds[6], 8 := thresholds[7]];
      binwidth := 1;
      gateLengthBins := 8192;
      numberOfGates := 1;
      countData := None;
      savedCountData := None;
      status := -1;
      new;
      if deviceCount != 0 && frontPanelEnabled {
        var met := Poll(initReadings, AwaitIdleAndReset);
        if met {
          status := 0;
        }
      }
    }

    /** The eight set-voltage command words, DAC channel 0 first. */
    method SetDacVoltages() returns (words: seq<int>)
      requires Valid()
      ensures |words| == 8
      ensures forall d :: 0 <= d < 8 ==> words[d] == DacWord(switchingVoltage, d)
    {
      words := [];
      var d := 0;
      while d < 8
        invariant 0 <= d <= 8 && |words| == d
        invariant forall j :: 0 <= j < d ==> words[j] == DacWord(switchingVoltage, j)
      {
        var sma := DacSmaMapping[d + 1];
        var value := DacRawValue(switchingVoltage[sma]);
        if value > 4095 {
          value := 4095;
        } else if value < 0 {
          value := 0;
        }
        words := words + [SetVoltageCommand + d * 0x10_0000 + value * 0x100];
        d := d + 1;
      }
    }

    /**
     * While running or paused nothing changes and the current configuration
     * is returned. Otherwise the bin width is rounded to whole clock ticks,
     * then the gate length to whole bins (a zero bin width raises after the
     * bin width is stored), and the status becomes idle.
     */
    method Configure(binWidthS: real, recordLengthS: real, gates: int) returns (r: Reply<Configuration>)
      requires Valid()
      modifies this`binwidth, this`gateLengthBins, this`numberOfGates, this`status
      ensures Valid()
      ensures old(status) >= 2 ==>
        status == old(status) && binwidth == old(binwidth) && gateLengthBins == old(gateLengthBins)
        && numberOfGates == old(numberOfGates)
        && r.Returned? && r.value == Configuration(TicksToSeconds(binwidth), gateLengthBins as real * TicksToSeconds(binwidth), numberOfGates)
      ensures old(status) < 2 ==> binwidth == RoundHalfEven(binWidthS * InternalClockHz)
      ensures old(status) < 2 && binWidthS == 0.0 ==>
        r == Raised(ZeroDivisionError) && status == old(status)
        && gateLengthBins == old(gateLengthBins) && numberOfGates == old(numberOfGates)
      ensures old(status) < 2 && binWidthS != 0.0 ==>
        status == 1 && gateLengthBins == RoundHalfEven(recordLengthS / binWidthS) && numberOfGates == gates
        && r.Returned? && r.value == Configuration(TicksToSeconds(binwidth), gateLengthBins as real * TicksToSeconds(binwidth), gates)
    {
      if status >= 2 {
        return Returned(Configuration(TicksToSeconds(binwidth), gateLengthBins as real * TicksToSeconds(binwidth), numberOfGates));
      }
      binwidth := RoundHalfEven(binWidthS * InternalClockHz);
      if binWidthS == 0.0 {
        return Raised(ZeroDivisionError);
      }
      gateLengthBins := RoundHalfEven(recordLengthS / binWidthS);
      numberOfGates := gates;
      status := 1;
      r := Returned(Configuration(TicksToSeconds(binwidth), gateLengthBins as real * TicksToSeconds(binwidth), gates));
    }

    /**
     * Clears the saved counts, allocates a zero histogram (a negative
     * dimension raises) and starts; the status becomes running only when the
     * poll sees the start condition.
     */
    method StartMeasure(readings: seq<Word32>) returns (r: Reply<int>)
      requires Valid()
      modifies this`savedCountData, this`countData, this`status
      ensures Valid()
      ensures savedCountData == None
      ensures numberOfGates < 0 || gateLengthBins < 0 ==>
        r == Raised(ValueError) && countData == old(countData) && status == old(status)
      ensures numberOfGates >= 0 && gateLengthBins >= 0 ==>
        countData == Some(Zeros(numberOfGates, gateLengthBins))
        && status == (if Reached(readings, AwaitStarted) then 2 else old(status))
        && r == Returned(status)
    {
      savedCountData := None;
      if numberOfGates < 0 || gateLengthBins < 0 {
        return Raised(ValueError);
      }
      countData := Some(Zeros(numberOfGates, gateLengthBins));
      var met := Poll(readings, AwaitStarted);
      if met {
        status := 2;
      }
      r := Returned(status);
    }

    /** Clears the saved counts and stops; idle only when the poll sees idle and reset. */
    method StopMeasure(readings: seq<Word32>) returns (s: int)
      requires Valid()
      modifies this`savedCountData, this`status
      ensures Valid()
      ensures savedCountData == None
      ensures status == if Reached(readings, AwaitIdleAndReset) then 1 else old(status)
      ensures s == status
    {
      savedCountData := None;
      var met := Poll(readings, AwaitIdleAndReset);
      if met {
        status := 1;
      }
      s := status;
    }

    /** Reads the current histogram, as TraceCounts, TraceStatus and TraceSaved describe. */
    method GetDataTrace(t: TraceReads) returns (counts: Option<Counts>)
      requires Valid() && IsBlock(t.block)
      modifies this`countData, this`savedCountData, this`status
      ensures Valid()
      ensures countData
           == TraceCounts(old(status), numberOfGates, gateLengthBins, old(countData), old(savedCountData), t)
      ensures savedCountData == TraceSaved(old(savedCountData), t)
      ensures status == TraceStatus(old(status), t)
      ensures counts == countData
    {
      var errors := ErrorMessages(t.errorRegister);
      if |errors| != 0 {
        var _ := StopMeasure(t.stopReadings);
        return countData;
      }
      if status == 3 {
        return countData;
      }
      var messages := StatusMessages(t.statusRegister);
      if |messages| != 1 || Running !in messages {
        return countData;
      }
      if t.bytesRead != BufferSize {
        return countData;
      }
      var latest := Extract(t.block, numberOfGates, gateLengthBins);
      countData := Some(latest);
      if savedCountData.Some? {
        if SameShape(savedCountData.value, latest) {
          countData := Some(Add(latest, savedCountData.value));
        }
      }
      counts := countData;
    }

    /**
     * Keeps the histogram read by get_data_trace as the saved counts, then
     * stops; paused only when the poll sees idle and reset.
     */
    method PauseMeasure(t: TraceReads, readings: seq<Word32>) returns (s: int)
      requires Valid() && IsBlock(t.block)
      modifies this`countData, this`savedCountData, this`status
      ensures Valid()
      ensures countData
           == TraceCounts(old(status), numberOfGates, gateLengthBins, old(countData), old(savedCountData), t)
      ensures savedCountData == countData
      ensures status == if Reached(readings, AwaitIdleAndReset) then 3 else TraceStatus(old(status), t)
      ensures s == status
    {
      savedCountData := GetDataTrace(t);
      var met := Poll(readings, AwaitIdleAndReset);
      if met {
        status := 3;
      }
      s := status;
    }

    /**
     * Zeroes the histogram first (a negative dimension raises); only from the
     * paused state does it restart, running when the poll sees the start
     * condition.
     */
    method ContinueMeasure(readings: seq<Word32>) returns (r: Reply<int>)
      requires Valid()
      modifies this`countData, this`status
      ensures Valid()
      ensures numberOfGates < 0 || gateLengthBins < 0 ==>
        r == Raised(ValueError) && countData == old(countData) && status == old(status)
      ensures numberOfGates >= 0 && gateLengthBins >= 0 ==>
        countData == Some(Zeros(numberOfGates, gateLengthBins))
        && status == (if old(status) == 3 && Reached(readings, AwaitStarted) then 2 else old(status))
        && r == Returned(status)
    {
      if numberOfGates < 0 || gateLengthBins < 0 {
        return Raised(ValueError);
      }
      countData := Some(Zeros(numberOfGates, gateLengthBins));
      if status != 3 {
        return Returned(status);
      }
      var met := Poll(readings, AwaitStarted);
      if met {
        status := 2;
      }
      r := Returned(status);
    }

    /** Deactivation: stop, then the error status. */
    method Deactivate(readings: seq<Word32>)
      requires Valid()
      modifies this`savedCountData, this`status
      ensures Valid()
      ensures savedCountData == None && status == -1
    {
      var _ := StopMeasure(readings);
      status := -1;
    }

    /** The status code, always one of -1, 0, 1, 2, 3. */
    function GetStatus(): (s: int)
      reads this
      requires Valid()
      ensures -1 <= s <= 3
    {
      status
    }

    /** The width of one time bin in seconds: the configured number of clock ticks per bin. */
    function GetBinwidth(): (s: real)
      reads this
      ensures s * InternalClockHz == binwidth as real
    {
      TicksToSeconds(binwidth)
    }
  }
}
