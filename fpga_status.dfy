/**
 * The vendor-independent word logic of the FPGA time tagger: decoding the
 * 32-bit status register into status flags and error messages, the DAC
 * command words that set the eight input threshold voltages, and the
 * wiring of DAC channels to SMA inputs.
 */
module FpgaStatus {

  /** The status flags the register encodes. */
  datatype StatusFlag = Initialization | PullingData | IdleReady | Running | TdcInReset

  /** The distinct error messages the register encodes (four bits share IdleMemoryPort). */
  datatype ErrorMessage =
    | InitOutputFsmError | HistogramFsmError | HistogramBinOverflow
    | UsbFifoOverflow | UsbFifoUnderrun | DdrCalibrationFailed
    | InitOutputReadBufferOverflow | InitOutputWriteBufferUnderrun
    | InitOutputReadPortFatal | InitOutputWritePortFatal
    | HistogramReadBufferOverflow | HistogramWriteBufferUnderrun
    | HistogramReadPortFatal | HistogramWritePortFatal
    | IdleMemoryPort | TimetaggerBandwidthExceeded
    | EventBufferOverflow | EventBufferUnderrun | TdcCalibrationFailed

  /** A 32-bit register value. */
  type Word32 = r: int | 0 <= r < 0x1_0000_0000

  /** A register mask. */
  type Mask = m: int | m > 0 witness 1

  /**
   * Whether a single-bit mask is set in the register. Every mask of both
   * encoding tables is a single bit, and for such a mask `mask & register != 0`
   * is exactly this test.
   */
  predicate BitSet(register: Word32, mask: Mask) {
    (register / mask) % 2 == 1
  }

  /** The status encoding as (mask, flag), in the source's table order. */
  const StatusEncoding: seq<(Mask, StatusFlag)> := [
    (0x0000_0001, Initialization),
    (0x0000_0002, PullingData),
    (0x0000_0004, IdleReady),
    (0x0000_0008, Running),
    (0x8000_0000, TdcInReset)]

  /** The error encoding as (mask, message), in the source's table order. */
  const ErrorEncoding: seq<(Mask, ErrorMessage)> := [
    (0x0000_0020, InitOutputFsmError),
    (0x0000_0040, HistogramFsmError),
    (0x0000_0080, HistogramBinOverflow),
    (0x0000_0200, UsbFifoOverflow),
    (0x0000_0400, UsbFifoUnderrun),
    (0x0000_0800, DdrCalibrationFailed),
    (0x0000_1000, InitOutputReadBufferOverflow),
    (0x0000_2000, InitOutputWriteBufferUnderrun),
    (0x0000_4000, InitOutputReadPortFatal),
    (0x0000_8000, InitOutputWritePortFatal),
    (0x0001_0000, HistogramReadBufferOverflow),
    (0x0002_0000, HistogramWriteBufferUnderrun),
    (0x0004_0000, HistogramReadPortFatal),
    (0x0008_0000, HistogramWritePortFatal),
    (0x0010_0000, IdleMemoryPort),
    (0x0020_0000, IdleMemoryPort),
    (0x0040_0000, IdleMemoryPort),
    (0x0080_0000, IdleMemoryPort),
    (0x0100_0000, TimetaggerBandwidthExceeded),
    (0x1000_0000, EventBufferOverflow),
    (0x2000_0000, EventBufferUnderrun),
    (0x4000_0000, TdcCalibrationFailed)]

  /** How many bits of the table are set in the register. */
  function CountSet<M>(table: seq<(Mask, M)>, register: Word32): nat
    decreases |table|, register
  {
    if table == [] then 0
    else (if BitSet(register, table[0].0) then 1 else 0) + CountSet(table[1..], register)
  }

  /** The messages whose bit is set in the register, in table order. */
  function Decode<M>(table: seq<(Mask, M)>, register: Word32): (msgs: seq<M>)
    ensures |msgs| == CountSet(table, register)
    ensures |msgs| <= |table|
    decreases |table|, register
  {
    if table == [] then []
    else (if BitSet(register, table[0].0) then [table[0].1] else []) + Decode(table[1..], register)
  }

  /** `_get_status_messages`: at most five flags, each present iff one of its bits is set. */
  function StatusMessages(register: Word32): (msgs: seq<StatusFlag>)
    ensures |msgs| <= 5
    ensures forall m :: m in msgs <==>
      exists i :: 0 <= i < |StatusEncoding| && StatusEncoding[i].1 == m && BitSet(register, StatusEncoding[i].0)
  {
    DecodeMembers(StatusEncoding, register);
    Decode(StatusEncoding, register)
  }

  /** `_get_error_messages`: at most 22 messages, each present iff one of its bits is set. */
  function ErrorMessages(register: Word32): (msgs: seq<ErrorMessage>)
    ensures |msgs| <= 22
    ensures forall m :: m in msgs <==>
      exists i :: 0 <= i < |ErrorEncoding| && ErrorEncoding[i].1 == m && BitSet(register, ErrorEncoding[i].0)
  {
    DecodeMembers(ErrorEncoding, register);
    Decode(ErrorEncoding, register)
  }

  /** DecodeMember for every message at once. */
  lemma DecodeMembers<M>(table: seq<(Mask, M)>, register: Word32)
    ensures forall m :: m in Decode(table, register) <==>
      exists i :: 0 <= i < |table| && table[i].1 == m && BitSet(register, table[i].0)
  {
    forall m ensures m in Decode(table, register) <==>
      exists i :: 0 <= i < |table| && table[i].1 == m && BitSet(register, table[i].0)
    {
      DecodeMember(table, register, m);
    }
  }

  /** A message is reported iff some table entry carrying it has its bit set in the register. */
  lemma {:induction false} DecodeMember<M>(table: seq<(Mask, M)>, register: Word32, m: M)
    ensures m in Decode(table, register)
        <==> exists i :: 0 <= i < |table| && table[i].1 == m && BitSet(register, table[i].0)
    decreases |table|
  {
    if table != [] {
      var rest := table[1..];
      DecodeMember(rest, register, m);
      if m in Decode(rest, register) {
        var i :| 0 <= i < |rest| && rest[i].1 == m && BitSet(register, rest[i].0);
        assert table[i + 1] == rest[i];
      }
      if exists i :: 0 <= i < |table| && table[i].1 == m && BitSet(register, table[i].0) {
        var i :| 0 <= i < |table| && table[i].1 == m && BitSet(register, table[i].0);
        if i > 0 {
          assert rest[i - 1] == table[i];
        }
      }
    }
  }

  /** Decoding follows the table order: decoding two table parts is decoding each part in turn. */
  lemma {:induction false} DecodeAppend<M>(t1: seq<(Mask, M)>, t2: seq<(Mask, M)>, register: Word32)
    ensures Decode(t1 + t2, register) == Decode(t1, register) + Decode(t2, register)
    decreases |t1|
  {
    if t1 == [] {
      assert t1 + t2 == t2;
    } else {
      var t := t1 + t2;
      assert t[0] == t1[0];
      assert t[1..] == t1[1..] + t2;
      DecodeAppend(t1[1..], t2, register);
    }
  }

  /** Nothing is decoded iff no bit of the table is set in the register. */
  lemma {:induction false} NothingDecodedIff<M>(table: seq<(Mask, M)>, register: Word32)
    ensures Decode(table, register) == [] <==> forall i :: 0 <= i < |table| ==> !BitSet(register, table[i].0)
    decreases |table|
  {
    if table != [] {
      var rest := table[1..];
      NothingDecodedIff(rest, register);
      assert forall i :: 0 < i < |table| ==> table[i] == rest[i - 1];
    }
  }

  /** The flag list for one bit: the flag if its bit is set, nothing otherwise. */
  function FlagIf<M>(register: Word32, k: Mask, m: M): seq<M> {
    if BitSet(register, k) then [m] else []
  }

  /** The status list, spelled out bit by bit. */
  lemma StatusMessagesByBit(register: Word32)
    ensures StatusMessages(register)
         == FlagIf(register, 0x1, Initialization) + FlagIf(register, 0x2, PullingData)
          + FlagIf(register, 0x4, IdleReady) + FlagIf(register, 0x8, Running)
          + FlagIf(register, 0x8000_0000, TdcInReset)
  {
    var t := StatusEncoding;
    assert Decode(t[5..], register) == [];
    assert Decode(t[4..], register) == FlagIf(register, 0x8000_0000, TdcInReset) + Decode(t[5..], register);
    assert Decode(t[3..], register) == FlagIf(register, 0x8, Running) + Decode(t[4..], register);
    assert Decode(t[2..], register) == FlagIf(register, 0x4, IdleReady) + Decode(t[3..], register);
    assert Decode(t[1..], register) == FlagIf(register, 0x2, PullingData) + Decode(t[2..], register);
    assert Decode(t, register) == FlagIf(register, 0x1, Initialization) + Decode(t[1..], register);
  }

  /** The connect and stop condition: exactly the flags idle_ready and TDC_in_reset. */
  predicate IdleAndReset(msgs: seq<StatusFlag>) {
    |msgs| == 2 && IdleReady in msgs && TdcInReset in msgs
  }

  /** The start condition: at most two flags, one of them running. */
  predicate Started(msgs: seq<StatusFlag>) {
    |msgs| <= 2 && Running in msgs
  }

  /** The data-read condition: the running flag alone. */
  predicate RunningOnly(msgs: seq<StatusFlag>) {
    |msgs| == 1 && Running in msgs
  }

  /** Idle and in reset iff, of the five status bits 0-3 and 31, exactly bits 2 and 31 are set. */
  lemma IdleAndResetIff(register: Word32)
    ensures IdleAndReset(StatusMessages(register))
        <==> !BitSet(register, 0x1) && !BitSet(register, 0x2) && BitSet(register, 0x4)
             && !BitSet(register, 0x8) && BitSet(register, 0x8000_0000)
  {
    StatusMessagesByBit(register);
  }

  /** Running alone iff, of the five status bits, exactly bit 3 is set. */
  lemma RunningOnlyIff(register: Word32)
    ensures RunningOnly(StatusMessages(register))
        <==> !BitSet(register, 0x1) && !BitSet(register, 0x2) && !BitSet(register, 0x4)
             && BitSet(register, 0x8) && !BitSet(register, 0x8000_0000)
  {
    StatusMessagesByBit(register);
  }

  function BitCount(b: bool): nat { if b then 1 else 0 }

  /** Started iff bit 3 is set and at most one of the other four status bits is. */
  lemma StartedIff(register: Word32)
    ensures Started(StatusMessages(register))
        <==> BitSet(register, 0x8)
             && BitCount(BitSet(register, 0x1)) + BitCount(BitSet(register, 0x2))
                + BitCount(BitSet(register, 0x4)) + BitCount(BitSet(register, 0x8000_0000)) <= 1
  {
    StatusMessagesByBit(register);
  }

  /** The error list is empty iff none of the 22 error bits is set. */
  lemma NoErrorsIff(register: Word32)
    ensures ErrorMessages(register) == []
        <==> forall i :: 0 <= i < |ErrorEncoding| ==> !BitSet(register, ErrorEncoding[i].0)
  {
    NothingDecodedIff(ErrorEncoding, register);
  }

  // ---------------------------------------------------------------------------
  // DAC command words

  /** The set-voltage command prefix. */
  const SetVoltageCommand: int := 0x0300_0000

  /** The 12-bit DAC value: clamped into [0, 4095]. */
  function ClampDac(raw: int): (v: int)
    ensures 0 <= v <= 4095
    ensures 0 <= raw <= 4095 ==> v == raw
    ensures raw > 4095 ==> v == 4095
    ensures raw < 0 ==> v == 0
  {
    if raw > 4095 then 4095 else if raw < 0 then 0 else raw
  }

  /** `0x03000000 + (channel << 20) + (value << 8)`. */
  function DacCommand(channel: int, value: int): (cmd: int)
    requires 0 <= channel < 8 && 0 <= value < 4096
    ensures SetVoltageCommand <= cmd < SetVoltageCommand + 0x80_0000
    ensures cmd % 0x100 == 0
  {
    SetVoltageCommand + channel * 0x10_0000 + value * 0x100
  }

  function DacChannelOf(cmd: int): int {
    (cmd - SetVoltageCommand) / 0x10_0000
  }

  function DacValueOf(cmd: int): int {
    ((cmd - SetVoltageCommand) % 0x10_0000) / 0x100
  }


  /** The channel and value fields do not overlap: both are recovered from the word. */
  lemma DacCommandRoundTrip(channel: int, value: int)
    requires 0 <= channel < 8 && 0 <= value < 4096
    ensures DacChannelOf(DacCommand(channel, value)) == channel
    ensures DacValueOf(DacCommand(channel, value)) == value
  {
    var low := value * 0x100;
    assert 0 <= low < 0x10_0000;
    assert DacCommand(channel, value) - SetVoltageCommand == channel * 0x10_0000 + low;
    assert (channel * 0x10_0000 + low) / 0x10_0000 == channel;
    assert (channel * 0x10_0000 + low) % 0x10_0000 == low;
    assert low / 0x100 == value;
  }

  /** Distinct (channel, value) pairs give distinct words. */
  lemma DacCommandInjective(c1: int, v1: int, c2: int, v2: int)
    requires 0 <= c1 < 8 && 0 <= v1 < 4096 && 0 <= c2 < 8 && 0 <= v2 < 4096
    requires DacCommand(c1, v1) == DacCommand(c2, v2)
    ensures c1 == c2 && v1 == v2
  {
    DacCommandRoundTrip(c1, v1);
    DacCommandRoundTrip(c2, v2);
  }

  // ---------------------------------------------------------------------------
  // Threshold voltage to DAC value

  /** `np.rint` on an exact real: the nearest integer, ties to the even one. */
  function RoundHalfEven(x: real): (n: int)
    ensures x - 0.5 <= n as real <= x + 0.5
    ensures n as real == x - 0.5 || n as real == x + 0.5 ==> n % 2 == 0
  {
    var f := x.Floor;
    var d := x - f as real;
    if d < 0.5 then f
    else if d > 0.5 then f + 1
    else if f % 2 == 0 then f else f + 1
  }

  /** Rounding to nearest, ties to even, has exactly one answer. */
  lemma RoundHalfEvenUnique(x: real, m: int)
    requires x - 0.5 <= m as real <= x + 0.5
    requires m as real == x - 0.5 || m as real == x + 0.5 ==> m % 2 == 0
    ensures m == RoundHalfEven(x)
  {
  }

  /** The raw DAC value for a threshold voltage: `rint(4096 * V / (2.5 * 2))`. */
  function DacRawValue(voltage: real): int {
    RoundHalfEven(4096.0 * voltage / 5.0)
  }

  // ---------------------------------------------------------------------------
  // DAC channel to SMA input wiring

  /** SMA input for each DAC channel, numbered from 1. */
  const DacSmaMapping: map<int, int> := map[1 := 1, 2 := 5, 3 := 2, 4 := 6, 5 := 3, 6 := 7, 7 := 4, 8 := 8]

  /** The SMA input wired to the 0-based DAC channel `d`. */
  function SmaOf(d: int): (sma: int)
    requires 0 <= d < 8
    ensures 1 <= sma <= 8
  {
    DacSmaMapping[d + 1]
  }

  /** The 0-based DAC channel wired to SMA input `sma`, read off the wiring table. */
  function DacOf(sma: int): (d: int)
    requires 1 <= sma <= 8
    ensures 0 <= d < 8
  {
    if sma == 1 then 0 else if sma == 5 then 1 else if sma == 2 then 2 else if sma == 6 then 3
    else if sma == 3 then 4 else if sma == 7 then 5 else if sma == 4 then 6 else 7
  }

  /**
   * The wiring is a permutation of 1..8: its keys are 1..8 and DacOf inverts
   * it on both sides, so each SMA input is served by exactly one DAC channel.
   */
  lemma DacSmaMappingIsPermutation()
    ensures forall k :: k in DacSmaMapping <==> 1 <= k <= 8
    ensures forall d :: 0 <= d < 8 ==> DacOf(SmaOf(d)) == d
    ensures forall sma :: 1 <= sma <= 8 ==> SmaOf(DacOf(sma)) == sma
  {
    forall d | 0 <= d < 8 ensures DacOf(SmaOf(d)) == d {
      assert d == 0 || d == 1 || d == 2 || d == 3 || d == 4 || d == 5 || d == 6 || d == 7;
    }
  }

  /** Two DAC channels never serve the same SMA input. */
  lemma SmaOfInjective(d1: int, d2: int)
    requires 0 <= d1 < 8 && 0 <= d2 < 8 && SmaOf(d1) == SmaOf(d2)
    ensures d1 == d2
  {
    DacSmaMappingIsPermutation();
  }

  /** The threshold map provides a voltage for every SMA input 1..8. */
  predicate CoversSmaInputs(switchingVoltage: map<int, real>) {
    forall sma :: 1 <= sma <= 8 ==> sma in switchingVoltage
  }

  /** The command word sent for DAC channel `d` (0-based). */
  function DacWord(switchingVoltage: map<int, real>, d: int): (cmd: int)
    requires CoversSmaInputs(switchingVoltage) && 0 <= d < 8
    ensures DacChannelOf(cmd) == d
    ensures DacValueOf(cmd) == ClampDac(DacRawValue(switchingVoltage[SmaOf(d)]))
  {
    var value := ClampDac(DacRawValue(switchingVoltage[SmaOf(d)]));
    DacCommandRoundTrip(d, value);
    DacCommand(d, value)
  }

  /** Every SMA threshold is sent by exactly one of the eight DAC commands, with its clamped value. */
  lemma ThresholdSentOnce(switchingVoltage: map<int, real>, sma: int)
    requires CoversSmaInputs(switchingVoltage) && 1 <= sma <= 8
    ensures SmaOf(DacOf(sma)) == sma
    ensures DacValueOf(DacWord(switchingVoltage, DacOf(sma))) == ClampDac(DacRawValue(switchingVoltage[sma]))
    ensures forall d :: 0 <= d < 8 && SmaOf(d) == sma ==> d == DacOf(sma)
  {
    DacSmaMappingIsPermutation();
  }
}
