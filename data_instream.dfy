/**
 * The value objects of the data-in-stream hardware interface: a stream
 * channel (name, digital or analog type, unit) and the constraints record
 * that holds copies of the channels a device offers.
 */
module DataInStream {
  import opened Common

  datatype StreamChannelType = Digital | Analog

  /** The enum's value: DIGITAL = 0, ANALOG = 1. */
  function EnumValue(t: StreamChannelType): int {
    match t
    case Digital => 0
    case Analog => 1
  }

  /** The argument given for a channel type: an enum member or a plain Python value. */
  datatype TypeArg = Member(member: StreamChannelType) | Value(v: PyValue)

  /**
   * `StreamChannelType(arg)`: a member is returned as is; a plain value is
   * looked up by equality with 0 or 1 (so False, 0 and 0.0 give DIGITAL and
   * True, 1 and 1.0 give ANALOG); anything else raises ValueError.
   */
  function ChannelTypeOf(arg: TypeArg): (r: Reply<StreamChannelType>)
    ensures arg.Member? ==> r == Returned(arg.member)
    ensures arg.Value? && (arg.v.PyNone? || arg.v.PyStr?) ==> r == Raised(ValueError)
    ensures arg.Value? && arg.v.PyBool? ==> r == Returned(if arg.v.b then Analog else Digital)
    ensures arg.Value? && arg.v.PyFloat? ==>
      && (r.Returned? <==> arg.v.r == 0.0 || arg.v.r == 1.0)
      && (r.Returned? ==> EnumValue(r.value) as real == arg.v.r)
    ensures r.Raised? ==> r.exception == ValueError
  {
    match arg
    case Member(t) => Returned(t)
    case Value(v) =>
      match v
      case PyBool(b) => Returned(if b then Analog else Digital)
      case PyInt(i) => if i == 0 then Returned(Digital) else if i == 1 then Returned(Analog) else Raised(ValueError)
      case PyFloat(x) => if x == 0.0 then Returned(Digital) else if x == 1.0 then Returned(Analog) else Raised(ValueError)
      case _ => Raised(ValueError)
  }

  /** Looking up an enum member by its own value gives that member back. */
  lemma ChannelTypeByValue(t: StreamChannelType)
    ensures ChannelTypeOf(Value(PyInt(EnumValue(t)))) == Returned(t)
    ensures ChannelTypeOf(Value(PyFloat(EnumValue(t) as real))) == Returned(t)
  {
  }

  /** An integer names a channel type iff it is the value of one, and then it names that one. */
  lemma ChannelTypeOfInt(i: int)
    ensures ChannelTypeOf(Value(PyInt(i))).Returned? <==> (i == 0 || i == 1)
    ensures ChannelTypeOf(Value(PyInt(i))).Returned? ==> EnumValue(ChannelTypeOf(Value(PyInt(i))).value) == i
  {
  }

  /** The unit a channel gets when none is given. */
  function DefaultUnit(t: StreamChannelType): string {
    match t
    case Analog => "V"
    case Digital => "counts"
  }

  class StreamChannel {
    const name: string
    const channelType: StreamChannelType
    var unit: string

    /** With no unit, an analog channel measures in V and a digital one in counts. */
    constructor (name: string, channelType: StreamChannelType, unit: Option<string>)
      ensures this.name == name && this.channelType == channelType
      ensures unit.Some? ==> this.unit == unit.value
      ensures unit.None? && channelType == Analog ==> this.unit == "V"
      ensures unit.None? && channelType == Digital ==> this.unit == "counts"
    {
      this.name := name;
      this.channelType := channelType;
      this.unit := if unit.None? then DefaultUnit(channelType) else unit.value;
    }

    /** The unit setter: a string is stored, anything else raises TypeError and changes nothing. */
    method SetUnit(newUnit: PyValue) returns (r: Reply<()>)
      modifies this`unit
      ensures newUnit.PyStr? ==> r == Returned(()) && unit == newUnit.s
      ensures !newUnit.PyStr? ==> r == Raised(TypeError) && unit == old(unit)
    {
      if newUnit.PyStr? {
        unit := newUnit.s;
        r := Returned(());
      } else {
        r := Raised(TypeError);
      }
    }

    /** A new channel with the same name, type and unit. */
    method Copy() returns (c: StreamChannel)
      ensures fresh(c)
      ensures c.name == name && c.channelType == channelType && c.unit == unit
    {
      c := new StreamChannel(name, channelType, Some(unit));
    }
  }

  /** `StreamChannel(name, type, unit)`, including the ValueError of an invalid type. */
  method NewStreamChannel(name: string, typeArg: TypeArg, unit: Option<string>) returns (r: Reply<StreamChannel>)
    ensures ChannelTypeOf(typeArg).Raised? ==> r == Raised(ValueError)
    ensures ChannelTypeOf(typeArg).Returned? ==>
      r.Returned? && fresh(r.value)
      && r.value.name == name && r.value.channelType == ChannelTypeOf(typeArg).value
      && r.value.unit == if unit.Some? then unit.value else DefaultUnit(r.value.channelType)
  {
    var t := ChannelTypeOf(typeArg);
    if t.Raised? {
      return Raised(ValueError);
    }
    var c := new StreamChannel(name, t.value, unit);
    r := Returned(c);
  }

  /** The channels of `copies` agree with those of `originals` position by position. */
  ghost predicate Copies(copies: seq<StreamChannel>, originals: seq<StreamChannel>)
    reads set c | c in copies, set c | c in originals
  {
    |copies| == |originals|
    && forall i :: 0 <= i < |copies| ==>
         copies[i].name == originals[i].name && copies[i].channelType == originals[i].channelType
         && copies[i].unit == originals[i].unit
  }

  /** `tuple(ch.copy() for ch in channels)`: new channel objects, equal and in the same order. */
  method CopyChannels(channels: seq<StreamChannel>) returns (copies: seq<StreamChannel>)
    ensures Copies(copies, channels)
    ensures forall i :: 0 <= i < |copies| ==> fresh(copies[i])
  {
    copies := [];
    var i := 0;
    while i < |channels|
      invariant 0 <= i <= |channels| && |copies| == i
      invariant forall j :: 0 <= j < i ==> fresh(copies[j])
      invariant forall j :: 0 <= j < i ==>
        copies[j].name == channels[j].name && copies[j].channelType == channels[j].channelType
        && copies[j].unit == channels[j].unit
    {
      var c := channels[i].Copy();
      copies := copies + [c];
      i := i + 1;
    }
  }

  class DataInStreamConstraints {
    var digitalChannels: seq<StreamChannel>
    var analogChannels: seq<StreamChannel>
    var dataType: string
    var allowCircularBuffer: bool

    /**
     * Omitted channel lists become empty; given ones are copied channel by
     * channel. The data type defaults to float64, and the circular-buffer
     * flag is the truth value of whatever was given.
     */
    constructor (digital: Option<seq<StreamChannel>>, analog: Option<seq<StreamChannel>>,
                 dataType: Option<string>, allowCircularBuffer: PyValue)
      ensures digital.None? ==> digitalChannels == []
      ensures digital.Some? ==> Copies(digitalChannels, digital.value)
      ensures forall i :: 0 <= i < |digitalChannels| ==> fresh(digitalChannels[i])
      ensures analog.None? ==> analogChannels == []
      ensures analog.Some? ==> Copies(analogChannels, analog.value)
      ensures forall i :: 0 <= i < |analogChannels| ==> fresh(analogChannels[i])
      ensures this.dataType == if dataType.Some? then dataType.value else "float64"
      ensures this.allowCircularBuffer == Truthy(allowCircularBuffer)
    {
      var d: seq<StreamChannel> := [];
      if digital.Some? {
        d := CopyChannels(digital.value);
      }
      var a: seq<StreamChannel> := [];
      if analog.Some? {
        a := CopyChannels(analog.value);
      }
      digitalChannels := d;
      analogChannels := a;
      this.dataType := if dataType.Some? then dataType.value else "float64";
      this.allowCircularBuffer := Truthy(allowCircularBuffer);
    }

    /** A new record built from this one's fields: every field is preserved, the channels as new copies. */
    method Copy() returns (c: DataInStreamConstraints)
      ensures fresh(c)
      ensures Copies(c.digitalChannels, digitalChannels) && Copies(c.analogChannels, analogChannels)
      ensures forall i :: 0 <= i < |c.digitalChannels| ==> fresh(c.digitalChannels[i])
      ensures forall i :: 0 <= i < |c.analogChannels| ==> fresh(c.analogChannels[i])
      ensures c.dataType == dataType && c.allowCircularBuffer == allowCircularBuffer
    {
      c := new DataInStreamConstraints(Some(digitalChannels), Some(analogChannels), Some(dataType),
                                       PyBool(allowCircularBuffer));
    }
  }
}
