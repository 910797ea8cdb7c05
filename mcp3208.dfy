/** The MCP3208 driver: an 8-channel, 12-bit analog-to-digital converter
    reached over SPI that is driven bit by bit through four GPIO pins.
    The pin events of one conversion are specified by `ReadFrame`, and the
    lemmas below state its layout (start bit, command nibble, null bit,
    twelve data bits), its clock count and its chip-select framing; the
    class `Mcp3208` is proved to produce exactly that frame. */
module Mcp3208Driver {
  import opened Jvm
  import opened Gpio

  // ---------------------------------------------------------------------------
  // Bit strings, most significant bit first
  // ---------------------------------------------------------------------------

  function Pow2(n: nat): (p: nat)
    ensures p >= 1
  {
    if n == 0 then 1 else 2 * Pow2(n - 1)
  }

  lemma {:induction false} Pow2Monotone(a: nat, b: nat)
    requires a <= b
    ensures Pow2(a) <= Pow2(b)
  {
    if a < b {
      Pow2Monotone(a, b - 1);
    }
  }

  /** The number that `bits` denotes, read most significant bit first. */
  function MsbValue(bits: seq<bool>): (v: nat)
    ensures v < Pow2(|bits|)
  {
    if bits == [] then 0
    else 2 * MsbValue(bits[..|bits| - 1]) + (if bits[|bits| - 1] then 1 else 0)
  }

  /** The `n`-bit encoding of `v`, most significant bit first. */
  function Bits(v: nat, n: nat): (bits: seq<bool>)
    ensures |bits| == n
  {
    if n == 0 then [] else Bits(v / 2, n - 1) + [v % 2 == 1]
  }

  /** Decoding an encoding gives the number back. */
  lemma {:induction false} MsbValueOfBits(v: nat, n: nat)
    requires v < Pow2(n)
    ensures MsbValue(Bits(v, n)) == v
  {
    if n > 0 {
      MsbValueOfBits(v / 2, n - 1);
      assert Bits(v, n)[..n - 1] == Bits(v / 2, n - 1);
    }
  }

  /** Encoding a decoded bit string gives the bit string back. */
  lemma {:induction false} BitsOfMsbValue(bits: seq<bool>)
    ensures Bits(MsbValue(bits), |bits|) == bits
  {
    if bits != [] {
      var n := |bits|;
      BitsOfMsbValue(bits[..n - 1]);
      assert bits == bits[..n - 1] + [bits[n - 1]];
    }
  }

  /** A leading 1 adds the weight of its position. */
  lemma {:induction false} MsbValueLeadingOne(s: seq<bool>)
    ensures MsbValue([true] + s) == Pow2(|s|) + MsbValue(s)
  {
    if s != [] {
      var n := |s|;
      MsbValueLeadingOne(s[..n - 1]);
      assert ([true] + s)[..n] == [true] + s[..n - 1];
    }
  }

  // ---------------------------------------------------------------------------
  // The conversion protocol
  // ---------------------------------------------------------------------------

  const CHANNEL_COUNT := 8
  /** Data bits per conversion. */
  const RESOLUTION := 12

  predicate ValidChannel(channel: int) {
    0 <= channel < CHANNEL_COUNT
  }

  /** The command nibble: a 1 selecting a single-ended input, then the
      three bits of the channel number, most significant first. */
  function CommandBits(channel: int): (bits: seq<bool>)
    requires ValidChannel(channel)
    ensures |bits| == 4 && bits[0]
  {
    [true] + Bits(channel, 3)
  }

  /** The last three command bits spell the channel number, and the whole
      nibble is `0b1000 | channel`. */
  lemma CommandBitsValue(channel: int)
    requires ValidChannel(channel)
    ensures MsbValue(CommandBits(channel)[1..]) == channel
    ensures MsbValue(CommandBits(channel)) == 0x08 + channel
  {
    var low := Bits(channel, 3);
    MsbValueOfBits(channel, 3);
    MsbValueLeadingOne(low);
    assert CommandBits(channel)[1..] == low;
  }

  /** The level DOUT presents at the `j`-th data clock. Past the end of
      `dout` the pin's pull-down resistor makes it read low. */
  function Level(dout: seq<bool>, j: nat): bool {
    j < |dout| && dout[j]
  }

  /** The twelve levels sampled during the data phase. */
  function DataBits(dout: seq<bool>): (bits: seq<bool>)
    ensures |bits| == RESOLUTION
    ensures forall j :: 0 <= j < RESOLUTION ==> bits[j] == Level(dout, j)
  {
    seq(RESOLUTION, j requires 0 <= j => Level(dout, j))
  }

  /** The value a conversion returns when the converter drives `dout`:
      the twelve sampled bits read most significant first. */
  function Conversion(dout: seq<bool>): (v: int)
    ensures 0 <= v < 0x1000
  {
    assert Pow2(RESOLUTION) == 0x1000;
    MsbValue(DataBits(dout))
  }

  /** The value read re-encodes to exactly the twelve levels sampled. */
  lemma ConversionBits(dout: seq<bool>)
    ensures Bits(Conversion(dout), RESOLUTION) == DataBits(dout)
  {
    BitsOfMsbValue(DataBits(dout));
  }

  /** A 12-bit conversion result. */
  type Sample = v: int | 0 <= v < 0x1000

  /** A converter that presents the 12-bit encoding of `v` is read as `v`. */
  lemma ConversionOfEncoding(v: int)
    requires 0 <= v < 0x1000
    ensures Conversion(Bits(v, RESOLUTION)) == v
  {
    assert Pow2(RESOLUTION) == 0x1000;
    MsbValueOfBits(v, RESOLUTION);
    assert DataBits(Bits(v, RESOLUTION)) == Bits(v, RESOLUTION);
  }

  /** One clock pulse: the clock pin raised, then lowered. */
  function Pulse(clk: nat): seq<Event> {
    [Drive(clk, true), Drive(clk, false)]
  }

  /** Clocking `bits` out on MOSI: each level is set, then a pulse. */
  function CommandFrame(clk: nat, mosi: nat, bits: seq<bool>): (f: seq<Event>)
    ensures |f| == 3 * |bits|
  {
    if bits == [] then []
    else CommandFrame(clk, mosi, bits[..|bits| - 1]) + [Drive(mosi, bits[|bits| - 1])] + Pulse(clk)
  }

  /** Clocking `bits` in from MISO: a pulse, then the level is sensed. */
  function DataFrame(clk: nat, miso: nat, bits: seq<bool>): (f: seq<Event>)
    ensures |f| == 3 * |bits|
  {
    if bits == [] then []
    else DataFrame(clk, miso, bits[..|bits| - 1]) + Pulse(clk) + [Sense(miso, bits[|bits| - 1])]
  }

  /** All pin events of one conversion on `channel`. */
  function ReadFrame(cs: nat, clk: nat, mosi: nat, miso: nat, channel: int, dout: seq<bool>): seq<Event>
    requires ValidChannel(channel)
  {
    [Drive(cs, false), Drive(mosi, true)] + Pulse(clk)   // select the chip, start bit
    + CommandFrame(clk, mosi, CommandBits(channel))      // single-ended mode and channel
    + Pulse(clk)                                         // null bit while the converter samples
    + DataFrame(clk, miso, DataBits(dout))               // twelve data bits, MSB first
    + [Drive(cs, true)]                                  // deselect
  }

  /** `ReadFrame` appended to `t` is its pieces appended one at a time, in
      the order `read` produces them. */
  lemma AppendReadFrame(t: seq<Event>, cs: nat, clk: nat, mosi: nat, miso: nat, channel: int, dout: seq<bool>)
    requires ValidChannel(channel)
    ensures t + ReadFrame(cs, clk, mosi, miso, channel, dout)
         == t + [Drive(cs, false)] + [Drive(mosi, true)] + Pulse(clk)
            + CommandFrame(clk, mosi, CommandBits(channel)) + Pulse(clk)
            + DataFrame(clk, miso, DataBits(dout)) + [Drive(cs, true)]
  {
  }

  lemma {:induction false} CommandFrameAt(clk: nat, mosi: nat, bits: seq<bool>, i: nat)
    requires i < |bits|
    ensures CommandFrame(clk, mosi, bits)[3 * i] == Drive(mosi, bits[i])
    ensures CommandFrame(clk, mosi, bits)[3 * i + 1] == Drive(clk, true)
    ensures CommandFrame(clk, mosi, bits)[3 * i + 2] == Drive(clk, false)
  {
    var n := |bits|;
    if i < n - 1 {
      CommandFrameAt(clk, mosi, bits[..n - 1], i);
    }
  }

  lemma {:induction false} DataFrameAt(clk: nat, miso: nat, bits: seq<bool>, j: nat)
    requires j < |bits|
    ensures DataFrame(clk, miso, bits)[3 * j] == Drive(clk, true)
    ensures DataFrame(clk, miso, bits)[3 * j + 1] == Drive(clk, false)
    ensures DataFrame(clk, miso, bits)[3 * j + 2] == Sense(miso, bits[j])
  {
    var n := |bits|;
    if j < n - 1 {
      DataFrameAt(clk, miso, bits[..n - 1], j);
    }
  }

  /** The bit-exact layout of one conversion: 55 pin events. */
  lemma ReadFrameLayout(cs: nat, clk: nat, mosi: nat, miso: nat, channel: int, dout: seq<bool>)
    requires ValidChannel(channel)
    ensures var f := ReadFrame(cs, clk, mosi, miso, channel, dout);
      && |f| == 55
      // chip select goes low, MOSI goes high, one pulse: the start bit
      && f[0] == Drive(cs, false) && f[1] == Drive(mosi, true)
      && f[2] == Drive(clk, true) && f[3] == Drive(clk, false)
      // the four command bits, each followed by a pulse
      && (forall i :: 0 <= i < 4 ==>
            && f[4 + 3 * i] == Drive(mosi, CommandBits(channel)[i])
            && f[5 + 3 * i] == Drive(clk, true) && f[6 + 3 * i] == Drive(clk, false))
      // the null bit
      && f[16] == Drive(clk, true) && f[17] == Drive(clk, false)
      // the twelve data bits, each sensed after its pulse
      && (forall j :: 0 <= j < RESOLUTION ==>
            && f[18 + 3 * j] == Drive(clk, true) && f[19 + 3 * j] == Drive(clk, false)
            && f[20 + 3 * j] == Sense(miso, Level(dout, j)))
      // chip select goes high again
      && f[54] == Drive(cs, true)
  {
    var f := ReadFrame(cs, clk, mosi, miso, channel, dout);
    var cmd := CommandFrame(clk, mosi, CommandBits(channel));
    var data := DataFrame(clk, miso, DataBits(dout));
    assert f == [Drive(cs, false), Drive(mosi, true)] + Pulse(clk) + cmd + Pulse(clk) + data + [Drive(cs, true)];
    forall i | 0 <= i < 4
      ensures f[4 + 3 * i] == Drive(mosi, CommandBits(channel)[i])
      ensures f[5 + 3 * i] == Drive(clk, true) && f[6 + 3 * i] == Drive(clk, false)
    {
      CommandFrameAt(clk, mosi, CommandBits(channel), i);
    }
    forall j | 0 <= j < RESOLUTION
      ensures f[18 + 3 * j] == Drive(clk, true) && f[19 + 3 * j] == Drive(clk, false)
      ensures f[20 + 3 * j] == Sense(miso, Level(dout, j))
    {
      DataFrameAt(clk, miso, DataBits(dout), j);
    }
  }

  /** The command nibble sent for channel 5 is 1101. */
  lemma CommandBitsForChannel5()
    ensures CommandBits(5) == [true, true, false, true]
  {
    assert Bits(5, 3) == Bits(2, 2) + [true];
    assert Bits(2, 2) == Bits(1, 1) + [false];
    assert Bits(1, 1) == [true];
  }

  /** The number of times `e` occurs in `trace`. */
  function Count(trace: seq<Event>, e: Event): nat {
    multiset(trace)[e]
  }

  lemma {:induction false} CommandFrameCount(clk: nat, mosi: nat, bits: seq<bool>)
    requires clk != mosi
    ensures Count(CommandFrame(clk, mosi, bits), Drive(clk, true)) == |bits|
    ensures Count(CommandFrame(clk, mosi, bits), Drive(clk, false)) == |bits|
  {
    if bits != [] {
      CommandFrameCount(clk, mosi, bits[..|bits| - 1]);
    }
  }

  lemma {:induction false} DataFrameCount(clk: nat, miso: nat, bits: seq<bool>)
    ensures Count(DataFrame(clk, miso, bits), Drive(clk, true)) == |bits|
    ensures Count(DataFrame(clk, miso, bits), Drive(clk, false)) == |bits|
  {
    if bits != [] {
      DataFrameCount(clk, miso, bits[..|bits| - 1]);
    }
  }

  /** Every conversion issues exactly 18 clock pulses: 1 start bit, 4
      command bits, 1 null bit and 12 data bits. */
  lemma ReadFrameClockPulses(cs: nat, clk: nat, mosi: nat, miso: nat, channel: int, dout: seq<bool>)
    requires ValidChannel(channel)
    requires clk != cs && clk != mosi
    ensures Count(ReadFrame(cs, clk, mosi, miso, channel, dout), Drive(clk, true)) == 18
    ensures Count(ReadFrame(cs, clk, mosi, miso, channel, dout), Drive(clk, false)) == 18
  {
    CommandFrameCount(clk, mosi, CommandBits(channel));
    DataFrameCount(clk, miso, DataBits(dout));
  }

  /** Chip select is driven low first, high last, and not at all in
      between, so it stays low for the whole transaction; the last event
      on the clock pin leaves it low. */
  lemma ReadFrameChipSelect(cs: nat, clk: nat, mosi: nat, miso: nat, channel: int, dout: seq<bool>)
    requires ValidChannel(channel)
    requires cs != clk && cs != mosi
    ensures var f := ReadFrame(cs, clk, mosi, miso, channel, dout);
      && f[0] == Drive(cs, false) && f[|f| - 1] == Drive(cs, true)
      && (forall k :: 0 < k < |f| - 1 ==> !(f[k].Drive? && f[k].pin == cs))
      && f[|f| - 3] == Drive(clk, false)
      && (forall k :: |f| - 3 < k < |f| ==> !(f[k].Drive? && f[k].pin == clk))
  {
    var f := ReadFrame(cs, clk, mosi, miso, channel, dout);
    var data := DataBits(dout);
    var middle := [Drive(mosi, true)] + Pulse(clk) + CommandFrame(clk, mosi, CommandBits(channel))
      + Pulse(clk) + DataFrame(clk, miso, data);
    assert f == [Drive(cs, false)] + middle + [Drive(cs, true)];
    CommandFrameNoDrive(clk, mosi, CommandBits(channel), cs);
    DataFrameNoDrive(clk, miso, data, cs);
    forall k | 0 < k < |f| - 1
      ensures !(f[k].Drive? && f[k].pin == cs)
    {
      assert f[k] == middle[k - 1] && middle[k - 1] in middle;
    }
    var last := [Sense(miso, data[RESOLUTION - 1]), Drive(cs, true)];
    assert DataFrame(clk, miso, data) == DataFrame(clk, miso, data[..RESOLUTION - 1]) + Pulse(clk) + [last[0]];
    assert f == [Drive(cs, false)] + middle[..|middle| - 1] + [last[0], last[1]];
    assert middle[|middle| - 2] == Drive(clk, false);
  }

  /** A command frame drives only the clock and MOSI. */
  lemma {:induction false} CommandFrameNoDrive(clk: nat, mosi: nat, bits: seq<bool>, pin: nat)
    requires pin != clk && pin != mosi
    ensures forall e :: e in CommandFrame(clk, mosi, bits) ==> !(e.Drive? && e.pin == pin)
  {
    if bits != [] {
      CommandFrameNoDrive(clk, mosi, bits[..|bits| - 1], pin);
    }
  }

  /** A data frame drives only the clock. */
  lemma {:induction false} DataFrameNoDrive(clk: nat, miso: nat, bits: seq<bool>, pin: nat)
    requires pin != clk
    ensures forall e :: e in DataFrame(clk, miso, bits) ==> !(e.Drive? && e.pin == pin)
  {
    if bits != [] {
      DataFrameNoDrive(clk, miso, bits[..|bits| - 1], pin);
    }
  }

  // ---------------------------------------------------------------------------
  // Pin acquisition
  // ---------------------------------------------------------------------------

  /** The last provisioned pin with wiringPi number `num`, if any. */
  function LastProvisioned(pins: seq<PinHandle>, num: int): (found: Option<PinHandle>)
    ensures found.None? <==> forall h :: h in pins ==> h.number != num
    ensures found.Some? ==> found.value.number == num
    ensures found.Some? ==> exists k :: 0 <= k < |pins| && pins[k] == found.value &&
                                        forall m :: k < m < |pins| ==> pins[m].number != num
  {
    if pins == [] then None
    else if pins[|pins| - 1].number == num then Some(pins[|pins| - 1])
    else
      var found := LastProvisioned(pins[..|pins| - 1], num);
      assert pins == pins[..|pins| - 1] + [pins[|pins| - 1]];
      found
  }

  /** The outcome of acquiring a pin: what is returned or thrown, and the
      controller's provisioned pins afterwards. */
  datatype Acquisition = Acquisition(result: Result<PinHandle>, provisioned: seq<PinHandle>)

  /** Acquiring `num` for input: reuse the pin already provisioned with
      that number, else provision a pulled-down input. */
  function InputAcquisition(pins: seq<PinHandle>, num: int): (a: Acquisition)
    ensures a.result.Ok? <==> PinExists(num)
    ensures a.result.Throw? ==> a.result == Throw(ArrayIndexOutOfBounds(num)) && a.provisioned == pins
    ensures a.result.Ok? ==> a.result.value.number == num && a.result.value in a.provisioned
    ensures a.provisioned == pins || a.provisioned == pins + [PinHandle(num, InputPullDown)]
    ensures a.provisioned != pins <==> PinExists(num) && forall h :: h in pins ==> h.number != num
  {
    if !PinExists(num) then Acquisition(Throw(ArrayIndexOutOfBounds(num)), pins)
    else match LastProvisioned(pins, num)
      case Some(pin) => Acquisition(Ok(pin), pins)
      case None =>
        var pin := PinHandle(num, InputPullDown);
        Acquisition(Ok(pin), pins + [pin])
  }

  /** Acquiring an input pin a second time returns the same handle and
      provisions nothing. */
  lemma InputAcquisitionIdempotent(pins: seq<PinHandle>, num: int)
    ensures var a := InputAcquisition(pins, num);
      InputAcquisition(a.provisioned, num) == a
  {
    var a := InputAcquisition(pins, num);
    if a.provisioned != pins {
      var pin := PinHandle(num, InputPullDown);
      assert a.provisioned == pins + [pin];
      assert LastProvisioned(pins + [pin], num) == Some(pin);
    }
  }

  // ---------------------------------------------------------------------------
  // The driver
  // ---------------------------------------------------------------------------

  class Mcp3208 {
    const chipSelect: PinHandle
    const clock: PinHandle
    const mosi: PinHandle
    const miso: PinHandle

    constructor FromPins(chipSelect: PinHandle, clock: PinHandle, mosi: PinHandle, miso: PinHandle)
      ensures this.chipSelect == chipSelect && this.clock == clock
      ensures this.mosi == mosi && this.miso == miso
    {
      this.chipSelect := chipSelect;
      this.clock := clock;
      this.mosi := mosi;
      this.miso := miso;
    }

    /** The pin events of one conversion on this converter's pins. */
    function Frame(channel: int, dout: seq<bool>): seq<Event>
      requires ValidChannel(channel)
    {
      ReadFrame(chipSelect.number, clock.number, mosi.number, miso.number, channel, dout)
    }

    /** Acquires the four pins in the order chip select, clock, MOSI
        (the converter's DIN), MISO (its DOUT), raising chip select as
        soon as it is acquired. The first pin number outside the pin
        table aborts construction. */
    static method Connect(gpio: Controller, cs: int, clk: int, dOut: int, dIn: int) returns (r: Result<Mcp3208>)
      modifies gpio
      ensures !PinExists(cs) ==>
        && r == Throw(ArrayIndexOutOfBounds(cs))
        && gpio.provisioned == old(gpio.provisioned) && gpio.trace == old(gpio.trace)
      ensures PinExists(cs) && !PinExists(clk) ==>
        && r == Throw(ArrayIndexOutOfBounds(clk))
        && gpio.provisioned == old(gpio.provisioned) + [PinHandle(cs, OutputLow)]
        && gpio.trace == old(gpio.trace) + [Drive(cs, false), Drive(cs, true)]
      ensures PinExists(cs) && PinExists(clk) && !PinExists(dIn) ==>
        && r == Throw(ArrayIndexOutOfBounds(dIn))
        && gpio.provisioned == old(gpio.provisioned) + [PinHandle(cs, OutputLow), PinHandle(clk, OutputLow)]
        && gpio.trace == old(gpio.trace) + [Drive(cs, false), Drive(cs, true), Drive(clk, false)]
      ensures PinExists(cs) && PinExists(clk) && PinExists(dIn) ==>
        var outputs := [PinHandle(cs, OutputLow), PinHandle(clk, OutputLow), PinHandle(dIn, OutputLow)];
        var input := InputAcquisition(old(gpio.provisioned) + outputs, dOut);
        && gpio.provisioned == input.provisioned
        && gpio.trace == old(gpio.trace) + [Drive(cs, false), Drive(cs, true), Drive(clk, false), Drive(dIn, false)]
        && (!PinExists(dOut) ==> r == Throw(ArrayIndexOutOfBounds(dOut)))
        && (PinExists(dOut) ==>
              && r.Ok? && fresh(r.value)
              && r.value.chipSelect == outputs[0] && r.value.clock == outputs[1]
              && r.value.mosi == outputs[2] && Ok(r.value.miso) == input.result)
    {
      var chipSelect := GetAndProvisionOutputPin(gpio, cs);
      if chipSelect.Throw? {
        return Throw(chipSelect.exception);
      }
      // chip select idles high; low starts a conversion
      gpio.Set(chipSelect.value, true);
      var clock := GetAndProvisionOutputPin(gpio, clk);
      if clock.Throw? {
        return Throw(clock.exception);
      }
      var mosi := GetAndProvisionOutputPin(gpio, dIn);
      if mosi.Throw? {
        return Throw(mosi.exception);
      }
      var miso := GetAndProvisionInputPin(gpio, dOut);
      if miso.Throw? {
        return Throw(miso.exception);
      }
      var adc := new Mcp3208.FromPins(chipSelect.value, clock.value, mosi.value, miso.value);
      return Ok(adc);
    }

    /** Runs one conversion on `channel`. `dout` gives the levels the
        converter presents on its DOUT pin at the successive data clocks. */
    method Read(gpio: Controller, channel: int, dout: seq<bool>) returns (r: Result<int>)
      modifies gpio`trace
      ensures !ValidChannel(channel) ==>
        r == Throw(IllegalArgument("channel", channel)) && gpio.trace == old(gpio.trace)
      ensures ValidChannel(channel) ==>
        r == Ok(Conversion(dout)) && gpio.trace == old(gpio.trace) + Frame(channel, dout)
    {
      if channel > 7 || channel < 0 {
        return Throw(IllegalArgument("channel", channel));
      }
      // the start bit: once selected, the converter takes the first high on MOSI as the start
      gpio.Set(chipSelect, false);
      gpio.Set(mosi, true);
      ClockCycle(gpio);
      WriteCommand(gpio, channel);
      // null bit while the converter samples its input
      ClockCycle(gpio);
      var result := ReadData(gpio, dout);
      gpio.Set(chipSelect, true);
      AppendReadFrame(old(gpio.trace), chipSelect.number, clock.number, mosi.number, miso.number, channel, dout);
      return Ok(result);
    }

    /** The command phase of `Read`: clocks out the four bits of the
        command byte `0b1000 | channel`, testing bit 3 and shifting left. */
    method WriteCommand(gpio: Controller, channel: int)
      requires ValidChannel(channel)
      modifies gpio`trace
      ensures gpio.trace == old(gpio.trace) + CommandFrame(clock.number, mosi.number, CommandBits(channel))
    {
      var command: bv8 := 0x08;
      command := command | channel as bv8;
      ghost var bits := CommandBits(channel);
      for i := 0 to 4
        invariant command == CommandShifted(channel, i)
        invariant gpio.trace == old(gpio.trace) + CommandFrame(clock.number, mosi.number, bits[..i])
      {
        CommandBitSent(channel, i);
        SendBit(gpio, command);
        command := command << 1;
        CommandFrameExtend(old(gpio.trace), clock.number, mosi.number, bits, i);
      }
      assert bits[..4] == bits;
    }

    /** One step of the command phase: MOSI takes bit 3 of `command`,
        then the clock pulses. */
    method SendBit(gpio: Controller, command: bv8)
      modifies gpio`trace
      ensures gpio.trace == old(gpio.trace) + [Drive(mosi.number, command & 0x08 != 0)] + Pulse(clock.number)
    {
      if command & 0x08 != 0 {
        gpio.Set(mosi, true);
      } else {
        gpio.Set(mosi, false);
      }
      ClockCycle(gpio);
    }

    /** The data phase of `Read`: twelve pulses, each followed by a sample
        of DOUT that is ORed into the low bit of a `short` accumulator
        which is then shifted left; a final right shift undoes the
        shift after the last bit. The accumulator never exceeds 8190, so
        the `short` never wraps. */
    method ReadData(gpio: Controller, dout: seq<bool>) returns (result: int)
      modifies gpio`trace
      ensures result == Conversion(dout)
      ensures gpio.trace == old(gpio.trace) + DataFrame(clock.number, miso.number, DataBits(dout))
    {
      ghost var data := DataBits(dout);
      result := 0;
      for i := 0 to 12
        invariant result == 2 * MsbValue(data[..i])
        invariant gpio.trace == old(gpio.trace) + DataFrame(clock.number, miso.number, data[..i])
      {
        ClockCycle(gpio);
        var high := gpio.IsHigh(miso, Level(dout, i));
        ShiftInBit(data, i);
        if high {
          result := ShortOf(SetLowBit(result));
        }
        result := ShortOf(result * 2);
        DataFrameExtend(old(gpio.trace), clock.number, miso.number, data, i);
      }
      assert data[..12] == data;
      result := ShortOf(result / 2);
    }

    /** One clock pulse: raise the clock, then lower it. */
    method ClockCycle(gpio: Controller)
      modifies gpio`trace
      ensures gpio.trace == old(gpio.trace) + Pulse(clock.number)
    {
      gpio.Set(clock, true);
      gpio.Set(clock, false);
    }

    /** Acquires pin `num` for input, reusing an already provisioned pin. */
    static method GetAndProvisionInputPin(gpio: Controller, num: int) returns (r: Result<PinHandle>)
      modifies gpio`provisioned
      ensures Acquisition(r, gpio.provisioned) == InputAcquisition(old(gpio.provisioned), num)
    {
      var existing := gpio.provisioned;
      if !PinExists(num) {
        return Throw(ArrayIndexOutOfBounds(num));
      }
      var found: Option<PinHandle> := None;
      for i := 0 to |existing|
        invariant found == LastProvisioned(existing[..i], num)
      {
        if existing[i].number == num {
          found := Some(existing[i]);
        }
        assert existing[..i + 1][..i] == existing[..i];
      }
      assert existing[..|existing|] == existing;
      if found.None? {
        var pin := gpio.ProvisionInput(num);
        found := Some(pin);
      }
      return Ok(found.value);
    }

    /** Acquires pin `num` for output; this always provisions it anew. */
    static method GetAndProvisionOutputPin(gpio: Controller, num: int) returns (r: Result<PinHandle>)
      modifies gpio
      ensures !PinExists(num) ==>
        r == Throw(ArrayIndexOutOfBounds(num))
        && gpio.provisioned == old(gpio.provisioned) && gpio.trace == old(gpio.trace)
      ensures PinExists(num) ==>
        && r == Ok(PinHandle(num, OutputLow))
        && gpio.provisioned == old(gpio.provisioned) + [PinHandle(num, OutputLow)]
        && gpio.trace == old(gpio.trace) + [Drive(num, false)]
    {
      if !PinExists(num) {
        return Throw(ArrayIndexOutOfBounds(num));
      }
      var pin := gpio.ProvisionOutput(num);
      return Ok(pin);
    }
  }

  /** The command byte `0b1000 | channel` after `i` left shifts. */
  function CommandShifted(channel: int, i: nat): bv8
    requires ValidChannel(channel) && i <= 4
  {
    (0x08 | channel as bv8) << i
  }

  /** Testing bit 3 of the command byte after `i` left shifts yields the
      `i`-th command bit, and one more shift gives the next command byte. */
  lemma CommandBitSent(channel: int, i: int)
    requires ValidChannel(channel) && 0 <= i < 4
    ensures (CommandShifted(channel, i) & 0x08 != 0) == CommandBits(channel)[i]
    ensures CommandShifted(channel, i) << 1 == CommandShifted(channel, i + 1)
  {
    CommandBitsNibble(channel);
    ShiftedBit(channel, i);
  }

  /** The command nibble spelled out bit by bit. */
  lemma CommandBitsNibble(channel: int)
    requires ValidChannel(channel)
    ensures CommandBits(channel) == [true, channel / 4 % 2 == 1, channel / 2 % 2 == 1, channel % 2 == 1]
  {
    assert Bits(channel, 3) == Bits(channel / 2, 2) + [channel % 2 == 1];
    assert Bits(channel / 2, 2) == Bits(channel / 4, 1) + [channel / 2 % 2 == 1];
    assert Bits(channel / 4, 1) == [channel / 4 % 2 == 1];
  }

  /** Bit 3 of the command byte after `i` left shifts is bit `3 - i` of
      `0b1000 | channel`. */
  lemma ShiftedBit(channel: int, i: int)
    requires ValidChannel(channel) && 0 <= i < 4
    ensures (CommandShifted(channel, i) & 0x08 != 0)
         == [true, channel / 4 % 2 == 1, channel / 2 % 2 == 1, channel % 2 == 1][i]
    ensures CommandShifted(channel, i) << 1 == CommandShifted(channel, i + 1)
  {
  }

  lemma CommandFrameExtend(t: seq<Event>, clk: nat, mosi: nat, bits: seq<bool>, i: nat)
    requires i < |bits|
    ensures t + CommandFrame(clk, mosi, bits[..i + 1])
         == t + CommandFrame(clk, mosi, bits[..i]) + [Drive(mosi, bits[i])] + Pulse(clk)
  {
    assert bits[..i + 1][..i] == bits[..i];
  }

  lemma DataFrameExtend(t: seq<Event>, clk: nat, miso: nat, bits: seq<bool>, i: nat)
    requires i < |bits|
    ensures t + DataFrame(clk, miso, bits[..i + 1])
         == t + DataFrame(clk, miso, bits[..i]) + Pulse(clk) + [Sense(miso, bits[i])]
  {
    assert bits[..i + 1][..i] == bits[..i];
  }

  /** One data step of `read` on a `short` accumulator holding twice the
      bits so far: OR in the sampled bit, then shift left. Fewer than
      twelve bits never make the `short` wrap. */
  lemma ShiftInBit(bits: seq<bool>, i: nat)
    requires i < |bits| <= 12
    ensures var acc := 2 * MsbValue(bits[..i]);
      var acc1 := if bits[i] then ShortOf(SetLowBit(acc)) else acc;
      ShortOf(acc1 * 2) == 2 * MsbValue(bits[..i + 1])
  {
    var v := MsbValue(bits[..i]);
    MsbValueBelow(bits[..i], 11);
    assert bits[..i + 1][..i] == bits[..i];
    if bits[i] {
      SetLowBitOfEven(v);
      assert ShortOf(2 * v + 1) == 2 * v + 1;
      assert ShortOf((2 * v + 1) * 2) == 4 * v + 2;
    } else {
      assert ShortOf(2 * v * 2) == 4 * v;
    }
  }

  lemma MsbValueBelow(bits: seq<bool>, n: nat)
    requires |bits| <= n <= 11
    ensures MsbValue(bits) < 0x800
  {
    Pow2Monotone(|bits|, 11);
    assert Pow2(11) == 0x800;
  }
}
