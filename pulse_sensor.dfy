/** A touch sensor on one converter channel. Each poll takes one sample and
    runs a two-state hysteresis machine: a press is reported when a
    released sensor's sample falls below THRESHOLD, and the sensor is
    re-armed only once a sample lies strictly between DOWN_NORMAL and
    UP_NORMAL. */
module Sensors {
  import opened Jvm
  import opened Gpio
  import opened Mcp3208Driver
  import opened Pitches

  /** A sample below this is a press. */
  const THRESHOLD := 900
  /** Re-arming needs a sample strictly between these two. */
  const DOWN_NORMAL := 1900
  const UP_NORMAL := 2100

  /** The result of one poll: the state afterwards and whether a press was reported. */
  datatype Poll = Poll(pressed: bool, fired: bool)

  predicate InRearmBand(sample: int) {
    DOWN_NORMAL < sample < UP_NORMAL
  }

  /** One poll of a sensor in state `pressed` that reads `sample`. */
  function Transition(pressed: bool, sample: int): (p: Poll)
    // a press is reported exactly on the released-to-pressed edge
    ensures p.fired <==> !pressed && p.pressed
    // released: becomes pressed iff the sample is below the threshold
    ensures !pressed ==> (p.pressed <==> sample < THRESHOLD)
    // pressed: stays pressed unless the sample is inside the re-arm band
    ensures pressed ==> (p.pressed <==> !InRearmBand(sample))
  {
    if pressed then
      Poll(if DOWN_NORMAL < sample && sample < UP_NORMAL then false else pressed, false)
    else if sample < THRESHOLD then Poll(true, true)
    else Poll(false, false)
  }

  /** The final state and the reported results of polling `samples` in turn. */
  datatype History = History(pressed: bool, results: seq<bool>)

  function Replay(pressed: bool, samples: seq<int>): (h: History)
    ensures |h.results| == |samples|
    decreases |samples|
  {
    if samples == [] then History(pressed, [])
    else
      var p := Transition(pressed, samples[0]);
      var rest := Replay(p.pressed, samples[1..]);
      History(rest.pressed, [p.fired] + rest.results)
  }

  /** From the pressed state, a press can be reported again only after a
      sample in the re-arm band. */
  lemma {:induction false} NoPressBeforeRearm(samples: seq<int>, j: nat)
    requires j < |samples| && Replay(true, samples).results[j]
    ensures exists k :: 0 <= k < j && InRearmBand(samples[k])
  {
    var p := Transition(true, samples[0]);
    if InRearmBand(samples[0]) {
      assert j > 0;
    } else {
      assert j > 0 && p.pressed;
      assert Replay(true, samples).results[j] == Replay(true, samples[1..]).results[j - 1];
      NoPressBeforeRearm(samples[1..], j - 1);
      var k :| 0 <= k < j - 1 && InRearmBand(samples[1..][k]);
      assert InRearmBand(samples[k + 1]);
    }
  }

  /** Between any two reported presses some sample lies strictly inside
      (DOWN_NORMAL, UP_NORMAL): noise in the dead zone never re-triggers. */
  lemma {:induction false} RearmBetweenPresses(pressed: bool, samples: seq<int>, i: nat, j: nat)
    requires i < j < |samples|
    requires Replay(pressed, samples).results[i] && Replay(pressed, samples).results[j]
    ensures exists k :: i < k < j && InRearmBand(samples[k])
    decreases i
  {
    var p := Transition(pressed, samples[0]);
    var rest := samples[1..];
    assert Replay(pressed, samples).results[j] == Replay(p.pressed, rest).results[j - 1];
    if i == 0 {
      assert p.fired && p.pressed;
      NoPressBeforeRearm(rest, j - 1);
      var k :| 0 <= k < j - 1 && InRearmBand(rest[k]);
      assert InRearmBand(samples[k + 1]);
    } else {
      assert Replay(pressed, samples).results[i] == Replay(p.pressed, rest).results[i - 1];
      RearmBetweenPresses(p.pressed, rest, i - 1, j - 1);
      var k :| i - 1 < k < j - 1 && InRearmBand(rest[k]);
      assert InRearmBand(samples[k + 1]);
    }
  }

  /** One touch: a dip below the threshold is reported once; the sensor is
      re-armed at 1950 without reporting anything. */
  lemma ScenarioSingleTouch()
    ensures Replay(false, [2000, 850, 860, 1000, 1950, 2050])
         == History(false, [false, true, false, false, false, false])
  {
    assert Replay(true, [1950, 2050]) == History(false, [false, false]);
    assert Replay(true, [860, 1000, 1950, 2050]) == History(false, [false, false, false, false]);
  }

  /** A signal oscillating around the threshold is reported once only. */
  lemma ScenarioOscillation()
    ensures Replay(false, [880, 920, 870, 930]) == History(true, [true, false, false, false])
  {
    assert Replay(true, [870, 930]) == History(true, [false, false]);
  }

  class PulseSensor {
    /** The pitch to play when the sensor is pressed. */
    const pitch: Pitch
    /** The converter the sensor is wired to, and the channel it uses. */
    const adc: Mcp3208
    const channel: int
    var isPressed: bool

    constructor (adc: Mcp3208, channel: int, pitch: Pitch)
      ensures this.adc == adc && this.channel == channel && this.pitch == pitch
      ensures !isPressed
    {
      this.adc := adc;
      this.channel := channel;
      this.pitch := pitch;
      isPressed := false;
    }

    /** Takes one sample on the sensor's channel and reports whether this
        poll detected a press. `dout` is what the converter presents. */
    method ReadAdc(gpio: Controller, dout: seq<bool>) returns (r: Result<bool>)
      modifies this, gpio`trace
      ensures !ValidChannel(channel) ==>
        && r == Throw(IllegalArgument("channel", channel))
        && isPressed == old(isPressed) && gpio.trace == old(gpio.trace)
      ensures ValidChannel(channel) ==>
        var p := Transition(old(isPressed), Conversion(dout));
        && r == Ok(p.fired) && isPressed == p.pressed
        && gpio.trace == old(gpio.trace) + adc.Frame(channel, dout)
    {
      var read := adc.Read(gpio, channel, dout);
      if read.Throw? {
        return Throw(read.exception);
      }
      var result := read.value;
      if isPressed {
        if DOWN_NORMAL < result && result < UP_NORMAL {
          isPressed := false;
        }
        return Ok(false);
      }
      if result < THRESHOLD {
        isPressed := true;
        return Ok(true);
      } else {
        return Ok(false);
      }
    }
  }
}
