/** The sound player: it polls its sensors in array order and dispatches
    the sensor's pitch on the piano for every press reported. Also here: the
    MIDI Note On / Note Off encoders and the factory that wires up to
    eight sensors to consecutive converter channels. */
module Player {
  import opened Jvm
  import opened Gpio
  import opened Mcp3208Driver
  import opened Pitches
  import opened Sensors
  import opened Instruments

  // ---------------------------------------------------------------------------
  // MIDI channel-voice messages (MIDI 1.0 Detailed Specification)
  // ---------------------------------------------------------------------------

  /** The status nibbles of the Note Off, Note On and Polyphonic Key
      Pressure messages. */
  const NOTE_OFF := 0x8
  const NOTE_ON := 0x9
  const KEY_PRESSURE := 0xA

  /** The message kind and the channel carried by a status octet. */
  function StatusKind(status: int): int requires 0 <= status < 0x100 { status / 16 }
  function StatusChannel(status: int): int requires 0 <= status < 0x100 { status % 16 }

  /** Every element is a Java `byte`. */
  predicate IsByteSeq(s: seq<int>) {
    forall i :: 0 <= i < |s| ==> -0x80 <= s[i] < 0x80
  }

  /** `noteOn` as written: accepts channels 0..16 and velocities 0..127. */
  function NoteOn(channel: int, note: Pitch, velocity: int): (r: Result<seq<int>>)
    ensures !(0 <= channel <= 16) ==> r == Throw(IllegalArgument("channel", channel))
    ensures 0 <= channel <= 16 && !(0 <= velocity <= 127) ==> r == Throw(IllegalArgument("velocity", velocity))
    ensures r.Ok? <==> 0 <= channel <= 16 && 0 <= velocity <= 127
    ensures r.Ok? ==>
      && |r.value| == 3 && IsByteSeq(r.value)
      && Unsigned(r.value[0]) == (0x90 + channel) % 0x100
      && r.value[1] == note.MidiCode() && r.value[2] == velocity
  {
    if channel > 16 || channel < 0 then Throw(IllegalArgument("channel", channel))
    else if velocity > 127 || velocity < 0 then Throw(IllegalArgument("velocity", velocity))
    else
      // the Note On status nibble shifted into the high half of a Java byte,
      // then the channel added, each result narrowed to a byte
      var b1 := ByteOf(0x09 * 16);
      var b1' := ByteOf(b1 + ByteOf(channel));
      Ok([b1', note.MidiCode(), ByteOf(velocity)])
  }

  /** `noteOff` as written: accepts channels 0..16, velocity is always 0. */
  function NoteOff(channel: int, note: Pitch): (r: Result<seq<int>>)
    ensures !(0 <= channel <= 16) <==> r == Throw(IllegalArgument("channel", channel))
    ensures r.Ok? <==> 0 <= channel <= 16
    ensures r.Ok? ==>
      && |r.value| == 3 && IsByteSeq(r.value)
      && Unsigned(r.value[0]) == (0x80 + channel) % 0x100
      && r.value[1] == note.MidiCode() && r.value[2] == 0
  {
    if channel > 16 || channel < 0 then Throw(IllegalArgument("channel", channel))
    else
      // the Note Off status nibble shifted into the high half of a Java byte,
      // then the channel added, each result narrowed to a byte
      var b1 := ByteOf(0x08 * 16);
      var b1' := ByteOf(b1 + ByteOf(channel));
      Ok([b1', note.MidiCode(), 0x00])
  }

  /** For the sixteen MIDI channels 0..15 both encoders produce the message
      they name, on the channel asked for. */
  lemma NoteMessagesOnMidiChannels(channel: int, note: Pitch, velocity: int)
    requires 0 <= channel < 16 && 0 <= velocity <= 127
    ensures var on := NoteOn(channel, note, velocity).value;
      StatusKind(Unsigned(on[0])) == NOTE_ON && StatusChannel(Unsigned(on[0])) == channel
    ensures var off := NoteOff(channel, note).value;
      StatusKind(Unsigned(off[0])) == NOTE_OFF && StatusChannel(Unsigned(off[0])) == channel
  {
  }

  /** Channel 16, which both encoders accept, does not exist in MIDI: the
      status byte wraps to 0xA0, Polyphonic Key Pressure on channel 0, for
      Note On, and to 0x90, a Note On on channel 0, for Note Off. */
  lemma Channel16Wraps(note: Pitch, velocity: int)
    requires 0 <= velocity <= 127
    ensures var on := NoteOn(16, note, velocity);
      on.Ok? && Unsigned(on.value[0]) == 0xA0
      && StatusKind(Unsigned(on.value[0])) == KEY_PRESSURE && StatusChannel(Unsigned(on.value[0])) == 0
    ensures var off := NoteOff(16, note);
      off.Ok? && Unsigned(off.value[0]) == 0x90
      && StatusKind(Unsigned(off.value[0])) == NOTE_ON && StatusChannel(Unsigned(off.value[0])) == 0
  {
  }

  /** Note On restricted to the MIDI channels 0..15. */
  function MidiNoteOn(channel: int, note: Pitch, velocity: int): (r: Result<seq<int>>)
    ensures r.Ok? <==> 0 <= channel < 16 && 0 <= velocity <= 127
    ensures r.Ok? ==>
      && |r.value| == 3 && IsByteSeq(r.value)
      && StatusKind(Unsigned(r.value[0])) == NOTE_ON && StatusChannel(Unsigned(r.value[0])) == channel
      && r.value[1] == note.MidiCode() && r.value[2] == velocity
  {
    if channel > 15 || channel < 0 then Throw(IllegalArgument("channel", channel))
    else NoteOn(channel, note, velocity)
  }

  /** Note Off restricted to the MIDI channels 0..15. */
  function MidiNoteOff(channel: int, note: Pitch): (r: Result<seq<int>>)
    ensures r.Ok? <==> 0 <= channel < 16
    ensures r.Ok? ==>
      && |r.value| == 3 && IsByteSeq(r.value)
      && StatusKind(Unsigned(r.value[0])) == NOTE_OFF && StatusChannel(Unsigned(r.value[0])) == channel
      && r.value[1] == note.MidiCode() && r.value[2] == 0
  {
    if channel > 15 || channel < 0 then Throw(IllegalArgument("channel", channel))
    else NoteOff(channel, note)
  }

  // ---------------------------------------------------------------------------
  // Wiring sensors
  // ---------------------------------------------------------------------------

  /** The MCP3208 has eight channels, so at most eight sensors are made. */
  const MAX_SENSORS := 8

  function Min(a: int, b: int): int { if a < b then a else b }

  predicate Distinct(sensors: seq<PulseSensor?>) {
    forall i, j :: 0 <= i < j < |sensors| ==> sensors[i] != sensors[j]
  }

  /** `num` sensors (at most eight) on channels 0, 1, ... of `adc`, with the
      C major scale from C4 as their pitches. A negative `num` fails when
      the array is allocated. */
  method SequentialSensors(num: int, adc: Mcp3208) returns (r: Result<array<PulseSensor?>>)
    ensures num < 0 <==> r == Throw(NegativeArraySize(num))
    ensures r.Ok? <==> num >= 0
    ensures r.Ok? ==>
      var sensors := r.value;
      && fresh(sensors) && sensors.Length == Min(num, MAX_SENSORS)
      && Distinct(sensors[..])
      && forall i :: 0 <= i < sensors.Length ==>
           && sensors[i] != null && fresh(sensors[i])
           && sensors[i].adc == adc && sensors[i].channel == i
           && sensors[i].pitch == CMajor()[i] && !sensors[i].isPressed
  {
    var n := num;
    if n > 8 {
      n := 8;
    }
    var pitches := CMajor();
    if n < 0 {
      return Throw(NegativeArraySize(n));
    }
    var sensors := new PulseSensor?[n];
    for i := 0 to n
      invariant Distinct(sensors[..i])
      invariant forall j :: 0 <= j < i ==>
        && sensors[j] != null && fresh(sensors[j])
        && sensors[j].adc == adc && sensors[j].channel == j
        && sensors[j].pitch == pitches[j] && !sensors[j].isPressed
    {
      sensors[i] := new PulseSensor(adc, i, pitches[i]);
    }
    assert sensors[..n] == sensors[..];
    return Ok(sensors);
  }

  // ---------------------------------------------------------------------------
  // One polling pass
  // ---------------------------------------------------------------------------

  /** A `playNote` call: the pitch and the instrument it is played on. */
  datatype Dispatch = PlayNote(pitch: Pitch, voice: Voice)

  /** What a pass has done so far: the state of the sensors (a sensor
      listed twice has one entry; one without an entry is released, as a
      new sensor is), the notes dispatched, and the exception that ended
      the pass, if one did. */
  datatype PassState = PassState(
    pressed: map<PulseSensor?, bool>,
    played: seq<Dispatch>,
    thrown: Option<Exception>)

  function StateOf(pressed: map<PulseSensor?, bool>, sensor: PulseSensor?): bool {
    sensor in pressed && pressed[sensor]
  }

  /** The exception reading `sensor` raises: a null entry of the array, or
      a channel the converter does not have. */
  function ReadError(sensor: PulseSensor?): (e: Option<Exception>)
    ensures e.None? <==> sensor != null && ValidChannel(sensor.channel)
  {
    if sensor == null then Some(NullPointer)
    else if !ValidChannel(sensor.channel) then Some(IllegalArgument("channel", sensor.channel))
    else None
  }

  /** The value the `k`-th poll of a pass reads. Past the end of
      `samples` the converter presents only lows, which read as 0. */
  function SampleAt(samples: seq<Sample>, k: nat): Sample {
    if k < |samples| then samples[k] else 0
  }

  /** Polling one sensor that reads `sample`: the sensor runs its
      transition, and a press dispatches its pitch on the piano. */
  function Step(s: PassState, sensor: PulseSensor?, sample: int): PassState {
    if s.thrown.Some? then s
    else if ReadError(sensor).Some? then s.(thrown := ReadError(sensor))
    else
      var p := Transition(StateOf(s.pressed, sensor), sample);
      PassState(
        s.pressed[sensor := p.pressed],
        s.played + (if p.fired then [PlayNote(sensor.pitch, Piano)] else []),
        None)
  }

  /** The effect of polling the first `n` sensors in order from `start`,
      the `k`-th reading `samples[k]`; the first sensor that cannot be read
      throws and ends the pass. */
  function Pass(sensors: seq<PulseSensor?>, n: nat, samples: seq<Sample>, start: PassState): (s: PassState)
    requires n <= |sensors|
    ensures start.thrown.Some? ==> s == start
  {
    if n == 0 then start
    else Step(Pass(sensors, n - 1, samples, start), sensors[n - 1], SampleAt(samples, n - 1))
  }

  /** Once a pass has thrown, polling more sensors changes nothing. */
  lemma {:induction false} PassStopsAtThrow(sensors: seq<PulseSensor?>, n: nat, m: nat, samples: seq<Sample>, start: PassState)
    requires n <= m <= |sensors|
    requires Pass(sensors, n, samples, start).thrown.Some?
    ensures Pass(sensors, m, samples, start) == Pass(sensors, n, samples, start)
  {
    if n < m {
      PassStopsAtThrow(sensors, n, m - 1, samples, start);
    }
  }

  /** The first `n` sensors can all be read. */
  predicate Readable(sensors: seq<PulseSensor?>, n: nat) {
    n <= |sensors| && forall k :: 0 <= k < n ==> ReadError(sensors[k]).None?
  }

  /** How many of the first `n` sensors a pass reads: all of them, or
      those before the first that cannot be read. */
  function ReadCount(sensors: seq<PulseSensor?>, n: nat): (m: nat)
    requires n <= |sensors|
    ensures m <= n && Readable(sensors, m)
    ensures m < n ==> ReadError(sensors[m]).Some?
  {
    if n == 0 then 0
    else
      var m := ReadCount(sensors, n - 1);
      if m == n - 1 && ReadError(sensors[n - 1]).None? then n else m
  }

  /** A pass throws exactly when one of its sensors cannot be read, and
      then it throws the error of the first such sensor. */
  lemma {:induction false} PassThrowsAtFirstUnreadable(sensors: seq<PulseSensor?>, n: nat, samples: seq<Sample>, start: PassState)
    requires n <= |sensors| && start.thrown.None?
    ensures var m := ReadCount(sensors, n);
      Pass(sensors, n, samples, start).thrown == if m == n then None else ReadError(sensors[m])
  {
    if n > 0 {
      PassThrowsAtFirstUnreadable(sensors, n - 1, samples, start);
    }
  }

  /** A pass changes only the states of the sensors it polls. */
  lemma {:induction false} PassLeavesOthers(sensors: seq<PulseSensor?>, n: nat, samples: seq<Sample>, start: PassState, other: PulseSensor?)
    requires n <= |sensors|
    requires forall k :: 0 <= k < n ==> sensors[k] != other
    ensures StateOf(Pass(sensors, n, samples, start).pressed, other) == StateOf(start.pressed, other)
  {
    if n > 0 {
      PassLeavesOthers(sensors, n - 1, samples, start, other);
    }
  }

  /** With distinct readable sensors, a pass moves each sensor by exactly
      one transition, on its own reading. */
  lemma {:induction false} PassStepsEachSensorOnce(sensors: seq<PulseSensor?>, n: nat, samples: seq<Sample>, start: PassState, j: nat)
    requires Distinct(sensors) && Readable(sensors, n) && start.thrown.None?
    requires j < n
    ensures StateOf(Pass(sensors, n, samples, start).pressed, sensors[j])
         == Transition(StateOf(start.pressed, sensors[j]), SampleAt(samples, j)).pressed
  {
    PassThrowsAtFirstUnreadable(sensors, n - 1, samples, start);
    if j < n - 1 {
      PassStepsEachSensorOnce(sensors, n - 1, samples, start, j);
    } else {
      PassLeavesOthers(sensors, n - 1, samples, start, sensors[j]);
    }
  }

  /** The notes dispatched when each of the first `n` sensors, from its
      own state in `pressed`, takes its own reading once. */
  function Dispatches(sensors: seq<PulseSensor?>, n: nat, samples: seq<Sample>, pressed: map<PulseSensor?, bool>): seq<Dispatch>
    requires Readable(sensors, n)
  {
    if n == 0 then []
    else
      var sensor := sensors[n - 1];
      var fired := Transition(StateOf(pressed, sensor), SampleAt(samples, n - 1)).fired;
      Dispatches(sensors, n - 1, samples, pressed) + (if fired then [PlayNote(sensor.pitch, Piano)] else [])
  }

  lemma AppendAssociative<T>(a: seq<T>, b: seq<T>, c: seq<T>)
    ensures (a + b) + c == a + (b + c)
  {
  }

  /** With distinct readable sensors, a pass dispatches the pitches of
      exactly the sensors whose own reading reported a press, in array
      order. */
  lemma {:induction false} PassDispatchesPresses(sensors: seq<PulseSensor?>, n: nat, samples: seq<Sample>, start: PassState)
    requires Distinct(sensors) && Readable(sensors, n) && start.thrown.None?
    ensures Pass(sensors, n, samples, start).played == start.played + Dispatches(sensors, n, samples, start.pressed)
  {
    if n > 0 {
      var k := n - 1;
      var sensor := sensors[k];
      PassDispatchesPresses(sensors, k, samples, start);
      PassThrowsAtFirstUnreadable(sensors, k, samples, start);
      PassLeavesOthers(sensors, k, samples, start, sensor);
      var p := Transition(StateOf(start.pressed, sensor), SampleAt(samples, k));
      var dispatched := if p.fired then [PlayNote(sensor.pitch, Piano)] else [];
      AppendAssociative(start.played, Dispatches(sensors, k, samples, start.pressed), dispatched);
    }
  }

  class SoundPlayer {
    const sensors: array<PulseSensor?>

    constructor (sensors: array<PulseSensor?>)
      ensures this.sensors == sensors
    {
      this.sensors := sensors;
    }

    /** The current state of every sensor in the array. */
    ghost function Pressed(): (pressed: map<PulseSensor?, bool>)
      reads sensors, sensors[..]
      ensures InStates(pressed)
    {
      map s | s in sensors[..] && s != null :: s.isPressed
    }

    /** `pressed` gives the current state of every sensor in the array. */
    ghost predicate InStates(pressed: map<PulseSensor?, bool>)
      reads sensors, sensors[..]
    {
      forall j :: 0 <= j < sensors.Length && sensors[j] != null ==> sensors[j].isPressed == StateOf(pressed, sensors[j])
    }

    /** Polls the `k`-th sensor as step `k` of a pass from `start` that has
        reached `state`, the converter presenting the encoding of the
        step's sample; `next` is the state after the step. A null entry
        throws, as Java's dereference of it does. */
    method PollSensor(gpio: Controller, k: int, samples: seq<Sample>, ghost start: PassState, ghost state: PassState)
      returns (fired: Result<bool>, ghost next: PassState)
      requires 0 <= k < sensors.Length
      requires state == Pass(sensors[..], k, samples, start)
      requires state.thrown.None? && InStates(state.pressed)
      modifies gpio`trace, sensors[k]
      ensures next == Pass(sensors[..], k + 1, samples, start)
      ensures InStates(next.pressed)
      ensures fired.Throw? ==> next.thrown == Some(fired.exception) && gpio.trace == old(gpio.trace)
      ensures fired.Ok? ==>
        && next.thrown.None? && sensors[k] != null
        && next.played == state.played + (if fired.value then [PlayNote(sensors[k].pitch, Piano)] else [])
        && gpio.trace == old(gpio.trace)
             + sensors[k].adc.Frame(sensors[k].channel, Bits(SampleAt(samples, k), RESOLUTION))
    {
      var sensor := sensors[k];
      var sample := SampleAt(samples, k);
      next := Step(state, sensor, sample);
      if sensor == null {
        return Throw(NullPointer), next;
      }
      ConversionOfEncoding(sample);
      fired := sensor.ReadAdc(gpio, Bits(sample, RESOLUTION));
      forall j | 0 <= j < sensors.Length && sensors[j] != null
        ensures sensors[j].isPressed == StateOf(next.pressed, sensors[j])
      {
      }
    }

    /** One pass of `start`'s polling loop, in which the converter presents
        the encoding of `samples[k]` to the `k`-th poll. Returns the notes
        dispatched and the exception that ended the pass, if any, and
        leaves each sensor in the state the pass gives it. */
    method PollOnce(gpio: Controller, samples: seq<Sample>) returns (played: seq<Dispatch>, thrown: Option<Exception>)
      modifies gpio`trace, sensors[..]
      ensures var s := Pass(sensors[..], sensors.Length, samples, PassState(old(Pressed()), [], None));
        && played == s.played && thrown == s.thrown && InStates(s.pressed)
    {
      ghost var start := PassState(Pressed(), [], None);
      ghost var state := start;
      played, thrown := [], None;
      var k := 0;
      while k < sensors.Length
        invariant 0 <= k <= sensors.Length
        invariant state == Pass(sensors[..], k, samples, start)
        invariant state.played == played && state.thrown.None? && InStates(state.pressed)
      {
        var fired;
        fired, state := PollSensor(gpio, k, samples, start, state);
        if fired.Throw? {
          thrown := Some(fired.exception);
          PassStopsAtThrow(sensors[..], k + 1, sensors.Length, samples, start);
          return;
        }
        if fired.value {
          played := played + [PlayNote(sensors[k].pitch, Piano)];
        }
        k := k + 1;
      }
    }
  }
}
