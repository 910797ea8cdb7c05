# music-from-the-heart, modelled in Dafny

music-from-the-heart turns touch sensors wired to a Raspberry Pi into a
small keyboard. Each sensor feeds one channel of an MCP3208, an 8-channel,
12-bit analog-to-digital converter. The Pi reaches the converter over SPI,
bit-banged on four GPIO pins. A sound player polls the sensors in turn.
Each sensor runs a hysteresis machine on its sample, and every press plays
the sensor's pitch on the piano.

This project models the core of that program and proves its properties:

- `mcp3208.dfy` (module `Mcp3208Driver`) models the converter driver.
  - The class `Mcp3208` has `Read`, `ClockCycle` and the two pin-acquisition methods. The constructor is modelled as `Connect`.
  - `ReadFrame` is a specification of the exact pin events of one conversion. `Read` is proved to produce exactly that frame and to return the twelve sampled bits read most significant first.
  - Lemmas state the frame's layout, its clock count and its chip-select framing, and the round trip between values and their 12-bit encodings.
- `gpio.dfy` (module `Gpio`) stands for the platform's GPIO controller.
  - It keeps a list of provisioned pins.
  - It keeps an append-only trace of pin events: `Drive` for an output set high or low, `Sense` for an input read.
  - The levels the converter presents on its DOUT pin are a parameter of each read.
- `pulse_sensor.dfy` (module `Sensors`) models the touch sensor.
  - The class `PulseSensor` has its constructor and `ReadAdc`.
  - `ReadAdc` is specified by the pure hysteresis `Transition`. `Replay` runs `Transition` over a sequence of samples.
  - Lemmas state when presses can and cannot be reported.
- `sound_player.dfy` (module `Player`) models the sound player.
  - The MIDI Note On and Note Off encoders, with Java's `byte` arithmetic.
  - `SequentialSensors`, the sensor factory.
  - The class `SoundPlayer`, whose `PollOnce` is one pass of the polling loop of `start`. It is proved against `Pass`, a fold of one poll step over the sensor array.
  - `Pass` tracks sensor states by object, so an array that lists the same sensor twice, or holds `null`, is covered.
- `instrument.dfy` (module `Instruments`) models the instruments and their per-pitch clip cache, with the sound-file loader's outcome as a parameter.
- `pitch.dfy` (module `Pitches`) models the thirteen pitches C4..C5: MIDI codes, file names and the C major scale.
- `jvm.dfy` (module `Jvm`) holds the Java semantics the code relies on:
  - exceptions, and `Result` for a call that may throw;
  - the `(short)` and `(byte)` narrowing conversions;
  - `x | 1` on a non-negative integer.

Acquiring a pin is asymmetric. `getAndProvisionInputPin`
(MCP3208.java:118-136) reuses a pin that is already provisioned, so input
acquisition is idempotent (`InputAcquisitionIdempotent`).
`getAndProvisionOutputPin` (MCP3208.java:144-147) never reuses a pin: it
provisions the pin anew on every call, and the model's
`GetAndProvisionOutputPin` does the same.

## Model

| member | source | states |
|---|---|---|
| `Jvm.ShortOf` | MCP3208.java:88-96 | A `(short)` narrowing keeps the value modulo 2^16 in [-32768, 32767], and leaves a value already in range unchanged. |
| `Jvm.ByteOf` | Pitch.java:31 | A `(byte)` narrowing keeps the value modulo 256 in [-128, 127], and leaves a value already in range unchanged. |
| `Jvm.SetLowBit` | MCP3208.java:92 | Java's `x OR 1` makes the value odd and adds at most one. |
| `Mcp3208Driver.MsbValueOfBits` | MCP3208.java:88-96 | Reading the n-bit MSB-first encoding of v < 2^n gives back v. |
| `Mcp3208Driver.BitsOfMsbValue` | MCP3208.java:88-96 | Re-encoding the value of a bit string at its own length gives back the bit string. |
| `Mcp3208Driver.Conversion` | MCP3208.java:63-65 | The value of a conversion is 12-bit data: it lies in [0, 4095]. |
| `Mcp3208Driver.ConversionBits` | MCP3208.java:88-96 | The value read re-encodes to exactly the twelve DOUT levels sampled, so no sampled bit is lost. |
| `Mcp3208Driver.ConversionOfEncoding` | MCP3208.java:88-96 | If the converter presents the 12-bit encoding of v, the conversion is v. |
| `Mcp3208Driver.CommandBits` | MCP3208.java:75-76 | The command nibble has four bits and starts with the single-ended 1. |
| `Mcp3208Driver.CommandBitsValue` | MCP3208.java:75-76 | The nibble's value is 0b1000 plus the channel, which is `0b1000 OR channel`, and its last three bits spell the channel. |
| `Mcp3208Driver.CommandBitsForChannel5` | MCP3208.java:75-85 | Channel 5 sends the nibble 1, 1, 0, 1. |
| `Mcp3208Driver.ReadFrameLayout` | MCP3208.java:69-97 | A conversion is 55 pin events in this order: CS low, MOSI high, a pulse (start bit); four MOSI levels each followed by a pulse; one pulse (null bit); twelve pulses each followed by a sense of DOUT; CS high. |
| `Mcp3208Driver.ReadFrameClockPulses` | MCP3208.java:73-90 | Every conversion raises and lowers the clock exactly 18 times each: 1 start, 4 command, 1 null and 12 data pulses. |
| `Mcp3208Driver.ReadFrameChipSelect` | MCP3208.java:71-97 | CS is driven low first and high last and not at all in between, and the clock is left low. |
| `Mcp3208Driver.CommandFrameNoDrive` | MCP3208.java:77-85 | The command phase drives only the clock and MOSI. |
| `Mcp3208Driver.DataFrameNoDrive` | MCP3208.java:89-95 | The data phase drives only the clock. |
| `Mcp3208Driver.LastProvisioned` | MCP3208.java:121-129 | The scan of the provisioned pins finds nothing iff no pin has the number; otherwise it returns the last pin with that number. |
| `Mcp3208Driver.InputAcquisition` | MCP3208.java:118-136 | An input acquisition throws for a number outside the pin table and provisions nothing. It reuses a provisioned pin with the number. It provisions a pulled-down input iff no such pin exists. |
| `Mcp3208Driver.InputAcquisitionIdempotent` | MCP3208.java:118-136 | Acquiring an input pin a second time returns the same handle and provisions nothing more. |
| `Mcp3208Driver.CommandBitsNibble` | MCP3208.java:75-76 | The nibble for a channel is 1, then the channel's bits of weight 4, 2 and 1. |
| `Mcp3208Driver.ShiftedBit` | MCP3208.java:78-84 | Bit 3 of `0b1000 OR channel` after i left shifts is the i-th bit of the nibble, most significant first. |
| `Mcp3208Driver.CommandBitSent` | MCP3208.java:78-84 | Testing bit 3 of the command byte after i left shifts yields the i-th command bit, and the shift gives the next command byte. |
| `Mcp3208Driver.ShiftInBit` | MCP3208.java:91-94 | One data step (OR in the bit, shift left) turns twice the value of the first i bits into twice the value of the first i+1, and the `short` does not wrap. |
| `Mcp3208Driver.Mcp3208.Connect` | MCP3208.java:49-56 | Pins are acquired in the order CS, CLK, DIN, DOUT, and CS is driven high right after it is provisioned. The first pin number outside the table throws, and the state at that point is stated. On success the converter holds exactly these pins. |
| `Mcp3208Driver.Mcp3208.Read` | MCP3208.java:65-99 | An invalid channel throws with no pin event. A valid one emits exactly `ReadFrame` for the channel and returns the MSB-first value of the twelve sampled levels. |
| `Mcp3208Driver.Mcp3208.WriteCommand` | MCP3208.java:75-85 | The command loop clocks out exactly the four command bits, each set on MOSI and then pulsed. |
| `Mcp3208Driver.Mcp3208.SendBit` | MCP3208.java:78-83 | One command step sets MOSI to bit 3 of the command byte, then pulses the clock. |
| `Mcp3208Driver.Mcp3208.ReadData` | MCP3208.java:88-96 | The data loop pulses and senses DOUT twelve times, and after the final right shift the accumulator holds the MSB-first value of the levels sensed. |
| `Mcp3208Driver.Mcp3208.ClockCycle` | MCP3208.java:103-110 | A clock cycle raises the clock, then lowers it. |
| `Mcp3208Driver.Mcp3208.GetAndProvisionInputPin` | MCP3208.java:118-136 | Input acquisition by the scanning loop has exactly the outcome `InputAcquisition` specifies. |
| `Mcp3208Driver.Mcp3208.GetAndProvisionOutputPin` | MCP3208.java:144-147 | Output acquisition throws for a number outside the pin table. Otherwise it always provisions a new low output, which drives the pin low. |
| `Sensors.Transition` | PulseSensor.java:56-70 | A press is reported exactly on the released-to-pressed edge. A released sensor becomes pressed iff its sample is below 900. A pressed sensor is released iff its sample lies strictly between 1900 and 2100. |
| `Sensors.NoPressBeforeRearm` | PulseSensor.java:58-63 | From the pressed state, no press is reported before a sample in the re-arm band. |
| `Sensors.RearmBetweenPresses` | PulseSensor.java:24-29 | Between any two reported presses some sample lies strictly inside (1900, 2100). |
| `Sensors.ScenarioSingleTouch` | PulseSensor.java:56-70 | Samples 2000, 850, 860, 1000, 1950, 2050 from released report one press, at the second sample, and end released. |
| `Sensors.ScenarioOscillation` | PulseSensor.java:64-69 | A signal oscillating around the threshold is reported once only. |
| `Sensors.PulseSensor.constructor` | PulseSensor.java:43-48 | A new sensor keeps its converter, channel and pitch, and starts released. |
| `Sensors.PulseSensor.ReadAdc` | PulseSensor.java:56-70 | A poll performs exactly one conversion, on the sensor's own channel, and applies `Transition` to its value. An invalid channel throws and leaves the state and the pins untouched. |
| `Pitches.Pitch.Ordinal` | Pitch.java:11-12 | The ordinal indexes the pitch in the declaration order. |
| `Pitches.Pitch.Midi` | Pitch.java:11-12 | The note numbers the constants are declared with run up by one semitone per constant from middle C, 0x3C. |
| `Pitches.Pitch.MidiCode` | Pitch.java:11-31 | `MIDICode` is 60 plus the ordinal and lies in [60, 72], so the byte narrowing never wraps. |
| `Pitches.Values` | Pitch.java:11-12 | There are thirteen pitches. |
| `Pitches.Replace` | Pitch.java:33 | Replacing a character changes exactly the positions holding it and keeps the length. |
| `Pitches.ReplaceUndone` | Pitch.java:33 | Replacing by a character absent from the input is undone by the reverse replacement. |
| `Pitches.Pitch.Filename` | Pitch.java:32-34 | The file name is the constant's name with each `s` replaced by `#`, so it contains `#` exactly for the sharps. |
| `Pitches.Pitch.ToString` | Pitch.java:25-27 | `toString` gives the file name, and turning its `#` back into `s` recovers the pitch by `valueOf`. |
| `Pitches.ReplaceInjective` | Pitch.java:32-34 | Replacement by a character absent from both inputs loses nothing: equal outputs mean equal inputs. |
| `Pitches.FilenameExamples` | Pitch.java:25-34 | `toString` gives the file name: C4 is "C4", Cs4 is "C#4", As4 is "A#4", C5 is "C5". |
| `Pitches.NameDetermines` | Pitch.java:11-12 | Each pitch is recovered from its name by `valueOf`, and no name contains `#`. |
| `Pitches.PitchesDistinct` | Pitch.java:11-35 | Distinct pitches have distinct MIDI codes and distinct file names. |
| `Pitches.FilenamesDistinct` | Pitch.java:30-35 | Distinct pitches have distinct file names. |
| `Pitches.CMajor` | Pitch.java:43-45 | The C major scale has eight degrees. |
| `Pitches.CMajorIsMajorScale` | Pitch.java:37-45 | Each degree of `CMajor` lies its major-scale step above MIDI note 60. No degree is a sharp, and the codes strictly increase. |
| `Instruments.Voice.ToString` | Instrument.java:20-59 | `toString` gives the instrument's name: "piano" exactly for PIANO and "bass" exactly for BASS. |
| `Instruments.Instrument.FilenameOf` | Instrument.java:61-64 | A sample path is the instrument's folder under the samples root, then the pitch's `toString`, then ".wav". |
| `Instruments.SamplePathsDistinct` | Instrument.java:61-64 | Distinct pitches of one instrument are stored in distinct files. |
| `Instruments.Instrument.constructor` | Instrument.java:28 | The cache has one empty slot per pitch. |
| `Instruments.Instrument.GetSound` | Instrument.java:44-52 | A hit returns the cached clip and loads nothing. A miss loads the pitch's file and stores the outcome in the pitch's slot only. Either way the slot holds the clip returned. |
| `Instruments.RetryAfterFailedLoad` | Instrument.java:46-51 | A failed load leaves the slot empty, so the next request loads the file again, and a successful load is then kept. |
| `Player.NoteOn` | SoundPlayer.java:56-69 | A channel outside 0..16 throws first, then a velocity outside 0..127. Otherwise the message is 3 bytes: status (0x90 + channel) mod 256, the note's MIDI code, the velocity. |
| `Player.NoteOff` | SoundPlayer.java:80-90 | A channel outside 0..16 throws, and only then. Otherwise the message is 3 bytes: status (0x80 + channel) mod 256, the note's MIDI code, 0. |
| `Player.NoteMessagesOnMidiChannels` | SoundPlayer.java:46-90 | On channels 0..15 both encoders produce the message they name (Note On 0x9n, Note Off 0x8n) on the channel asked for. |
| `Player.Channel16Wraps` | SoundPlayer.java:58-89 | Channel 16 is accepted. Note On then gives status 0xA0, Polyphonic Key Pressure on channel 0, and Note Off gives 0x90, a Note On on channel 0. |
| `Player.MidiNoteOn` | SoundPlayer.java:56-69 | Succeeds iff the channel is in 0..15 and the velocity in 0..127, and then the status is Note On on exactly that channel. |
| `Player.MidiNoteOff` | SoundPlayer.java:80-90 | Succeeds iff the channel is in 0..15, and then the status is Note Off on exactly that channel. |
| `Player.SequentialSensors` | SoundPlayer.java:126-136 | A negative count throws, and only a negative count. Otherwise the count is clamped to 8 and the sensors are new and distinct, and sensor i is on channel i of the converter with pitch `CMajor()[i]`, released. |
| `Player.ReadError` | SoundPlayer.java:36-37 | Polling a sensor fails iff the array entry is null or its channel does not exist. |
| `Player.Pass` | SoundPlayer.java:36-40 | A pass that has thrown stays as it was. |
| `Player.PassStopsAtThrow` | SoundPlayer.java:36-40 | Once a pass has thrown, polling more sensors changes nothing. |
| `Player.ReadCount` | SoundPlayer.java:36-40 | The sensors a pass can read are a prefix of the array, and it ends at the first one that cannot be read. |
| `Player.PassThrowsAtFirstUnreadable` | SoundPlayer.java:36-40 | A pass throws iff some sensor cannot be read, and then it throws that first sensor's error. |
| `Player.PassLeavesOthers` | SoundPlayer.java:36-40 | A pass leaves the state of every sensor it does not poll unchanged. |
| `Player.PassStepsEachSensorOnce` | SoundPlayer.java:36-40 | With distinct readable sensors, a pass moves each sensor by exactly one `Transition`, on its own sample. |
| `Player.PassDispatchesPresses` | SoundPlayer.java:36-40 | With distinct readable sensors, a pass dispatches `playNote(pitch, PIANO)` for exactly the sensors whose own poll reported a press, in array order. |
| `Player.SoundPlayer.constructor` | SoundPlayer.java:25-27 | The player keeps the array it is given. |
| `Player.SoundPlayer.PollSensor` | SoundPlayer.java:37-39 | Polling the k-th sensor is step k of `Pass`. It throws for a null entry or a bad channel with no pin event. Otherwise it emits the sensor's conversion frame and dispatches its pitch iff the poll reported a press. |
| `Player.SoundPlayer.PollOnce` | SoundPlayer.java:33-42 | One pass of the polling loop returns the dispatches and the exception of `Pass` over the whole array, from the sensors' states at the start, and leaves every sensor in the state `Pass` gives it. |

## Left out

- Timing: the busy-wait loops in `clockCycle` (MCP3208.java:106, 108) have no observable effect and are not modelled. Only the clock's high and low events are.
- The pi4j library is not part of this model.
  - `GpioFactory`, `GpioController` and the `RaspiPin` table become a `Controller` object, passed to every method that touches pins, with a pin list and an event trace.
  - The pin table reduces to the wiringPi numbers 0..31. A number outside it throws `ArrayIndexOutOfBoundsException`, as indexing the table does.
  - The pin's pull resistor and the electrical behaviour of the pins are not modelled.
- Provisioning a pin that is already provisioned raises an exception inside pi4j. That exception is not modelled: `GetAndProvisionOutputPin` always succeeds for a number in the table.
- The cast to `GpioPinDigitalInput` on reuse is modelled as succeeding whatever mode the pin was provisioned in, because whether it can fail depends on pi4j's pin class.
- Mcp3208Driver.Mcp3208.Connect: models the `MCP3208` constructor as a static method returning the new converter or the exception.
- Mcp3208Driver.Mcp3208.Read: is split into `WriteCommand`, `SendBit` and `ReadData`, one per phase of the source's method. The statements and their order are those of `read`.
- The conversion inputs are the levels DOUT presents at the twelve data clocks.
  - Past the given levels, the pin reads low.
  - How the converter chip produces those levels is not modelled.
- Player.SoundPlayer.PollOnce: takes the twelve-bit sample each poll converts. By `ConversionBits`, every pattern of twelve levels is the encoding of its own conversion, so this loses no generality.
- Player.SoundPlayer.PollOnce: does not state the pass's pin events as one sequence. They are stated per poll by `PollSensor`, per conversion by `PulseSensor.ReadAdc`, and per read by `Mcp3208.Read`.
- `start` loops forever (SoundPlayer.java:35). The model covers one pass of its inner loop, and `main` (SoundPlayer.java:144-148) is left out.
- `playNote` (SoundPlayer.java:101-110) is recorded as a `PlayNote(pitch, instrument)` dispatch.
  - Its clip calls, its console output and its `NullPointerException` on a clip that failed to load are audio and console I/O and are not modelled.
- `loadSoundFile` (Instrument.java:72-100) is audio file I/O. Its outcome is the `loaded` parameter of `GetSound`, with `None` for `null`.
- The instrument enum's two singleton instances become `Instrument` objects made by the constructor, one per `Voice`. The enum's `instrumentName` field and its `toString`, which returns that field, are the one function `Voice.ToString`.
- `String.replace("s", "#")` is modelled as replacing a character, which is the same for a one-character pattern.
- ReadingGraph.java and the commented-out code in PulseSensor.java are a chart window and dead code, and are not part of this model.

## Findings

| source | as written | input that shows it | evidently intended | confidence | as-written member | corrected member |
|---|---|---|---|---|---|---|
| SoundPlayer.java:58 | `noteOn` accepts channels 0..16 and adds the channel to the status byte 0x90 | channel 16: the status byte wraps to 0xA0, Polyphonic Key Pressure on channel 0 | only the sixteen MIDI channels 0..15, each giving Note On 0x9n | not executed | `Player.Channel16Wraps` | `Player.MidiNoteOn` |
| SoundPlayer.java:82 | `noteOff` accepts channels 0..16 and adds the channel to the status byte 0x80 | channel 16: the status byte becomes 0x90, a Note On on channel 0 | only the sixteen MIDI channels 0..15, each giving Note Off 0x8n | not executed | `Player.Channel16Wraps` | `Player.MidiNoteOff` |
