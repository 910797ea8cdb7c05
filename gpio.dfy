/** The platform's GPIO controller, reduced to what the converter driver
    observes: the list of pins provisioned so far and an append-only log of
    the levels driven onto output pins and sensed on input pins. Physical
    timing and the electrical behaviour of the pins are not modelled. */
module Gpio {

  /** How a pin was provisioned: as a pulled-down input, or as an output
      whose level starts low. These are the only two configurations the
      driver asks for. */
  datatype Mode = InputPullDown | OutputLow

  /** A provisioned pin, identified by its wiringPi number. */
  datatype PinHandle = PinHandle(number: nat, mode: Mode)

  /** One observable pin event. */
  datatype Event =
    | Drive(pin: nat, high: bool)   // an output pin is set high or low
    | Sense(pin: nat, high: bool)   // an input pin is read and found high or low

  /** The pin table has one entry per wiringPi pin 0..31. */
  const PIN_COUNT := 32

  predicate PinExists(num: int) {
    0 <= num < PIN_COUNT
  }

  class Controller {
    var provisioned: seq<PinHandle>
    var trace: seq<Event>

    constructor ()
      ensures provisioned == [] && trace == []
    {
      provisioned := [];
      trace := [];
    }

    /** Provisions `num` as an input with its pull-down resistor enabled. */
    method ProvisionInput(num: nat) returns (pin: PinHandle)
      modifies this`provisioned
      ensures pin == PinHandle(num, InputPullDown)
      ensures provisioned == old(provisioned) + [pin]
    {
      pin := PinHandle(num, InputPullDown);
      provisioned := provisioned + [pin];
    }

    /** Provisions `num` as an output; provisioning drives it low. */
    method ProvisionOutput(num: nat) returns (pin: PinHandle)
      modifies this
      ensures pin == PinHandle(num, OutputLow)
      ensures provisioned == old(provisioned) + [pin]
      ensures trace == old(trace) + [Drive(num, false)]
    {
      pin := PinHandle(num, OutputLow);
      provisioned := provisioned + [pin];
      trace := trace + [Drive(num, false)];
    }

    /** Sets an output pin high or low. */
    method Set(pin: PinHandle, high: bool)
      modifies this`trace
      ensures trace == old(trace) + [Drive(pin.number, high)]
    {
      trace := trace + [Drive(pin.number, high)];
    }

    /** Reads an input pin. The level the external device presents is a
        parameter: the controller only reports it and logs the read. */
    method IsHigh(pin: PinHandle, level: bool) returns (high: bool)
      modifies this`trace
      ensures high == level
      ensures trace == old(trace) + [Sense(pin.number, level)]
    {
      high := level;
      trace := trace + [Sense(pin.number, level)];
    }
  }
}
