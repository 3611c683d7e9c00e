/**
 * The Teensy firmware's pin layer (Hardware/Firmware/Firmware/GPIO.cpp): the host
 * names DIO and AUX pins 1..12, and each operation looks the pin up in a
 * 12-entry table after checking `0 < pin <= MAX`. The Arduino calls `pinMode` and
 * `digitalWrite` are recorded as events.
 */
module TeensyGpio {
  import opened Common
  import opened Bytes

  /** Pin modes of teensy3/core_pins.h used here. */
  const INPUT: byte := 0
  const OUTPUT: byte := 1
  /** Entries in each pin table. */
  const TABLE_SIZE: nat := 12

  /** A call into the Arduino core, with the Teensy pin number it was given. */
  datatype PinEvent = PinMode(pin: byte, mode: byte) | DigitalWrite(pin: byte, value: byte)

  /**
   * The Teensy pin a 1-indexed host pin number selects, if the guard
   * `(pin > 0) & (pin <= max)` lets it through.
   */
  function Target(table: seq<byte>, max: nat, pin: byte): (r: Option<byte>)
    requires max <= |table|
    ensures r.Some? <==> 0 < pin <= max
    ensures r.Some? ==> r.value == table[pin - 1]
  {
    if pin > 0 && pin <= max then Some(table[pin - 1]) else None
  }

  /** `pinMode(table[i-1], INPUT)` for i = 1..n, the loops of `InitGPIO`. */
  function InputSweep(table: seq<byte>, n: nat): (r: seq<PinEvent>)
    requires n <= |table|
    ensures |r| == n && forall i :: 0 <= i < n ==> r[i] == PinMode(table[i], INPUT)
  {
    if n == 0 then [] else InputSweep(table, n - 1) + [PinMode(table[n - 1], INPUT)]
  }

  /** Pins 1..12 of the two banks and the four LEDs (Firmware/Firmware 2.0/Firmware/Firmware.h). */
  const DIO_PINS: seq<byte> := [2, 14, 7, 8, 6, 20, 21, 5, 16, 17, 19, 18]
  const AUX_PINS: seq<byte> := [15, 22, 23, 9, 10, 13, 11, 12, 35, 36, 37, 38]
  const LEDS: seq<byte> := [25, 26, 27, 28]

  /** The LED set-up of `InitGPIO`: each LED an output, then each driven low. */
  function LedEvents(leds: seq<byte>): seq<PinEvent>
  {
    seq(|leds|, i requires 0 <= i < |leds| => PinMode(leds[i], OUTPUT))
    + seq(|leds|, i requires 0 <= i < |leds| => DigitalWrite(leds[i], 0))
  }

  /**
   * With those tables every host pin number of both banks reaches a different
   * Teensy pin, and none of them is an LED: a command for one pin never
   * touches another.
   */
  lemma PinTablesDistinct()
    ensures forall i, j :: 0 <= i < j < TABLE_SIZE ==> DIO_PINS[i] != DIO_PINS[j] && AUX_PINS[i] != AUX_PINS[j]
    ensures forall i, j :: 0 <= i < TABLE_SIZE && 0 <= j < TABLE_SIZE ==> DIO_PINS[i] != AUX_PINS[j]
    ensures forall i, j :: 0 <= i < TABLE_SIZE && 0 <= j < |LEDS| ==> DIO_PINS[i] != LEDS[j] && AUX_PINS[i] != LEDS[j]
  {
  }

  /** Two host pin numbers that pass the guard select the same Teensy pin only if they are equal. */
  lemma TargetInjective(table: seq<byte>, max: nat, p: byte, q: byte)
    requires max <= |table|
    requires forall i, j :: 0 <= i < j < |table| ==> table[i] != table[j]
    requires Target(table, max, p).Some? && Target(table, max, p) == Target(table, max, q)
    ensures p == q
  {
  }

  /** The pin layer: the two tables, the bank sizes and the log of Arduino calls. */
  class PinLayer {
    const pinTableDio: array<byte>
    const pinTableAux: array<byte>
    const maxDio: nat
    const maxAux: nat
    var events: seq<PinEvent>

    /** Both tables hold 12 entries and neither bank claims more pins than that. */
    predicate Valid()
    {
      pinTableDio.Length == TABLE_SIZE && pinTableAux.Length == TABLE_SIZE
      && maxDio <= TABLE_SIZE && maxAux <= TABLE_SIZE
    }

    constructor (dio: seq<byte>, aux: seq<byte>, maxDio: nat, maxAux: nat)
      requires |dio| == TABLE_SIZE && |aux| == TABLE_SIZE && maxDio <= TABLE_SIZE && maxAux <= TABLE_SIZE
      ensures Valid() && pinTableDio[..] == dio && pinTableAux[..] == aux
      ensures this.maxDio == maxDio && this.maxAux == maxAux && events == []
    {
      pinTableDio := new byte[TABLE_SIZE](i requires 0 <= i < TABLE_SIZE => dio[i]);
      pinTableAux := new byte[TABLE_SIZE](i requires 0 <= i < TABLE_SIZE => aux[i]);
      this.maxDio := maxDio;
      this.maxAux := maxAux;
      events := [];
    }

    /** The events a guarded call adds: one for an accepted pin, none otherwise. */
    function Guarded(table: array<byte>, max: nat, pin: byte, write: bool, arg: byte): seq<PinEvent>
      requires max <= table.Length
      reads table
    {
      var t := Target(table[..], max, pin);
      if t.None? then [] else if write then [DigitalWrite(t.value, arg)] else [PinMode(t.value, arg)]
    }

    method ConfigDio(pin: byte, mode: byte)
      requires Valid()
      modifies this`events
      ensures events == old(events) + Guarded(pinTableDio, maxDio, pin, false, mode)
    {
      if pin > 0 && pin <= maxDio {
        events := events + [PinMode(pinTableDio[pin - 1], mode)];
      }
    }

    method WriteDio(pin: byte, value: byte)
      requires Valid()
      modifies this`events
      ensures events == old(events) + Guarded(pinTableDio, maxDio, pin, true, value)
    {
      if pin > 0 && pin <= maxDio {
        events := events + [DigitalWrite(pinTableDio[pin - 1], value)];
      }
    }

    method ConfigAux(pin: byte, mode: byte)
      requires Valid()
      modifies this`events
      ensures events == old(events) + Guarded(pinTableAux, maxAux, pin, false, mode)
    {
      if pin > 0 && pin <= maxAux {
        events := events + [PinMode(pinTableAux[pin - 1], mode)];
      }
    }

    method WriteAux(pin: byte, value: byte)
      requires Valid()
      modifies this`events
      ensures events == old(events) + Guarded(pinTableAux, maxAux, pin, true, value)
    {
      if pin > 0 && pin <= maxAux {
        events := events + [DigitalWrite(pinTableAux[pin - 1], value)];
      }
    }

    /**
     * `InitGPIO`: the LEDs become outputs driven low, then every DIO pin 1..MAX_DIO
     * and every AUX pin 1..MAX_AUX becomes an input, in pin order.
     */
    method InitGpio()
      requires Valid()
      modifies this`events
      ensures events == old(events) + LedEvents(LEDS)
                        + InputSweep(pinTableDio[..], maxDio) + InputSweep(pinTableAux[..], maxAux)
    {
      InitLeds();
      SweepDio();
      var afterDio := events;
      SweepAux();
      assert events == afterDio + InputSweep(pinTableAux[..], maxAux);
    }

    /** The LED part of `InitGPIO`. */
    method InitLeds()
      modifies this`events
      ensures events == old(events) + LedEvents(LEDS)
    {
      events := events + [PinMode(LEDS[0], OUTPUT)];
      events := events + [PinMode(LEDS[1], OUTPUT)];
      events := events + [PinMode(LEDS[2], OUTPUT)];
      events := events + [PinMode(LEDS[3], OUTPUT)];
      events := events + [DigitalWrite(LEDS[0], 0)];
      events := events + [DigitalWrite(LEDS[1], 0)];
      events := events + [DigitalWrite(LEDS[2], 0)];
      events := events + [DigitalWrite(LEDS[3], 0)];
    }

    /** The DIO loop of `InitGPIO`. */
    method SweepDio()
      requires Valid()
      modifies this`events
      ensures events == old(events) + InputSweep(pinTableDio[..], maxDio)
    {
      for i := 1 to maxDio + 1
        invariant events == old(events) + InputSweep(pinTableDio[..], i - 1)
      {
        ConfigDio(i as byte, INPUT);
      }
    }

    /** The AUX loop of `InitGPIO`. */
    method SweepAux()
      requires Valid()
      modifies this`events
      ensures events == old(events) + InputSweep(pinTableAux[..], maxAux)
    {
      for i := 1 to maxAux + 1
        invariant events == old(events) + InputSweep(pinTableAux[..], i - 1)
      {
        ConfigAux(i as byte, INPUT);
      }
    }
  }
}
