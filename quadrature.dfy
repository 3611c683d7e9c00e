/**
 * The quadrature decoder's port-2 interrupt handler
 * (Firmware/MSP430Firmware/quadrature.c): it counts channel-A edges up or down
 * according to channel B, flips the edge it waits for, and zeroes the wrapped
 * count on an index (Z) pulse.
 */
module Quadrature {
  import opened Bytes

  /** Port-2 bit positions of the three encoder channels (0x02, 0x01, 0x04). */
  const BIT_A: nat := 1
  const BIT_B: nat := 0
  const BIT_Z: nat := 2

  /**
   * The handler's registers and counters: interrupt enable, edge select and
   * flag registers of port 2 as sets of their 1-bits, EncoderTicks (int16_t)
   * and UnwrappedEncoder (int32_t).
   */
  datatype Decoder = Decoder(pie: set<nat>, pies: set<nat>, pifg: set<nat>, ticks: int, unwrapped: int)

  /**
   * The count an A event adds for the pin levels `pin`: on the rising-edge branch
   * (PIES A bit clear) with A high, +1 when B is low and -1 when B is high; on the
   * falling-edge branch with A low, +1 when B is high and -1 when B is low; 0 otherwise.
   */
  function EdgeCount(pies: set<nat>, pin: set<nat>): (r: int)
    ensures -1 <= r <= 1
    ensures r != 0 <==> (BIT_A in pin <==> BIT_A !in pies)
    ensures r != 0 ==> (r == 1 <==> (BIT_A in pin) != (BIT_B in pin))
  {
    if BIT_A !in pies then
      if BIT_A in pin then (if BIT_B !in pin then 1 else -1) else 0
    else
      if BIT_A !in pin then (if BIT_B in pin then 1 else -1) else 0
  }

  /** The count one call of the handler adds: the edge count when the A flag is set, 0 otherwise. */
  function Delta(d: Decoder, pin: set<nat>): int
  {
    if BIT_A in d.pifg then EdgeCount(d.pies, pin) else 0
  }

  /** The edge select after an A event: rising branch sets the A bit only when A reads high; falling branch clears it. */
  function NextEdge(pies: set<nat>, pin: set<nat>): (r: set<nat>)
    ensures r - {BIT_A} == pies - {BIT_A}
    ensures BIT_A in r <==> BIT_A !in pies && BIT_A in pin
  {
    if BIT_A !in pies then (if BIT_A in pin then pies + {BIT_A} else pies) else pies - {BIT_A}
  }

  /** One call of `QuadratureISR` with the port's input levels `pin`: the A channel, then the index. */
  function Isr(d: Decoder, pin: set<nat>): (r: Decoder)
    ensures (r.unwrapped - (d.unwrapped + Delta(d, pin))) % 0x1_0000_0000 == 0
    ensures BIT_Z !in d.pifg ==> (r.ticks - (d.ticks + Delta(d, pin))) % 0x1_0000 == 0
  {
    IsrZ(IsrA(d, pin))
  }

  /** The A-channel part: a pending A flag counts the edge, flips the edge select and re-enables the interrupt. */
  function IsrA(d: Decoder, pin: set<nat>): (r: Decoder)
    ensures BIT_A !in d.pifg ==> r == d
    ensures r.pifg == d.pifg - {BIT_A}
    ensures BIT_A in d.pifg ==>
              BIT_A in r.pie && r.pie - {BIT_A} == d.pie - {BIT_A}
              && (r.ticks - (d.ticks + EdgeCount(d.pies, pin))) % 0x1_0000 == 0
              && (r.unwrapped - (d.unwrapped + EdgeCount(d.pies, pin))) % 0x1_0000_0000 == 0
  {
    if BIT_A in d.pifg then
      var n := EdgeCount(d.pies, pin);
      d.(pie := d.pie + {BIT_A}, pies := NextEdge(d.pies, pin), pifg := d.pifg - {BIT_A},
         ticks := if n == 0 then d.ticks else Wrap16(d.ticks + n),
         unwrapped := if n == 0 then d.unwrapped else Wrap32(d.unwrapped + n))
    else d
  }

  /** The index part: a pending Z flag zeroes the ticks and is cleared. */
  function IsrZ(d: Decoder): (r: Decoder)
    ensures r.pifg == d.pifg - {BIT_Z}
    ensures r.ticks == if BIT_Z in d.pifg then 0 else d.ticks
    ensures r.unwrapped == d.unwrapped && r.pie == d.pie && r.pies == d.pies
  {
    if BIT_Z in d.pifg then d.(ticks := 0, pifg := d.pifg - {BIT_Z}) else d
  }

  /** The counters fit int16_t and int32_t. */
  predicate InRange(d: Decoder)
  {
    -0x8000 <= d.ticks < 0x8000 && -0x8000_0000 <= d.unwrapped < 0x8000_0000
  }

  /** A pending A flag is handled and the A interrupt is re-enabled; a pending Z flag is cleared. */
  lemma IsrClearsFlags(d: Decoder, pin: set<nat>)
    ensures BIT_A !in Isr(d, pin).pifg && BIT_Z !in Isr(d, pin).pifg
    ensures Isr(d, pin).pifg == d.pifg - {BIT_A, BIT_Z}
    ensures BIT_A in d.pifg ==> BIT_A in Isr(d, pin).pie
    ensures Isr(d, pin).pie - {BIT_A} == d.pie - {BIT_A}
  {
  }

  /**
   * After an A event the rising-edge branch arms the falling edge only when A
   * reads high, and the falling-edge branch always re-arms the rising edge;
   * no other edge-select bit changes, and without an A event none does.
   */
  lemma IsrEdgeSelect(d: Decoder, pin: set<nat>)
    ensures BIT_A in d.pifg ==> (BIT_A in Isr(d, pin).pies <==> BIT_A !in d.pies && BIT_A in pin)
    ensures BIT_A !in d.pifg ==> Isr(d, pin).pies == d.pies
    ensures Isr(d, pin).pies - {BIT_A} == d.pies - {BIT_A}
  {
  }

  /**
   * Each call changes UnwrappedEncoder by -1, 0 or +1 (modulo 2^32), and, with no
   * Z flag, EncoderTicks by the same amount (modulo 2^16); a Z flag zeroes
   * EncoderTicks without touching UnwrappedEncoder.
   */
  lemma IsrCounts(d: Decoder, pin: set<nat>)
    requires InRange(d)
    ensures InRange(Isr(d, pin))
    ensures -1 <= Delta(d, pin) <= 1
    ensures Isr(d, pin).unwrapped == (if BIT_A in d.pifg then Wrap32(d.unwrapped + Delta(d, pin)) else d.unwrapped)
    ensures BIT_Z !in d.pifg ==>
              Isr(d, pin).ticks == (if BIT_A in d.pifg then Wrap16(d.ticks + Delta(d, pin)) else d.ticks)
    ensures BIT_Z in d.pifg ==> Isr(d, pin).ticks == 0
  {
  }

  /** Away from the ends of their ranges the counters move by exactly the same step. */
  lemma IsrStepExact(d: Decoder, pin: set<nat>)
    requires -0x8000 < d.ticks < 0x7FFF && -0x8000_0000 < d.unwrapped < 0x7FFF_FFFF
    requires BIT_A in d.pifg && BIT_Z !in d.pifg
    ensures Isr(d, pin).unwrapped - d.unwrapped == Isr(d, pin).ticks - d.ticks == Delta(d, pin)
    ensures Delta(d, pin) in {-1, 0, 1}
  {
    var n := Delta(d, pin);
    WrapInRange16(d.ticks + n);
    WrapInRange32(d.unwrapped + n);
  }

  lemma WrapInRange16(x: int)
    requires -0x8000 <= x < 0x8000
    ensures Wrap16(x) == x
  {
  }

  lemma WrapInRange32(x: int)
    requires -0x8000_0000 <= x < 0x8000_0000
    ensures Wrap32(x) == x
  {
  }

  /** With the A flag clear the counters change only through the Z branch. */
  lemma NoAEvent(d: Decoder, pin: set<nat>)
    requires BIT_A !in d.pifg
    ensures Isr(d, pin).unwrapped == d.unwrapped && Isr(d, pin).pies == d.pies && Isr(d, pin).pie == d.pie
    ensures Isr(d, pin).ticks == if BIT_Z in d.pifg then 0 else d.ticks
  {
  }

  /**
   * One full forward cycle of the encoder, A rising while B is low and A falling
   * while B is high, counts +2 and leaves the handler waiting for a rising edge
   * again; the reverse cycle counts -2.
   */
  lemma FullCycle(d: Decoder)
    requires BIT_A !in d.pies && d.pifg == {}
    requires -0x8000 < d.ticks - 1 && d.ticks + 1 < 0x7FFF
    requires -0x8000_0000 < d.unwrapped - 1 && d.unwrapped + 1 < 0x7FFF_FFFF
    ensures var rise := Isr(d.(pifg := {BIT_A}), {BIT_A});
            var fall := Isr(rise.(pifg := {BIT_A}), {BIT_B});
            fall.unwrapped == d.unwrapped + 2 && fall.ticks == d.ticks + 2 && BIT_A !in fall.pies
    ensures var rise := Isr(d.(pifg := {BIT_A}), {BIT_A, BIT_B});
            var fall := Isr(rise.(pifg := {BIT_A}), {});
            fall.unwrapped == d.unwrapped - 2 && fall.ticks == d.ticks - 2 && BIT_A !in fall.pies
  {
    var up := Isr(d.(pifg := {BIT_A}), {BIT_A});
    IsrStepExact(d.(pifg := {BIT_A}), {BIT_A});
    IsrStepExact(up.(pifg := {BIT_A}), {BIT_B});
    var down := Isr(d.(pifg := {BIT_A}), {BIT_A, BIT_B});
    IsrStepExact(d.(pifg := {BIT_A}), {BIT_A, BIT_B});
    IsrStepExact(down.(pifg := {BIT_A}), {});
  }

  /** The decoder's globals and port-2 registers. */
  class Encoder {
    var pie: set<nat>
    var pies: set<nat>
    var pifg: set<nat>
    var encoderTicks: int
    var unwrappedEncoder: int

    function State(): Decoder
      reads this
    {
      Decoder(pie, pies, pifg, encoderTicks, unwrappedEncoder)
    }

    /** `QuadratureISR`, with `pin` the levels read from P2IN. */
    method HandleInterrupt(pin: set<nat>)
      modifies this
      ensures State() == Isr(old(State()), pin)
    {
      HandleA(pin);
      HandleZ();
    }

    /** The A-channel block of `QuadratureISR`. */
    method HandleA(pin: set<nat>)
      modifies this
      ensures State() == IsrA(old(State()), pin)
    {
      if BIT_A in pifg {
        pie := pie - {BIT_A};
        if BIT_A !in pies {
          if BIT_A in pin {
            if BIT_B !in pin {
              encoderTicks := Wrap16(encoderTicks + 1);
              unwrappedEncoder := Wrap32(unwrappedEncoder + 1);
            } else {
              encoderTicks := Wrap16(encoderTicks - 1);
              unwrappedEncoder := Wrap32(unwrappedEncoder - 1);
            }
            pies := pies + {BIT_A};
          }
        } else {
          if BIT_A !in pin {
            if BIT_B in pin {
              encoderTicks := Wrap16(encoderTicks + 1);
              unwrappedEncoder := Wrap32(unwrappedEncoder + 1);
            } else {
              encoderTicks := Wrap16(encoderTicks - 1);
              unwrappedEncoder := Wrap32(unwrappedEncoder - 1);
            }
          }
          pies := pies - {BIT_A};
        }
        pifg := pifg - {BIT_A};
        pie := pie + {BIT_A};
        assert pie == old(pie) + {BIT_A};
      }
    }

    /** The index block of `QuadratureISR`. */
    method HandleZ()
      modifies this
      ensures State() == IsrZ(old(State()))
    {
      if BIT_Z in pifg {
        encoderTicks := 0;
        pifg := pifg - {BIT_Z};
      }
    }
  }
}
