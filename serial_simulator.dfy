/**
 * The serial-interface simulator (src/treadmillio/serialinterfacesimulator.py):
 * it replays recorded encoder and GPIO samples as version-1 frames, unwraps the
 * 12-bit encoder count, and keeps a list of pending pin-reset callbacks.
 */
module SerialSimulator {
  import opened Common
  import opened Bytes
  import opened Protocol

  /** Period of the recorded (wrapped) encoder count. */
  const ENCODER_PERIOD: int := 4096
  /** Steps larger than half a period are taken to have wrapped. */
  const HALF_PERIOD: int := 2048
  /** Size reported in every simulated frame. */
  const SIM_STRUCT_SIZE: byte := 14

  /** The wrap correction applied to the step between two encoder samples. */
  function Fold(d: int): (r: int)
    ensures r == d || r == d - ENCODER_PERIOD || r == d + ENCODER_PERIOD
    ensures -HALF_PERIOD <= d <= HALF_PERIOD <==> r == d
  {
    if d > HALF_PERIOD then d - ENCODER_PERIOD else if d < -HALF_PERIOD then d + ENCODER_PERIOD else d
  }

  /** Folding changes a step by a whole number of periods and leaves small steps alone. */
  lemma FoldSpec(d: int)
    ensures (Fold(d) - d) % ENCODER_PERIOD == 0
    ensures -HALF_PERIOD <= d <= HALF_PERIOD ==> Fold(d) == d
    ensures -3 * HALF_PERIOD <= d <= 3 * HALF_PERIOD ==> -HALF_PERIOD <= Fold(d) <= HALF_PERIOD
  {
  }

  /** Between two samples of a 12-bit count the folded step is at most half a period. */
  lemma FoldedStepBounds(prev: int, next: int)
    requires 0 <= prev < ENCODER_PERIOD && 0 <= next < ENCODER_PERIOD
    ensures -HALF_PERIOD <= Fold(next - prev) <= HALF_PERIOD
    ensures (Fold(next - prev) - (next - prev)) % ENCODER_PERIOD == 0
  {
    FoldSpec(next - prev);
  }

  /**
   * The tuple `read_data` returns. The flag character and the GPIO byte are
   * one-byte bytes objects here (the real interface unpacks GPIO as an integer).
   */
  datatype SimFrame = SimFrame(flag: seq<byte>, structSize: byte, masterTime: int, encoder: int,
                               unwrappedEncoder: int, gpio: seq<byte>)

  /** `(sample | state).to_bytes(1, 'little')`'s only byte: the OR of two bytes is a byte. */
  function MaskedGpio(sample: byte, state: byte): (r: byte)
    ensures BitsOf16(r as nat) == BitsOf16(sample as nat) + BitsOf16(state as nat)
  {
    BitOrBelow(sample, state, 8);
    var o: nat := BitOr(sample as nat, state as nat);
    assert BitsOf16(o) == BitsOf16(sample as nat) + BitsOf16(state as nat) by {
      forall i: nat | i < 16 ensures i in BitsOf16(o) <==> i in BitsOf16(sample as nat) + BitsOf16(state as nat) {
        BitOrBits(sample as nat, state as nat, i);
      }
    }
    BitOr(sample, state)
  }

  /** A registered pin reset: at `offTime`, clear `pin`. */
  datatype Callback = Callback(offTime: int, pin: int)

  /** `[c for c in cbs if t < c[0]]`: the callbacks still waiting at time `t`. */
  function Pending(cbs: seq<Callback>, t: int): (r: seq<Callback>)
    ensures |r| <= |cbs|
    ensures forall c :: c in r <==> c in cbs && t < c.offTime
  {
    if cbs == [] then []
    else (if t < cbs[0].offTime then [cbs[0]] else []) + Pending(cbs[1..], t)
  }

  /** `[c for c in cbs if t >= c[0]]`: the callbacks due at time `t`. */
  function Due(cbs: seq<Callback>, t: int): seq<Callback>
  {
    if cbs == [] then []
    else (if t >= cbs[0].offTime then [cbs[0]] else []) + Due(cbs[1..], t)
  }

  /**
   * The two filters split the list: a callback is pending exactly when it is in
   * the list and not yet due, due exactly when its time has come, and together
   * they hold every callback once.
   */
  lemma {:induction false} SplitSpec(cbs: seq<Callback>, t: int)
    ensures forall c :: c in Pending(cbs, t) <==> c in cbs && t < c.offTime
    ensures forall c :: c in Due(cbs, t) <==> c in cbs && t >= c.offTime
    ensures multiset(Pending(cbs, t)) + multiset(Due(cbs, t)) == multiset(cbs)
  {
    if cbs != [] {
      SplitSpec(cbs[1..], t);
      assert cbs == [cbs[0]] + cbs[1..];
    }
  }

  /** Filtering keeps the order: the pending part of a concatenation is the concatenation of the pending parts. */
  lemma {:induction false} PendingKeepsOrder(a: seq<Callback>, b: seq<Callback>, t: int)
    ensures Pending(a + b, t) == Pending(a, t) + Pending(b, t)
  {
    if a == [] {
      assert a + b == b;
    } else {
      assert (a + b)[1..] == a[1..] + b;
      PendingKeepsOrder(a[1..], b, t);
    }
  }

  /** `bytes(n)` for a non-negative integer: `n` zero bytes. */
  function Zeros(n: nat): (r: seq<byte>)
    ensures |r| == n && forall i :: 0 <= i < n ==> r[i] == 0
  {
    seq(n, i => 0)
  }

  /**
   * The `data` built by the loop over due callbacks: each step replaces it by
   * `bytes(data[0] | (1 << pin))`, and a negative pin raises ValueError at the shift.
   */
  function ResetData(due: seq<Callback>): (r: Result<seq<byte>>)
    ensures r.Ok? ==> |r.value| >= 1 && r.value[0] == 0
    ensures r.Err? ==> r.error == ValueError
  {
    if due == [] then Ok([0])
    else
      var prev := ResetData(due[..|due| - 1]);
      var pin := due[|due| - 1].pin;
      if prev.Err? then prev
      else if pin < 0 then Err(ValueError)
      else Ok(Zeros(BitOr(prev.value[0], Pow2(pin))))
  }

  /**
   * The reset data is built exactly when no due pin is negative, and it is then
   * a run of 2^p zero bytes for the last due pin p, so the reset is sent
   * successfully only when that pin is 0.
   */
  lemma {:induction false} ResetDataSpec(due: seq<Callback>)
    ensures ResetData(due).Ok? <==> forall i :: 0 <= i < |due| ==> due[i].pin >= 0
    ensures ResetData(due).Ok? && due != [] ==> |ResetData(due).value| == Pow2(due[|due| - 1].pin)
    ensures ResetData(due).Ok? && due != [] ==> (|ResetData(due).value| == 1 <==> due[|due| - 1].pin == 0)
  {
    if due != [] {
      var init := due[..|due| - 1];
      ResetDataSpec(init);
      assert forall i :: 0 <= i < |init| ==> init[i] == due[i];
      var pin := due[|due| - 1].pin;
      if pin >= 0 {
        Pow2IsOne(pin);
      }
    }
  }

  lemma Pow2IsOne(n: nat)
    ensures Pow2(n) == 1 <==> n == 0
  {
    if n > 0 {
      assert Pow2(n) == 2 * Pow2(n - 1);
    }
  }

  /** `state | (1 << pin)` is 1 exactly for pin 0 on a state of 0 or 1. */
  lemma PulseByteIsOne(state: nat, pin: nat)
    ensures BitOr(state, Pow2(pin)) == 1 <==> pin == 0 && state <= 1
  {
    BitOrAtLeast(state, Pow2(pin));
    Pow2IsOne(pin);
    if pin > 0 {
      assert Pow2(pin) == 2 * Pow2(pin - 1);
    }
  }

  /** The simulated board: recorded samples, replay position, clock, counters and callbacks. */
  class Simulator {
    /** The recorded encoder column, replayed in a cycle. */
    const encoderData: seq<int>
    /** The recorded GPIO column, replayed in a cycle. */
    const gpioData: seq<int>
    /** Number of samples drawn from the two cycles so far. */
    var tick: nat
    /** `GPIO_state[0]`: the last byte the host sent. */
    var gpioState: byte
    var masterTime: nat
    var encoder: int
    var unwrappedEncoder: int
    /** `GPIO_pin_reset_callbacks`, in registration order. */
    var callbacks: seq<Callback>

    /** The unwrapped count differs from the wrapped one by whole periods. */
    ghost predicate Valid()
      reads this`encoder, this`unwrappedEncoder
    {
      (unwrappedEncoder - encoder) % ENCODER_PERIOD == 0
    }

    /** Start with both counters at the first recorded sample, time 0 and all pins low. */
    constructor (encoderData: seq<int>, gpioData: seq<int>)
      requires |encoderData| > 0 && |gpioData| == |encoderData|
      ensures Valid()
      ensures this.encoderData == encoderData && this.gpioData == gpioData
      ensures tick == 0 && gpioState == 0 && masterTime == 0 && callbacks == []
      ensures encoder == unwrappedEncoder == encoderData[0]
    {
      this.encoderData := encoderData;
      this.gpioData := gpioData;
      tick := 0;
      gpioState := 0;
      masterTime := 0;
      encoder := encoderData[0];
      unwrappedEncoder := encoderData[0];
      callbacks := [];
    }

    /** `send_byte`: a single byte becomes the GPIO state; anything longer or shorter raises. */
    method SendByte(data: Option<seq<byte>>) returns (r: Outcome)
      modifies this`gpioState
      ensures data.None? ==> r == Done && gpioState == old(gpioState)
      ensures data.Some? && |data.value| == 1 ==> r == Done && gpioState == data.value[0]
      ensures data.Some? && |data.value| != 1 ==> r == Fail(ValueError) && gpioState == old(gpioState)
    {
      r := Done;
      if data.Some? {
        if |data.value| == 1 {
          gpioState := data.value[0];
        } else {
          return Fail(ValueError);
        }
      }
    }

    /**
     * `read_data`: advance the clock by 2 ms, draw the next samples, unwrap the
     * encoder step, report the recorded GPIO OR'ed with the host's byte, then
     * fire the due pin resets.
     */
    method ReadData() returns (r: Result<SimFrame>)
      requires Valid() && |encoderData| > 0 && |gpioData| == |encoderData|
      modifies this`tick, this`masterTime, this`encoder, this`unwrappedEncoder, this`gpioState, this`callbacks
      ensures Valid()
      ensures tick == old(tick) + 1 && masterTime == old(masterTime) + 2
      ensures encoder == encoderData[old(tick) % |encoderData|]
      ensures unwrappedEncoder - old(unwrappedEncoder) == Fold(encoder - old(encoder))
      ensures var sample := gpioData[old(tick) % |gpioData|];
              var due := Due(old(callbacks), masterTime);
              if !(0 <= sample < 256) then
                r == Err(OverflowError) && callbacks == old(callbacks) && gpioState == old(gpioState)
              else
                var frame := SimFrame([START_V1], SIM_STRUCT_SIZE, masterTime, encoder, unwrappedEncoder,
                                      [MaskedGpio(sample, old(gpioState))]);
                if due == [] then
                  r == Ok(frame) && callbacks == old(callbacks) && gpioState == old(gpioState)
                else if ResetData(due).Err? then
                  r == Err(ValueError) && callbacks == old(callbacks) && gpioState == old(gpioState)
                else
                  callbacks == Pending(old(callbacks), masterTime)
                  && (if |ResetData(due).value| == 1 then r == Ok(frame) && gpioState == 0
                      else r == Err(ValueError) && gpioState == old(gpioState))
    {
      masterTime := masterTime + 2;
      var nextEncoder := encoderData[tick % |encoderData|];
      var diffEncoder := nextEncoder - encoder;
      if diffEncoder > HALF_PERIOD {
        diffEncoder := diffEncoder - ENCODER_PERIOD;
      } else if diffEncoder < -HALF_PERIOD {
        diffEncoder := diffEncoder + ENCODER_PERIOD;
      }
      FoldSpec(nextEncoder - encoder);
      unwrappedEncoder := unwrappedEncoder + diffEncoder;
      encoder := nextEncoder;
      var nextGpio := gpioData[tick % |gpioData|];
      tick := tick + 1;
      if !(0 <= nextGpio < 256) {
        return Err(OverflowError);
      }
      var frame := SimFrame([START_V1], SIM_STRUCT_SIZE, masterTime, encoder, unwrappedEncoder,
                            [MaskedGpio(nextGpio, gpioState)]);
      r := Ok(frame);
      var active := Due(callbacks, masterTime);
      if active != [] {
        var data := BuildResetData(active);
        if data.Err? {
          return Err(data.error);
        }
        callbacks := Pending(callbacks, masterTime);
        var sent := SendByte(Some(data.value));
        if sent.Fail? {
          return Err(sent.error);
        }
      }
    }

    /** `gpio_pulse`: raise the pin through `send_byte` and register its reset at `MasterTime + duration`. */
    method GpioPulse(pin: int, duration: int) returns (r: Outcome)
      modifies this`gpioState, this`callbacks
      ensures pin < 0 ==> r == Fail(ValueError) && gpioState == old(gpioState) && callbacks == old(callbacks)
      ensures pin >= 0 && BitOr(old(gpioState), Pow2(pin)) == 1 ==>
                r == Done && gpioState == 0 && callbacks == old(callbacks) + [Callback(masterTime + duration, pin)]
      ensures pin >= 0 && BitOr(old(gpioState), Pow2(pin)) != 1 ==>
                r == Fail(ValueError) && gpioState == old(gpioState) && callbacks == old(callbacks)
    {
      if pin < 0 {
        return Fail(ValueError);
      }
      var data := Zeros(BitOr(gpioState, Pow2(pin)));
      var offtime := masterTime + duration;
      r := SendByte(Some(data));
      if r.Fail? {
        return;
      }
      callbacks := callbacks + [Callback(offtime, pin)];
    }
  }

  /** The loop of `read_data` over the due callbacks, rebuilding `data` at each one. */
  method BuildResetData(active: seq<Callback>) returns (r: Result<seq<byte>>)
    ensures r == ResetData(active)
  {
    var data: seq<byte> := [0];
    for i := 0 to |active|
      invariant ResetData(active[..i]) == Ok(data)
    {
      assert active[..i + 1][..i] == active[..i];
      if active[i].pin < 0 {
        ResetDataSpec(active);
        return Err(ValueError);
      }
      data := Zeros(BitOr(data[0], Pow2(active[i].pin)));
    }
    assert active[..|active|] == active;
    r := Ok(data);
  }

  /**
   * A pulse succeeds only on pin 0 while the GPIO byte is 0 or 1, because
   * `bytes(n)` builds n zero bytes rather than the byte n; after it the GPIO byte is 0.
   */
  lemma GpioPulseNeedsPinZero(state: byte, pin: nat)
    ensures BitOr(state, Pow2(pin)) == 1 <==> pin == 0 && state <= 1
    ensures |Zeros(BitOr(state, Pow2(pin)))| == 1 ==> Zeros(BitOr(state, Pow2(pin)))[0] == 0
  {
    PulseByteIsOne(state, pin);
  }

  /** The reported GPIO byte fits a byte and has a 1-bit exactly where the sample or the host's byte has one. */
  lemma ReportedGpioIsOr(sample: byte, state: byte)
    ensures BitOr(sample, state) < 256
    ensures forall i: nat :: TestBit(BitOr(sample, state), i) <==> TestBit(sample, i) || TestBit(state, i)
  {
    assert Pow2(8) == 256 by {
      assert Pow2(4) == 16;
    }
    BitOrBelow(sample, state, 8);
    forall i: nat ensures TestBit(BitOr(sample, state), i) <==> TestBit(sample, i) || TestBit(state, i) {
      BitOrBits(sample, state, i);
    }
  }
}
