/**
 * The host-side serial interface (ClientSide/treadmillio/serialinterface.py): it
 * synchronises on the board's frame stream, decodes frames into time, encoder and
 * GPIO readings, integrates the encoder into a track position, tracks the output
 * pins it drives, and schedules timed output pulses.
 */
module HostSerial {
  import opened Common
  import opened Bytes
  import opened Protocol

  // ---------------------------------------------------------------------------
  // Maze geometry

  datatype Topology = Ring | Line

  function ParseTopology(name: string): (r: Result<Topology>)
    ensures r.Ok? <==> name == "Ring" || name == "Line"
    ensures r.Err? ==> r.error == ValueError
  {
    if name == "Ring" then Ok(Ring) else if name == "Line" then Ok(Line) else Err(ValueError)
  }

  /** Python's float `x % m` for a non-zero modulus: `x` minus a whole multiple of `m`, with the sign of `m`. */
  function FloatMod(x: real, m: real): (r: real)
    requires m != 0.0
    ensures m > 0.0 ==> 0.0 <= r < m
    ensures m < 0.0 ==> m < r <= 0.0
  {
    FloorBounds(x, m);
    x - m * (x / m).Floor as real
  }

  lemma FloorBounds(x: real, m: real)
    requires m != 0.0
    ensures m > 0.0 ==> 0.0 <= x - m * (x / m).Floor as real < m
    ensures m < 0.0 ==> m < x - m * (x / m).Floor as real <= 0.0
  {
    var y := x / m;
    var q := y.Floor as real;
    var f := y - q;
    assert 0.0 <= f < 1.0;
    assert x - m * q == m * f by {
      assert x == m * y;
    }
    if m > 0.0 {
      MulOrder(m, 0.0, f);
      MulOrder(m, f, 1.0);
      assert 0.0 <= m * f < m;
    } else {
      MulOrder(-m, 0.0, f);
      MulOrder(-m, f, 1.0);
      assert (-m) * f == -(m * f);
      assert m < m * f <= 0.0;
    }
    assert x - m * (x / m).Floor as real == m * f;
  }

  lemma DivUnique(a: real, b: real, z: real)
    requires b != 0.0 && b * z == a
    ensures a / b == z
  {
    assert b * (a / b) == a;
    assert b * (a / b - z) == 0.0;
  }

  /** Multiplying by a positive factor preserves order. */
  lemma MulOrder(a: real, b: real, c: real)
    requires a > 0.0
    ensures (b < c) == (a * b < a * c)
    ensures (b <= c) == (a * b <= a * c)
  {
    if b < c {
      assert a * c - a * b == a * (c - b);
    } else if c < b {
      assert a * b - a * c == a * (b - c);
    }
  }

  /** The position map of the maze: a ring wraps modulo the track length, a line clamps into [0, length]. */
  function ApplyTopology(t: Topology, length: real, x: real): (r: Result<real>)
    ensures t.Ring? ==> (r.Ok? <==> length != 0.0) && (r.Err? ==> r.error == ZeroDivisionError)
    ensures t.Ring? && length > 0.0 ==> r.Ok? && 0.0 <= r.value < length
    ensures t.Line? ==> r.Ok? && (length >= 0.0 ==> 0.0 <= r.value <= length)
    ensures t.Line? && 0.0 <= x <= length ==> r == Ok(x)
  {
    match t
    case Ring => if length == 0.0 then Err(ZeroDivisionError) else Ok(FloatMod(x, length))
    case Line => Ok(Min(Max(x, 0.0), length))
  }

  /** A position already on a ring track is its own image. */
  lemma RingFixesTrackPositions(length: real, x: real)
    requires 0.0 <= x < length
    ensures ApplyTopology(Ring, length, x) == Ok(x)
  {
    var y := x / length;
    assert x == length * y;
    MulOrder(length, y, 1.0);
    MulOrder(length, 0.0, y);
    assert y.Floor == 0;
  }

  /** Moving a whole lap along a ring track does not change the position. */
  lemma RingPeriodic(length: real, x: real)
    requires length != 0.0
    ensures ApplyTopology(Ring, length, x + length) == ApplyTopology(Ring, length, x)
  {
    var z := x / length + 1.0;
    assert length * z == x + length;
    DivUnique(x + length, length, z);
    assert ((x + length) / length).Floor == (x / length).Floor + 1;
  }

  datatype MazeConfig = MazeConfig(length: Option<real>, wheelDiameter: Option<real>,
                                   encoderGain: Option<real>, topology: Option<string>)

  /** Track length (cm), cm travelled per encoder count, and topology. */
  datatype MazeParams = MazeParams(trackLength: real, diameterConstant: real, topology: Topology)

  function OrElse<T>(o: Option<T>, d: T): T
  {
    if o.Some? then o.value else d
  }

  /**
   * The maze part of the constructor: defaults Length 1000.0, WheelDiameter 20.2,
   * EncoderGain 4096.0, Topology 'Ring'; cm per count is pi*d/gain.
   */
  function MazeSetup(cfg: MazeConfig, pi: real): (r: Result<MazeParams>)
    ensures OrElse(cfg.encoderGain, 4096.0) == 0.0 ==> r == Err(ZeroDivisionError)
    ensures OrElse(cfg.encoderGain, 4096.0) != 0.0 ==>
              (r.Ok? <==> OrElse(cfg.topology, "Ring") in {"Ring", "Line"})
    ensures r.Err? ==> r.error in {ZeroDivisionError, ValueError}
    ensures r.Ok? ==> r.value.trackLength == OrElse(cfg.length, 1000.0)
    ensures r.Ok? ==> r.value.diameterConstant * OrElse(cfg.encoderGain, 4096.0) == pi * OrElse(cfg.wheelDiameter, 20.2)
    ensures r.Ok? ==> (r.value.topology == Ring <==> OrElse(cfg.topology, "Ring") == "Ring")
  {
    var length, d, gain := OrElse(cfg.length, 1000.0), OrElse(cfg.wheelDiameter, 20.2), OrElse(cfg.encoderGain, 4096.0);
    if gain == 0.0 then Err(ZeroDivisionError)
    else
      var t := ParseTopology(OrElse(cfg.topology, "Ring"));
      if t.Err? then Err(t.error) else Ok(MazeParams(length, pi * d / gain, t.value))
  }

  // ---------------------------------------------------------------------------
  // Velocity smoothing: a 50-slot circular buffer of per-frame displacements

  const WINDOW: nat := 50
  /** Frames per second of the board's stream. */
  const FRAME_RATE: real := 500.0

  function Zeros(n: nat): (r: seq<real>)
    ensures |r| == n && forall i :: 0 <= i < n ==> r[i] == 0.0
  {
    if n == 0 then [] else Zeros(n - 1) + [0.0]
  }

  /** The buffer after the displacements `h` were written one per slot, wrapping after slot 49. */
  function RingContents(h: seq<real>): (r: seq<real>)
    ensures |r| == WINDOW
  {
    if h == [] then Zeros(WINDOW) else RingContents(h[..|h| - 1])[(|h| - 1) % WINDOW := h[|h| - 1]]
  }

  /** The last (at most) 50 displacements. */
  function Recent(h: seq<real>): (r: seq<real>)
    ensures |r| <= WINDOW
  {
    if |h| <= WINDOW then h else h[|h| - WINDOW..]
  }

  /** The moving average the velocity is computed from. */
  function Mean(buffer: seq<real>): real
  {
    Sum(buffer) / WINDOW as real
  }

  /** The mean keeps the sign shared by all the displacements in the buffer. */
  lemma MeanSign(buffer: seq<real>)
    ensures (forall i :: 0 <= i < |buffer| ==> buffer[i] >= 0.0) ==> Mean(buffer) >= 0.0
    ensures (forall i :: 0 <= i < |buffer| ==> buffer[i] <= 0.0) ==> Mean(buffer) <= 0.0
  {
    SumSign(buffer);
  }

  lemma {:induction false} SumUpdate(s: seq<real>, i: nat, v: real)
    requires i < |s|
    ensures Sum(s[i := v]) == Sum(s) - s[i] + v
    decreases |s|
  {
    var t := s[i := v];
    if i < |s| - 1 {
      assert t[..|t| - 1] == s[..|s| - 1][i := v];
      SumUpdate(s[..|s| - 1], i, v);
    } else {
      assert t[..|t| - 1] == s[..|s| - 1];
    }
  }

  /** The latest position before `n` that the ring wrote to slot `k`. */
  function LatestAt(n: nat, k: nat): (r: nat)
    requires k < WINDOW && k < n
    ensures k <= r < n && r % WINDOW == k
    decreases n
  {
    if (n - 1) % WINDOW == k then n - 1 else LatestAt(n - 1, k)
  }

  lemma {:induction false} RingSlot(h: seq<real>, k: nat)
    requires k < WINDOW
    ensures RingContents(h)[k] == if |h| <= k then 0.0 else h[LatestAt(|h|, k)]
    decreases |h|
  {
    if h != [] {
      var m := |h| - 1;
      var p := h[..m];
      RingSlot(p, k);
      assert RingContents(h) == RingContents(p)[m % WINDOW := h[m]];
      if m % WINDOW != k && m > k {
        assert p[LatestAt(m, k)] == h[LatestAt(m, k)];
      }
    }
  }

  /** Between two positions written to slot `k` a window apart, slot `k` is not written. */
  lemma {:induction false} LatestAtWithin(t: nat, k: nat, j: nat)
    requires k < WINDOW && j % WINDOW == k && j < t <= j + WINDOW
    ensures LatestAt(t, k) == j
    decreases t
  {
    if t - 1 != j {
      ModShift(j, t - 1 - j);
      LatestAtWithin(t - 1, k, j);
    }
  }

  lemma ModShift(j: nat, d: nat)
    requires 0 < d < WINDOW
    ensures (j + d) % WINDOW != j % WINDOW
  {
    var q, k := j / WINDOW, j % WINDOW;
    if k + d < WINDOW {
      DivOfSum(q, k + d);
    } else {
      DivOfSum(q + 1, k + d - WINDOW);
    }
  }

  lemma DivOfSum(q: int, t: int)
    requires 0 <= t < WINDOW
    ensures (WINDOW * q + t) / WINDOW == q && (WINDOW * q + t) % WINDOW == t
  {
  }

  lemma ModNext(a: nat)
    ensures (a % WINDOW + 1) % WINDOW == (a + 1) % WINDOW
  {
  }

  /** The sum of the buffer is the sum of the last 50 displacements. */
  lemma {:induction false} RingSum(h: seq<real>)
    ensures Sum(RingContents(h)) == Sum(Recent(h))
    decreases |h|
  {
    if h == [] {
      ZerosSum(WINDOW);
    } else {
      var n := |h|;
      var p := h[..n - 1];
      RingSum(p);
      var k := (n - 1) % WINDOW;
      var rp := RingContents(p);
      assert Sum(RingContents(h)) == Sum(rp) - rp[k] + h[n - 1] by {
        assert RingContents(h) == rp[k := h[n - 1]];
        SumUpdate(rp, k, h[n - 1]);
      }
      assert rp[k] == if n > WINDOW then h[n - 1 - WINDOW] else 0.0 by {
        RingOverwrites(h);
      }
      RecentStep(h);
    }
  }

  /** The slot the next displacement goes to holds the one from a window earlier, or 0 while filling up. */
  lemma RingOverwrites(h: seq<real>)
    requires |h| > 0
    ensures var n := |h|;
            RingContents(h[..n - 1])[(n - 1) % WINDOW] == if n > WINDOW then h[n - 1 - WINDOW] else 0.0
  {
    var n := |h|;
    var k := (n - 1) % WINDOW;
    RingSlot(h[..n - 1], k);
    if n > WINDOW {
      DivOfSum((n - 1) / WINDOW - 1, k);
      LatestAtWithin(n - 1, k, n - 1 - WINDOW);
    }
  }

  /** The window sum gains the newest displacement and, once full, loses the oldest. */
  lemma RecentStep(h: seq<real>)
    requires |h| > 0
    ensures var n := |h|;
            Sum(Recent(h)) == Sum(Recent(h[..n - 1])) - (if n > WINDOW then h[n - 1 - WINDOW] else 0.0) + h[n - 1]
  {
    var n := |h|;
    var p := h[..n - 1];
    if n <= WINDOW {
      assert Recent(h) == h && Recent(p) == p;
    } else {
      assert Recent(h)[..WINDOW - 1] == Recent(p)[1..];
      SumDropFirst(Recent(p));
    }
  }

  lemma {:induction false} ZerosSum(n: nat)
    ensures Sum(Zeros(n)) == 0.0
  {
    if n > 0 {
      assert Zeros(n)[..n - 1] == Zeros(n - 1);
      ZerosSum(n - 1);
    }
  }

  lemma {:induction false} ConstantSum(s: seq<real>, d: real)
    requires forall i :: 0 <= i < |s| ==> s[i] == d
    ensures Sum(s) == |s| as real * d
  {
    if s != [] { ConstantSum(s[..|s| - 1], d); }
  }

  /**
   * Once the last 50 per-frame displacements all equal `d`, the smoothed velocity
   * (500 times the buffer mean) is exactly 500*d cm/s.
   */
  lemma SteadyVelocity(h: seq<real>, d: real)
    requires |h| >= WINDOW
    requires forall i :: |h| - WINDOW <= i < |h| ==> h[i] == d
    ensures Mean(RingContents(h)) == d
  {
    RingSum(h);
    RecentSum(h, d);
    var sum := Sum(RingContents(h));
    assert sum == 50.0 * d;
    assert Mean(RingContents(h)) == sum / 50.0;
  }

  /** The last 50 displacements, all equal to `d`, sum to 50*d. */
  lemma RecentSum(h: seq<real>, d: real)
    requires |h| >= WINDOW
    requires forall i :: |h| - WINDOW <= i < |h| ==> h[i] == d
    ensures Sum(Recent(h)) == 50.0 * d
  {
    var w := Recent(h);
    assert |w| == WINDOW;
    forall i | 0 <= i < |w| ensures w[i] == d {
      assert w[i] == h[|h| - WINDOW + i];
    }
    ConstantSum(w, d);
  }

  // ---------------------------------------------------------------------------
  // Output tracking: pin bookkeeping, serial writes and their effects

  /**
   * A registered GPIO (`self.GPIOs[name]`). `isPulsed` is None while the entry
   * has no IsPulsed key: add_gpio stores Number, Type, Power and Mirror before
   * the OutputPinMask update that can raise, and adds IsPulsed and PulseOffTime
   * only after it. PulseOffTime is read only while IsPulsed is true, and it is
   * always set together with IsPulsed = True, so a missing PulseOffTime cannot
   * be observed and the entry keeps -1 there.
   */
  datatype Gpio = Gpio(number: int, kind: string, power: bool, mirror: bool, isPulsed: Option<bool>, pulseOffTime: int)

  /** A GPIO entry of the configuration; Power and Mirror are optional. */
  datatype PinConfig = PinConfig(number: int, kind: string, power: Option<bool>, mirror: Option<bool>)

  /**
   * The output-side state: every serial write so far, the tracked GPIO_state
   * (as the set of its 1-bits) and the GPIO registry.
   */
  datatype Io = Io(written: seq<seq<byte>>, state: set<nat>, gpios: map<string, Gpio>)

  /** The state an operation leaves behind and the exception it raised, if any. */
  datatype Effect = Effect(io: Io, error: Option<Error>)

  function OutcomeOf(e: Effect): Outcome
  {
    if e.error.Some? then Fail(e.error.value) else Done
  }

  /** `self.serial.write(bytes)`; before connect the port is None and the call raises. */
  function Emit(open: bool, io: Io, bytes: seq<byte>): (e: Effect)
    ensures e.error.None? <==> open
    ensures e.io.state == io.state && e.io.gpios == io.gpios
    ensures e.io.written == if open then io.written + [bytes] else io.written
  {
    if open then Effect(io.(written := io.written + [bytes]), None) else Effect(io, Some(AttributeError))
  }

  /** `configure_pin`. */
  function ConfigurePinEffect(open: bool, io: Io, pin: int, direction: string, pinType: string): (e: Effect)
    ensures e.io.gpios == io.gpios && e.io.state == io.state
  {
    var c := ConfigureCommand(pin, direction, pinType);
    if c.Err? then Effect(io, Some(c.error)) else Emit(open, io, c.value)
  }

  /** The GPIO_state update at the end of `write_pin`: set bit `pin` for a positive value, clear it otherwise. */
  function TrackWrite(version: int, state: set<nat>, pin: int, value: int): (r: Result<set<nat>>)
    ensures r.Ok? <==> pin >= 0 && version != 1
    ensures r.Ok? ==> (pin in r.value <==> value > 0)
    ensures r.Ok? ==> forall b :: b != pin ==> (b in r.value <==> b in state)
  {
    if pin < 0 then Err(ValueError)          // negative shift count
    else if version == 1 then Err(TypeError) // version 1 keeps GPIO_state as bytes
    else Ok(if value > 0 then state + {pin} else state - {pin})
  }

  /** `write_pin`. */
  function WritePinEffect(version: int, open: bool, io: Io, pin: int, value: int, pinType: string, mirror: bool): (e: Effect)
    ensures e.io.gpios == io.gpios
  {
    var c := WriteCommand(pin, value, pinType, mirror);
    if c.Err? then Effect(io, Some(c.error))
    else
      var e := Emit(open, io, c.value);
      if e.error.Some? then e
      else
        var t := TrackWrite(version, io.state, pin, value);
        if t.Err? then Effect(e.io, Some(t.error)) else Effect(e.io.(state := t.value), None)
  }

  /** A version-1 state byte fits `to_bytes(1, signed=True)` when no bit above bit 6 is set. */
  predicate FitsSignedByte(bits: set<nat>)
  {
    forall b :: b in bits ==> b < 7
  }

  /**
   * `raise_output` (set = true) and `lower_output` (set = false). Raising reads
   * IsPulsed first, so it raises KeyError on an entry without one; lowering only
   * writes it.
   */
  function DriveEffect(version: int, open: bool, io: Io, name: string, high: bool): (e: Effect)
    ensures name !in io.gpios || (high && io.gpios[name].isPulsed.None?) ==> e == Effect(io, Some(KeyError))
    ensures name in io.gpios && !(high && io.gpios[name].isPulsed.None?) ==>
              e.io.gpios == io.gpios[name := io.gpios[name].(isPulsed := Some(false))]
  {
    if name !in io.gpios then Effect(io, Some(KeyError))
    else if high && io.gpios[name].isPulsed.None? then Effect(io, Some(KeyError))
    else
      var g := io.gpios[name];
      var io1 := io.(gpios := io.gpios[name := g.(isPulsed := Some(false))]);
      if version == 1 then
        if g.number < 0 then Effect(io1, Some(ValueError))
        else
          var bits := if high then io.state + {g.number} else io.state - {g.number};
          if !FitsSignedByte(bits) then Effect(io1, Some(OverflowError))
          else Emit(open, io1.(state := bits), [BitsValue(bits, 7)])
      else if version == 2 then WritePinEffect(version, open, io1, g.number, if high then 1 else 0, "DIO", g.mirror)
      else Effect(io1, None)
  }

  /** `configure_io`: configure the DIO pin, then the AUX pin for power and for mirroring. */
  function ConfigureIoEffect(version: int, open: bool, io: Io, pin: int, direction: string, power: bool, mirror: bool): (e: Effect)
    ensures e.io.gpios == io.gpios
  {
    var e1 := ConfigurePinEffect(open, io, pin, direction, "DIO");
    if e1.error.Some? then e1
    else
      var e2 := if power then
                  var a := ConfigurePinEffect(open, e1.io, pin, "OUTPUT", "AUX");
                  if a.error.Some? then a else WritePinEffect(version, open, a.io, pin, 1, "AUX", false)
                else e1;
      if e2.error.Some? || !mirror then e2 else ConfigurePinEffect(open, e2.io, pin, "OUTPUT", "AUX")
  }

  /** The pulse of `name` is due for lowering at `time`. */
  predicate Due(gpios: map<string, Gpio>, name: string, time: int)
  {
    name in gpios && gpios[name].isPulsed == Some(true) && time > gpios[name].pulseOffTime
  }

  /**
   * `update_pulses` over the registry names `names`, in order; an entry without
   * IsPulsed raises KeyError.
   */
  function PulsesEffect(version: int, open: bool, time: int, io: Io, names: seq<string>): (e: Effect)
    ensures e.io.gpios.Keys == io.gpios.Keys
    decreases |names|
  {
    if names == [] then Effect(io, None)
    else
      var e := PulsesEffect(version, open, time, io, names[..|names| - 1]);
      var n := names[|names| - 1];
      if e.error.Some? then e
      else if n in e.io.gpios && e.io.gpios[n].isPulsed.None? then Effect(e.io, Some(KeyError))
      else if Due(e.io.gpios, n, time) then DriveEffect(version, open, e.io, n, false)
      else e
  }

  /** The `configure_io` calls of `connect`, one per registered GPIO, in order. */
  function ConfigureAllEffect(version: int, open: bool, io: Io, names: seq<string>): (e: Effect)
    ensures e.io.gpios == io.gpios
    decreases |names|
  {
    if names == [] then Effect(io, None)
    else
      var e := ConfigureAllEffect(version, open, io, names[..|names| - 1]);
      var n := names[|names| - 1];
      if e.error.Some? || n !in e.io.gpios then e
      else
        var g := e.io.gpios[n];
        ConfigureIoEffect(version, open, e.io, g.number, g.kind, g.power, g.mirror)
  }

  /** The commands `connect` sends first: every DIO and AUX pin 1..n configured as INPUT. */
  function InputSweep(n: nat): (r: seq<seq<byte>>)
    requires n <= 12
    ensures |r| == 2 * n
  {
    if n == 0 then []
    else InputSweep(n - 1) + [[MAGIC, CONFIGURE_DIO, n, 0], [MAGIC, CONFIGURE_AUX, n, 0]]
  }

  // ---------------------------------------------------------------------------
  // Properties of the output bookkeeping

  /**
   * On a connected version-2 interface, write_pin with pin and value in 0..127
   * succeeds, sends exactly the decoded command, records bit `pin` as high iff
   * value > 0, and leaves every other tracked bit alone.
   */
  lemma WritePinTracksBit(io: Io, pin: int, value: int, mirror: bool)
    requires 0 <= pin < 128 && -128 <= value < 128
    ensures var e := WritePinEffect(2, true, io, pin, value, "DIO", mirror);
      e.error.None? && |e.io.written| == |io.written| + 1 && e.io.written[..|io.written|] == io.written
      && DecodeCommand(e.io.written[|io.written|]) == Some(Command(if mirror then 'M' else 'D', pin, value))
      && (pin in e.io.state <==> value > 0)
      && (forall b :: b != pin ==> (b in e.io.state <==> b in io.state))
  {
    WriteCommandRoundTrip(pin, value, "DIO", mirror);
  }

  /** Version 1 keeps GPIO_state as bytes, so write_pin always raises after writing its command. */
  lemma WritePinVersion1Raises(io: Io, pin: int, value: int, pinType: string, mirror: bool)
    requires -128 <= pin < 128 && -128 <= value < 128
    ensures WritePinEffect(1, true, io, pin, value, pinType, mirror).error.Some?
  {
  }

  /**
   * update_pulses leaves alone every registered pin that was not due when it
   * started (whether or not a later write raised).
   */
  lemma {:induction false} PulsesKeepNotDue(open: bool, time: int, io: Io, names: seq<string>)
    ensures forall n :: n in io.gpios && (n !in names || !Due(io.gpios, n, time)) ==>
              PulsesEffect(2, open, time, io, names).io.gpios[n] == io.gpios[n]
    decreases |names|
  {
    if names != [] {
      var p := names[..|names| - 1];
      var last := names[|names| - 1];
      PulsesKeepNotDue(open, time, io, p);
      forall n | n in io.gpios && (n !in names || !Due(io.gpios, n, time))
        ensures PulsesEffect(2, open, time, io, names).io.gpios[n] == io.gpios[n]
      {
        assert n !in p || !Due(io.gpios, n, time) by {
          assert forall m :: m in p ==> m in names;
        }
      }
    }
  }

  /**
   * update_pulses lowers exactly the pulses that are due: when no write raised,
   * no listed pin is still pulsed past its off time afterwards, and every pin that
   * was due has only its pulse flag cleared.
   */
  lemma {:induction false} PulsesLowerDue(open: bool, time: int, io: Io, names: seq<string>)
    requires forall n :: n in names ==> n in io.gpios
    ensures var e := PulsesEffect(2, open, time, io, names);
      e.error.None? ==>
        forall n :: n in names ==>
          !Due(e.io.gpios, n, time)
          && (Due(io.gpios, n, time) ==> e.io.gpios[n] == io.gpios[n].(isPulsed := Some(false)))
    decreases |names|
  {
    if names != [] {
      var p := names[..|names| - 1];
      var last := names[|names| - 1];
      assert forall n :: n in p ==> n in names;
      assert forall n :: n in names ==> n in p || n == last;
      PulsesLowerDue(open, time, io, p);
      PulsesKeepNotDue(open, time, io, p);
    }
  }

  /**
   * pulse_output followed by update_pulses: while the frame time has not passed
   * the off time the pulse stays up and nothing is sent; once it has, the pin is
   * lowered with a single write of value 0.
   */
  lemma PulseThenUpdate(io: Io, name: string, offTime: int, time: int)
    requires name in io.gpios && 0 <= io.gpios[name].number < 128 && io.gpios[name].isPulsed.Some?
    requires forall n :: n in io.gpios && n != name ==> io.gpios[n].isPulsed != Some(true)
    ensures var up := DriveEffect(2, true, io, name, true);
      var io1 := up.io.(gpios := up.io.gpios[name := up.io.gpios[name].(isPulsed := Some(true), pulseOffTime := offTime)]);
      var after := PulsesEffect(2, true, time, io1, [name]);
      up.error.None? && after.error.None?
      && (time <= offTime ==> after.io == io1)
      && (time > offTime ==> |after.io.written| == |io1.written| + 1 && after.io.gpios[name].isPulsed == Some(false)
                             && io.gpios[name].number !in after.io.state)
  {
    var g := io.gpios[name];
    WriteCommandRoundTrip(g.number, 1, "DIO", g.mirror);
    WriteCommandRoundTrip(g.number, 0, "DIO", g.mirror);
    var up := DriveEffect(2, true, io, name, true);
    var io1 := up.io.(gpios := up.io.gpios[name := up.io.gpios[name].(isPulsed := Some(true), pulseOffTime := offTime)]);
    assert PulsesEffect(2, true, time, io1, [name][..0]) == Effect(io1, None);
  }

  /** The configure command of one pin of the INPUT sweep. */
  lemma InputCommands(pin: byte)
    requires 1 <= pin <= 12
    ensures ConfigureCommand(pin, "INPUT", "DIO") == Ok([MAGIC, CONFIGURE_DIO, pin, 0])
    ensures ConfigureCommand(pin, "INPUT", "AUX") == Ok([MAGIC, CONFIGURE_AUX, pin, 0])
  {
    UpperKeepsUpper("INPUT");
    assert "INPUT" in PIN_MODES && PIN_MODES["INPUT"] == 0;
    assert SignedByte(pin) == Ok(pin);
    assert ConfigureTag("AUX") == [CONFIGURE_AUX] by { assert "AUX" != "DIO"; }
    assert [MAGIC] + [CONFIGURE_DIO] + [pin, 0] == [MAGIC, CONFIGURE_DIO, pin, 0];
    assert [MAGIC] + [CONFIGURE_AUX] + [pin, 0] == [MAGIC, CONFIGURE_AUX, pin, 0];
  }

  /** In version 2, GPIO_state keeps its output bits and takes every other bit from the frame's GPIO word. */
  function MergeState(state: set<nat>, mask: set<nat>, word: nat): (r: set<nat>)
    requires word < 0x1_0000
    ensures forall b :: b in mask ==> (b in r <==> b in state)
    ensures forall b :: b !in mask ==> (b in r <==> b < 16 && TestBit(word, b))
  {
    (state * mask) + (BitsOf16(word) - mask)
  }

  /**
   * read_data counts a latency event exactly when the frame's GPIO word disagrees
   * with the merged state, i.e. when some output bit has not (yet) taken the value
   * the host last wrote to it.
   */
  lemma LatencyMeansOutputMismatch(state: set<nat>, mask: set<nat>, word: nat)
    requires word < 0x1_0000
    ensures (BitsOf16(word) != MergeState(state, mask, word)) <==>
              exists b :: b in mask && ((b in state) != (b < 16 && TestBit(word, b)))
  {
    var m := MergeState(state, mask, word);
    if BitsOf16(word) != m {
      var b :| (b in BitsOf16(word)) != (b in m);
      assert b in mask;
    }
  }

  // ---------------------------------------------------------------------------
  // The interface object

  /** The writes `connect` makes once synchronised. */
  function ConnectOutputEffect(version: int, io: Io, order: seq<string>): (e: Effect)
    ensures e.io.gpios == io.gpios
  {
    var c := ConfigureAllEffect(version, true, io.(written := io.written + InputSweep(12)), order);
    if c.error.None? && version == 1 then Emit(true, c.io, [BitsValue(c.io.state, 7)]) else c
  }

  /** `order` lists every name of `keys` exactly once. */
  ghost predicate RegistryOrder(keys: set<string>, order: seq<string>)
  {
    (forall n :: n in keys <==> n in order)
    && (forall i, j :: 0 <= i < j < |order| ==> order[i] != order[j])
  }

  /** Registering a name keeps the order listing each name once, appending it when it is new. */
  lemma RegistryInsert(keys: set<string>, order: seq<string>, name: string)
    requires RegistryOrder(keys, order)
    ensures RegistryOrder(keys + {name}, if name in keys then order else order + [name])
  {
  }

  /** `diff_encoder * self.diameter_constant`: the distance, in cm, that a change of `counts` encoder counts covers. */
  function Displacement(m: MazeParams, counts: int): real
  {
    counts as real * m.diameterConstant
  }

  /** The position-tracking fields of the interface, as one value. */
  datatype Track = Track(unwrappedEncoder: int, pos: real, unwrappedPos: real, velocity: real,
                         reinitialize: bool, deltas: seq<real>)

  /** The movement case of `TrackStep`, from the new view's fields. */
  lemma MovedStep(maze: Option<MazeParams>, blockMovement: bool, t0: Track, newUnwrapped: int, t: Track, r: Outcome)
    requires maze.Some? && !t0.reinitialize && !blockMovement
    requires var change := Displacement(maze.value, newUnwrapped - t0.unwrappedEncoder);
             var p := ApplyTopology(maze.value.topology, maze.value.trackLength, t0.pos + change);
             && t.deltas == t0.deltas + [change] && !t.reinitialize
             && t.velocity == Mean(RingContents(t.deltas)) * FRAME_RATE
             && t.unwrappedPos == t0.unwrappedPos + change
             && (p.Ok? ==> r == Done && t.pos == p.value && t.unwrappedEncoder == newUnwrapped)
             && (p.Err? ==> r == Fail(p.error) && t.pos == t0.pos && t.unwrappedEncoder == t0.unwrappedEncoder)
    ensures TrackStep(maze, blockMovement, t0, newUnwrapped, t, r)
  {
  }

  /**
   * The tracking half of `read_data`, from fields `t0` and the frame's unwrapped
   * count `newUnwrapped`: without a maze the `reinitialize` attribute is missing
   * (AttributeError, nothing changes); a pending reinitialisation zeroes the
   * position and velocity; blocked movement only takes the new count; otherwise
   * the displacement enters the smoothing buffer, the velocity becomes its mean
   * times the frame rate and the position moves by it and is placed on the track,
   * where a zero ring length raises ZeroDivisionError after the velocity and the
   * unwrapped position are updated, leaving the position and the count.
   */
  ghost predicate TrackStep(maze: Option<MazeParams>, blockMovement: bool, t0: Track, newUnwrapped: int, t: Track, r: Outcome)
  {
    if maze.None? then r == Fail(AttributeError) && t == t0
    else if t0.reinitialize then r == Done && t == Track(newUnwrapped, 0.0, 0.0, 0.0, false, t0.deltas)
    else if blockMovement then r == Done && t == t0.(unwrappedEncoder := newUnwrapped)
    else
      var change := Displacement(maze.value, newUnwrapped - t0.unwrappedEncoder);
      var p := ApplyTopology(maze.value.topology, maze.value.trackLength, t0.pos + change);
      && t.deltas == t0.deltas + [change] && !t.reinitialize
      && t.velocity == Mean(RingContents(t.deltas)) * FRAME_RATE
      && t.unwrappedPos == t0.unwrappedPos + change
      && (p.Ok? ==> r == Done && t.pos == p.value && t.unwrappedEncoder == newUnwrapped)
      && (p.Err? ==> r == Fail(p.error) && t.pos == t0.pos && t.unwrappedEncoder == t0.unwrappedEncoder)
  }

  class SerialInterface {
    const version: int
    /** Bytes the board has sent that the host has not read yet. */
    var incoming: seq<byte>
    /** `self.serial is not None`: set when connect opens the port. */
    var isOpen: bool
    var link: Option<Link>
    var written: seq<seq<byte>>
    var gpioState: set<nat>
    var outputPinMask: set<nat>
    var gpios: map<string, Gpio>
    /** Insertion order of the registry, the order `dict.items()` visits. */
    var gpioOrder: seq<string>
    var latency: nat
    var masterTime: int
    var encoder: int
    var unwrappedEncoder: int
    var gpio: Option<nat>
    var auxGpio: Option<nat>
    /** The maze configuration; `calculate_position` is `maze.Some?`. */
    const maze: Option<MazeParams>
    var reinitialize: bool
    var blockMovement: bool
    var pos: real
    var unwrappedPos: real
    var velocity: real
    const smoothing: array<real>
    var smoothingIdx: nat
    /** Every displacement fed to the smoothing buffer. */
    ghost var deltas: seq<real>

    /** The tracking fields, as a Track. */
    ghost function TrackView(): Track
      reads this`unwrappedEncoder, this`pos, this`unwrappedPos, this`velocity, this`reinitialize, this`deltas
    {
      Track(unwrappedEncoder, pos, unwrappedPos, velocity, reinitialize, deltas)
    }

    ghost predicate Valid()
      reads this, smoothing
    {
      SmoothingValid() && RegistryValid() && StateValid() && LinkValid()
    }

    /** The smoothing buffer holds the ring contents of every displacement fed to it. */
    ghost predicate SmoothingValid()
      reads this`smoothingIdx, this`deltas, smoothing
    {
      smoothing.Length == WINDOW && smoothingIdx == |deltas| % WINDOW && smoothing[..] == RingContents(deltas)
    }

    /** The registry order lists each registered name once. */
    ghost predicate RegistryValid()
      reads this`gpios, this`gpioOrder
    {
      RegistryOrder(gpios.Keys, gpioOrder)
    }

    /** A version-1 state byte fits a signed byte. */
    ghost predicate StateValid()
      reads this`gpioState
    {
      version == 1 ==> FitsSignedByte(gpioState)
    }

    /** MessageLen and startChar exist exactly once a known version has opened the port. */
    ghost predicate LinkValid()
      reads this`link, this`isOpen
    {
      (link.Some? ==> isOpen && FrameFormat(version) == Some((link.value.messageLen, link.value.startChar)))
      && (isOpen && FrameFormat(version).Some? ==> link.Some?)
    }

    function IoView(): Io
      reads this`written, this`gpioState, this`gpios
    {
      Io(written, gpioState, gpios)
    }

    /** The constructor with a (validated) maze configuration and the bytes the board will send. */
    constructor (version: int, maze: Option<MazeParams>, incoming: seq<byte>)
      ensures Valid() && fresh(smoothing)
      ensures this.version == version && this.maze == maze && this.incoming == incoming
      ensures !isOpen && link.None? && written == [] && gpioState == {} && outputPinMask == {}
      ensures gpios == map[] && gpioOrder == [] && latency == 0
      ensures masterTime == 0 && encoder == 0 && unwrappedEncoder == 0 && gpio.None? && auxGpio.None?
      ensures reinitialize && !blockMovement && pos == 0.0 && unwrappedPos == 0.0 && velocity == 0.0
      ensures smoothingIdx == 0 && deltas == [] && smoothing[..] == Zeros(WINDOW)
    {
      this.version := version;
      this.maze := maze;
      this.incoming := incoming;
      isOpen := false;
      link := None;
      written := [];
      gpioState := {};
      outputPinMask := {};
      gpios := map[];
      gpioOrder := [];
      latency := 0;
      masterTime := 0;
      encoder := 0;
      unwrappedEncoder := 0;
      gpio := None;
      auxGpio := None;
      reinitialize := true;
      blockMovement := false;
      pos := 0.0;
      unwrappedPos := 0.0;
      velocity := 0.0;
      smoothing := new real[WINDOW](_ => 0.0);
      smoothingIdx := 0;
      deltas := [];
      new;
      assert smoothing[..] == Zeros(WINDOW);
    }

    /** `self.serial.read(n)`: up to `n` pending bytes (fewer on timeout). */
    method Read(n: nat) returns (x: seq<byte>)
      modifies this`incoming
      ensures x == Take(old(incoming), n) && incoming == old(incoming)[|x|..]
    {
      x := Take(incoming, n);
      incoming := incoming[|x|..];
    }

    /**
     * `add_gpio`: register a pin; an output pin also enters OutputPinMask. When
     * that update raises (no OutputPinMask on version 1, a negative shift count),
     * the entry is already stored, without IsPulsed.
     */
    method AddGpio(name: string, cfg: PinConfig) returns (r: Outcome)
      requires RegistryValid()
      modifies this`gpios, this`gpioOrder, this`outputPinMask
      ensures RegistryValid()
      ensures cfg.kind == "Output" && version == 1 ==> r == Fail(AttributeError)
      ensures cfg.kind == "Output" && version != 1 && cfg.number < 0 ==> r == Fail(ValueError)
      ensures r.Done? <==> cfg.kind != "Output" || (version != 1 && cfg.number >= 0)
      ensures gpios == old(gpios)[name := Gpio(cfg.number, cfg.kind, OrElse(cfg.power, false), OrElse(cfg.mirror, false),
                                               if r.Done? then Some(false) else None, -1)]
      ensures gpioOrder == if name in old(gpios) then old(gpioOrder) else old(gpioOrder) + [name]
      ensures r.Fail? ==> outputPinMask == old(outputPinMask)
      ensures r.Done? ==> outputPinMask == if cfg.kind == "Output" then old(outputPinMask) + {cfg.number} else old(outputPinMask)
    {
      RegistryInsert(gpios.Keys, gpioOrder, name);
      var entry := Gpio(cfg.number, cfg.kind, OrElse(cfg.power, false), OrElse(cfg.mirror, false), None, -1);
      gpios, gpioOrder := gpios[name := entry], if name in gpios then gpioOrder else gpioOrder + [name];
      assert gpios.Keys == old(gpios).Keys + {name};
      if cfg.kind == "Output" {
        if version == 1 { return Fail(AttributeError); }
        if cfg.number < 0 { return Fail(ValueError); }
        outputPinMask := outputPinMask + {cfg.number};
      }
      gpios := gpios[name := entry.(isPulsed := Some(false))];
      r := Done;
    }

    /** `send_byte`: write the bytes unless there are none. */
    method SendByte(data: Option<seq<byte>>) returns (r: Outcome)
      modifies this`written
      ensures data.None? ==> r == Done && written == old(written)
      ensures data.Some? ==> IoView() == Emit(isOpen, old(IoView()), data.value).io
                             && r == OutcomeOf(Emit(isOpen, old(IoView()), data.value))
    {
      r := Done;
      if data.Some? {
        if !isOpen { return Fail(AttributeError); }
        written := written + [data.value];
      }
    }

    method ConfigurePin(pin: int, direction: string, pinType: string) returns (r: Outcome)
      modifies this`written
      ensures IoView() == ConfigurePinEffect(isOpen, old(IoView()), pin, direction, pinType).io
      ensures r == OutcomeOf(ConfigurePinEffect(isOpen, old(IoView()), pin, direction, pinType))
    {
      var c := ConfigureCommand(pin, direction, pinType);
      if c.Err? { return Fail(c.error); }
      if !isOpen { return Fail(AttributeError); }
      written := written + [c.value];
      r := Done;
    }

    method WritePin(pin: int, value: int, pinType: string, mirror: bool) returns (r: Outcome)
      requires StateValid()
      modifies this`written, this`gpioState
      ensures StateValid()
      ensures IoView() == WritePinEffect(version, isOpen, old(IoView()), pin, value, pinType, mirror).io
      ensures r == OutcomeOf(WritePinEffect(version, isOpen, old(IoView()), pin, value, pinType, mirror))
    {
      var c := WriteCommand(pin, value, pinType, mirror);
      if c.Err? { return Fail(c.error); }
      if !isOpen { return Fail(AttributeError); }
      written := written + [c.value];
      if pin < 0 { return Fail(ValueError); }
      if version == 1 { return Fail(TypeError); }
      if value > 0 {
        gpioState := gpioState + {pin};
      } else {
        gpioState := gpioState - {pin};
      }
      r := Done;
    }

    /** `read_pin`: bit pin-1 of the last frame's GPIO word. */
    function ReadPin(pin: int): (r: Result<bool>)
      reads this
      ensures pin < 1 ==> r == Err(ValueError)
      ensures pin >= 1 && gpio.None? ==> r == Err(TypeError)
      ensures pin >= 1 && gpio.Some? ==> r == Ok(TestBit(gpio.value, pin - 1))
    {
      if pin - 1 < 0 then Err(ValueError)   // negative shift count
      else if gpio.None? then Err(TypeError) // None & int
      else Ok(TestBit(gpio.value, pin - 1))
    }

    /** `check_latency` is declared without `self`, so calling it on an instance raises TypeError. */
    method CheckLatency() returns (r: Result<nat>)
      ensures r == Err(TypeError)
    {
      r := Err(TypeError);
    }

    method RaiseOutput(name: string) returns (r: Outcome)
      requires StateValid()
      modifies this`written, this`gpioState, this`gpios
      ensures StateValid() && gpios.Keys == old(gpios).Keys
      ensures IoView() == DriveEffect(version, isOpen, old(IoView()), name, true).io
      ensures r == OutcomeOf(DriveEffect(version, isOpen, old(IoView()), name, true))
    {
      r := Drive(name, true);
    }

    method LowerOutput(name: string) returns (r: Outcome)
      requires StateValid()
      modifies this`written, this`gpioState, this`gpios
      ensures StateValid() && gpios.Keys == old(gpios).Keys
      ensures IoView() == DriveEffect(version, isOpen, old(IoView()), name, false).io
      ensures r == OutcomeOf(DriveEffect(version, isOpen, old(IoView()), name, false))
    {
      r := Drive(name, false);
    }

    /** The shared body of raise_output and lower_output. */
    method Drive(name: string, high: bool) returns (r: Outcome)
      requires StateValid()
      modifies this`written, this`gpioState, this`gpios
      ensures StateValid() && gpios.Keys == old(gpios).Keys
      ensures IoView() == DriveEffect(version, isOpen, old(IoView()), name, high).io
      ensures r == OutcomeOf(DriveEffect(version, isOpen, old(IoView()), name, high))
    {
      if name !in gpios || (high && gpios[name].isPulsed.None?) { return Fail(KeyError); }
      var g := gpios[name];
      gpios := gpios[name := g.(isPulsed := Some(false))];
      if version == 1 {
        if g.number < 0 { return Fail(ValueError); }
        var bits := if high then gpioState + {g.number} else gpioState - {g.number};
        if !FitsSignedByte(bits) { return Fail(OverflowError); }
        gpioState := bits;
        r := SendByte(Some([BitsValue(bits, 7)]));
      } else if version == 2 {
        r := WritePin(g.number, if high then 1 else 0, "DIO", g.mirror);
      } else {
        r := Done;
      }
    }

    /**
     * `pulse_output`: raise the pin and mark it pulsed until `offTime`. Raising
     * clears IsPulsed first, so the "already in a pulse" warning never fires.
     */
    method PulseOutput(name: string, offTime: int) returns (r: Outcome)
      requires StateValid()
      modifies this`written, this`gpioState, this`gpios
      ensures StateValid() && gpios.Keys == old(gpios).Keys
      ensures var e := DriveEffect(version, isOpen, old(IoView()), name, true);
        r == OutcomeOf(e) && written == e.io.written && gpioState == e.io.state
        && gpios == if e.error.Some? then e.io.gpios
                    else e.io.gpios[name := e.io.gpios[name].(isPulsed := Some(true), pulseOffTime := offTime)]
    {
      r := RaiseOutput(name);
      if r.Fail? { return; }
      assert gpios[name].isPulsed == Some(false);
      gpios := gpios[name := gpios[name].(isPulsed := Some(true), pulseOffTime := offTime)];
    }

    /** `update_pulses`: lower every pulsed pin whose off time the last frame's time has passed. */
    method UpdatePulses() returns (r: Outcome)
      requires StateValid()
      modifies this`written, this`gpioState, this`gpios
      ensures StateValid() && gpios.Keys == old(gpios).Keys
      ensures IoView() == PulsesEffect(version, isOpen, masterTime, old(IoView()), gpioOrder).io
      ensures r == OutcomeOf(PulsesEffect(version, isOpen, masterTime, old(IoView()), gpioOrder))
    {
      ghost var start := IoView();
      var i := 0;
      while i < |gpioOrder|
        invariant 0 <= i <= |gpioOrder| && StateValid()
        invariant PulsesEffect(version, isOpen, masterTime, start, gpioOrder[..i]) == Effect(IoView(), None)
      {
        var n := gpioOrder[i];
        ghost var before := IoView();
        PulsesUnfold(version, isOpen, masterTime, start, gpioOrder, i);
        if n in gpios && gpios[n].isPulsed.None? {
          r := Fail(KeyError);
          PulsesErrorSticks(version, isOpen, masterTime, start, gpioOrder, i + 1);
          return;
        }
        if Due(gpios, n, masterTime) {
          r := LowerOutput(n);
          assert PulsesEffect(version, isOpen, masterTime, start, gpioOrder[..i + 1])
              == DriveEffect(version, isOpen, before, n, false);
          if r.Fail? { PulsesErrorSticks(version, isOpen, masterTime, start, gpioOrder, i + 1); return; }
        }
        i := i + 1;
      }
      assert gpioOrder[..i] == gpioOrder;
      r := Done;
    }

    /** `configure_io`. */
    method ConfigureIo(pin: int, direction: string, power: bool, mirror: bool) returns (r: Outcome)
      requires StateValid()
      modifies this`written, this`gpioState
      ensures StateValid()
      ensures IoView() == ConfigureIoEffect(version, isOpen, old(IoView()), pin, direction, power, mirror).io
      ensures r == OutcomeOf(ConfigureIoEffect(version, isOpen, old(IoView()), pin, direction, power, mirror))
    {
      r := ConfigurePin(pin, direction, "DIO");
      if r.Fail? { return; }
      if power {
        r := ConfigurePin(pin, "OUTPUT", "AUX");
        if r.Fail? { return; }
        r := WritePin(pin, 1, "AUX", false);
        if r.Fail? { return; }
      }
      if mirror {
        r := ConfigurePin(pin, "OUTPUT", "AUX");
      }
    }

    /**
     * The synchronisation half of `connect`: open the port, read four frames' worth
     * of bytes, find the frame boundary and discard the bytes before it.
     */
    method Synchronize() returns (r: Outcome)
      requires LinkValid()
      modifies this`isOpen, this`link, this`incoming
      ensures LinkValid() && isOpen
      ensures var sy := SyncStream(version, old(incoming));
              link == sy.link && incoming == sy.rest && r == (if sy.offset.Err? then Fail(sy.offset.error) else Done)
    {
      isOpen := true;
      var fmt := FrameFormat(version);
      if fmt.None? { return Fail(AttributeError); }
      var (L, c) := fmt.value;
      link := Some(Link(L, c));
      var x := Read(L * (SYNC_REPEATS + 1));
      if |x| != L * (SYNC_REPEATS + 1) { return Fail(AssertionError); }
      var found := FindOffset(x, L, c);
      if found.Err? { return Fail(found.error); }
      var skipped := Read(found.value);
      r := Done;
    }

    /** The first configuration loop of `connect`: every DIO and AUX pin 1..12 becomes an input. */
    method SweepInputs()
      requires isOpen
      modifies this`written
      ensures written == old(written) + InputSweep(12)
    {
      for pin := 1 to 13
        invariant written == old(written) + InputSweep(pin - 1)
      {
        InputCommands(pin);
        var r := ConfigurePin(pin, "INPUT", "DIO");
        r := ConfigurePin(pin, "INPUT", "AUX");
      }
    }

    /** The second configuration loop of `connect`: `configure_io` on every registered GPIO, in order. */
    method ConfigureRegistered() returns (r: Outcome)
      requires RegistryValid() && StateValid()
      modifies this`written, this`gpioState
      ensures StateValid()
      ensures IoView() == ConfigureAllEffect(version, isOpen, old(IoView()), gpioOrder).io
      ensures r == OutcomeOf(ConfigureAllEffect(version, isOpen, old(IoView()), gpioOrder))
    {
      ghost var base := IoView();
      r := Done;
      var i := 0;
      while i < |gpioOrder| && r == Done
        invariant 0 <= i <= |gpioOrder| && StateValid()
        invariant IoView() == ConfigureAllEffect(version, isOpen, base, gpioOrder[..i]).io
        invariant r == OutcomeOf(ConfigureAllEffect(version, isOpen, base, gpioOrder[..i]))
      {
        r := ConfigureNext(base, i);
        i := i + 1;
      }
      if r.Fail? {
        ConfigureErrorSticks(version, isOpen, base, gpioOrder, i);
      } else {
        assert gpioOrder[..i] == gpioOrder;
      }
    }

    /** One pass of that loop: `configure_io` on the `i`-th registered GPIO. */
    method ConfigureNext(ghost base: Io, i: nat) returns (r: Outcome)
      requires RegistryValid() && StateValid() && i < |gpioOrder|
      requires IoView() == ConfigureAllEffect(version, isOpen, base, gpioOrder[..i]).io
      requires ConfigureAllEffect(version, isOpen, base, gpioOrder[..i]).error.None?
      modifies this`written, this`gpioState
      ensures StateValid()
      ensures IoView() == ConfigureAllEffect(version, isOpen, base, gpioOrder[..i + 1]).io
      ensures r == OutcomeOf(ConfigureAllEffect(version, isOpen, base, gpioOrder[..i + 1]))
    {
      var n := gpioOrder[i];
      ConfigureUnfold(version, isOpen, base, gpioOrder, i);
      var g := gpios[n];
      r := ConfigureIo(g.number, g.kind, g.power, g.mirror);
    }

    /**
     * `connect`: synchronise, then configure every pin as an input, configure the
     * registered GPIOs and (version 1) resend the tracked state byte.
     */
    method Connect() returns (r: Outcome)
      requires RegistryValid() && StateValid() && LinkValid()
      modifies this`isOpen, this`link, this`incoming, this`written, this`gpioState
      ensures RegistryValid() && StateValid() && LinkValid() && isOpen
      ensures var sy := SyncStream(version, old(incoming));
              link == sy.link && incoming == sy.rest
              && (sy.offset.Err? ==> r == Fail(sy.offset.error) && IoView() == old(IoView()))
              && (sy.offset.Ok? ==> IoView() == ConnectOutputEffect(version, old(IoView()), gpioOrder).io
                                    && r == OutcomeOf(ConnectOutputEffect(version, old(IoView()), gpioOrder)))
    {
      r := Synchronize();
      if r.Fail? { return; }
      SweepInputs();
      r := ConfigureRegistered();
      if r.Done? && version == 1 {
        r := SendByte(Some([BitsValue(gpioState, 7)]));
      }
    }

    /** The part of `read_data` after a frame has been decoded: position, velocity and encoder tracking. */
    method TrackPosition(newUnwrapped: int) returns (r: Outcome)
      requires SmoothingValid()
      modifies this`unwrappedEncoder, this`pos, this`unwrappedPos, this`velocity, this`reinitialize,
               this`smoothingIdx, this`deltas, smoothing
      ensures SmoothingValid()
      ensures maze.None? ==> unchanged(this) && unchanged(smoothing)
      ensures TrackStep(maze, blockMovement, old(TrackView()), newUnwrapped, TrackView(), r)
    {
      if maze.None? {
        // `not self.reinitialize` reads an attribute only a maze configuration creates
        return Fail(AttributeError);
      }
      if !reinitialize {
        if !blockMovement {
          r := Move(maze.value, newUnwrapped);
          return;
        }
        unwrappedEncoder := newUnwrapped;
      } else {
        unwrappedPos := 0.0;
        pos := 0.0;
        unwrappedEncoder := newUnwrapped;
        reinitialize := false;
        velocity := 0.0;
      }
      r := Done;
    }

    /** The movement case of TrackPosition: the displacement is smoothed and the position moves by it. */
    method Move(m: MazeParams, newUnwrapped: int) returns (r: Outcome)
      requires SmoothingValid() && maze == Some(m) && !reinitialize && !blockMovement
      modifies this`unwrappedEncoder, this`pos, this`unwrappedPos, this`velocity, this`smoothingIdx, this`deltas, smoothing
      ensures SmoothingValid()
      ensures TrackStep(maze, blockMovement, old(TrackView()), newUnwrapped, TrackView(), r)
    {
      ghost var t0 := TrackView();
      var change := Displacement(m, newUnwrapped - unwrappedEncoder);
      var mean := Smooth(change);
      velocity := mean * FRAME_RATE;
      unwrappedPos := unwrappedPos + change;
      var p := ApplyTopology(m.topology, m.trackLength, pos + change);
      ghost var t := TrackView();
      assert t.deltas == t0.deltas + [change] && !t.reinitialize && t.unwrappedPos == t0.unwrappedPos + change;
      assert t.velocity == Mean(RingContents(t.deltas)) * FRAME_RATE;
      if p.Err? {
        assert t.pos == t0.pos && t.unwrappedEncoder == t0.unwrappedEncoder;
        MovedStep(maze, blockMovement, t0, newUnwrapped, t, Fail(p.error));
        return Fail(p.error);
      }
      pos := p.value;
      unwrappedEncoder := newUnwrapped;
      MovedStep(maze, blockMovement, t0, newUnwrapped, TrackView(), Done);
      r := Done;
    }

    /** `_smooth`: store the displacement in the circular buffer and return the buffer mean. */
    method Smooth(v: real) returns (mean: real)
      requires SmoothingValid()
      modifies smoothing, this`smoothingIdx, this`deltas
      ensures SmoothingValid()
      ensures deltas == old(deltas) + [v]
      ensures mean == Mean(RingContents(deltas))
    {
      ghost var before := smoothing[..];
      smoothing[smoothingIdx] := v;
      assert smoothing[..] == before[smoothingIdx := v];
      deltas := deltas + [v];
      assert deltas[..|deltas| - 1] == old(deltas);
      assert RingContents(deltas) == RingContents(old(deltas))[smoothingIdx := v];
      ModNext(|old(deltas)|);
      smoothingIdx := (smoothingIdx + 1) % smoothing.Length;
      mean := Sum(smoothing[..]) / WINDOW as real;
    }

    /**
     * The decoding half of `read_data`: read one frame, store time, encoder and GPIO
     * words, check the start character and (version 2) merge the GPIO word into the
     * tracked state, counting a latency event on disagreement.
     */
    method ReceiveFrame() returns (r: Result<Frame>)
      requires StateValid() && LinkValid()
      modifies this`incoming, this`masterTime, this`encoder, this`gpio, this`auxGpio, this`gpioState, this`latency
      ensures StateValid()
      ensures link.None? ==> r == Err(AttributeError) && incoming == old(incoming) && gpioState == old(gpioState)
      ensures link.Some? ==>
        var L := link.value.messageLen;
        var x := Take(old(incoming), L);
        incoming == old(incoming)[|x|..]
        && (|x| < L ==> r == Err(AssertionError) && gpioState == old(gpioState))
        && (|x| == L ==>
              var f := if version == 1 then ParseV1(x) else ParseV2(x);
              masterTime == f.masterTime && encoder == f.encoder && gpio == Some(f.gpio)
              && auxGpio == (if version == 1 then old(auxGpio) else f.auxGpio)
              && (f.startChar != link.value.startChar ==> r == Err(AssertionError) && gpioState == old(gpioState))
              && (f.startChar == link.value.startChar ==>
                    r == Ok(f)
                    && (version == 2 ==> gpioState == MergeState(old(gpioState), outputPinMask, f.gpio)
                                         && latency == old(latency) + (if BitsOf16(f.gpio) != gpioState then 1 else 0))
                    && (version != 2 ==> gpioState == old(gpioState) && latency == old(latency))))
    {
      if link.None? {
        // before connect self.serial is None; after a failed connect of an unknown version MessageLen is unset
        return Err(AttributeError);
      }
      var L, c := link.value.messageLen, link.value.startChar;
      var x := Read(L);
      if |x| != L { return Err(AssertionError); }
      var f := if version == 1 then ParseV1(x) else ParseV2(x);
      masterTime := f.masterTime;
      encoder := f.encoder;
      gpio := Some(f.gpio);
      if version == 2 { auxGpio := f.auxGpio; }
      if f.startChar != c { return Err(AssertionError); }
      if version == 2 {
        gpioState := MergeState(gpioState, outputPinMask, f.gpio);
        if BitsOf16(f.gpio) != gpioState {
          latency := latency + 1;
        }
      }
      r := Ok(f);
    }

    /**
     * `read_data`: decode one frame, then track the position from its unwrapped
     * encoder count. The GPIO merge and latency count of a version-2 frame with
     * the right start character happen before tracking, so they stay even when
     * tracking raises.
     */
    method ReadData() returns (r: Result<Frame>)
      requires StateValid() && SmoothingValid() && LinkValid()
      modifies this`incoming, this`masterTime, this`encoder, this`gpio, this`auxGpio, this`gpioState, this`latency,
               this`unwrappedEncoder, this`pos, this`unwrappedPos, this`velocity, this`reinitialize,
               this`smoothingIdx, this`deltas, smoothing
      ensures StateValid() && SmoothingValid()
      ensures link.None? ==> r == Err(AttributeError) && incoming == old(incoming)
      ensures link.Some? && |old(incoming)| < link.value.messageLen ==>
        r == Err(AssertionError) && incoming == [] && gpioState == old(gpioState) && TrackView() == old(TrackView())
      ensures link.Some? && maze.None? ==> r.Err?
      ensures r.Ok? ==>
        var L := link.value.messageLen;
        L <= |old(incoming)| && incoming == old(incoming)[L..]
        && r.value == (if version == 1 then ParseV1(old(incoming)[..L]) else ParseV2(old(incoming)[..L]))
        && r.value.startChar == link.value.startChar && unwrappedEncoder == r.value.unwrappedEncoder
      ensures link.Some? && link.value.messageLen <= |old(incoming)| ==>
        var L := link.value.messageLen;
        var f := if version == 1 then ParseV1(old(incoming)[..L]) else ParseV2(old(incoming)[..L]);
        && incoming == old(incoming)[L..]
        && masterTime == f.masterTime && encoder == f.encoder && gpio == Some(f.gpio)
        && auxGpio == (if version == 1 then old(auxGpio) else f.auxGpio)
        && (f.startChar != link.value.startChar ==>
              r == Err(AssertionError) && gpioState == old(gpioState) && TrackView() == old(TrackView()))
        && (f.startChar == link.value.startChar ==>
              && (version == 2 ==> gpioState == MergeState(old(gpioState), outputPinMask, f.gpio)
                                   && latency == old(latency) + (if BitsOf16(f.gpio) != gpioState then 1 else 0))
              && (version != 2 ==> gpioState == old(gpioState) && latency == old(latency))
              && (r.Ok? ==> r.value == f)
              && TrackStep(maze, blockMovement, old(TrackView()), f.unwrappedEncoder, TrackView(),
                           if r.Ok? then Done else Fail(r.error)))
    {
      ghost var t0 := TrackView();
      r := ReceiveFrame();
      if r.Err? { return; }
      assert TrackView() == t0;
      var t := TrackPosition(r.value.unwrappedEncoder);
      if t.Fail? { return Err(t.error); }
    }
  }

  lemma PulsesUnfold(version: int, open: bool, time: int, io: Io, names: seq<string>, i: nat)
    requires i < |names|
    ensures var e := PulsesEffect(version, open, time, io, names[..i]);
      PulsesEffect(version, open, time, io, names[..i + 1]) ==
        if e.error.Some? then e
        else if names[i] in e.io.gpios && e.io.gpios[names[i]].isPulsed.None? then Effect(e.io, Some(KeyError))
        else if Due(e.io.gpios, names[i], time) then DriveEffect(version, open, e.io, names[i], false)
        else e
  {
    assert names[..i + 1][..i] == names[..i];
  }

  lemma ConfigureUnfold(version: int, open: bool, io: Io, names: seq<string>, i: nat)
    requires i < |names|
    ensures var e := ConfigureAllEffect(version, open, io, names[..i]);
      ConfigureAllEffect(version, open, io, names[..i + 1]) ==
        if e.error.Some? || names[i] !in e.io.gpios then e
        else ConfigureIoEffect(version, open, e.io, e.io.gpios[names[i]].number, e.io.gpios[names[i]].kind,
                               e.io.gpios[names[i]].power, e.io.gpios[names[i]].mirror)
  {
    assert names[..i + 1][..i] == names[..i];
  }

  lemma {:induction false} PulsesErrorSticks(version: int, open: bool, time: int, io: Io, names: seq<string>, i: nat)
    requires i <= |names| && PulsesEffect(version, open, time, io, names[..i]).error.Some?
    ensures PulsesEffect(version, open, time, io, names) == PulsesEffect(version, open, time, io, names[..i])
    decreases |names| - i
  {
    if i < |names| {
      assert names[..i + 1][..i] == names[..i];
      PulsesErrorSticks(version, open, time, io, names, i + 1);
    } else {
      assert names[..i] == names;
    }
  }

  lemma {:induction false} ConfigureErrorSticks(version: int, open: bool, io: Io, names: seq<string>, i: nat)
    requires i <= |names| && ConfigureAllEffect(version, open, io, names[..i]).error.Some?
    ensures ConfigureAllEffect(version, open, io, names) == ConfigureAllEffect(version, open, io, names[..i])
    decreases |names| - i
  {
    if i < |names| {
      assert names[..i + 1][..i] == names[..i];
      ConfigureErrorSticks(version, open, io, names, i + 1);
    } else {
      assert names[..i] == names;
    }
  }
}
