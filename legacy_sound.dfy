/**
 * The older sound stimulus (ClientSide/SoundStimulus.py): a localized sound's
 * gain falls linearly with the circular distance of the position from the
 * sound's center, and a stimulus sends its gain to the mixer only when it
 * changes.
 */
module LegacySound {
  import opened Common
  import HostSerial

  /** `LocalizedSound`: center, width and half-width, track length and the three gains. */
  datatype Localized = Localized(center: real, width: real, half: real, trackLength: real,
                                 maxGain: real, minGain: real, offGain: real)

  /** `LocalizedSound.__init__`: `half` is Width/2 and OffGain defaults to -90.0. */
  function NewLocalized(center: real, width: real, trackLength: real, maxGain: real, minGain: real,
                        offGain: Option<real>): (r: Localized)
    ensures r.half * 2.0 == width && r.center == center && r.trackLength == trackLength
    ensures r.maxGain == maxGain && r.minGain == minGain
    ensures r.offGain == if offGain.Some? then offGain.value else -90.0
  {
    Localized(center, width, width / 2.0, trackLength, maxGain, minGain, if offGain.Some? then offGain.value else -90.0)
  }

  function Abs(x: real): real
  {
    if x < 0.0 then -x else x
  }

  /**
   * `relpos`: the offset of `pos` from the center taken modulo the track
   * length (ZeroDivisionError for a zero length), then folded so it lies
   * within half a track of zero.
   */
  function Offset(s: Localized, pos: real): (r: Result<real>)
    ensures r.Err? <==> s.trackLength == 0.0
    ensures r.Err? ==> r.error == ZeroDivisionError
  {
    if s.trackLength == 0.0 then Err(ZeroDivisionError)
    else
      var relpos := HostSerial.FloatMod(pos - s.center, s.trackLength);
      if relpos > s.trackLength / 2.0 then Ok(relpos - s.trackLength)
      else if relpos < -s.trackLength / 2.0 then Ok(relpos + s.trackLength)
      else Ok(relpos)
  }

  /** The gain at offset `relpos`: off beyond the half-width, else the linear profile (which divides by the half-width). */
  function GainAt(s: Localized, relpos: real): (r: Result<real>)
    ensures r.Err? <==> relpos == 0.0 && s.half == 0.0
    ensures r.Err? ==> r.error == ZeroDivisionError
    ensures Abs(relpos) > s.half ==> r == Ok(s.offGain)
  {
    if Abs(relpos) > s.half then Ok(s.offGain)
    else if s.half == 0.0 then Err(ZeroDivisionError)
    else Ok((1.0 - Abs(relpos / s.half)) * (s.maxGain - s.minGain) + s.minGain)
  }

  /** `linear_gain_from_pos`. */
  function LinearGainFromPos(s: Localized, pos: real): (r: Result<real>)
    ensures s.trackLength == 0.0 ==> r == Err(ZeroDivisionError)
    ensures s.trackLength != 0.0 ==> r == GainAt(s, Offset(s, pos).value)
  {
    var relpos := Offset(s, pos);
    if relpos.Err? then Err(relpos.error) else GainAt(s, relpos.value)
  }

  /**
   * On a track of positive length the offset lies in (-L/2, L/2]: the value
   * before folding is already at least 0, so the branch for values below -L/2
   * is never taken.
   */
  lemma OffsetRange(s: Localized, pos: real)
    requires s.trackLength > 0.0
    ensures HostSerial.FloatMod(pos - s.center, s.trackLength) >= 0.0 > -s.trackLength / 2.0
    ensures -s.trackLength / 2.0 < Offset(s, pos).value <= s.trackLength / 2.0
  {
  }

  /** The gain is the off gain whenever the circular offset exceeds half the width. */
  lemma OffBeyondHalfWidth(s: Localized, pos: real)
    requires s.trackLength != 0.0 && Abs(Offset(s, pos).value) > s.half
    ensures LinearGainFromPos(s, pos) == Ok(s.offGain)
  {
  }

  /** For a positive divisor, the absolute value of a quotient is the quotient of the absolute value. */
  lemma AbsDiv(x: real, h: real)
    requires h > 0.0
    ensures Abs(x / h) == Abs(x) / h
    ensures Abs(x) <= h ==> Abs(x) / h <= 1.0
  {
    assert x == h * (x / h);
    if x < 0.0 {
      assert (-x) / h == -(x / h);
    }
    if Abs(x) <= h {
      assert Abs(x) == h * (Abs(x) / h);
    }
  }

  /** The gain at offset zero is the maximum gain. */
  lemma PeakGain(s: Localized)
    requires s.half > 0.0
    ensures GainAt(s, 0.0) == Ok(s.maxGain)
  {
    assert 0.0 / s.half == 0.0;
    assert GainAt(s, 0.0).value == 1.0 * (s.maxGain - s.minGain) + s.minGain;
  }

  /** The gain at an offset of exactly half the width is the minimum gain. */
  lemma EdgeGain(s: Localized, relpos: real)
    requires s.half > 0.0 && Abs(relpos) == s.half
    ensures GainAt(s, relpos) == Ok(s.minGain)
  {
    AbsDiv(relpos, s.half);
    assert s.half / s.half == 1.0;
    assert Abs(relpos / s.half) == 1.0;
    assert GainAt(s, relpos).value == 0.0 * (s.maxGain - s.minGain) + s.minGain;
  }

  /** The maximum gain at the center and the minimum gain at an offset of exactly half the width. */
  lemma PeakAndEdge(s: Localized, pos: real)
    requires s.trackLength > 0.0 && s.half > 0.0
    ensures pos == s.center ==> LinearGainFromPos(s, pos) == Ok(s.maxGain)
    ensures Abs(Offset(s, pos).value) == s.half ==> LinearGainFromPos(s, pos) == Ok(s.minGain)
  {
    var r := Offset(s, pos).value;
    if pos == s.center {
      assert HostSerial.FloatMod(0.0, s.trackLength) == 0.0 by {
        assert (0.0 / s.trackLength).Floor == 0;
      }
      assert r == 0.0;
      PeakGain(s);
    }
    if Abs(r) == s.half {
      EdgeGain(s, r);
    }
  }

  /** A point `u` of the way from `a` to `b`, for `u` in [0, 1], lies between `a` and `b`. */
  lemma Interpolate(u: real, a: real, b: real)
    requires 0.0 <= u <= 1.0
    ensures Min(a, b) <= u * (b - a) + a <= Max(a, b)
  {
    var w := b - a;
    var rest := (1.0 - u) * w;
    assert u * w + rest == w;
    if w >= 0.0 {
      assert u * w >= 0.0;
      assert rest >= 0.0;
    } else {
      var v := -w;
      assert u * v >= 0.0;
      assert (1.0 - u) * v >= 0.0;
      assert u * w == -(u * v);
      assert rest == -((1.0 - u) * v);
    }
  }

  /** Within half the width the gain lies between the minimum and the maximum gain. */
  lemma GainBetween(s: Localized, relpos: real)
    requires s.half > 0.0 && Abs(relpos) <= s.half
    ensures GainAt(s, relpos).Ok?
    ensures Min(s.minGain, s.maxGain) <= GainAt(s, relpos).value <= Max(s.minGain, s.maxGain)
  {
    AbsDiv(relpos, s.half);
    Interpolate(1.0 - Abs(relpos / s.half), s.minGain, s.maxGain);
  }

  /** Dividing a negated real negates the quotient. */
  lemma NegDiv(x: real, h: real)
    requires h != 0.0
    ensures (-x) / h == -(x / h)
  {
    var q := x / h;
    assert x == h * q;
    assert -x == h * (-q);
  }

  /** The gain at an offset and at the opposite offset agree. */
  lemma GainAtEven(s: Localized, relpos: real)
    ensures GainAt(s, relpos) == GainAt(s, -relpos)
  {
    assert Abs(-relpos) == Abs(relpos);
    if Abs(relpos) <= s.half && s.half != 0.0 {
      NegDiv(relpos, s.half);
      assert Abs((-relpos) / s.half) == Abs(relpos / s.half);
      GainWithin(s, relpos);
      GainWithin(s, -relpos);
      var a, b := GainAt(s, relpos), GainAt(s, -relpos);
      assert a.value == b.value;
      assert a == Ok(a.value) && b == Ok(b.value);
    }
  }

  /** Within the half-width the gain is the linear profile. */
  lemma GainWithin(s: Localized, relpos: real)
    requires Abs(relpos) <= s.half && s.half != 0.0
    ensures GainAt(s, relpos).Ok?
    ensures GainAt(s, relpos).value == (1.0 - Abs(relpos / s.half)) * (s.maxGain - s.minGain) + s.minGain
  {
  }

  /** The floor of a negated real: the negated floor, less one unless the real is a whole number. */
  lemma FloorNeg(y: real)
    ensures y == y.Floor as real ==> (-y).Floor == -y.Floor
    ensures y != y.Floor as real ==> (-y).Floor == -y.Floor - 1
  {
  }

  /** Python's `(-x) % L` is `L - x % L`, or 0 when `x % L` is 0. */
  lemma FloatModNeg(x: real, L: real)
    requires L > 0.0
    ensures var m := HostSerial.FloatMod(x, L);
            HostSerial.FloatMod(-x, L) == if m == 0.0 then 0.0 else L - m
  {
    var y := x / L;
    assert (-x) / L == -y;
    FloorNeg(y);
    var f := y.Floor as real;
    assert x == L * y;
    assert HostSerial.FloatMod(x, L) == L * (y - f);
    if y == f {
      assert HostSerial.FloatMod(-x, L) == -x + L * f;
    } else {
      assert y - f != 0.0;
      assert HostSerial.FloatMod(-x, L) == -x + L * (f + 1.0);
    }
  }

  /** The gain depends only on the distance from the center, not on the side: positions center+d and center-d agree. */
  lemma GainSymmetric(s: Localized, d: real)
    requires s.trackLength > 0.0
    ensures LinearGainFromPos(s, s.center + d) == LinearGainFromPos(s, s.center - d)
  {
    var L := s.trackLength;
    assert (s.center + d) - s.center == d;
    assert (s.center - d) - s.center == -d;
    FloatModNeg(d, L);
    var a := Offset(s, s.center + d).value;
    var b := Offset(s, s.center - d).value;
    assert a == b || a == -b;
    GainAtEven(s, a);
  }

  /** The older `SoundStimulus`: the mixer input port and the gain last sent to it. */
  class Stimulus {
    const inputPort: int
    var gain: real
    /** The `/mixer/channel/set_gain [port, gain]` messages sent over OSC, oldest first. */
    var messages: seq<(int, real)>
    /** The localized profile set by `initLocalizedSound`, if any. */
    var localized: Option<Localized>

    /** The gain starts at -10.0, which is sent at once; no localized profile yet. */
    constructor (inputPort: int)
      ensures this.inputPort == inputPort && gain == -10.0 && messages == [(inputPort, -10.0)]
      ensures localized == None
    {
      this.inputPort := inputPort;
      gain := -10.0;
      messages := [(inputPort, -10.0)];
      localized := None;
    }

    /** `initLocalizedSound`: attach a localized profile, replacing any earlier one. */
    method InitLocalizedSound(center: real, width: real, trackLength: real, maxGain: real, minGain: real,
                              offGain: Option<real>)
      modifies this`localized
      ensures localized == Some(NewLocalized(center, width, trackLength, maxGain, minGain, offGain))
      ensures localized.value.half == width / 2.0
      ensures localized.value.offGain == if offGain.Some? then offGain.value else -90.0
    {
      localized := Some(NewLocalized(center, width, trackLength, maxGain, minGain, offGain));
    }

    /**
     * `pos_update_gain`: without a localized profile nothing happens;
     * otherwise the gain at `pos` is applied through `change_gain`, and a
     * zero track length (or a zero width with `pos` at the center) raises
     * ZeroDivisionError before anything is sent.
     */
    method PosUpdateGain(pos: real) returns (r: Outcome)
      modifies this`gain, this`messages
      ensures localized.None? ==> r == Done && gain == old(gain) && messages == old(messages)
      ensures localized.Some? ==>
                var g := LinearGainFromPos(localized.value, pos);
                if g.Err? then r == Fail(g.error) && gain == old(gain) && messages == old(messages)
                else r == Done && gain == g.value
                     && messages == old(messages) + (if g.value != old(gain) then [(inputPort, g.value)] else [])
    {
      r := Done;
      if localized.Some? {
        var g := LinearGainFromPos(localized.value, pos);
        if g.Err? {
          r := Fail(g.error);
        } else {
          ChangeGain(g.value);
        }
      }
    }

    /** `change_gain`: a message and a new gain only when the gain differs. */
    method ChangeGain(g: real)
      modifies this`gain, this`messages
      ensures gain == g
      ensures messages == old(messages) + (if g != old(gain) then [(inputPort, g)] else [])
    {
      if g != gain {
        messages := messages + [(inputPort, g)];
        gain := g;
      }
    }
  }
}
