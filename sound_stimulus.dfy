/**
 * Bookkeeping of the sound stimuli driven by the treadmill's control loop
 * (ClientSide/treadmillio/soundstimulus.py): each stimulus keeps its gain in dB
 * and tells the playback process when it changes; beeps switch off after a
 * deadline; bundles select one of several numbered sounds under an index-bounds
 * policy; localized sounds compute a gain from the track position; and the
 * multilap latch lets a sound play during one pass of an unwrapped-position
 * window. Gains go to the playback process through db2lin; the messages here
 * record the dB value that is converted.
 */
module SoundStimulus {
  import opened Common

  // ---------------------------------------------------------------------------
  // Configuration values

  /** A value given to `update_stimulus` or `choose_sound`: a string, an int, a float, or anything else. */
  datatype Value = Str(s: string) | Int(i: int) | Float(x: real) | Other

  /** ASCII lower-casing, standing in for `str.lower`. */
  function LowerChar(c: char): char
  {
    if 'A' <= c <= 'Z' then (c as int + 32) as char else c
  }

  function Lower(s: string): (r: string)
    ensures |r| == |s| && forall i :: 0 <= i < |s| ==> r[i] == LowerChar(s[i])
  {
    if s == [] then [] else [LowerChar(s[0])] + Lower(s[1..])
  }

  /**
   * The gain `update_stimulus` asks for: 'on' and 'baseline' in any case give the
   * baseline gain, 'off' the off gain, a number itself; anything else is a ValueError.
   */
  function GainForValue(value: Value, baseline: real, off: real): (r: Result<real>)
    ensures r.Ok? <==> value.Int? || value.Float? || (value.Str? && Lower(value.s) in {"on", "baseline", "off"})
    ensures r.Err? ==> r.error == ValueError
    ensures value.Str? && r.Ok? ==> r.value == (if Lower(value.s) == "off" then off else baseline)
    ensures value.Int? ==> r == Ok(value.i as real)
    ensures value.Float? ==> r == Ok(value.x)
  {
    match value
    case Str(s) =>
      var l := Lower(s);
      if l == "on" || l == "baseline" then Ok(baseline) else if l == "off" then Ok(off) else Err(ValueError)
    case Int(i) => Ok(i as real)
    case Float(x) => Ok(x)
    case Other => Err(ValueError)
  }

  /** Strings that differ only in the case of their letters ask for the same gain. */
  lemma GainIgnoresCase(s: string, t: string, baseline: real, off: real)
    requires |s| == |t| && forall i :: 0 <= i < |s| ==> LowerChar(s[i]) == LowerChar(t[i])
    ensures GainForValue(Str(s), baseline, off) == GainForValue(Str(t), baseline, off)
  {
    assert Lower(s) == Lower(t);
  }

  /** 'ON' and 'Off' are understood; 'of' is not. */
  lemma GainWordsExamples(baseline: real, off: real)
    ensures GainForValue(Str("ON"), baseline, off) == Ok(baseline)
    ensures GainForValue(Str("Off"), baseline, off) == Ok(off)
    ensures GainForValue(Str("of"), baseline, off) == Err(ValueError)
  {
    assert Lower("ON") == "on";
    assert Lower("Off") == "off";
    assert Lower("of") == "of";
  }

  /** BaselineGain (default 0.0 dB, with a RuntimeWarning when missing) and OffGain (default -90.0 dB). */
  datatype Gains = Gains(baseline: real, off: real, warned: bool)

  function GainSetup(baselineGain: Option<real>, offGain: Option<real>): Gains
  {
    Gains(if baselineGain.Some? then baselineGain.value else 0.0,
          if offGain.Some? then offGain.value else -90.0,
          baselineGain.None?)
  }

  // ---------------------------------------------------------------------------
  // The common stimulus: gain and messages

  /** One `{key: db2lin(gain)}` message to the playback process; a bundle with no current sound uses the key None. */
  datatype Message = Message(key: Option<string>, gain: real)

  /** The gains a run of `change_gain` calls sends, starting from the gain `current`. */
  function Sends(current: real, gains: seq<real>): seq<real>
    decreases |gains|
  {
    if gains == [] then [] else (if gains[0] != current then [gains[0]] else []) + Sends(gains[0], gains[1..])
  }

  /**
   * `change_gain` never repeats itself: no message repeats the gain before it,
   * and the last message is the last gain asked for.
   */
  lemma {:induction false} SendsOnlyChanges(current: real, gains: seq<real>)
    ensures var r := Sends(current, gains);
            (|r| > 0 ==> r[0] != current)
            && (forall i :: 0 <= i < |r| - 1 ==> r[i] != r[i + 1])
            && (|r| > 0 ==> r[|r| - 1] == gains[|gains| - 1])
    decreases |gains|
  {
    if gains != [] {
      SendsOnlyChanges(gains[0], gains[1..]);
      var rest := Sends(gains[0], gains[1..]);
      var r := Sends(current, gains);
      if gains[0] != current {
        assert r == [gains[0]] + rest;
        forall i | 1 <= i < |r| - 1 ensures r[i] != r[i + 1] {
          assert r[i] == rest[i - 1] && r[i + 1] == rest[i];
        }
      }
      if |rest| == 0 && |gains| > 1 {
        SendsNothing(gains[0], gains[1..]);
        assert gains[|gains| - 1] == gains[1..][|gains| - 2];
      }
    }
  }

  /** Nothing is sent exactly when every gain asked for is the current one. */
  lemma {:induction false} SendsNothing(current: real, gains: seq<real>)
    ensures |Sends(current, gains)| == 0 <==> forall i :: 0 <= i < |gains| ==> gains[i] == current
    decreases |gains|
  {
    if gains != [] {
      SendsNothing(gains[0], gains[1..]);
      if gains[0] == current && |Sends(gains[0], gains[1..])| == 0 {
        forall i | 0 < i < |gains| ensures gains[i] == current {
          assert gains[i] == gains[1..][i - 1];
        }
      }
    }
  }

  /** `SoundStimulus`: the state every kind of stimulus shares. */
  class Sound {
    const name: string
    const device: string
    const baselineGain: real
    const offGain: real
    /** The gain last recorded by `change_gain`, in dB. */
    var gain: real
    /** The messages this stimulus has sent to the playback process, oldest first. */
    var sent: seq<Message>
    var viewer: bool
    /** The `{name: gain}` updates sent to the viewer. */
    var viewerLog: seq<(string, real)>

    /** `SoundStimulus.__init__`: the gain starts at the off gain, which is sent at once. */
    constructor (name: string, device: string, gains: Gains)
      ensures this.name == name && this.device == device
      ensures baselineGain == gains.baseline && offGain == gains.off
      ensures gain == gains.off && sent == [Message(Some(name), gains.off)]
      ensures !viewer && viewerLog == []
    {
      this.name := name;
      this.device := device;
      baselineGain := gains.baseline;
      offGain := gains.off;
      gain := gains.off;
      sent := [Message(Some(name), gains.off)];
      viewer := false;
      viewerLog := [];
    }

    method ConnectViewer()
      modifies this`viewer
      ensures viewer
    {
      viewer := true;
    }

    /** `change_gain`: a message only when the gain changes; the viewer hears every call. */
    method ChangeGain(g: real)
      modifies this`gain, this`sent, this`viewerLog
      ensures gain == g
      ensures sent == old(sent) + (if g != old(gain) then [Message(Some(name), g)] else [])
      ensures viewerLog == old(viewerLog) + (if viewer then [(name, g)] else [])
    {
      if g != gain {
        sent := sent + [Message(Some(name), g)];
        gain := g;
      }
      if viewer {
        viewerLog := viewerLog + [(name, g)];
      }
    }

    /** `update_stimulus` applied to this stimulus: the gain the value asks for, or ValueError with nothing changed. */
    method UpdateStimulus(value: Value) returns (r: Outcome)
      modifies this`gain, this`sent, this`viewerLog
      ensures var g := GainForValue(value, baselineGain, offGain);
              if g.Err? then r == Fail(g.error) && unchanged(this)
              else r == Done && gain == g.value
                   && sent == old(sent) + (if g.value != old(gain) then [Message(Some(name), g.value)] else [])
                   && viewerLog == old(viewerLog) + (if viewer then [(name, g.value)] else [])
    {
      var g := GainForValue(value, baselineGain, offGain);
      if g.Err? {
        return Fail(g.error);
      }
      ChangeGain(g.value);
      r := Done;
    }
  }

  // ---------------------------------------------------------------------------
  // Beeps

  /** A beep's gain as `change_gain` last recorded it, whether it plays, and when it stops. */
  datatype BeepStatus = BeepStatus(gain: real, playing: bool, offTime: real)

  /** `play`: the off time is now + Duration, the baseline gain is requested and the beep plays; the gains sent. */
  function PlayStep(s: BeepStatus, now: real, duration: real, baseline: real): (r: (BeepStatus, seq<real>))
    ensures r.0.playing && r.0.offTime == now + duration && r.0.gain == baseline
    ensures Heard(s.gain, r.1) == baseline
    ensures r.1 == [] <==> s.gain == baseline
  {
    (BeepStatus(baseline, true, now + duration), if s.gain != baseline then [baseline] else [])
  }

  /**
   * `update`: once a playing beep's off time has passed it stops and hands the
   * off gain to the controller, which sends it; `self.gain` is not touched.
   */
  function UpdateStep(s: BeepStatus, time: real, offGain: real): (r: (BeepStatus, Option<real>))
    ensures r.1.Some? <==> s.playing && time > s.offTime
    ensures r.1.Some? ==> r.1.value == offGain && !r.0.playing
    ensures r.0.gain == s.gain && r.0.offTime == s.offTime
    ensures r.1.None? ==> r.0 == s
  {
    if s.playing && time > s.offTime then (s.(playing := false), Some(offGain)) else (s, None)
  }

  /** The results of successive `update` calls at the given times. */
  function BeepRun(s: BeepStatus, offGain: real, times: seq<real>): (r: seq<Option<real>>)
    ensures |r| == |times|
    decreases |times|
  {
    if times == [] then []
    else
      var (s', out) := UpdateStep(s, times[0], offGain);
      [out] + BeepRun(s', offGain, times[1..])
  }

  /**
   * After `play`, `update` returns the off gain exactly once: on the first call
   * whose time is past the off time, and None on every other call.
   */
  lemma {:induction false} BeepOffOnce(s: BeepStatus, offGain: real, times: seq<real>)
    ensures var r := BeepRun(s, offGain, times);
            forall i :: 0 <= i < |times| ==>
              (r[i].Some? <==> s.playing && times[i] > s.offTime && forall j :: 0 <= j < i ==> times[j] <= s.offTime)
              && (r[i].Some? ==> r[i].value == offGain)
    decreases |times|
  {
    if times != [] {
      var (s', out) := UpdateStep(s, times[0], offGain);
      BeepOffOnce(s', offGain, times[1..]);
      var r := BeepRun(s, offGain, times);
      assert r == [out] + BeepRun(s', offGain, times[1..]);
      forall i | 0 < i < |times|
        ensures r[i].Some? <==> s.playing && times[i] > s.offTime && forall j :: 0 <= j < i ==> times[j] <= s.offTime
      {
        assert r[i] == BeepRun(s', offGain, times[1..])[i - 1];
        assert times[i] == times[1..][i - 1];
        if s.playing && times[0] <= s.offTime {
          assert (forall j :: 0 <= j < i ==> times[j] <= s.offTime)
                 <==> (forall j :: 0 <= j < i - 1 ==> times[1..][j] <= s.offTime) by {
            forall j | 0 < j < i ensures times[j] == times[1..][j - 1] {}
          }
        }
      }
    }
  }

  /**
   * As written, the off gain `update` hands over is sent by the controller but
   * never recorded in `self.gain`, so the next `play` finds the baseline gain
   * already recorded and sends nothing: the beep plays at the off gain.
   */
  lemma SecondBeepSilent(s: BeepStatus, t0: real, t1: real, t2: real, duration: real, baseline: real, off: real)
    requires baseline != off && t1 > t0 + duration
    ensures var (s1, m1) := PlayStep(s, t0, duration, baseline);
            var (s2, out) := UpdateStep(s1, t1, off);
            var (s3, m3) := PlayStep(s2, t2, duration, baseline);
            out == Some(off) && m3 == [] && s3.playing
  {
  }

  /** `update` recording the off gain it hands over, as the commented-out `change_gain` call would. */
  function UpdateStepRecorded(s: BeepStatus, time: real, offGain: real): (r: (BeepStatus, Option<real>))
    ensures r.1.Some? <==> s.playing && time > s.offTime
    ensures r.1.Some? ==> r.1.value == offGain && !r.0.playing && r.0.gain == offGain
    ensures r.0.offTime == s.offTime
    ensures r.1.None? ==> r.0 == s
  {
    if s.playing && time > s.offTime then (s.(playing := false, gain := offGain), Some(offGain)) else (s, None)
  }

  /** The gain the playback process last heard: the last one sent, if any. */
  function Heard(heard: real, sent: seq<real>): real
  {
    if sent == [] then heard else sent[|sent| - 1]
  }

  /**
   * With the off gain recorded, the playback process always plays at the
   * recorded gain: `play` and `update` keep it in step, so every beep sounds at
   * the baseline gain while it plays and at the off gain once it has stopped.
   */
  lemma RecordedBeepInStep(heard: real, s: BeepStatus, t: real, duration: real, baseline: real, off: real)
    requires heard == s.gain
    ensures var (s1, m1) := PlayStep(s, t, duration, baseline);
            Heard(heard, m1) == s1.gain == baseline && s1.playing
    ensures var (s2, out) := UpdateStepRecorded(s, t, off);
            Heard(heard, if out.Some? then [out.value] else []) == s2.gain
            && (out.Some? ==> s2.gain == off && !s2.playing)
  {
  }

  /** `BeepSound`: the Duration key is required. */
  function BeepDuration(duration: Option<real>): (r: Result<real>)
    ensures r.Ok? <==> duration.Some?
    ensures r.Err? ==> r.error == ValueError
  {
    if duration.Some? then Ok(duration.value) else Err(ValueError)
  }

  class Beep {
    const sound: Sound
    const duration: real
    var isPlaying: bool
    var timeBeepOff: real
    /** RuntimeWarnings issued for a beep triggered while playing. */
    var warnings: nat

    function Status(): BeepStatus
      reads this, sound
    {
      BeepStatus(sound.gain, isPlaying, timeBeepOff)
    }

    /** `BeepSound.__init__`: not playing, off time -1, then the gain is set to -90 dB. */
    constructor (name: string, device: string, gains: Gains, duration: real)
      ensures fresh(sound) && sound.name == name && sound.device == device
      ensures sound.baselineGain == gains.baseline && sound.offGain == gains.off && !sound.viewer
      ensures sound.gain == -90.0
      ensures sound.sent == [Message(Some(name), gains.off)] + (if gains.off != -90.0 then [Message(Some(name), -90.0)] else [])
      ensures this.duration == duration && !isPlaying && timeBeepOff == -1.0 && warnings == 0
    {
      sound := new Sound(name, device, gains);
      this.duration := duration;
      isPlaying := false;
      timeBeepOff := -1.0;
      warnings := 0;
      new;
      sound.ChangeGain(-90.0);
    }

    method Play(now: real)
      modifies this, sound
      ensures Status() == PlayStep(old(Status()), now, duration, sound.baselineGain).0
      ensures sound.sent == old(sound.sent)
                            + (if old(sound.gain) != sound.baselineGain then [Message(Some(sound.name), sound.baselineGain)] else [])
      ensures warnings == old(warnings) + (if old(isPlaying) then 1 else 0)
      ensures sound.viewerLog == old(sound.viewerLog) + (if sound.viewer then [(sound.name, sound.baselineGain)] else [])
    {
      if isPlaying {
        warnings := warnings + 1;
      }
      timeBeepOff := now + duration;
      sound.ChangeGain(sound.baselineGain);
      isPlaying := true;
    }

    method Update(time: real) returns (r: Option<real>)
      modifies this`isPlaying
      ensures (Status(), r) == UpdateStep(old(Status()), time, sound.offGain)
    {
      r := None;
      if isPlaying {
        if time > timeBeepOff {
          isPlaying := false;
          r := Some(sound.offGain);
        }
      }
    }
  }

  // ---------------------------------------------------------------------------
  // Bundles of numbered sounds

  /** How an index outside the bundle is handled on each side. */
  datatype Bounds = ErrorBounds | Soft | Wrap | Off

  /** BoundsLow / BoundsHigh: 'Error' when missing; names other than the four are rejected. */
  function ParseBounds(name: Option<string>): (r: Result<Bounds>)
    ensures r.Ok? <==> name.None? || name.value in {"Error", "Soft", "Wrap", "Off"}
    ensures r.Err? ==> r.error == ValueError
    ensures name.None? ==> r == Ok(ErrorBounds)
  {
    if name.None? || name.value == "Error" then Ok(ErrorBounds)
    else if name.value == "Soft" then Ok(Soft)
    else if name.value == "Wrap" then Ok(Wrap)
    else if name.value == "Off" then Ok(Off)
    else Err(ValueError)
  }

  /** The two policies of a bundle, or ValueError when either is unknown. */
  function BundleBounds(low: Option<string>, high: Option<string>): (r: Result<(Bounds, Bounds)>)
    ensures r.Ok? <==> ParseBounds(low).Ok? && ParseBounds(high).Ok?
    ensures r.Ok? ==> r.value == (ParseBounds(low).value, ParseBounds(high).value)
  {
    var l := ParseBounds(low);
    var h := ParseBounds(high);
    if l.Err? then Err(l.error) else if h.Err? then Err(h.error) else Ok((l.value, h.value))
  }

  /** A bundle's index: an integer, or the float infinity that wrapping by an unbounded Length gives. */
  datatype Index = At(i: int) | Infinity

  /** Python's integer `a % n`: the remainder takes the sign of `n`. */
  function PyMod(a: int, n: int): (r: int)
    requires n != 0
    ensures n > 0 ==> 0 <= r < n
    ensures n < 0 ==> n < r <= 0
  {
    if n > 0 then a % n else -((-a) % (-n))
  }

  /**
   * `_handle_bounds` for an index outside [0, num): Soft clamps into [0, num-1],
   * Wrap takes it modulo num (infinity for a negative index and no Length; a
   * Length of 0 divides by zero), Off keeps it, and Error raises ValueError.
   * `num` None stands for the unbounded default Length.
   */
  function HandleBounds(b: Bounds, index: int, num: Option<int>): (r: Result<Index>)
    ensures r.Err? <==> b == ErrorBounds || (b == Wrap && num == Some(0))
    ensures r.Err? ==> r.error == (if b == ErrorBounds then ValueError else ZeroDivisionError)
    ensures b == Soft && (num.None? || num.value >= 1) ==>
      r.Ok? && r.value.At? && 0 <= r.value.i && (num.None? || r.value.i < num.value)
    ensures b == Soft && 0 <= index && (num.None? || index < num.value) ==> r == Ok(At(index))
    ensures b == Wrap && num.Some? && num.value > 0 ==>
      r.Ok? && r.value.At? && 0 <= r.value.i < num.value && r.value.i == index % num.value
    ensures b == Wrap && num.None? ==> r == (if index < 0 then Ok(Infinity) else Ok(At(index)))
    ensures b == Off ==> r == Ok(At(index))
  {
    match b
    case Soft => Ok(At(if num.Some? && num.value - 1 < (if index < 0 then 0 else index) then num.value - 1
                       else if index < 0 then 0 else index))
    case Wrap =>
      if num.None? then (if index < 0 then Ok(Infinity) else Ok(At(index)))
      else if num.value == 0 then Err(ZeroDivisionError)
      else Ok(At(PyMod(index, num.value)))
    case Off => Ok(At(index))
    case ErrorBounds => Err(ValueError)
  }

  /** Decimal digits of a natural number, as `str` writes it. */
  function NatToString(n: nat): (s: string)
    ensures |s| >= 1 && (n >= 10 ==> |s| >= 2)
  {
    if n < 10 then [('0' as int + n) as char] else NatToString(n / 10) + [('0' as int + n % 10) as char]
  }

  lemma {:induction false} NatToStringInjective(m: nat, n: nat)
    requires NatToString(m) == NatToString(n)
    ensures m == n
  {
    var s := NatToString(m);
    if m >= 10 && n >= 10 {
      assert s[|s| - 1] == ('0' as int + m % 10) as char == ('0' as int + n % 10) as char;
      assert NatToString(m / 10) == s[..|s| - 1] == NatToString(n / 10);
      NatToStringInjective(m / 10, n / 10);
    } else if m < 10 && n < 10 {
      assert s[0] == ('0' as int + m) as char == ('0' as int + n) as char;
    }
  }

  /** The playback key of sound `i` of a bundle: `'-'.join([name, str(i)])`. */
  function Subname(name: string, i: nat): (r: string)
    ensures |r| >= |name| + 2 && r[..|name|] == name && r[|name|] == '-'
  {
    name + "-" + NatToString(i)
  }

  /** `_get_subname`: a key exactly for indices in [0, num). */
  function GetSubname(name: string, index: Index, num: Option<int>): (r: Option<string>)
    ensures r.Some? <==> index.At? && 0 <= index.i && (num.None? || index.i < num.value)
    ensures r.Some? ==> r.value == Subname(name, index.i)
  {
    if index.At? && index.i >= 0 && (num.None? || index.i < num.value) then Some(Subname(name, index.i)) else None
  }

  /** Different sounds of a bundle have different keys. */
  lemma SubnamesDistinct(name: string, i: nat, j: nat)
    requires i != j
    ensures Subname(name, i) != Subname(name, j)
  {
    if Subname(name, i) == Subname(name, j) {
      assert NatToString(i) == Subname(name, i)[|name| + 1..];
      assert NatToString(j) == Subname(name, j)[|name| + 1..];
      NatToStringInjective(i, j);
    }
  }

  /** The index `choose_sound` settles on: a non-int is a TypeError; out-of-range indices go to the side's policy. */
  function ChosenIndex(v: Value, low: Bounds, high: Bounds, num: Option<int>): (r: Result<Index>)
    ensures !v.Int? ==> r == Err(TypeError)
    ensures v.Int? && v.i < 0 ==> r == HandleBounds(low, v.i, num)
    ensures v.Int? && 0 <= v.i && num.Some? && v.i >= num.value ==> r == HandleBounds(high, v.i, num)
    ensures v.Int? && 0 <= v.i && (num.None? || v.i < num.value) ==> r == Ok(At(v.i))
  {
    if !v.Int? then Err(TypeError)
    else if v.i < 0 then HandleBounds(low, v.i, num)
    else if num.Some? && v.i >= num.value then HandleBounds(high, v.i, num)
    else Ok(At(v.i))
  }

  /**
   * Under Soft and Wrap with a Length of at least one, every int selects a sound
   * of the bundle; under Off an index outside it selects none; under Error it raises.
   */
  lemma BoundsPolicies(name: string, v: int, b: Bounds, num: int)
    requires num >= 1 && (v < 0 || v >= num)
    ensures b == Soft || b == Wrap ==>
              var r := ChosenIndex(Int(v), b, b, Some(num));
              r.Ok? && r.value.At? && 0 <= r.value.i < num && GetSubname(name, r.value, Some(num)).Some?
    ensures b == Soft ==> ChosenIndex(Int(v), b, b, Some(num)) == Ok(At(if v < 0 then 0 else num - 1))
    ensures b == Off ==> var r := ChosenIndex(Int(v), b, b, Some(num)); r == Ok(At(v)) && GetSubname(name, r.value, Some(num)).None?
    ensures b == ErrorBounds ==> ChosenIndex(Int(v), b, b, Some(num)) == Err(ValueError)
  {
  }

  /**
   * The messages `choose_sound` sends when it moves from key `oldKey` to `newKey`:
   * the old sound to the off gain, then the new one back to the gain it had.
   */
  function SwitchMessages(oldKey: Option<string>, newKey: Option<string>, g: real, off: real): seq<Message>
  {
    if off != g then [Message(oldKey, off), Message(newKey, g)] else []
  }

  class Bundle {
    const sound: Sound
    /** Length, or None for the default `math.inf`. */
    const numSounds: Option<int>
    const boundsLow: Bounds
    const boundsHigh: Bounds
    var index: Index
    var subname: Option<string>

    /** `BundledSound.__init__`: index 0, its key, and the two policies (checked by `BundleBounds`). */
    constructor (name: string, device: string, gains: Gains, numSounds: Option<int>, bounds: (Bounds, Bounds))
      ensures fresh(sound) && sound.name == name && sound.device == device
      ensures sound.baselineGain == gains.baseline && sound.offGain == gains.off && !sound.viewer
      ensures sound.gain == gains.off && sound.sent == [Message(Some(name), gains.off)]
      ensures this.numSounds == numSounds && boundsLow == bounds.0 && boundsHigh == bounds.1
      ensures index == At(0) && subname == GetSubname(name, At(0), numSounds)
    {
      sound := new Sound(name, device, gains);
      this.numSounds := numSounds;
      index := At(0);
      subname := GetSubname(name, At(0), numSounds);
      boundsLow := bounds.0;
      boundsHigh := bounds.1;
    }

    /** The bundle's `change_gain`: like the common one, but the message goes to the current sound's key. */
    method ChangeGain(g: real)
      modifies sound`gain, sound`sent, sound`viewerLog
      ensures sound.gain == g
      ensures sound.sent == old(sound.sent) + (if g != old(sound.gain) then [Message(subname, g)] else [])
      ensures sound.viewerLog == old(sound.viewerLog) + (if sound.viewer then [(sound.name, g)] else [])
    {
      if g != sound.gain {
        sound.sent := sound.sent + [Message(subname, g)];
        sound.gain := g;
      }
      if sound.viewer {
        sound.viewerLog := sound.viewerLog + [(sound.name, g)];
      }
    }

    /**
     * `update_stimulus` applied to a bundle: the gain the value asks for, sent to
     * the current sound's key, or ValueError with nothing changed.
     */
    method UpdateStimulus(value: Value) returns (r: Outcome)
      modifies sound`gain, sound`sent, sound`viewerLog
      ensures var g := GainForValue(value, sound.baselineGain, sound.offGain);
              if g.Err? then r == Fail(g.error) && unchanged(sound)
              else r == Done && sound.gain == g.value
                   && sound.sent == old(sound.sent) + (if g.value != old(sound.gain) then [Message(subname, g.value)] else [])
                   && sound.viewerLog == old(sound.viewerLog) + (if sound.viewer then [(sound.name, g.value)] else [])
    {
      var g := GainForValue(value, sound.baselineGain, sound.offGain);
      if g.Err? {
        return Fail(g.error);
      }
      ChangeGain(g.value);
      r := Done;
    }

    /**
     * `choose_sound`: a rejected index changes nothing; otherwise the bundle moves
     * to the chosen index and its key, and the gain ends where it started.
     */
    method ChooseSound(v: Value) returns (r: Outcome)
      modifies this, sound`gain, sound`sent, sound`viewerLog
      ensures var t := ChosenIndex(v, boundsLow, boundsHigh, numSounds);
              if t.Err? then r == Fail(t.error) && unchanged(this, sound)
              else r == Done && index == t.value && subname == GetSubname(sound.name, t.value, numSounds)
                   && sound.sent == old(sound.sent) + SwitchMessages(old(subname), subname, old(sound.gain), sound.offGain)
                   && sound.viewerLog == old(sound.viewerLog)
                                         + (if sound.viewer then [(sound.name, sound.offGain), (sound.name, old(sound.gain))] else [])
      ensures sound.gain == old(sound.gain)
    {
      var t := ChosenIndex(v, boundsLow, boundsHigh, numSounds);
      if t.Err? {
        return Fail(t.error);
      }
      var g := sound.gain;
      ChangeGain(sound.offGain);
      index := t.value;
      subname := GetSubname(sound.name, t.value, numSounds);
      ChangeGain(g);
      r := Done;
    }
  }

  // ---------------------------------------------------------------------------
  // Position-dependent gain

  /** `pos_gain_linear_db_ring`: off beyond the cutoff measured around the ring, else a linear fall from the maximum. */
  function LinearRingGain(x: real, center: real, trackLength: real, cutoff: real, off: real, max: real, slope: real): (g: real)
    ensures x == center && cutoff >= 0.0 && trackLength >= 0.0 ==> g == max
    ensures 0.0 <= x < trackLength && 0.0 <= center < trackLength && slope >= 0.0 ==>
      g == off || max - cutoff * slope <= g <= max
  {
    var d := if center - x >= 0.0 then center - x else x - center;
    var relpos := Min(d, trackLength - d);
    if relpos > cutoff then off else max - relpos * slope
  }

  /** `pos_gain_linear_db_straight`: the same along a line, with no wrapping. */
  function LinearLineGain(x: real, center: real, cutoff: real, off: real, max: real, slope: real): (g: real)
    ensures x == center && cutoff >= 0.0 ==> g == max
    ensures slope >= 0.0 ==> g == off || max - cutoff * slope <= g <= max
  {
    var d := if center - x >= 0.0 then center - x else x - center;
    if d > cutoff then off else max - d * slope
  }

  /**
   * On a ring with both positions on the track, the distance used is the
   * shorter way round, at most half the track; within the cutoff the gain
   * falls linearly from the maximum at the center to the cutoff gain at the
   * cutoff, and lies between the two.
   */
  lemma LinearRingShape(x: real, center: real, trackLength: real, half: real, off: real, max: real, min: real)
    requires 0.0 <= x < trackLength && 0.0 <= center < trackLength && half > 0.0 && min <= max
    ensures var d := if center - x >= 0.0 then center - x else x - center;
            var relpos := Min(d, trackLength - d);
            var g := LinearRingGain(x, center, trackLength, half, off, max, (max - min) / half);
            0.0 <= relpos <= trackLength / 2.0
            && (relpos > half ==> g == off)
            && (relpos <= half ==> min <= g <= max)
            && (relpos == half ==> g == min)
            && (x == center ==> g == max)
  {
    var d := if center - x >= 0.0 then center - x else x - center;
    var relpos := Min(d, trackLength - d);
    var slope := (max - min) / half;
    assert slope * half == max - min;
    if relpos <= half {
      assert 0.0 <= relpos * slope <= half * slope by {
        assert slope >= 0.0;
        assert relpos * slope <= half * slope by {
          assert (half - relpos) * slope >= 0.0;
        }
      }
    }
  }

  /**
   * The gain law of a localized sound. `Natural` on a ring is rejected: the
   * second `if` of the constructor replaces the first branch's choice by its
   * `else`. The natural law reads SpeakerDistance only when it is evaluated,
   * so a missing key is kept as `None` here.
   */
  datatype GainLaw = LinearRing | LinearLine | NaturalLine(speakerDistance: Option<real>)

  function GainLawFor(modulation: string, topology: string, speakerDistance: Option<real>): (r: Result<GainLaw>)
    ensures r.Ok? <==> (modulation == "Linear" && topology in {"Ring", "Line"}) || (modulation == "Natural" && topology == "Line")
    ensures r.Err? ==> r.error == ValueError
    ensures r.Ok? && topology == "Ring" ==> r.value == LinearRing
  {
    if modulation == "Linear" then
      if topology == "Ring" then Ok(LinearRing) else if topology == "Line" then Ok(LinearLine) else Err(ValueError)
    else if modulation == "Natural" then
      if topology == "Line" then Ok(NaturalLine(speakerDistance)) else Err(ValueError)
    else Err(ValueError)
  }

  /** MultilapActiveZone: two numbers, the start at least 0 and the end after it; otherwise ValueError. */
  function MultilapZone(b: seq<real>): (r: Result<(real, real)>)
    ensures r.Ok? <==> |b| == 2 && 0.0 <= b[0] < b[1]
    ensures r.Ok? ==> r.value == (b[0], b[1])
    ensures r.Err? ==> r.error == ValueError
  {
    if |b| != 2 then Err(ValueError)
    else if b[0] < 0.0 then Err(ValueError)
    else if b[1] <= b[0] then Err(ValueError)
    else Ok((b[0], b[1]))
  }

  /** What a localized sound keeps of its configuration; `half` is Width/2 and the maximum is its baseline gain. */
  datatype LocalizedConfig = LocalizedConfig(center: real, half: real, trackLength: real, minGain: real,
                                             law: GainLaw, zone: Option<(real, real)>)

  /** `LocalizedSound.__init__`'s checks: the gain law first, then the optional MultilapActiveZone. */
  function LocalizedSetup(center: real, width: real, trackLength: real, minGain: real, modulation: string,
                          topology: string, speakerDistance: Option<real>, zone: Option<seq<real>>): (r: Result<LocalizedConfig>)
    ensures r.Ok? <==> GainLawFor(modulation, topology, speakerDistance).Ok? && (zone.Some? ==> MultilapZone(zone.value).Ok?)
    ensures r.Err? ==> r.error == ValueError
    ensures r.Ok? ==> r.value.half == width / 2.0 && r.value.center == center && r.value.minGain == minGain
                      && r.value.law == GainLawFor(modulation, topology, speakerDistance).value
                      && (r.value.zone.Some? <==> zone.Some?)
                      && (zone.Some? ==> r.value.zone.value == MultilapZone(zone.value).value)
  {
    var law := GainLawFor(modulation, topology, speakerDistance);
    if law.Err? then Err(law.error)
    else if zone.None? then Ok(LocalizedConfig(center, width / 2.0, trackLength, minGain, law.value, None))
    else
      var z := MultilapZone(zone.value);
      if z.Err? then Err(z.error) else Ok(LocalizedConfig(center, width / 2.0, trackLength, minGain, law.value, Some(z.value)))
  }

  /**
   * `pos_gain_function` of a localized sound at position `x`. The linear laws
   * divide by the half-width on every call (ZeroDivisionError for a zero
   * Width). The natural law looks SpeakerDistance up on every call (KeyError
   * when it is missing) and, within the cutoff, takes `math.log10` of
   * d^2 + SpeakerDistance^2 and of SpeakerDistance, which raises ValueError
   * unless SpeakerDistance is positive; the logarithm's values are the
   * parameter `log10`.
   */
  function PosGain(c: LocalizedConfig, max: real, off: real, log10: real -> real, x: real): (r: Result<real>)
    ensures c.law.NaturalLine? ==>
              var d := if c.center - x >= 0.0 then c.center - x else x - c.center;
              && (r.Err? <==> c.law.speakerDistance.None? || (d <= c.half && c.law.speakerDistance.value <= 0.0))
              && (r.Err? ==> r.error == if c.law.speakerDistance.None? then KeyError else ValueError)
              && (r.Ok? && d > c.half ==> r.value == off)
    ensures !c.law.NaturalLine? ==> (r.Err? <==> c.half == 0.0) && (r.Err? ==> r.error == ZeroDivisionError)
    ensures c.law.LinearRing? && c.half != 0.0 ==>
              r == Ok(LinearRingGain(x, c.center, c.trackLength, c.half, off, max, (max - c.minGain) / c.half))
    ensures c.law.LinearLine? && c.half != 0.0 ==>
              r == Ok(LinearLineGain(x, c.center, c.half, off, max, (max - c.minGain) / c.half))
  {
    match c.law
    case LinearRing =>
      if c.half == 0.0 then Err(ZeroDivisionError)
      else Ok(LinearRingGain(x, c.center, c.trackLength, c.half, off, max, (max - c.minGain) / c.half))
    case LinearLine =>
      if c.half == 0.0 then Err(ZeroDivisionError)
      else Ok(LinearLineGain(x, c.center, c.half, off, max, (max - c.minGain) / c.half))
    case NaturalLine(sd) =>
      var d := if c.center - x >= 0.0 then c.center - x else x - c.center;
      if sd.None? then Err(KeyError)
      else if d > c.half then Ok(off)
      else if sd.value <= 0.0 then Err(ValueError)
      else Ok(max - 10.0 * log10(d * d + sd.value * sd.value) + 20.0 * log10(sd.value))
  }

  // ---------------------------------------------------------------------------
  // The multilap latch

  datatype MultilapState = Waiting | Inside | Past

  function Rank(s: MultilapState): nat
  {
    match s
    case Waiting => 0
    case Inside => 1
    case Past => 2
  }

  /**
   * One `pos_update_gain` of the latch at unwrapped position `u`: the new state
   * and whether the off gain replaces the sound's own gain.
   */
  function MultilapStep(zone: (real, real), s: MultilapState, u: real): (r: (MultilapState, bool))
    ensures s == Past ==> r == (Past, true)
    ensures u >= zone.1 ==> r.1 && r.0 != Inside
    ensures !r.1 ==> r.0 == Inside && u < zone.1 && (s == Waiting ==> zone.0 < u)
    ensures s == Waiting && u <= zone.0 ==> r == (Waiting, true)
  {
    if u <= zone.0 && s == Waiting then (Waiting, true)
    else if u >= zone.1 || s == Past then (if s == Inside then Past else s, true)
    else (if s == Waiting then Inside else s, false)
  }

  /** The latch only moves waiting to inside to past, one step at a time, and stays past with the off gain. */
  lemma MultilapStepMoves(zone: (real, real), s: MultilapState, u: real)
    ensures var (s', off) := MultilapStep(zone, s, u);
            Rank(s) <= Rank(s') <= Rank(s) + 1
            && (s == Past ==> s' == Past && off)
            && (!off ==> s' == Inside)
            && (s' == Past ==> off)
  {
  }

  /** The states and off-gain choices of successive `pos_update_gain` calls at unwrapped positions `us`. */
  function MultilapRun(zone: (real, real), s: MultilapState, us: seq<real>): (r: seq<(MultilapState, bool)>)
    ensures |r| == |us|
    decreases |us|
  {
    if us == [] then []
    else
      var step := MultilapStep(zone, s, us[0]);
      [step] + MultilapRun(zone, step.0, us[1..])
  }

  /** Over a whole run the latch never moves back, and once past every later call gives the off gain. */
  lemma {:induction false} MultilapRunMonotone(zone: (real, real), s: MultilapState, us: seq<real>)
    ensures var r := MultilapRun(zone, s, us);
            (forall i :: 0 <= i < |r| ==> Rank(s) <= Rank(r[i].0))
            && (forall i, j :: 0 <= i < j < |r| ==> Rank(r[i].0) <= Rank(r[j].0))
            && (s == Past ==> forall i :: 0 <= i < |r| ==> r[i] == (Past, true))
            && (forall i, j :: 0 <= i < j < |r| && r[i].0 == Past ==> r[j] == (Past, true))
    decreases |us|
  {
    if us != [] {
      var (s', off) := MultilapStep(zone, s, us[0]);
      MultilapStepMoves(zone, s, us[0]);
      MultilapRunMonotone(zone, s', us[1..]);
      assert forall k :: 0 <= k < |MultilapRun(zone, s', us[1..])| ==> Rank(s') <= Rank(MultilapRun(zone, s', us[1..])[k].0);
      var r := MultilapRun(zone, s, us);
      var rest := MultilapRun(zone, s', us[1..]);
      assert r == [(s', off)] + rest;
      forall i | 0 < i < |r| ensures r[i] == rest[i - 1] {
      }
    }
  }

  class Localized {
    const sound: Sound
    const config: LocalizedConfig
    const log10: real -> real
    var multilapState: MultilapState

    /** `LocalizedSound.__init__` for a configuration `LocalizedSetup` accepted; the latch starts waiting. */
    constructor (name: string, device: string, gains: Gains, config: LocalizedConfig, log10: real -> real)
      ensures fresh(sound) && sound.name == name && sound.device == device
      ensures sound.baselineGain == gains.baseline && sound.offGain == gains.off && !sound.viewer
      ensures sound.gain == gains.off && sound.sent == [Message(Some(name), gains.off)]
      ensures this.config == config && this.log10 == log10 && multilapState == Waiting
    {
      sound := new Sound(name, device, gains);
      this.config := config;
      this.log10 := log10;
      multilapState := Waiting;
    }

    /**
     * `pos_update_gain`: the position's gain, replaced by the off gain as the
     * multilap latch decides when the sound has an active zone.
     */
    method PosUpdateGain(pos: real, unwrapped: real) returns (r: Result<real>)
      modifies this`multilapState
      ensures var g := PosGain(config, sound.baselineGain, sound.offGain, log10, pos);
              if g.Err? || config.zone.None? then r == g && multilapState == old(multilapState)
              else
                var (s, off) := MultilapStep(config.zone.value, old(multilapState), unwrapped);
                multilapState == s && r == Ok(if off then sound.offGain else g.value)
    {
      var g := PosGain(config, sound.baselineGain, sound.offGain, log10, pos);
      if g.Err? || config.zone.None? {
        return g;
      }
      var (s, off) := MultilapStep(config.zone.value, multilapState, unwrapped);
      multilapState := s;
      r := Ok(if off then sound.offGain else g.value);
    }
  }

  /** `MultilapBackgroundSound`: the latch alone, playing the baseline gain while inside. */
  class MultilapBackground {
    const sound: Sound
    const zone: (real, real)
    var multilapState: MultilapState

    constructor (name: string, device: string, gains: Gains, zone: (real, real))
      ensures fresh(sound) && sound.name == name && sound.device == device
      ensures sound.baselineGain == gains.baseline && sound.offGain == gains.off && !sound.viewer
      ensures sound.gain == gains.off && sound.sent == [Message(Some(name), gains.off)]
      ensures this.zone == zone && multilapState == Waiting
    {
      sound := new Sound(name, device, gains);
      this.zone := zone;
      multilapState := Waiting;
    }

    method PosUpdateGain(pos: real, unwrapped: real) returns (g: real)
      modifies this`multilapState
      ensures var (s, off) := MultilapStep(zone, old(multilapState), unwrapped);
              multilapState == s && g == if off then sound.offGain else sound.baselineGain
    {
      var (s, off) := MultilapStep(zone, multilapState, unwrapped);
      multilapState := s;
      g := if off then sound.offGain else sound.baselineGain;
    }
  }

  // ---------------------------------------------------------------------------
  // Configuration checks and the controller's registry

  /** `SoundStimulus.valid`: Device is required. */
  function SoundValid(keys: set<string>): (r: Outcome)
    ensures r == Done <==> "Device" in keys
    ensures r != Done ==> r == Fail(ValueError)
  {
    if "Device" !in keys then Fail(ValueError) else Done
  }

  /** `LocalizedSound.valid`: also CenterPosition, and Modulation with Width and CutoffGain. */
  function LocalizedValid(keys: set<string>, modulationKeys: set<string>): (r: Outcome)
    ensures r == Done <==> {"Device", "CenterPosition", "Modulation"} <= keys && {"Width", "CutoffGain"} <= modulationKeys
    ensures r != Done ==> r == Fail(ValueError)
  {
    var base := SoundValid(keys);
    if base.Fail? then base
    else if "CenterPosition" !in keys then Fail(ValueError)
    else if "Modulation" !in keys then Fail(ValueError)
    else if "Width" !in modulationKeys then Fail(ValueError)
    else if "CutoffGain" !in modulationKeys then Fail(ValueError)
    else Done
  }

  /**
   * The `valid` of a sound class that adds one required key to the base
   * check: MultilapActiveZone for `MultilapBackgroundSound`, Duration for
   * `BeepSound`.
   */
  function ValidWithKey(keys: set<string>, key: string): (r: Outcome)
    ensures r == Done <==> {"Device", key} <= keys
    ensures r != Done ==> r == Fail(ValueError)
  {
    var base := SoundValid(keys);
    if base.Fail? then base else if key !in keys then Fail(ValueError) else Done
  }

  /** The kinds of stimulus, and the type-specific registry each is added to. */
  datatype Kind = Background | BeepKind | LocalizedKind | MultilapKind | BundleKind

  datatype Group = BackgroundSounds | Beeps | LocalizedStimuli | BundledSounds

  function GroupOf(k: Kind): (g: Group)
    ensures g == BackgroundSounds <==> k == Background
    ensures g == Beeps <==> k == BeepKind
    ensures g == LocalizedStimuli <==> k == LocalizedKind || k == MultilapKind
    ensures g == BundledSounds <==> k == BundleKind
  {
    match k
    case Background => BackgroundSounds
    case BeepKind => Beeps
    case LocalizedKind => LocalizedStimuli
    case MultilapKind => LocalizedStimuli
    case BundleKind => BundledSounds
  }

  /** The keys of one stimulus's configuration that `add_stimulus` and the constructors read. */
  datatype StimulusParams = StimulusParams(
    kind: string, duration: Option<real>, center: real, width: real, cutoffGain: real, modulation: string,
    speakerDistance: Option<real>, modulationZone: Option<seq<real>>, multilapZone: Option<seq<real>>,
    boundsLow: Option<string>, boundsHigh: Option<string>,
    device: string, baselineGain: Option<real>, offGain: Option<real>, length: Option<int>)

  /**
   * `add_stimulus` raises before building anything for an unknown Type, for a
   * Localized or MultilapBackground sound without a track length, and for a
   * MultilapBackground sound off a Ring.
   */
  predicate RefusedBeforeBuild(p: StimulusParams, trackLength: Option<real>, topology: string)
  {
    p.kind !in {"Background", "Beep", "Localized", "MultilapBackground", "Bundle"}
    || (p.kind in {"Localized", "MultilapBackground"} && (trackLength.None? || trackLength.value == 0.0))
    || (p.kind == "MultilapBackground" && topology != "Ring")
  }

  /**
   * The messages `add_stimulus` sends to the playback process. Every built
   * stimulus first sends its off gain (`SoundStimulus.__init__`), even when its
   * own constructor then raises; a beep then goes to -90 dB; a Background or
   * Bundle sound is then turned on at its baseline gain, before the name is
   * checked, so this happens also when the name is refused.
   */
  function AddMessages(name: string, p: StimulusParams, trackLength: Option<real>, topology: string): (m: seq<Message>)
    ensures m == [] <==> RefusedBeforeBuild(p, trackLength, topology)
    ensures m != [] ==> m[0] == Message(Some(name), GainSetup(p.baselineGain, p.offGain).off) && |m| <= 2
    ensures var k := StimulusKind(p, trackLength, topology);
            var g := GainSetup(p.baselineGain, p.offGain);
            && (k.Ok? && k.value in {Background, BundleKind} ==>
                  m[|m| - 1].gain == g.baseline && (|m| == 2 <==> g.baseline != g.off))
            && (k.Ok? && k.value == BeepKind ==> m[|m| - 1].gain == -90.0 && (|m| == 2 <==> g.off != -90.0))
            && (k.Err? || k.value in {LocalizedKind, MultilapKind} ==> |m| <= 1)
    ensures forall i :: 0 <= i < |m| ==>
              m[i].key == Some(name) || (p.kind == "Bundle" && m[i].key == GetSubname(name, At(0), p.length))
  {
    var g := GainSetup(p.baselineGain, p.offGain);
    var base := [Message(Some(name), g.off)];
    var k := StimulusKind(p, trackLength, topology);
    if RefusedBeforeBuild(p, trackLength, topology) then []
    else if k.Err? then base
    else match k.value
      case Background => base + (if g.baseline != g.off then [Message(Some(name), g.baseline)] else [])
      case BeepKind => base + (if g.off != -90.0 then [Message(Some(name), -90.0)] else [])
      case BundleKind => base + (if g.baseline != g.off then [Message(GetSubname(name, At(0), p.length), g.baseline)] else [])
      case _ => base
  }

  /**
   * The kind `add_stimulus` creates, or the error raised on the way: an unknown
   * Type; a Localized or MultilapBackground sound without a track length; a
   * MultilapBackground off a Ring (raised as a Warning); and each constructor's
   * own checks.
   */
  function StimulusKind(p: StimulusParams, trackLength: Option<real>, topology: string): (r: Result<Kind>)
    ensures p.kind !in {"Background", "Beep", "Localized", "MultilapBackground", "Bundle"} ==> r == Err(ValueError)
    ensures p.kind in {"Localized", "MultilapBackground"} && (trackLength.None? || trackLength.value == 0.0) ==> r == Err(ValueError)
    ensures p.kind == "MultilapBackground" && trackLength.Some? && trackLength.value != 0.0 && topology != "Ring" ==> r == Err(Warning)
    ensures r.Ok? ==> r.value == match p.kind
                                 case "Background" => Background
                                 case "Beep" => BeepKind
                                 case "Localized" => LocalizedKind
                                 case "MultilapBackground" => MultilapKind
                                 case _ => BundleKind
    ensures p.kind == "Beep" ==> (r.Ok? <==> p.duration.Some?)
    ensures p.kind == "Bundle" ==> (r.Ok? <==> BundleBounds(p.boundsLow, p.boundsHigh).Ok?)
    ensures p.kind == "Localized" && trackLength.Some? && trackLength.value != 0.0 ==>
              (r.Ok? <==> LocalizedSetup(p.center, p.width, trackLength.value, p.cutoffGain, p.modulation, topology,
                                         p.speakerDistance, p.modulationZone).Ok?)
  {
    var noTrack := trackLength.None? || trackLength.value == 0.0;
    if p.kind == "Background" then Ok(Background)
    else if p.kind == "Beep" then
      var d := BeepDuration(p.duration);
      if d.Err? then Err(d.error) else Ok(BeepKind)
    else if p.kind == "Localized" then
      if noTrack then Err(ValueError)
      else
        var c := LocalizedSetup(p.center, p.width, trackLength.value, p.cutoffGain, p.modulation, topology,
                                p.speakerDistance, p.modulationZone);
        if c.Err? then Err(c.error) else Ok(LocalizedKind)
    else if p.kind == "MultilapBackground" then
      if noTrack then Err(ValueError)
      else if topology != "Ring" then Err(Warning)
      else if p.multilapZone.None? then Err(KeyError)
      else
        var z := MultilapZone(p.multilapZone.value);
        if z.Err? then Err(z.error) else Ok(MultilapKind)
    else if p.kind == "Bundle" then
      var b := BundleBounds(p.boundsLow, p.boundsHigh);
      if b.Err? then Err(b.error) else Ok(BundleKind)
    else Err(ValueError)
  }

  /** `SoundStimulusController`'s registries: every stimulus by name, and the names of each group. */
  class Controller {
    var stimuli: map<string, Kind>
    var groups: map<Group, set<string>>
    /** The messages the stimuli built so far have sent through the shared playback pipe, oldest first. */
    var sent: seq<Message>

    ghost predicate Valid()
      reads this
    {
      BackgroundSounds in groups && Beeps in groups && LocalizedStimuli in groups && BundledSounds in groups
    }

    constructor ()
      ensures Valid() && stimuli == map[] && sent == []
      ensures groups == map[BackgroundSounds := {}, Beeps := {}, LocalizedStimuli := {}, BundledSounds := {}]
    {
      stimuli := map[];
      groups := map[BackgroundSounds := {}, Beeps := {}, LocalizedStimuli := {}, BundledSounds := {}];
      sent := [];
    }

    /**
     * `add_stimulus`: a stimulus refused before it is built changes nothing; one
     * whose constructor raises has still sent its off gain. One that is built is
     * entered in its group and (Background, Bundle) turned on at its baseline
     * gain, and only then refused with ValueError if its name is taken, in which
     * case the name keeps its first stimulus.
     */
    method AddStimulus(name: string, p: StimulusParams, trackLength: Option<real>, topology: string) returns (r: Outcome)
      requires Valid()
      modifies this
      ensures Valid()
      ensures sent == old(sent) + AddMessages(name, p, trackLength, topology)
      ensures var k := StimulusKind(p, trackLength, topology);
              if k.Err? then r == Fail(k.error) && stimuli == old(stimuli) && groups == old(groups)
              else
                groups == old(groups)[GroupOf(k.value) := old(groups)[GroupOf(k.value)] + {name}]
                && (r.Fail? <==> name in old(stimuli))
                && (r.Fail? ==> r.error == ValueError && stimuli == old(stimuli))
                && (r.Done? ==> stimuli == old(stimuli)[name := k.value])
    {
      var k := StimulusKind(p, trackLength, topology);
      var gains := GainSetup(p.baselineGain, p.offGain);
      if RefusedBeforeBuild(p, trackLength, topology) {
        return Fail(k.error);
      }
      if k.Err? || k.value == LocalizedKind || k.value == MultilapKind {
        // these constructors send nothing beyond SoundStimulus.__init__'s off gain
        var s := new Sound(name, p.device, gains);
        sent := sent + s.sent;
        if k.Err? {
          return Fail(k.error);
        }
      } else if k.value == Background {
        var s := new Sound(name, p.device, gains);
        s.ChangeGain(gains.baseline);
        sent := sent + s.sent;
      } else if k.value == BeepKind {
        var b := new Beep(name, p.device, gains, p.duration.value);
        sent := sent + b.sound.sent;
      } else {
        var b := new Bundle(name, p.device, gains, p.length, BundleBounds(p.boundsLow, p.boundsHigh).value);
        b.ChangeGain(gains.baseline);
        sent := sent + b.sound.sent;
      }
      var g := GroupOf(k.value);
      groups := groups[g := groups[g] + {name}];
      if name in stimuli {
        return Fail(ValueError);
      }
      stimuli := stimuli[name := k.value];
      r := Done;
    }

    /** `get_stimulus`: the stimulus of that name, or KeyError. */
    function GetStimulus(name: string): (r: Result<Kind>)
      reads this
      ensures r.Ok? <==> name in stimuli
      ensures r.Ok? ==> r.value == stimuli[name]
      ensures r.Err? ==> r.error == KeyError
    {
      if name in stimuli then Ok(stimuli[name]) else Err(KeyError)
    }
  }
}
