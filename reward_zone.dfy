/**
 * Position-triggered reward zones (src/treadmillio/rewardzone.py). A Classical
 * zone pays whenever the animal is inside it, a refractory period has passed and
 * the sequential-reward limit is not reached; an Operant zone additionally needs
 * a debounced lick (or a random assist drawn once per zone entry). A reset zone
 * re-arms a zone that has reached its limit.
 */
module RewardZone {
  import opened Common
  import opened Bytes

  /** A stretch of the track from `start` to `end`; it wraps past the track's end when `end <= start`. */
  datatype Interval = Interval(start: real, end: real)

  /** `inside`: inclusive when the zone does not wrap, otherwise either side of the wrap point. */
  predicate Inside(zone: Interval, pos: real): (b: bool)
    ensures pos == zone.start || pos == zone.end ==> b
    ensures b && zone.start < zone.end ==> zone.start <= pos <= zone.end
  {
    if zone.end > zone.start then pos >= zone.start && pos <= zone.end
    else pos <= zone.end || pos >= zone.start
  }

  /** A zone whose start equals its end covers the whole track. */
  lemma DegenerateZoneCoversTrack(zone: Interval, pos: real)
    requires zone.start == zone.end
    ensures Inside(zone, pos)
  {
  }

  /** A wrapping zone is the complement of the open gap between its end and its start. */
  lemma WrapZoneIsComplement(zone: Interval, pos: real)
    requires zone.end < zone.start
    ensures Inside(zone, pos) <==> !(zone.end < pos < zone.start)
  {
  }

  datatype Kind = Classical | Operant

  /** What the I/O side sees: a dispense pulse until `offTime`, a reward beep, and the zone log rows. */
  datatype Event =
    | Pulse(pin: string, offTime: int)
    | Beep(sound: string, time: int)
    | Entered(time: int, pos: real, gpio: nat, random: bool)
    | Rewarded(time: int, pos: real, gpio: nat, random: bool, licked: bool)

  /** A configured zone. `lickPin` is the GPIO number of the lick sensor (Operant only). */
  datatype ZoneConfig = ZoneConfig(kind: Kind, pin: string, sound: Option<string>, activeZone: Interval,
                                   resetZone: Option<Interval>, refractory: int, maxRewards: int,
                                   pulseLength: int, lickPin: int, debounceLength: nat,
                                   randomAssist: Option<real>)

  /**
   * The mutable part of a zone. `history` and `idx` are the lick ring buffer;
   * `draws` counts the random numbers taken for the random assist.
   */
  datatype ZoneState = ZoneState(count: int, last: int, active: bool, awaiting: bool,
                                 history: seq<bool>, idx: nat, draws: nat)

  /** A freshly built zone: no rewards yet, armed, waiting for entry, an all-zero lick history. */
  function InitialState(cfg: ZoneConfig): (st: ZoneState)
    ensures st.count == 0 && st.active && st.awaiting && |st.history| == cfg.debounceLength
  {
    ZoneState(0, 0, true, true, seq(cfg.debounceLength, i => false), 0, 0)
  }

  /** One update: the new state, the events emitted, and the exception raised, if any. */
  datatype Effect = Effect(state: ZoneState, events: seq<Event>, error: Option<Error>)

  /** The events of one reward: the pulse, then the beep when a reward sound is configured. */
  function RewardEvents(cfg: ZoneConfig, time: int): seq<Event>
  {
    [Pulse(cfg.pin, time + cfg.pulseLength)]
    + (if cfg.sound.Some? && cfg.sound.value != "" then [Beep(cfg.sound.value, time)] else [])
  }

  /** Record a reward at `time`: count it and disarm the zone when the limit is reached. */
  function Reward(cfg: ZoneConfig, st: ZoneState, time: int): ZoneState
  {
    var c := st.count + 1;
    st.(last := time, count := c, active := if c >= cfg.maxRewards then false else st.active)
  }

  /** `ClassicalRewardZone.update`. */
  function ClassicalStep(cfg: ZoneConfig, st: ZoneState, time: int, pos: real): (e: Effect)
    ensures e.error.Some? <==> !Inside(cfg.activeZone, pos) && cfg.resetZone.None?
    ensures e.error.Some? ==> e.error == Some(AttributeError) && e.state == st && e.events == []
    ensures e.state.history == st.history && e.state.idx == st.idx
            && e.state.awaiting == st.awaiting && e.state.draws == st.draws
    ensures e.state.last == st.last || (e.state.last == time && time > st.last + cfg.refractory)
  {
    if Inside(cfg.activeZone, pos) then
      if time > st.last + cfg.refractory && st.count < cfg.maxRewards then
        Effect(Reward(cfg, st, time), RewardEvents(cfg, time), None)
      else Effect(st, [], None)
    else if cfg.resetZone.None? then Effect(st, [], Some(AttributeError))
    else if Inside(cfg.resetZone.value, pos) && !st.active then Effect(st.(count := 0, active := true), [], None)
    else Effect(st, [], None)
  }

  /** `np.prod(lick_history)` is non-zero: every slot holds a lick. */
  predicate AllLicked(h: seq<bool>)
  {
    forall k :: 0 <= k < |h| ==> h[k]
  }

  /** `if self.random_assist:` — set and non-zero. */
  predicate AssistOn(ra: Option<real>)
  {
    ra.Some? && ra.value != 0.0
  }

  /** The lick sample goes into slot `idx` of the ring buffer, and `idx` advances modulo its length. */
  function RecordLick(st: ZoneState, licked: bool): (r: ZoneState)
    requires st.idx < |st.history|
    ensures |r.history| == |st.history| && r.idx < |r.history|
  {
    st.(history := st.history[st.idx := licked], idx := (st.idx + 1) % |st.history|)
  }

  /**
   * The active-zone branch of the Operant update, after the lick is recorded:
   * on entry, draw for the random assist and log the entry; then pay if the
   * refractory period has passed, the zone is armed and the debounced lick or
   * the assist is there.
   */
  function OperantInZone(cfg: ZoneConfig, st: ZoneState, time: int, pos: real, gpio: nat, draw: real,
                         hasLogger: bool, licked: bool): (e: Effect)
    ensures e.error.Some? <==> st.awaiting && !hasLogger
    ensures e.error.Some? ==> e.error == Some(TypeError) && e.events == [] && e.state.awaiting
    ensures e.error.None? ==> !e.state.awaiting
    ensures e.state.history == st.history && e.state.idx == st.idx
    ensures e.state.draws == st.draws + (if st.awaiting && AssistOn(cfg.randomAssist) then 1 else 0)
    ensures e.state.last == st.last || (e.state.last == time && time > st.last + cfg.refractory && st.active)
  {
    var drew := st.awaiting && AssistOn(cfg.randomAssist);
    var random := drew && draw < cfg.randomAssist.value;
    var st2 := st.(draws := if drew then st.draws + 1 else st.draws);
    if st.awaiting && !hasLogger then Effect(st2, [], Some(TypeError))
    else
      var entry := if st.awaiting then [Entered(time, pos, gpio, random)] else [];
      var st3 := st2.(awaiting := false);
      if time > st3.last + cfg.refractory && st3.active && (AllLicked(st.history) || random) then
        Effect(Reward(cfg, st3, time),
               entry + RewardEvents(cfg, time)
               + (if hasLogger then [Rewarded(time, pos, gpio, random, licked)] else []), None)
      else Effect(st3, entry, None)
  }

  /** Outside the active zone: the reset zone re-arms the zone and waits for a new entry. */
  function OperantOutside(cfg: ZoneConfig, st: ZoneState, pos: real): (e: Effect)
    ensures e.events == []
    ensures e.error.Some? <==> cfg.resetZone.None?
    ensures e.error.Some? ==> e.error == Some(AttributeError) && e.state == st
    ensures e.state.last == st.last && e.state.history == st.history && e.state.idx == st.idx && e.state.draws == st.draws
    ensures e.state != st ==> cfg.resetZone.Some? && Inside(cfg.resetZone.value, pos)
    ensures cfg.resetZone.Some? && Inside(cfg.resetZone.value, pos) ==> e.state.active && e.state.awaiting
  {
    if cfg.resetZone.None? then Effect(st, [], Some(AttributeError))
    else if Inside(cfg.resetZone.value, pos) then
      Effect(st.(awaiting := true, count := if st.active then st.count else 0, active := true), [], None)
    else Effect(st, [], None)
  }

  /**
   * `OperantRewardZone.update`, with `draw` the value `np.random.rand()` would
   * return and `hasLogger` whether a logger was passed.
   */
  function OperantStep(cfg: ZoneConfig, st: ZoneState, time: int, pos: real, gpio: nat, draw: real,
                       hasLogger: bool): (e: Effect)
    ensures e.error == Some(ValueError) <==> cfg.lickPin < 1
    ensures cfg.lickPin >= 1 ==> (e.error == Some(IndexError) <==> st.idx >= |st.history|)
    ensures e.error == Some(ValueError) || e.error == Some(IndexError) ==> e.state == st && e.events == []
    ensures e.error.None? ==> |e.state.history| == |st.history| && e.state.idx < |e.state.history|
    ensures e.state.last == st.last || (e.state.last == time && time > st.last + cfg.refractory)
  {
    if cfg.lickPin < 1 then Effect(st, [], Some(ValueError))
    else if |st.history| == 0 || st.idx >= |st.history| then Effect(st, [], Some(IndexError))
    else
      var licked := TestBit(gpio, cfg.lickPin - 1);
      var st1 := RecordLick(st, licked);
      if Inside(cfg.activeZone, pos) then OperantInZone(cfg, st1, time, pos, gpio, draw, hasLogger, licked)
      else OperantOutside(cfg, st1, pos)
  }

  /** One tick of a zone of either kind; a Classical zone is handed the logger in place of `gpio` and ignores it. */
  function Step(cfg: ZoneConfig, st: ZoneState, time: int, pos: real, gpio: nat, draw: real, hasLogger: bool): (e: Effect)
    ensures e.state.last == st.last
            || (e.state.last == time && time > st.last + cfg.refractory && e.state.count == st.count + 1)
    ensures forall i :: 0 <= i < |e.events| && e.events[i].Pulse? ==>
              e.events[i] == Pulse(cfg.pin, time + cfg.pulseLength) && e.state.last == time
  {
    match cfg.kind
    case Classical => ClassicalStep(cfg, st, time, pos)
    case Operant => OperantStep(cfg, st, time, pos, gpio, draw, hasLogger)
  }

  // ---------------------------------------------------------------------------
  // Properties of one update

  /**
   * A Classical zone pays exactly when the animal is inside it, more than the
   * refractory period has passed since the last reward and the limit is not
   * reached; paying records the time, counts the reward and pulses the pin until
   * `time + PumpRunTime`.
   */
  lemma ClassicalRewardRule(cfg: ZoneConfig, st: ZoneState, time: int, pos: real)
    ensures var e := ClassicalStep(cfg, st, time, pos);
            (e.events != []) <==>
              Inside(cfg.activeZone, pos) && time > st.last + cfg.refractory && st.count < cfg.maxRewards
    ensures var e := ClassicalStep(cfg, st, time, pos);
            e.events != [] ==>
              e.error.None? && e.events[0] == Pulse(cfg.pin, time + cfg.pulseLength)
              && e.state.last == time && e.state.count == st.count + 1
              && (e.state.active <==> st.active && st.count + 1 < cfg.maxRewards)
  {
  }

  /**
   * An Operant zone pays exactly when the animal is inside it, the refractory
   * period has passed, the zone is armed and the debounced lick or the random
   * assist is there (given a logger on entry).
   */
  lemma OperantRewardRule(cfg: ZoneConfig, st: ZoneState, time: int, pos: real, gpio: nat, draw: real)
    requires cfg.lickPin >= 1 && st.idx < |st.history|
    ensures Inside(cfg.activeZone, pos) ==> OperantStep(cfg, st, time, pos, gpio, draw, true).error.None?
    ensures var e := OperantStep(cfg, st, time, pos, gpio, draw, true);
            var h := st.history[st.idx := TestBit(gpio, cfg.lickPin - 1)];
            var random := st.awaiting && AssistOn(cfg.randomAssist) && draw < cfg.randomAssist.value;
            (Pulse(cfg.pin, time + cfg.pulseLength) in e.events) <==>
              Inside(cfg.activeZone, pos) && time > st.last + cfg.refractory && st.active && (AllLicked(h) || random)
  {
  }

  /** The lick ring buffer: the sample goes into slot `idx`, which then advances modulo the buffer length. */
  lemma OperantRecordsLick(cfg: ZoneConfig, st: ZoneState, time: int, pos: real, gpio: nat, draw: real, hasLogger: bool)
    requires cfg.lickPin >= 1 && st.idx < |st.history|
    ensures var e := OperantStep(cfg, st, time, pos, gpio, draw, hasLogger);
            e.state.history == st.history[st.idx := TestBit(gpio, cfg.lickPin - 1)]
            && e.state.idx == (st.idx + 1) % |st.history| && e.state.idx < |e.state.history|
  {
  }

  /** A zone that has paid its limit stays disarmed and unpaid until the reset zone re-arms it. */
  lemma {:induction false} ClassicalLimit(cfg: ZoneConfig, st: ZoneState, time: int, pos: real)
    requires st.count >= cfg.maxRewards
    ensures var e := ClassicalStep(cfg, st, time, pos);
            e.events == [] && (e.state.count < st.count ==> !Inside(cfg.activeZone, pos) && e.state.count == 0)
  {
  }

  /**
   * Re-arming happens only in the reset zone while outside the active zone: a
   * count that drops drops to 0 there, and an Operant zone waits for a new entry
   * only after visiting it.
   */
  lemma ReArmOnlyInResetZone(cfg: ZoneConfig, st: ZoneState, time: int, pos: real, gpio: nat, draw: real, hasLogger: bool)
    ensures var e := Step(cfg, st, time, pos, gpio, draw, hasLogger);
            e.state.count < st.count ==>
              e.state.count == 0 && !Inside(cfg.activeZone, pos) && cfg.resetZone.Some? && Inside(cfg.resetZone.value, pos)
    ensures var e := Step(cfg, st, time, pos, gpio, draw, hasLogger);
            !st.awaiting && e.state.awaiting ==>
              !Inside(cfg.activeZone, pos) && cfg.resetZone.Some? && Inside(cfg.resetZone.value, pos)
  {
  }

  /** A zone configured without a reset zone raises AttributeError whenever the animal is outside the active zone. */
  lemma MissingResetZoneRaises(cfg: ZoneConfig, st: ZoneState, time: int, pos: real, gpio: nat, draw: real, hasLogger: bool)
    requires cfg.resetZone.None? && !Inside(cfg.activeZone, pos)
    requires cfg.kind == Operant ==> cfg.lickPin >= 1 && st.idx < |st.history|
    ensures Step(cfg, st, time, pos, gpio, draw, hasLogger).error == Some(AttributeError)
  {
  }

  /** Without a logger, entering an Operant zone raises TypeError, and the zone stays waiting for entry. */
  lemma OperantEntryNeedsLogger(cfg: ZoneConfig, st: ZoneState, time: int, pos: real, gpio: nat, draw: real)
    requires cfg.lickPin >= 1 && st.idx < |st.history| && st.awaiting && Inside(cfg.activeZone, pos)
    ensures OperantStep(cfg, st, time, pos, gpio, draw, false).error == Some(TypeError)
    ensures OperantStep(cfg, st, time, pos, gpio, draw, false).state.awaiting
  {
  }

  // ---------------------------------------------------------------------------
  // The reward limit

  /**
   * The count never goes negative or past the limit, and a disarmed zone has
   * reached it; an Operant zone additionally is armed only below the limit.
   */
  ghost predicate LimitInvariant(cfg: ZoneConfig, st: ZoneState)
  {
    0 <= st.count <= cfg.maxRewards && (!st.active ==> st.count >= cfg.maxRewards)
    && (cfg.kind == Operant ==> (st.active ==> st.count < cfg.maxRewards))
  }

  /** Every update keeps the limit invariant, for a limit of at least one reward. */
  lemma StepKeepsLimit(cfg: ZoneConfig, st: ZoneState, time: int, pos: real, gpio: nat, draw: real, hasLogger: bool)
    requires cfg.maxRewards >= 1 && LimitInvariant(cfg, st)
    ensures LimitInvariant(cfg, Step(cfg, st, time, pos, gpio, draw, hasLogger).state)
  {
  }

  /** A fresh zone satisfies the limit invariant. */
  lemma InitialWithinLimit(cfg: ZoneConfig)
    requires cfg.maxRewards >= 1
    ensures LimitInvariant(cfg, InitialState(cfg))
  {
  }

  // ---------------------------------------------------------------------------
  // The lick debouncer

  /** The last `L` lick samples of `licks`, oldest first, padded in front with the buffer's initial zeros. */
  function Recent(L: nat, licks: seq<bool>): (r: seq<bool>)
    ensures |r| == L
  {
    if |licks| >= L then licks[|licks| - L..]
    else seq(L - |licks|, i => false) + licks
  }

  /** The slot `k` places after `idx` in a ring of `L` slots. */
  function Slot(idx: nat, k: nat, L: nat): (j: nat)
    requires idx < L && k < L
    ensures j < L
  {
    if idx + k < L then idx + k else idx + k - L
  }

  /** Advancing the index modulo the buffer length steps to the next slot, or back to slot 0. */
  lemma NextSlot(idx: nat, L: nat)
    requires idx < L
    ensures (idx + 1) % L == if idx + 1 < L then idx + 1 else 0
  {
    if idx + 1 < L {
      DivIdent(idx + 1, L, 0, idx + 1);
    } else {
      DivIdent(idx + 1, L, 1, 0);
    }
  }

  /** The ring buffer read from slot `idx` onwards, wrapping round, is `recent`. */
  ghost predicate Rotation(h: seq<bool>, idx: nat, recent: seq<bool>)
  {
    |h| == |recent| && idx < |h| && forall k :: 0 <= k < |h| ==> h[Slot(idx, k, |h|)] == recent[k]
  }

  /** Writing slot `idx` and advancing it rotates in one new sample. */
  lemma RotationStep(h: seq<bool>, idx: nat, recent: seq<bool>, x: bool)
    requires Rotation(h, idx, recent)
    ensures Rotation(h[idx := x], (idx + 1) % |h|, recent[1..] + [x])
  {
    var L := |h|;
    NextSlot(idx, L);
    var next := (idx + 1) % L;
    var h' := h[idx := x];
    var r' := recent[1..] + [x];
    forall k | 0 <= k < L
      ensures h'[Slot(next, k, L)] == r'[k]
    {
      if k < L - 1 {
        assert Slot(next, k, L) == Slot(idx, k + 1, L) != idx;
      } else {
        assert Slot(next, k, L) == idx;
      }
    }
  }

  /** A rotation has a lick in every slot exactly when the samples it holds are all licks. */
  lemma RotationAllLicked(h: seq<bool>, idx: nat, recent: seq<bool>)
    requires Rotation(h, idx, recent)
    ensures AllLicked(h) <==> AllLicked(recent)
  {
    var L := |h|;
    if AllLicked(h) {
      forall k | 0 <= k < L ensures recent[k] {
        assert h[Slot(idx, k, L)] == recent[k];
      }
    }
    if AllLicked(recent) {
      forall j | 0 <= j < L ensures h[j] {
        var k := if j >= idx then j - idx else j + L - idx;
        assert Slot(idx, k, L) == j;
      }
    }
  }

  /** The window of recent samples is all licks exactly when `L` samples have arrived and the last `L` are licks. */
  lemma RecentAllLicked(L: nat, licks: seq<bool>)
    requires L > 0
    ensures AllLicked(Recent(L, licks)) <==> |licks| >= L && forall j :: |licks| - L <= j < |licks| ==> licks[j]
  {
    var r := Recent(L, licks);
    if |licks| < L {
      assert !r[0];
    } else {
      assert forall j :: |licks| - L <= j < |licks| ==> r[j - (|licks| - L)] == licks[j];
    }
  }

  /** The lick buffer and its index after the samples `licks`, starting from zeros at slot 0. */
  function Replay(L: nat, licks: seq<bool>): (r: (seq<bool>, nat))
    requires L > 0
    ensures |r.0| == L && r.1 < L
  {
    if licks == [] then (seq(L, i => false), 0)
    else
      var p := Replay(L, licks[..|licks| - 1]);
      (p.0[p.1 := licks[|licks| - 1]], (p.1 + 1) % L)
  }

  /** The buffer after any samples is the rotation of the last `L` of them. */
  lemma {:induction false} ReplayRotation(L: nat, licks: seq<bool>)
    requires L > 0
    ensures Rotation(Replay(L, licks).0, Replay(L, licks).1, Recent(L, licks))
  {
    if licks == [] {
      assert forall k :: 0 <= k < L ==> Slot(0, k, L) == k;
    } else {
      var init := licks[..|licks| - 1];
      var x := licks[|licks| - 1];
      assert licks == init + [x];
      var p := Replay(L, init);
      assert licks[..|licks| - 1] == init;
      assert Replay(L, licks) == (p.0[p.1 := x], (p.1 + 1) % L);
      ReplayRotation(L, init);
      RotationStep(p.0, p.1, Recent(L, init), x);
      assert Recent(L, licks) == Recent(L, init)[1..] + [x];
    }
  }

  /**
   * The debounced lick after the samples `licks` is true exactly when the buffer
   * has been filled and the last `DebounceLength` samples were all licks.
   */
  lemma DebouncedIsRecentLicks(L: nat, licks: seq<bool>)
    requires L > 0
    ensures AllLicked(Replay(L, licks).0) <==>
              |licks| >= L && forall j :: |licks| - L <= j < |licks| ==> licks[j]
  {
    ReplayRotation(L, licks);
    RotationAllLicked(Replay(L, licks).0, Replay(L, licks).1, Recent(L, licks));
    RecentAllLicked(L, licks);
  }

  /** The zone's own update writes its lick buffer exactly as `Replay` does. */
  lemma OperantStepReplays(cfg: ZoneConfig, st: ZoneState, licks: seq<bool>, time: int, pos: real, gpio: nat,
                           draw: real, hasLogger: bool)
    requires cfg.lickPin >= 1 && cfg.debounceLength > 0
    requires (st.history, st.idx) == Replay(cfg.debounceLength, licks)
    ensures var e := OperantStep(cfg, st, time, pos, gpio, draw, hasLogger);
            (e.state.history, e.state.idx) == Replay(cfg.debounceLength, licks + [TestBit(gpio, cfg.lickPin - 1)])
  {
    var s := licks + [TestBit(gpio, cfg.lickPin - 1)];
    assert s[..|s| - 1] == licks;
  }

  // ---------------------------------------------------------------------------
  // The random assist

  /** A tick's inputs. */
  datatype Tick = Tick(time: int, pos: real, gpio: nat, draw: real)

  /** Successive updates of one zone with a logger, stopping at the first exception. */
  function Run(cfg: ZoneConfig, st: ZoneState, ticks: seq<Tick>): ZoneState
    decreases |ticks|
  {
    if ticks == [] then st
    else
      var e := Step(cfg, st, ticks[0].time, ticks[0].pos, ticks[0].gpio, ticks[0].draw, true);
      if e.error.Some? then e.state else Run(cfg, e.state, ticks[1..])
  }

  /** One update draws at most one number, only on entry, and never with RandomAssist unset or 0.0. */
  lemma DrawOnEntryOnly(cfg: ZoneConfig, st: ZoneState, time: int, pos: real, gpio: nat, draw: real, hasLogger: bool)
    ensures var e := Step(cfg, st, time, pos, gpio, draw, hasLogger);
            (e.state.draws == st.draws || e.state.draws == st.draws + 1)
            && (e.state.draws == st.draws + 1 ==>
                  st.awaiting && AssistOn(cfg.randomAssist) && Inside(cfg.activeZone, pos)
                  && (hasLogger ==> !e.state.awaiting))
  {
  }

  /**
   * While the animal stays in the active zone (with a logger), the random assist
   * is drawn at most once, however many ticks pass.
   */
  lemma {:induction false} OneDrawPerEntry(cfg: ZoneConfig, st: ZoneState, ticks: seq<Tick>)
    requires forall i :: 0 <= i < |ticks| ==> Inside(cfg.activeZone, ticks[i].pos)
    ensures Run(cfg, st, ticks).draws <= st.draws + 1
    ensures !st.awaiting ==> Run(cfg, st, ticks).draws == st.draws
    decreases |ticks|
  {
    if ticks != [] {
      var t := ticks[0];
      var e := Step(cfg, st, t.time, t.pos, t.gpio, t.draw, true);
      DrawOnEntryOnly(cfg, st, t.time, t.pos, t.gpio, t.draw, true);
      ReArmOnlyInResetZone(cfg, st, t.time, t.pos, t.gpio, t.draw, true);
      if e.error.None? {
        OneDrawPerEntry(cfg, e.state, ticks[1..]);
        if e.state.draws == st.draws + 1 {
          assert !e.state.awaiting;
        }
      }
    }
  }

  // ---------------------------------------------------------------------------
  // Construction

  /** A GPIO as the serial interface registers it: its type and its number. */
  datatype GpioInfo = GpioInfo(kind: string, number: int)

  /** A zone's YAML entry; optional keys are Options. */
  datatype Params = Params(kind: string, dispensePin: string, rewardSound: Option<string>, zone: Interval,
                           resetStart: Option<real>, resetEnd: Option<real>, lickTimeout: Option<int>,
                           maxSequentialRewards: Option<int>, pumpRunTime: int, lickPin: string,
                           debounceLength: Option<int>, randomAssist: Option<real>)

  /** Defaults of `params.get`. */
  function Get(o: Option<int>, default: int): int
  {
    if o.Some? then o.value else default
  }

  /**
   * The checks of `RewardZoneController`, `ClassicalRewardZone` and
   * `OperantRewardZone` construction, in order; `beeps` is the sound
   * controller's beep names, absent without a sound controller.
   */
  function BuildZone(p: Params, gpios: map<string, GpioInfo>, beeps: Option<set<string>>): (r: Result<ZoneConfig>)
    ensures r.Ok? ==> r.value.pin == p.dispensePin && r.value.activeZone == p.zone && r.value.pulseLength == p.pumpRunTime
    ensures r.Ok? ==> (r.value.kind == Classical <==> p.kind == "Classical")
    ensures r.Ok? && r.value.resetZone.Some? ==>
              p.resetStart.Some? && p.resetEnd.Some? && r.value.resetZone.value == Interval(p.resetStart.value, p.resetEnd.value)
    ensures r.Ok? && r.value.kind == Operant ==>
              p.lickPin in gpios && r.value.lickPin == gpios[p.lickPin].number
              && r.value.debounceLength == Get(p.debounceLength, 1)
              && r.value.randomAssist == p.randomAssist
  {
    if p.kind != "Classical" && p.kind != "Operant" then Err(NotImplementedError)
    else if p.dispensePin !in gpios || gpios[p.dispensePin].kind != "Output" then Err(ValueError)
    else if p.rewardSound.Some? && beeps.None? then Err(ValueError)
    else if p.resetStart.Some? != p.resetEnd.Some? then Err(ValueError)
    else
      var sound := if p.rewardSound.Some? && p.rewardSound.value in beeps.value then p.rewardSound else None;
      var reset := if p.resetStart.Some? then Some(Interval(p.resetStart.value, p.resetEnd.value)) else None;
      var base := ZoneConfig(Classical, p.dispensePin, sound, p.zone, reset, Get(p.lickTimeout, 0),
                             Get(p.maxSequentialRewards, 1), p.pumpRunTime, 0, 0, None);
      if p.kind == "Classical" then Ok(base)
      else if p.lickPin !in gpios then Err(ValueError)
      else if Get(p.debounceLength, 1) < 0 then Err(ValueError)
      else if p.randomAssist.Some? && !(0.0 <= p.randomAssist.value <= 1.0) then Err(ValueError)
      else Ok(base.(kind := Operant, lickPin := gpios[p.lickPin].number,
                    debounceLength := Get(p.debounceLength, 1), randomAssist := p.randomAssist))
  }

  /**
   * Construction fails for an unknown type, a dispense pin that is not an output
   * GPIO, a reward sound without a sound controller, a half-specified reset
   * zone, and for Operant zones an unknown lick pin, a negative debounce length
   * or a random assist outside [0, 1]; otherwise it applies the defaults
   * LickTimeout 0, MaxSequentialRewards 1 and DebounceLength 1.
   */
  lemma BuildZoneSpec(p: Params, gpios: map<string, GpioInfo>, beeps: Option<set<string>>)
    ensures var r := BuildZone(p, gpios, beeps);
            r.Ok? <==>
              (p.kind == "Classical" || p.kind == "Operant")
              && p.dispensePin in gpios && gpios[p.dispensePin].kind == "Output"
              && (p.rewardSound.Some? ==> beeps.Some?)
              && p.resetStart.Some? == p.resetEnd.Some?
              && (p.kind == "Operant" ==>
                    p.lickPin in gpios && Get(p.debounceLength, 1) >= 0
                    && (p.randomAssist.Some? ==> 0.0 <= p.randomAssist.value <= 1.0))
    ensures var r := BuildZone(p, gpios, beeps);
            r.Ok? ==>
              r.value.refractory == (if p.lickTimeout.Some? then p.lickTimeout.value else 0)
              && r.value.maxRewards == (if p.maxSequentialRewards.Some? then p.maxSequentialRewards.value else 1)
              && (r.value.resetZone.Some? <==> p.resetStart.Some?)
              && (r.value.sound.Some? <==> p.rewardSound.Some? && p.rewardSound.value in beeps.value)
    ensures var r := BuildZone(p, gpios, beeps);
            r.Err? ==> r.error == (if p.kind != "Classical" && p.kind != "Operant" then NotImplementedError else ValueError)
  {
  }

  /** The zones of a `RewardZoneList`, built in order; the first failure aborts. */
  function BuildZones(list: seq<(string, Params)>, gpios: map<string, GpioInfo>, beeps: Option<set<string>>)
    : (r: Result<seq<ZoneConfig>>)
    ensures r.Ok? ==> |r.value| == |list|
    ensures r.Ok? ==> forall i :: 0 <= i < |list| ==> BuildZone(list[i].1, gpios, beeps) == Ok(r.value[i])
  {
    if list == [] then Ok([])
    else
      var z := BuildZone(list[0].1, gpios, beeps);
      if z.Err? then Err(z.error)
      else
        var rest := BuildZones(list[1..], gpios, beeps);
        if rest.Err? then rest else Ok([z.value] + rest.value)
  }

  // ---------------------------------------------------------------------------
  // The zone objects

  /** One zone: its configuration, its counters and flags, and the lick-history buffer. */
  class Zone {
    const cfg: ZoneConfig
    const lickHistory: array<bool>
    var count: int
    var last: int
    var active: bool
    var awaiting: bool
    var idx: nat
    var draws: nat

    function State(): ZoneState
      reads this, lickHistory
    {
      ZoneState(count, last, active, awaiting, lickHistory[..], idx, draws)
    }

    constructor (cfg: ZoneConfig)
      ensures this.cfg == cfg && State() == InitialState(cfg) && fresh(lickHistory)
    {
      this.cfg := cfg;
      lickHistory := new bool[cfg.debounceLength](i => false);
      count, last, active, awaiting, idx, draws := 0, 0, true, true, 0, 0;
    }

    /** `update` of the zone's class, on this tick's inputs. */
    method Update(time: int, pos: real, gpio: nat, draw: real, hasLogger: bool) returns (events: seq<Event>, err: Option<Error>)
      modifies this, lickHistory
      ensures var e := Step(cfg, old(State()), time, pos, gpio, draw, hasLogger);
              State() == e.state && events == e.events && err == e.error
    {
      if cfg.kind == Classical {
        events, err := UpdateClassical(time, pos);
      } else {
        events, err := UpdateOperant(time, pos, gpio, draw, hasLogger);
      }
    }

    method RewardNow(time: int) returns (events: seq<Event>)
      modifies this`last, this`count, this`active
      ensures last == time && count == old(count) + 1
      ensures active == if count >= cfg.maxRewards then false else old(active)
      ensures events == RewardEvents(cfg, time)
    {
      last := time;
      count := count + 1;
      if count >= cfg.maxRewards {
        active := false;
      }
      events := [Pulse(cfg.pin, time + cfg.pulseLength)];
      if cfg.sound.Some? && cfg.sound.value != "" {
        events := events + [Beep(cfg.sound.value, time)];
      }
    }

    method UpdateClassical(time: int, pos: real) returns (events: seq<Event>, err: Option<Error>)
      modifies this`last, this`count, this`active
      ensures var e := ClassicalStep(cfg, old(State()), time, pos);
              State() == e.state && events == e.events && err == e.error
    {
      events, err := [], None;
      if Inside(cfg.activeZone, pos) {
        if time > last + cfg.refractory {
          if count < cfg.maxRewards {
            events := RewardNow(time);
          }
        }
      } else if cfg.resetZone.None? {
        err := Some(AttributeError);
      } else if Inside(cfg.resetZone.value, pos) && !active {
        count := 0;
        active := true;
      }
    }

    method UpdateOperant(time: int, pos: real, gpio: nat, draw: real, hasLogger: bool)
      returns (events: seq<Event>, err: Option<Error>)
      modifies this, lickHistory
      ensures var e := OperantStep(cfg, old(State()), time, pos, gpio, draw, hasLogger);
              State() == e.state && events == e.events && err == e.error
    {
      if cfg.lickPin < 1 {
        return [], Some(ValueError);
      }
      if lickHistory.Length == 0 || idx >= lickHistory.Length {
        return [], Some(IndexError);
      }
      var mouseLicked := TestBit(gpio, cfg.lickPin - 1);
      lickHistory[idx] := mouseLicked;
      idx := (idx + 1) % lickHistory.Length;
      assert State() == RecordLick(old(State()), mouseLicked);
      var debounced := AllLickedNow();
      if Inside(cfg.activeZone, pos) {
        events, err := UpdateInZone(time, pos, gpio, draw, hasLogger, mouseLicked, debounced);
      } else {
        events, err := UpdateOutside(pos);
      }
    }

    /** The active-zone branch of `OperantRewardZone.update`; `debounced` is the product of the lick buffer. */
    method UpdateInZone(time: int, pos: real, gpio: nat, draw: real, hasLogger: bool, mouseLicked: bool, debounced: bool)
      returns (events: seq<Event>, err: Option<Error>)
      requires debounced == AllLicked(lickHistory[..])
      modifies this`last, this`count, this`active, this`awaiting, this`draws
      ensures var e := OperantInZone(cfg, old(State()), time, pos, gpio, draw, hasLogger, mouseLicked);
              State() == e.state && events == e.events && err == e.error
    {
      events, err := [], None;
      var doRandom := false;
      if awaiting {
        if AssistOn(cfg.randomAssist) {
          draws := draws + 1;
          if draw < cfg.randomAssist.value {
            doRandom := true;
          }
        }
        if !hasLogger {
          return [], Some(TypeError);
        }
        events := [Entered(time, pos, gpio, doRandom)];
        awaiting := false;
      }
      if time > last + cfg.refractory {
        if active {
          if debounced || doRandom {
            var rewardEvents := RewardNow(time);
            events := events + rewardEvents;
            if hasLogger {
              events := events + [Rewarded(time, pos, gpio, doRandom, mouseLicked)];
            }
          }
        }
      }
    }

    /** The branch of `OperantRewardZone.update` outside the active zone. */
    method UpdateOutside(pos: real) returns (events: seq<Event>, err: Option<Error>)
      modifies this`count, this`active, this`awaiting
      ensures var e := OperantOutside(cfg, old(State()), pos);
              State() == e.state && events == e.events && err == e.error
    {
      events, err := [], None;
      if cfg.resetZone.None? {
        err := Some(AttributeError);
      } else if Inside(cfg.resetZone.value, pos) {
        awaiting := true;
        if !active {
          count := 0;
          active := true;
        }
      }
    }

    /** `np.prod(self.lick_history)`: scan the buffer for a slot without a lick. */
    method AllLickedNow() returns (b: bool)
      ensures b == AllLicked(lickHistory[..])
    {
      b := true;
      for k := 0 to lickHistory.Length
        invariant b == AllLicked(lickHistory[..k])
      {
        b := b && lickHistory[k];
      }
      assert lickHistory[..lickHistory.Length] == lickHistory[..];
    }
  }

  /**
   * One pass of `update_reward_zones` over the first `k` zones: each zone updates
   * in turn on its own state and its own random draw, and the first exception
   * stops the pass.
   */
  function UpdatePrefix(cfgs: seq<ZoneConfig>, sts: seq<ZoneState>, time: int, pos: real, gpio: nat, draws: seq<real>,
                        hasLogger: bool, k: nat): (r: (seq<ZoneState>, seq<Event>, Option<Error>))
    requires |cfgs| == |sts| == |draws| && k <= |cfgs|
    ensures |r.0| == |sts|
  {
    if k == 0 then (sts, [], None)
    else
      var p := UpdatePrefix(cfgs, sts, time, pos, gpio, draws, hasLogger, k - 1);
      if p.2.Some? then p
      else
        var e := Step(cfgs[k - 1], p.0[k - 1], time, pos, gpio, draws[k - 1], hasLogger);
        (p.0[k - 1 := e.state], p.1 + e.events, e.error)
  }

  /** Each zone's own update on this tick, from the state it had before the pass. */
  function Effects(cfgs: seq<ZoneConfig>, sts: seq<ZoneState>, time: int, pos: real, gpio: nat, draws: seq<real>,
                   hasLogger: bool): (r: seq<Effect>)
    requires |cfgs| == |sts| == |draws|
    ensures |r| == |cfgs|
  {
    seq(|cfgs|, i requires 0 <= i < |cfgs| => Step(cfgs[i], sts[i], time, pos, gpio, draws[i], hasLogger))
  }

  /** The first `k` effects applied in order, each to its own zone, stopping at the first exception. */
  function ApplyEffects(effs: seq<Effect>, sts: seq<ZoneState>, k: nat): (r: (seq<ZoneState>, seq<Event>, Option<Error>))
    requires |effs| == |sts| && k <= |sts|
    ensures |r.0| == |sts|
  {
    if k == 0 then (sts, [], None)
    else
      var p := ApplyEffects(effs, sts, k - 1);
      if p.2.Some? then p else (p.0[k - 1 := effs[k - 1].state], p.1 + effs[k - 1].events, effs[k - 1].error)
  }

  /** Zone `k`'s effect depends on zone `k`'s state alone. */
  lemma EffectsAgree(cfgs: seq<ZoneConfig>, a: seq<ZoneState>, b: seq<ZoneState>, time: int, pos: real, gpio: nat,
                     draws: seq<real>, hasLogger: bool, k: nat)
    requires |cfgs| == |a| == |b| == |draws| && k < |cfgs| && a[k] == b[k]
    ensures Effects(cfgs, a, time, pos, gpio, draws, hasLogger)[k] == Effects(cfgs, b, time, pos, gpio, draws, hasLogger)[k]
  {
  }

  /**
   * Zones do not interact: the sequential pass, each zone updating the state the
   * earlier zones left behind, is the same as applying every zone's own update to
   * the state it started the pass in; zones not yet reached are untouched.
   */
  lemma {:induction false} ZonesIndependent(cfgs: seq<ZoneConfig>, sts: seq<ZoneState>, time: int, pos: real, gpio: nat,
                                            draws: seq<real>, hasLogger: bool, k: nat)
    requires |cfgs| == |sts| == |draws| && k <= |cfgs|
    ensures UpdatePrefix(cfgs, sts, time, pos, gpio, draws, hasLogger, k)
            == ApplyEffects(Effects(cfgs, sts, time, pos, gpio, draws, hasLogger), sts, k)
    ensures forall i :: k <= i < |sts| ==> UpdatePrefix(cfgs, sts, time, pos, gpio, draws, hasLogger, k).0[i] == sts[i]
  {
    if k > 0 {
      ZonesIndependent(cfgs, sts, time, pos, gpio, draws, hasLogger, k - 1);
    }
  }

  /** After an exception the rest of the pass is skipped. */
  lemma {:induction false} ApplyEffectsStops(effs: seq<Effect>, sts: seq<ZoneState>, k: nat, n: nat)
    requires |effs| == |sts| && k <= n <= |sts|
    requires ApplyEffects(effs, sts, k).2.Some?
    ensures ApplyEffects(effs, sts, n) == ApplyEffects(effs, sts, k)
  {
    if n > k {
      ApplyEffectsStops(effs, sts, k, n - 1);
    }
  }

  /** Zones the pass has not reached keep their states. */
  lemma {:induction false} ApplyEffectsUntouched(effs: seq<Effect>, sts: seq<ZoneState>, k: nat)
    requires |effs| == |sts| && k <= |sts|
    ensures forall i :: k <= i < |sts| ==> ApplyEffects(effs, sts, k).0[i] == sts[i]
  {
    if k > 0 {
      ApplyEffectsUntouched(effs, sts, k - 1);
    }
  }

  /** `RewardZoneController`: the zones in the order of `RewardZoneList`. */
  class Controller {
    const zones: seq<Zone>

    /** Each zone is its own object with its own lick buffer. */
    ghost predicate Valid()
    {
      forall i, j :: 0 <= i < j < |zones| ==> zones[i] != zones[j] && zones[i].lickHistory != zones[j].lickHistory
    }

    function Configs(): seq<ZoneConfig>
    {
      seq(|zones|, i requires 0 <= i < |zones| => zones[i].cfg)
    }

    function States(): seq<ZoneState>
      reads set z | z in zones, set z | z in zones :: z.lickHistory
    {
      seq(|zones|, i requires 0 <= i < |zones| reads (set z | z in zones), (set z | z in zones :: z.lickHistory) =>
                     zones[i].State())
    }

    constructor (cfgs: seq<ZoneConfig>)
      ensures Valid() && Configs() == cfgs && States() == seq(|cfgs|, i requires 0 <= i < |cfgs| => InitialState(cfgs[i]))
    {
      var zs: seq<Zone> := [];
      for k := 0 to |cfgs|
        invariant |zs| == k
        invariant forall i :: 0 <= i < k ==> fresh(zs[i]) && fresh(zs[i].lickHistory)
        invariant forall i :: 0 <= i < k ==> zs[i].cfg == cfgs[i] && zs[i].State() == InitialState(cfgs[i])
        invariant forall i, j :: 0 <= i < j < k ==> zs[i] != zs[j] && zs[i].lickHistory != zs[j].lickHistory
      {
        var z := new Zone(cfgs[k]);
        zs := zs + [z];
      }
      zones := zs;
    }

    /** Update zone `k` alone; every other zone keeps its state. */
    method UpdateZone(k: nat, time: int, pos: real, gpio: nat, draws: seq<real>, hasLogger: bool)
      returns (events: seq<Event>, err: Option<Error>)
      requires Valid() && k < |zones| == |draws|
      modifies zones[k], zones[k].lickHistory
      ensures var e := Effects(Configs(), old(States()), time, pos, gpio, draws, hasLogger)[k];
              States() == old(States())[k := e.state] && events == e.events && err == e.error
    {
      ghost var before := States();
      var z := zones[k];
      events, err := z.Update(time, pos, gpio, draws[k], hasLogger);
      forall j | 0 <= j < |zones| && j != k
        ensures zones[j].State() == before[j]
      {
        assert zones[j] != z && zones[j].lickHistory != z.lickHistory by {
          if j < k { assert Valid(); } else { assert Valid(); }
        }
      }
      assert States() == before[k := z.State()];
    }

    /** `update_reward_zones`: update every zone in order; `draws[i]` is the draw zone `i` would take. */
    method UpdateAll(time: int, pos: real, gpio: nat, draws: seq<real>, hasLogger: bool)
      returns (events: seq<Event>, err: Option<Error>)
      requires Valid() && |draws| == |zones|
      modifies set z | z in zones, set z | z in zones :: z.lickHistory
      ensures (States(), events, err) == UpdatePrefix(Configs(), old(States()), time, pos, gpio, draws, hasLogger, |zones|)
    {
      ghost var sts0 := States();
      ghost var effs := Effects(Configs(), sts0, time, pos, gpio, draws, hasLogger);
      events, err := [], None;
      var k := 0;
      while k < |zones|
        invariant k <= |zones|
        invariant err.None?
        invariant (States(), events, err) == ApplyEffects(effs, sts0, k)
      {
        ApplyEffectsUntouched(effs, sts0, k);
        EffectsAgree(Configs(), States(), sts0, time, pos, gpio, draws, hasLogger, k);
        var ev, e := UpdateZone(k, time, pos, gpio, draws, hasLogger);
        events := events + ev;
        err := e;
        k := k + 1;
        if err.Some? {
          ApplyEffectsStops(effs, sts0, k, |zones|);
          break;
        }
      }
      ZonesIndependent(Configs(), sts0, time, pos, gpio, draws, hasLogger, |zones|);
    }
  }
}
