/**
 * The older reward zones (ClientSide/treadmillio/rewardzone.py). They share the
 * zone geometry, the YAML entry and the events with the newer version, but the
 * reset zone only sets `active` (which nothing reads), the count is never reset,
 * an Operant zone pays on the raw lick bit of the same tick, LickTimeout and
 * MaxSequentialRewards are required, and Classical zones set `type` while the
 * controller reads `Type`.
 */
module LegacyRewardZone {
  import opened Common
  import opened Bytes
  import opened RewardZone

  /** A configured older zone. */
  datatype LegacyConfig = LegacyConfig(kind: Kind, pin: string, sound: Option<string>, activeZone: Interval,
                                       resetZone: Option<Interval>, refractory: int, maxRewards: int,
                                       pulseLength: int, lickPin: int)

  /** The zone's counters: rewards so far, time of the last one, and the `active` flag. */
  datatype LegacyState = LegacyState(count: int, last: int, active: bool)

  /** One update: new state, events, and the exception raised, if any. */
  datatype LegacyEffect = LegacyEffect(state: LegacyState, events: seq<Event>, error: Option<Error>)

  const LEGACY_INITIAL := LegacyState(0, 0, true)

  /** The events of one reward: the pulse, then the beep when a reward sound is configured. */
  function LegacyRewardEvents(cfg: LegacyConfig, time: int): seq<Event>
  {
    [Pulse(cfg.pin, time + cfg.pulseLength)]
    + (if cfg.sound.Some? && cfg.sound.value != "" then [Beep(cfg.sound.value, time)] else [])
  }

  /** Record a reward at `time`, clearing `active` at the limit. */
  function LegacyReward(cfg: LegacyConfig, st: LegacyState, time: int): LegacyState
  {
    var c := st.count + 1;
    st.(last := time, count := c, active := if c >= cfg.maxRewards then false else st.active)
  }

  /** Outside the active zone: the reset zone sets `active` and nothing else. */
  function LegacyOutside(cfg: LegacyConfig, st: LegacyState, pos: real): (e: LegacyEffect)
    ensures e.events == []
    ensures e.error.Some? <==> cfg.resetZone.None?
    ensures e.state.count == st.count && e.state.last == st.last
    ensures e.error.None? ==> (e.state.active <==> st.active || Inside(cfg.resetZone.value, pos))
  {
    if cfg.resetZone.None? then LegacyEffect(st, [], Some(AttributeError))
    else if Inside(cfg.resetZone.value, pos) then LegacyEffect(st.(active := true), [], None)
    else LegacyEffect(st, [], None)
  }

  /** `ClassicalRewardZone.update(time, pos)` of the older version. */
  function LegacyClassicalStep(cfg: LegacyConfig, st: LegacyState, time: int, pos: real): (e: LegacyEffect)
    ensures e.error.Some? <==> !Inside(cfg.activeZone, pos) && cfg.resetZone.None?
    ensures e.state.count == st.count
            || (e.state.count == st.count + 1 && st.count < cfg.maxRewards
                && e.state.last == time && time > st.last + cfg.refractory)
  {
    if Inside(cfg.activeZone, pos) then
      if time > st.last + cfg.refractory && st.count < cfg.maxRewards then
        LegacyEffect(LegacyReward(cfg, st, time), LegacyRewardEvents(cfg, time), None)
      else LegacyEffect(st, [], None)
    else LegacyOutside(cfg, st, pos)
  }

  /**
   * `OperantRewardZone.update(time, pos, gpio)` of the older version: the lick
   * bit is read only once the count is below the limit (Python's `and`), and a
   * lick pin below 1 then makes the shift count negative.
   */
  function LegacyOperantStep(cfg: LegacyConfig, st: LegacyState, time: int, pos: real, gpio: nat): (e: LegacyEffect)
    ensures e.error == Some(ValueError) <==>
              Inside(cfg.activeZone, pos) && time > st.last + cfg.refractory && st.count < cfg.maxRewards && cfg.lickPin < 1
    ensures e.error == Some(AttributeError) <==> !Inside(cfg.activeZone, pos) && cfg.resetZone.None?
    ensures e.state.count == st.count
            || (e.state.count == st.count + 1 && st.count < cfg.maxRewards
                && e.state.last == time && time > st.last + cfg.refractory)
    ensures e.events != [] ==> cfg.lickPin >= 1 && TestBit(gpio, cfg.lickPin - 1)
  {
    if Inside(cfg.activeZone, pos) then
      if time > st.last + cfg.refractory && st.count < cfg.maxRewards then
        if cfg.lickPin < 1 then LegacyEffect(st, [], Some(ValueError))
        else if TestBit(gpio, cfg.lickPin - 1) then
          LegacyEffect(LegacyReward(cfg, st, time), LegacyRewardEvents(cfg, time), None)
        else LegacyEffect(st, [], None)
      else LegacyEffect(st, [], None)
    else LegacyOutside(cfg, st, pos)
  }

  /** A zone's own `update`, Classical or Operant. */
  function LegacyStep(cfg: LegacyConfig, st: LegacyState, time: int, pos: real, gpio: nat): (e: LegacyEffect)
    ensures e.state.count == st.count
            || (e.state.count == st.count + 1 && st.count < cfg.maxRewards
                && e.state.last == time && time > st.last + cfg.refractory)
    ensures e.events != [] ==> e.events[0] == Pulse(cfg.pin, time + cfg.pulseLength) && e.state.count == st.count + 1
  {
    match cfg.kind
    case Classical => LegacyClassicalStep(cfg, st, time, pos)
    case Operant => LegacyOperantStep(cfg, st, time, pos, gpio)
  }

  /**
   * The older `update_reward_zones` step for one zone: it reads `reward.Type`,
   * which only Operant zones set, so a Classical zone raises AttributeError.
   */
  function LegacyDispatch(cfg: LegacyConfig, st: LegacyState, time: int, pos: real, gpio: nat): (e: LegacyEffect)
    ensures cfg.kind == Classical ==> e.error == Some(AttributeError) && e.state == st && e.events == []
    ensures e.events != [] ==> cfg.kind == Operant && e.state.count == st.count + 1 && e.state.last == time
  {
    if cfg.kind == Classical then LegacyEffect(st, [], Some(AttributeError))
    else LegacyStep(cfg, st, time, pos, gpio)
  }

  // ---------------------------------------------------------------------------
  // Properties of one update

  /**
   * A Classical zone pays exactly when the animal is inside it, the refractory
   * period has passed and the count is below MaxSequentialRewards; paying
   * records the time, counts the reward and pulses until `time + PumpRunTime`.
   */
  lemma LegacyClassicalRule(cfg: LegacyConfig, st: LegacyState, time: int, pos: real)
    ensures var e := LegacyClassicalStep(cfg, st, time, pos);
            (e.events != []) <==>
              Inside(cfg.activeZone, pos) && time > st.last + cfg.refractory && st.count < cfg.maxRewards
    ensures var e := LegacyClassicalStep(cfg, st, time, pos);
            e.events != [] ==>
              e.error.None? && e.events[0] == Pulse(cfg.pin, time + cfg.pulseLength)
              && e.state.last == time && e.state.count == st.count + 1
  {
  }

  /**
   * An Operant zone pays exactly when a Classical zone would and, in addition,
   * the lick pin's bit is set in this tick's GPIO byte; no debouncing.
   */
  lemma LegacyOperantRule(cfg: LegacyConfig, st: LegacyState, time: int, pos: real, gpio: nat)
    requires cfg.lickPin >= 1
    ensures var e := LegacyOperantStep(cfg, st, time, pos, gpio);
            (e.events != []) <==>
              Inside(cfg.activeZone, pos) && time > st.last + cfg.refractory && st.count < cfg.maxRewards
              && TestBit(gpio, cfg.lickPin - 1)
    ensures var e := LegacyOperantStep(cfg, st, time, pos, gpio);
            e.events != [] ==> e.state == LegacyReward(cfg, st, time) && e.events[0] == Pulse(cfg.pin, time + cfg.pulseLength)
  {
  }

  /**
   * The count never goes down and grows by at most one per update; outside the
   * active zone only `active` can change, so the reset zone never zeroes the count.
   */
  lemma ResetOnlySetsActive(cfg: LegacyConfig, st: LegacyState, time: int, pos: real, gpio: nat)
    ensures var e := LegacyStep(cfg, st, time, pos, gpio);
            e.state.count == st.count || e.state.count == st.count + 1
    ensures !Inside(cfg.activeZone, pos) ==>
              LegacyStep(cfg, st, time, pos, gpio).state.(active := st.active) == st
  {
  }

  /** `active` is written but never read: two zones differing only in it pay and count alike. */
  lemma ActiveIsIgnored(cfg: LegacyConfig, st: LegacyState, time: int, pos: real, gpio: nat, b: bool)
    ensures var e := LegacyStep(cfg, st, time, pos, gpio);
            var e' := LegacyStep(cfg, st.(active := b), time, pos, gpio);
            e.events == e'.events && e.error == e'.error && e.state.count == e'.state.count
            && e.state.last == e'.state.last
  {
  }

  // ---------------------------------------------------------------------------
  // The lifetime limit

  /** Successive updates of one zone, stopping at the first exception; `ticks` holds (time, pos, gpio). */
  function LegacyRun(cfg: LegacyConfig, st: LegacyState, ticks: seq<(int, real, nat)>): (r: (LegacyState, nat))
    decreases |ticks|
  {
    if ticks == [] then (st, 0)
    else
      var e := LegacyStep(cfg, st, ticks[0].0, ticks[0].1, ticks[0].2);
      if e.error.Some? then (e.state, |Pulses(e.events)|)
      else
        var rest := LegacyRun(cfg, e.state, ticks[1..]);
        (rest.0, |Pulses(e.events)| + rest.1)
  }

  /** The dispense pulses among some events. */
  function Pulses(events: seq<Event>): (r: seq<Event>)
    ensures |r| <= |events|
  {
    if events == [] then []
    else (if events[0].Pulse? then [events[0]] else []) + Pulses(events[1..])
  }

  /** Every reward pulses once and counts once. */
  lemma LegacyPulsesCounted(cfg: LegacyConfig, st: LegacyState, time: int, pos: real, gpio: nat)
    ensures var e := LegacyStep(cfg, st, time, pos, gpio);
            |Pulses(e.events)| == e.state.count - st.count
  {
    var e := LegacyStep(cfg, st, time, pos, gpio);
    if e.events != [] {
      var evs := LegacyRewardEvents(cfg, time);
      assert Pulses(evs) == [evs[0]] by {
        if |evs| == 2 {
          assert Pulses(evs[1..]) == [] by { assert Pulses(evs[2..]) == []; }
        }
      }
    }
  }

  /**
   * Since the count is never reset, a zone starting afresh pays at most
   * MaxSequentialRewards times over any run, however often the animal visits
   * the reset zone.
   */
  lemma {:induction false} LifetimeLimit(cfg: LegacyConfig, st: LegacyState, ticks: seq<(int, real, nat)>)
    requires 0 <= st.count
    ensures LegacyRun(cfg, st, ticks).1 <= if cfg.maxRewards > st.count then cfg.maxRewards - st.count else 0
    decreases |ticks|
  {
    if ticks != [] {
      var e := LegacyStep(cfg, st, ticks[0].0, ticks[0].1, ticks[0].2);
      LegacyPulsesCounted(cfg, st, ticks[0].0, ticks[0].1, ticks[0].2);
      ResetOnlySetsActive(cfg, st, ticks[0].0, ticks[0].1, ticks[0].2);
      if e.error.None? {
        LifetimeLimit(cfg, e.state, ticks[1..]);
        if e.state.count == st.count + 1 {
          assert st.count < cfg.maxRewards;
        }
      } else {
        assert e.events == [];
      }
    }
  }

  // ---------------------------------------------------------------------------
  // Construction

  /**
   * The older constructors' checks, in order: type, dispense pin, reward sound,
   * reset zone, then the required LickTimeout and MaxSequentialRewards, and for
   * Operant zones the lick pin. No debounce length and no random assist.
   */
  function BuildLegacyZone(p: Params, gpios: map<string, GpioInfo>, beeps: Option<set<string>>): (r: Result<LegacyConfig>)
    ensures r.Ok? ==> r.value.pin == p.dispensePin && r.value.activeZone == p.zone && r.value.pulseLength == p.pumpRunTime
    ensures r.Ok? ==> (r.value.kind == Classical <==> p.kind == "Classical")
    ensures r.Ok? && r.value.kind == Operant ==> p.lickPin in gpios && r.value.lickPin == gpios[p.lickPin].number
    ensures r.Ok? && p.kind == "Classical" ==>
              var z := BuildZone(p, gpios, beeps);
              z.Ok? && z.value.refractory == r.value.refractory && z.value.maxRewards == r.value.maxRewards
              && z.value.sound == r.value.sound && z.value.resetZone == r.value.resetZone
  {
    if p.kind != "Classical" && p.kind != "Operant" then Err(NotImplementedError)
    else if p.dispensePin !in gpios || gpios[p.dispensePin].kind != "Output" then Err(ValueError)
    else if p.rewardSound.Some? && beeps.None? then Err(ValueError)
    else if p.resetStart.Some? != p.resetEnd.Some? then Err(ValueError)
    else if p.lickTimeout.None? || p.maxSequentialRewards.None? then Err(KeyError)
    else
      var sound := if p.rewardSound.Some? && p.rewardSound.value in beeps.value then p.rewardSound else None;
      var reset := if p.resetStart.Some? then Some(Interval(p.resetStart.value, p.resetEnd.value)) else None;
      var base := LegacyConfig(Classical, p.dispensePin, sound, p.zone, reset, p.lickTimeout.value,
                               p.maxSequentialRewards.value, p.pumpRunTime, 0);
      if p.kind == "Classical" then Ok(base)
      else if p.lickPin !in gpios then Err(ValueError)
      else Ok(base.(kind := Operant, lickPin := gpios[p.lickPin].number))
  }

  /**
   * Construction succeeds exactly when the type is known, the dispense pin is an
   * output, a reward sound has a sound controller, the reset zone is given whole,
   * LickTimeout and MaxSequentialRewards are present and an Operant lick pin is
   * a known GPIO; a missing required key is a KeyError.
   */
  lemma BuildLegacyZoneSpec(p: Params, gpios: map<string, GpioInfo>, beeps: Option<set<string>>)
    ensures var r := BuildLegacyZone(p, gpios, beeps);
            r.Ok? <==>
              (p.kind == "Classical" || p.kind == "Operant")
              && p.dispensePin in gpios && gpios[p.dispensePin].kind == "Output"
              && (p.rewardSound.Some? ==> beeps.Some?)
              && p.resetStart.Some? == p.resetEnd.Some?
              && p.lickTimeout.Some? && p.maxSequentialRewards.Some?
              && (p.kind == "Operant" ==> p.lickPin in gpios)
    ensures var r := BuildLegacyZone(p, gpios, beeps);
            r.Ok? ==> r.value.refractory == p.lickTimeout.value && r.value.maxRewards == p.maxSequentialRewards.value
    ensures var r := BuildLegacyZone(p, gpios, beeps);
            r.Err? && r.error == KeyError ==> p.lickTimeout.None? || p.maxSequentialRewards.None?
  {
  }

  /**
   * The same entry may build in one version and not the other: the older one
   * needs LickTimeout and MaxSequentialRewards, the newer one rejects a negative
   * DebounceLength or a RandomAssist outside [0, 1].
   */
  lemma VersionsDisagree(p: Params, gpios: map<string, GpioInfo>)
    requires p.kind == "Classical" && p.dispensePin in gpios && gpios[p.dispensePin].kind == "Output"
    requires p.rewardSound.None? && p.resetStart.None? && p.resetEnd.None?
    ensures p.lickTimeout.None? ==> BuildLegacyZone(p, gpios, None) == Err(KeyError) && BuildZone(p, gpios, None).Ok?
    ensures p.lickTimeout.Some? && p.maxSequentialRewards.Some? ==>
              BuildLegacyZone(p, gpios, None).Ok? && BuildZone(p, gpios, None).Ok?
  {
  }

  // ---------------------------------------------------------------------------
  // The zone objects

  /** One older zone: its configuration and its three counters. */
  class LegacyZone {
    const cfg: LegacyConfig
    var count: int
    var last: int
    var active: bool

    function State(): LegacyState
      reads this
    {
      LegacyState(count, last, active)
    }

    constructor (cfg: LegacyConfig)
      ensures this.cfg == cfg && State() == LEGACY_INITIAL
    {
      this.cfg := cfg;
      count, last, active := 0, 0, true;
    }

    /** Count a reward at `time` and report its events. */
    method Pay(time: int) returns (events: seq<Event>)
      modifies this
      ensures State() == LegacyReward(cfg, old(State()), time) && events == LegacyRewardEvents(cfg, time)
    {
      last := time;
      count := count + 1;
      if count >= cfg.maxRewards {
        active := false;
      }
      events := [Pulse(cfg.pin, time + cfg.pulseLength)];
      if cfg.sound.Some? && cfg.sound.value != "" {
        events := events + [Beep(cfg.sound.value, time)];
      }
    }

    /** `elif self.reset_zone:` and what follows. */
    method Outside(pos: real) returns (err: Option<Error>)
      modifies this
      ensures var e := LegacyOutside(cfg, old(State()), pos); State() == e.state && err == e.error
    {
      err := None;
      if cfg.resetZone.None? {
        err := Some(AttributeError);
      } else if Inside(cfg.resetZone.value, pos) {
        active := true;
      }
    }

    /** `ClassicalRewardZone.update` of the older version. */
    method UpdateClassical(time: int, pos: real) returns (events: seq<Event>, err: Option<Error>)
      modifies this
      ensures var e := LegacyClassicalStep(cfg, old(State()), time, pos);
              State() == e.state && events == e.events && err == e.error
    {
      events, err := [], None;
      if Inside(cfg.activeZone, pos) {
        if time > last + cfg.refractory {
          if count < cfg.maxRewards {
            events := Pay(time);
          }
        }
      } else {
        err := Outside(pos);
      }
    }

    /** `OperantRewardZone.update` of the older version. */
    method UpdateOperant(time: int, pos: real, gpio: nat) returns (events: seq<Event>, err: Option<Error>)
      modifies this
      ensures var e := LegacyOperantStep(cfg, old(State()), time, pos, gpio);
              State() == e.state && events == e.events && err == e.error
    {
      events, err := [], None;
      if Inside(cfg.activeZone, pos) {
        if time > last + cfg.refractory {
          if count < cfg.maxRewards {
            if cfg.lickPin < 1 {
              return [], Some(ValueError);
            }
            if TestBit(gpio, cfg.lickPin - 1) {
              events := Pay(time);
            }
          }
        }
      } else {
        err := Outside(pos);
      }
    }
  }

  /** The older `RewardZoneController`, whose pass stops at the first Classical zone. */
  class LegacyController {
    const zones: seq<LegacyZone>

    ghost predicate Valid()
    {
      forall i, j :: 0 <= i < j < |zones| ==> zones[i] != zones[j]
    }

    function Configs(): seq<LegacyConfig>
    {
      seq(|zones|, i requires 0 <= i < |zones| => zones[i].cfg)
    }

    function States(): seq<LegacyState>
      reads set z | z in zones
    {
      seq(|zones|, i requires 0 <= i < |zones| reads set z | z in zones => zones[i].State())
    }

    constructor (cfgs: seq<LegacyConfig>)
      ensures Valid() && Configs() == cfgs && States() == seq(|cfgs|, i => LEGACY_INITIAL)
    {
      var zs: seq<LegacyZone> := [];
      for k := 0 to |cfgs|
        invariant |zs| == k
        invariant forall i :: 0 <= i < k ==> fresh(zs[i]) && zs[i].cfg == cfgs[i] && zs[i].State() == LEGACY_INITIAL
        invariant forall i, j :: 0 <= i < j < k ==> zs[i] != zs[j]
      {
        var z := new LegacyZone(cfgs[k]);
        zs := zs + [z];
      }
      zones := zs;
    }

    /** The older `update_reward_zones`: each zone in order, stopping at the first exception. */
    method UpdateAll(time: int, pos: real, gpio: nat) returns (events: seq<Event>, err: Option<Error>)
      requires Valid()
      modifies set z | z in zones
      ensures (States(), events, err) == LegacyPass(Configs(), old(States()), time, pos, gpio, |zones|)
    {
      ghost var sts0 := States();
      events, err := [], None;
      var k := 0;
      while k < |zones|
        invariant k <= |zones| && err.None?
        invariant (States(), events, err) == LegacyPass(Configs(), sts0, time, pos, gpio, k)
      {
        var ev, e := UpdateZone(k, time, pos, gpio);
        events := events + ev;
        err := e;
        k := k + 1;
        assert (States(), events, err) == LegacyPass(Configs(), sts0, time, pos, gpio, k);
        if err.Some? {
          LegacyPassStops(Configs(), sts0, time, pos, gpio, k, |zones|);
          return;
        }
      }
    }

    /** One zone's turn: `reward.Type` is read, then the Operant update runs. */
    method UpdateZone(k: nat, time: int, pos: real, gpio: nat) returns (events: seq<Event>, err: Option<Error>)
      requires Valid() && k < |zones|
      modifies zones[k]
      ensures var e := LegacyDispatch(Configs()[k], old(States())[k], time, pos, gpio);
              States() == old(States())[k := e.state] && events == e.events && err == e.error
    {
      var z := zones[k];
      if z.cfg.kind == Classical {
        return [], Some(AttributeError);
      }
      ghost var before := States();
      events, err := z.UpdateOperant(time, pos, gpio);
      forall j | 0 <= j < |zones| && j != k
        ensures zones[j].State() == before[j]
      {
        assert zones[j] != z by {
          if j < k { assert Valid(); } else { assert Valid(); }
        }
      }
      assert States() == before[k := z.State()];
    }
  }

  /** The first `k` zones of an older pass, each updating in turn; the first exception stops it. */
  function LegacyPass(cfgs: seq<LegacyConfig>, sts: seq<LegacyState>, time: int, pos: real, gpio: nat, k: nat)
    : (r: (seq<LegacyState>, seq<Event>, Option<Error>))
    requires |cfgs| == |sts| && k <= |cfgs|
    ensures |r.0| == |sts|
  {
    if k == 0 then (sts, [], None)
    else
      var p := LegacyPass(cfgs, sts, time, pos, gpio, k - 1);
      if p.2.Some? then p
      else
        var e := LegacyDispatch(cfgs[k - 1], p.0[k - 1], time, pos, gpio);
        (p.0[k - 1 := e.state], p.1 + e.events, e.error)
  }

  lemma {:induction false} LegacyPassStops(cfgs: seq<LegacyConfig>, sts: seq<LegacyState>, time: int, pos: real,
                                           gpio: nat, k: nat, n: nat)
    requires |cfgs| == |sts| && k <= n <= |cfgs|
    requires LegacyPass(cfgs, sts, time, pos, gpio, k).2.Some?
    ensures LegacyPass(cfgs, sts, time, pos, gpio, n) == LegacyPass(cfgs, sts, time, pos, gpio, k)
  {
    if n > k {
      LegacyPassStops(cfgs, sts, time, pos, gpio, k, n - 1);
    }
  }

  /**
   * A pass completes without an exception only if every zone is Operant: the
   * first Classical zone raises AttributeError, and it and every zone after it
   * keep their states.
   */
  lemma {:induction false} ClassicalZoneStopsPass(cfgs: seq<LegacyConfig>, sts: seq<LegacyState>, time: int, pos: real,
                                                  gpio: nat, k: nat)
    requires |cfgs| == |sts| && k <= |cfgs|
    ensures LegacyPass(cfgs, sts, time, pos, gpio, k).2.None? ==> forall i :: 0 <= i < k ==> cfgs[i].kind == Operant
    ensures forall c :: 0 <= c < k && cfgs[c].kind == Classical ==>
              LegacyPass(cfgs, sts, time, pos, gpio, k).2.Some?
              && LegacyPass(cfgs, sts, time, pos, gpio, k).0[c..] == sts[c..]
  {
    if k > 0 {
      ClassicalZoneStopsPass(cfgs, sts, time, pos, gpio, k - 1);
      var p := LegacyPass(cfgs, sts, time, pos, gpio, k - 1);
      LegacyPassUntouched(cfgs, sts, time, pos, gpio, k - 1);
      forall c | 0 <= c < k && cfgs[c].kind == Classical
        ensures LegacyPass(cfgs, sts, time, pos, gpio, k).2.Some?
        ensures LegacyPass(cfgs, sts, time, pos, gpio, k).0[c..] == sts[c..]
      {
        if c < k - 1 {
          assert LegacyPass(cfgs, sts, time, pos, gpio, k) == p;
        } else if p.2.None? {
          assert p.0[k - 1..] == sts[k - 1..];
        } else {
          assert p.0[k - 1..] == sts[k - 1..];
        }
      }
    }
  }

  /** Zones the pass has not reached keep their states. */
  lemma {:induction false} LegacyPassUntouched(cfgs: seq<LegacyConfig>, sts: seq<LegacyState>, time: int, pos: real,
                                               gpio: nat, k: nat)
    requires |cfgs| == |sts| && k <= |cfgs|
    ensures LegacyPass(cfgs, sts, time, pos, gpio, k).0[k..] == sts[k..]
    ensures LegacyPass(cfgs, sts, time, pos, gpio, k).2.Some? ==>
              LegacyPass(cfgs, sts, time, pos, gpio, k).0[k - 1..] == sts[k - 1..]
  {
    if k > 0 {
      LegacyPassUntouched(cfgs, sts, time, pos, gpio, k - 1);
    }
  }
}
