/**
 * The task-state objects of the behavioural state machine and the builder of
 * the state table (ClientSide/treadmillio/taskstatemachine.py; the state classes
 * also appear, unchanged, in ClientSide/TaskStateMachine.py). A Delay state
 * cycles through pre-drawn delays, a Visualization state through pre-drawn
 * command choices, and Reward and SetGPIO states hand back their configuration.
 * The random draws of numpy are inputs: `samples` are the 50 exponential
 * samples and `choices` the 5000 weighted command indices.
 */
module TaskStates {
  import opened Common
  import opened Bytes

  /** PulseLength of a Reward state without PumpRunTime, in ms. */
  const DEFAULT_PULSE_LENGTH: int := 250

  // ---------------------------------------------------------------------------
  // Delays

  /** `np.rint`: round to the nearest integer, halves to the even neighbour. */
  function Rint(x: real): (n: int)
    ensures x - 0.5 <= n as real <= x + 0.5
  {
    var f := x.Floor;
    var d := x - f as real;
    if d < 0.5 then f else if d > 0.5 then f + 1 else if f % 2 == 0 then f else f + 1
  }

  /** Rounding keeps a value between two integers between them. */
  lemma RintBetween(x: real, a: int, b: int)
    requires a as real <= x <= b as real
    ensures a <= Rint(x) <= b
  {
    var f := x.Floor;
    assert a <= f;
    if x < b as real {
      assert f <= b - 1;
    } else {
      assert f == b;
    }
  }

  /** Rounding an integer gives it back. */
  lemma RintOfInt(n: int)
    ensures Rint(n as real) == n
  {
  }

  /** `delays[delays > delay_max] = delay_max`. */
  function Cap(v: real, max: real): (r: real)
    ensures r <= max && (r == v || r == max)
  {
    if v > max then max else v
  }

  /** Each sample shifted by Min, capped at Max and rounded to an integer. */
  function ExponentialDelays(samples: seq<real>, min: real, max: real): (r: seq<int>)
    ensures |r| == |samples|
  {
    seq(|samples|, i requires 0 <= i < |samples| => Rint(Cap(samples[i] + min, max)))
  }

  /**
   * For integer Min <= Max and the non-negative samples an exponential
   * distribution yields, every delay lies in [Min, Max]; a sample of 0 gives Min
   * and a sample past Max - Min gives Max.
   */
  lemma DelaysInRange(samples: seq<real>, min: real, max: real)
    requires min.Floor as real == min && max.Floor as real == max && min <= max
    requires forall i :: 0 <= i < |samples| ==> samples[i] >= 0.0
    ensures forall i :: 0 <= i < |samples| ==> min.Floor <= ExponentialDelays(samples, min, max)[i] <= max.Floor
    ensures forall i :: 0 <= i < |samples| && samples[i] == 0.0 ==> ExponentialDelays(samples, min, max)[i] == min.Floor
    ensures forall i :: 0 <= i < |samples| && samples[i] >= max - min ==> ExponentialDelays(samples, min, max)[i] == max.Floor
  {
    forall i | 0 <= i < |samples|
      ensures min.Floor <= ExponentialDelays(samples, min, max)[i] <= max.Floor
    {
      RintBetween(Cap(samples[i] + min, max), min.Floor, max.Floor);
    }
    RintOfInt(min.Floor);
    RintOfInt(max.Floor);
  }

  /** A Delay state's parameters: Duration, and Min/Max (Exponential) or Value (Fixed). */
  datatype DelayParams = DelayParams(duration: string, min: real, max: real, value: int)

  /** The delay list of `DelayState.__init__`; any other Duration raises NotImplementedError. */
  function DelayList(p: DelayParams, samples: seq<real>): (r: Result<seq<int>>)
    ensures r.Ok? <==> p.duration == "Exponential" || p.duration == "Fixed"
    ensures r.Err? ==> r.error == NotImplementedError
    ensures r.Ok? && p.duration == "Fixed" ==> r.value == [p.value]
    ensures r.Ok? && p.duration == "Exponential" ==> r.value == ExponentialDelays(samples, p.min, p.max)
  {
    if p.duration == "Exponential" then Ok(ExponentialDelays(samples, p.min, p.max))
    else if p.duration == "Fixed" then Ok([p.value])
    else Err(NotImplementedError)
  }

  /** Advancing a position modulo `L` keeps it equal to the call count modulo `L`. */
  lemma CycleStep(calls: nat, L: nat)
    requires L > 0
    ensures (calls + 1) % L == if calls % L + 1 < L then calls % L + 1 else 0
  {
    var q, r := calls / L, calls % L;
    if r + 1 < L {
      DivIdent(calls + 1, L, q, r + 1);
    } else {
      DivIdent(calls + 1, L, q + 1, 0);
    }
  }

  /** A Delay state: `cycle(self.delays)` as a position in the list. */
  class DelayState {
    const stateLabel: string
    const nextState: string
    const delays: seq<int>
    var position: nat
    /** How many times `getDelay` has been called. */
    ghost var calls: nat

    ghost predicate Valid()
      reads this
    {
      |delays| > 0 && position == calls % |delays|
    }

    constructor (stateLabel: string, nextState: string, delays: seq<int>)
      requires |delays| > 0
      ensures Valid() && calls == 0
      ensures this.stateLabel == stateLabel && this.nextState == nextState && this.delays == delays
    {
      this.stateLabel, this.nextState, this.delays := stateLabel, nextState, delays;
      position, calls := 0, 0;
    }

    /** `getDelay`: the k-th call (from 0) returns `delays[k mod len]`. */
    method GetDelay() returns (d: int)
      requires Valid()
      modifies this
      ensures Valid() && calls == old(calls) + 1
      ensures d == delays[old(calls) % |delays|]
    {
      d := delays[position];
      CycleStep(calls, |delays|);
      position := if position + 1 < |delays| then position + 1 else 0;
      calls := calls + 1;
    }
  }

  /** A Fixed delay returns Value on every call. */
  lemma FixedDelayConstant(p: DelayParams, samples: seq<real>, calls: nat)
    requires p.duration == "Fixed"
    ensures DelayList(p, samples).value[calls % |DelayList(p, samples).value|] == p.value
  {
  }

  // ---------------------------------------------------------------------------
  // Visualization

  /** A Visualization state's parameters: VisType, Command (Fixed), and the Options' (Command, Probability) pairs (Random). */
  datatype VisParams = VisParams(visType: string, command: string, options: seq<(string, real)>)

  /** The configured state: the Fixed command, or the Random commands with the pre-drawn index list. */
  datatype VisBody = VisBody(visType: string, command: string, commands: seq<string>, choices: seq<nat>)

  /** `[p / prob_total for p in self.command_probs]`. */
  function Normalize(ps: seq<real>, total: real): (r: seq<real>)
    requires total != 0.0
    ensures |r| == |ps| && forall i :: 0 <= i < |ps| ==> r[i] == ps[i] / total
  {
    if ps == [] then [] else [ps[0] / total] + Normalize(ps[1..], total)
  }

  lemma {:induction false} SumNormalize(ps: seq<real>, total: real)
    requires total != 0.0
    ensures Sum(Normalize(ps, total)) == Sum(ps) / total
  {
    if ps != [] {
      var n := Normalize(ps, total);
      var rest := Sum(ps[1..]);
      assert Sum(n[1..]) == rest / total by {
        SumNormalize(ps[1..], total);
        assert n[1..] == Normalize(ps[1..], total);
      }
      assert Sum(n) == n[0] + Sum(n[1..]) by { SumDropFirst(n); }
      assert Sum(ps) == ps[0] + rest by { SumDropFirst(ps); }
      DivAdd(ps[0], rest, total);
    }
  }

  lemma DivAdd(x: real, y: real, t: real)
    requires t != 0.0
    ensures x / t + y / t == (x + y) / t
  {
  }

  /** Some entry is negative, which `np.random.choice` refuses. */
  function HasNegative(xs: seq<real>): (b: bool)
    ensures b <==> exists i :: 0 <= i < |xs| && xs[i] < 0.0
  {
    if xs == [] then false else xs[0] < 0.0 || HasNegative(xs[1..])
  }

  function Probabilities(options: seq<(string, real)>): (r: seq<real>)
    ensures |r| == |options| && forall i :: 0 <= i < |options| ==> r[i] == options[i].1
  {
    seq(|options|, i requires 0 <= i < |options| => options[i].1)
  }

  function Commands(options: seq<(string, real)>): (r: seq<string>)
    ensures |r| == |options| && forall i :: 0 <= i < |options| ==> r[i] == options[i].0
  {
    seq(|options|, i requires 0 <= i < |options| => options[i].0)
  }

  /**
   * `VisualizationState.__init__`: a Random state with no options or a negative
   * normalised probability is refused by `np.random.choice` (ValueError), and
   * one whose probabilities total 0 divides by zero.
   */
  function BuildVisualization(p: VisParams, choices: seq<nat>): (r: Result<VisBody>)
    ensures r.Err? ==> p.visType == "Random" && (r.error == ValueError || r.error == ZeroDivisionError)
    ensures r.Ok? ==> r.value.visType == p.visType
    ensures p.visType == "Fixed" ==> r.Ok? && r.value.command == p.command
    ensures r.Ok? && p.visType == "Random" ==> |r.value.commands| == |p.options| > 0 && r.value.choices == choices
  {
    if p.visType == "Fixed" then Ok(VisBody(p.visType, p.command, [], []))
    else if p.visType == "Random" then
      var probs := Probabilities(p.options);
      var total := Sum(probs);
      if |probs| > 0 && total == 0.0 then Err(ZeroDivisionError)
      else if |probs| == 0 then Err(ValueError)
      else if HasNegative(Normalize(probs, total)) then Err(ValueError)
      else Ok(VisBody(p.visType, "", Commands(p.options), choices))
    else Ok(VisBody(p.visType, "", [], []))
  }

  /**
   * A Random state that builds draws from a proper distribution: the
   * normalised probabilities are non-negative and sum to 1, and it keeps the
   * options' commands in order.
   */
  lemma RandomVisualization(p: VisParams, choices: seq<nat>)
    requires p.visType == "Random" && BuildVisualization(p, choices).Ok?
    ensures var probs := Probabilities(p.options);
            var n := Normalize(probs, Sum(probs));
            Sum(probs) != 0.0 && (forall i :: 0 <= i < |n| ==> n[i] >= 0.0) && Sum(n) == 1.0
    ensures BuildVisualization(p, choices).value.commands == Commands(p.options)
  {
    var probs := Probabilities(p.options);
    var total := Sum(probs);
    assert total != 0.0;
    SumNormalize(probs, total);
    TotalOverTotal(total);
  }

  lemma TotalOverTotal(total: real)
    requires total != 0.0
    ensures total / total == 1.0
  {
  }

  /** A Visualization state: `cycle(self.command_choices)` as a position in the index list. */
  class VisualizationState {
    const stateLabel: string
    const nextState: string
    const body: VisBody
    var position: nat
    ghost var calls: nat

    /** A Random state's indices select among its commands, as `np.random.choice` guarantees. */
    ghost predicate Valid()
      reads this
    {
      body.visType == "Random" ==>
        |body.choices| > 0 && position == calls % |body.choices|
        && forall i :: 0 <= i < |body.choices| ==> body.choices[i] < |body.commands|
    }

    constructor (stateLabel: string, nextState: string, body: VisBody)
      requires body.visType == "Random" ==>
                 |body.choices| > 0 && forall i :: 0 <= i < |body.choices| ==> body.choices[i] < |body.commands|
      ensures Valid() && calls == 0 && this.body == body
      ensures this.stateLabel == stateLabel && this.nextState == nextState
    {
      this.stateLabel, this.nextState, this.body := stateLabel, nextState, body;
      position, calls := 0, 0;
    }

    /**
     * `getVisualizationCommand`: Command for a Fixed state; for a Random state the
     * command at the next pre-drawn index; nothing for any other VisType.
     */
    method GetVisualizationCommand() returns (c: Option<string>)
      requires Valid()
      modifies this
      ensures Valid()
      ensures body.visType == "Fixed" ==> c == Some(body.command) && calls == old(calls)
      ensures body.visType == "Random" ==>
                calls == old(calls) + 1 && c == Some(body.commands[body.choices[old(calls) % |body.choices|]])
      ensures body.visType != "Fixed" && body.visType != "Random" ==> c == None && calls == old(calls)
    {
      if body.visType == "Fixed" {
        c := Some(body.command);
      } else if body.visType == "Random" {
        c := Some(body.commands[body.choices[position]]);
        CycleStep(calls, |body.choices|);
        position := if position + 1 < |body.choices| then position + 1 else 0;
        calls := calls + 1;
      } else {
        c := None;
      }
    }
  }

  // ---------------------------------------------------------------------------
  // Reward and SetGPIO states, and the state table

  /** What a configured state holds beyond its stateLabel and successor. */
  datatype Body =
    | DelayBody(delays: seq<int>)
    | SetGpioBody(pin: string, value: int)
    | RewardBody(rewardPin: string, pulseLength: int, rewardSound: Option<string>)
    | VisualizationBody(vis: VisBody)

  /** A state as `create_state_machine` stores it under its name. */
  datatype TaskState = TaskState(stateLabel: string, nextState: string, body: Body)

  /** `rewardValues`: the dispense pin, the pulse length and the reward sound. */
  function RewardValues(s: TaskState): (r: (string, int, Option<string>))
    requires s.body.RewardBody?
    ensures RewardBody(r.0, r.1, r.2) == s.body
  {
    (s.body.rewardPin, s.body.pulseLength, s.body.rewardSound)
  }

  /** `getPinValue`: the configured pin and value. */
  function PinValue(s: TaskState): (r: (string, int))
    requires s.body.SetGpioBody?
    ensures SetGpioBody(r.0, r.1) == s.body
  {
    (s.body.pin, s.body.value)
  }

  /** One entry of the state configuration: Type, NextState, the FirstState flag, the Params, and numpy's draws. */
  datatype StateEntry = StateEntry(kind: string, nextState: string, firstState: bool, delay: DelayParams,
                                   vis: VisParams, pin: string, value: int, dispensePin: string,
                                   pumpRunTime: Option<int>, rewardSound: Option<string>,
                                   samples: seq<real>, choices: seq<nat>)

  /** `RewardState.__init__`: PumpRunTime defaults to 250 ms and RewardSound to None. */
  function RewardBodyOf(e: StateEntry): (b: Body)
  {
    RewardBody(e.dispensePin, if e.pumpRunTime.Some? then e.pumpRunTime.value else DEFAULT_PULSE_LENGTH, e.rewardSound)
  }

  /**
   * The reward triple of a built Reward state is the entry's DispensePin, its
   * PumpRunTime or 250 ms, and its RewardSound or None.
   */
  lemma RewardDefaults(name: string, e: StateEntry)
    ensures var s := TaskState(name, e.nextState, RewardBodyOf(e));
            RewardValues(s).0 == e.dispensePin
            && RewardValues(s).1 == (if e.pumpRunTime.None? then 250 else e.pumpRunTime.value)
            && RewardValues(s).2 == e.rewardSound
  {
  }

  /**
   * The body `create_state_machine` builds for one entry, with its checks: a
   * SetGPIO pin or Reward dispense pin outside `gpioNames` is a ValueError; with
   * sounds enabled a Reward state needs a RewardSound key (KeyError) that is the
   * string 'None' or one of `beepNames` (ValueError); an unknown Type is
   * NotImplementedError.
   */
  function BuildState(name: string, e: StateEntry, gpioNames: seq<string>, beepNames: seq<string>): (r: Result<TaskState>)
    ensures r.Ok? && r.value.body.SetGpioBody? ==> r.value.body.pin in gpioNames
    ensures r.Ok? && r.value.body.RewardBody? ==>
              r.value.body.rewardPin in gpioNames
              && (|beepNames| > 0 ==> r.value.body.rewardSound.Some?
                                      && (r.value.body.rewardSound.value == "None" || r.value.body.rewardSound.value in beepNames))
    ensures r.Err? && r.error == KeyError ==> e.kind == "Reward" && |beepNames| > 0 && e.rewardSound.None?
  {
    if e.kind == "Delay" then
      var d := DelayList(e.delay, e.samples);
      if d.Err? then Err(d.error) else Ok(TaskState(name, e.nextState, DelayBody(d.value)))
    else if e.kind == "SetGPIO" then
      if e.pin !in gpioNames then Err(ValueError)
      else Ok(TaskState(name, e.nextState, SetGpioBody(e.pin, e.value)))
    else if e.kind == "Reward" then
      if e.dispensePin !in gpioNames then Err(ValueError)
      else if |beepNames| > 0 && e.rewardSound.None? then Err(KeyError)
      else if |beepNames| > 0 && e.rewardSound.value != "None" && e.rewardSound.value !in beepNames then Err(ValueError)
      else Ok(TaskState(name, e.nextState, RewardBodyOf(e)))
    else if e.kind == "Visualization" then
      var v := BuildVisualization(e.vis, e.choices);
      if v.Err? then Err(v.error) else Ok(TaskState(name, e.nextState, VisualizationBody(v.value)))
    else Err(NotImplementedError)
  }

  /** A built state carries its name, its successor and a body of its Type. */
  lemma BuildStateKind(name: string, e: StateEntry, gpioNames: seq<string>, beepNames: seq<string>)
    ensures var r := BuildState(name, e, gpioNames, beepNames);
            r.Ok? ==>
              r.value.stateLabel == name && r.value.nextState == e.nextState
              && (r.value.body.DelayBody? <==> e.kind == "Delay")
              && (r.value.body.SetGpioBody? <==> e.kind == "SetGPIO")
              && (r.value.body.RewardBody? <==> e.kind == "Reward")
              && (r.value.body.VisualizationBody? <==> e.kind == "Visualization")
    ensures var r := BuildState(name, e, gpioNames, beepNames);
            e.kind !in {"Delay", "SetGPIO", "Reward", "Visualization"} ==> r == Err(NotImplementedError)
    ensures var r := BuildState(name, e, gpioNames, beepNames);
            e.kind == "Reward" && e.dispensePin in gpioNames && |beepNames| == 0 ==> r.Ok?
  {
  }

  /** Every entry's state as `create_state_machine` would build it, in order. */
  function Built(config: seq<(string, StateEntry)>, gpioNames: seq<string>, beepNames: seq<string>)
    : (r: seq<Result<TaskState>>)
    ensures |r| == |config|
    ensures forall i :: 0 <= i < |config| ==> r[i] == BuildState(config[i].0, config[i].1, gpioNames, beepNames)
  {
    if |config| == 0 then []
    else
      var n := |config| - 1;
      Built(config[..n], gpioNames, beepNames) + [BuildState(config[n].0, config[n].1, gpioNames, beepNames)]
  }

  /**
   * The table and the FirstState candidate after the first `k` entries, whose
   * built states are `built`, or the first failure. The FirstState flag is read
   * before the entry is built.
   */
  function MachinePrefix(config: seq<(string, StateEntry)>, built: seq<Result<TaskState>>, k: nat)
    : (r: Result<(map<string, TaskState>, Option<string>)>)
    requires |built| == |config| && k <= |config|
    ensures r.Ok? ==> |r.value.0| <= k
  {
    if k == 0 then Ok((map[], None))
    else
      var p := MachinePrefix(config, built, k - 1);
      if p.Err? then p
      else
        var (name, e) := config[k - 1];
        var first := if e.firstState then Some(name) else p.value.1;
        if built[k - 1].Err? then Err(built[k - 1].error) else Ok((p.value.0[name := built[k - 1].value], first))
  }

  /** `create_state_machine`'s result: the table and the first state; an empty configuration raises IndexError. */
  function StateMachine(config: seq<(string, StateEntry)>, gpioNames: seq<string>, beepNames: seq<string>)
    : (r: Result<(map<string, TaskState>, string)>)
    ensures r.Ok? ==> |config| > 0 && r.value.1 in r.value.0
  {
    var built := Built(config, gpioNames, beepNames);
    var p := MachinePrefix(config, built, |config|);
    MachinePrefixKeys(config, built, |config|);
    MachinePrefixFirst(config, built, |config|);
    assert config[..|config|] == config;
    if p.Err? then Err(p.error)
    else if p.value.1.Some? then Ok((p.value.0, p.value.1.value))
    else if |config| == 0 then Err(IndexError)
    else Ok((p.value.0, config[0].0))
  }

  /** Whether every entry of the prefix builds. */
  ghost predicate AllBuild(built: seq<Result<TaskState>>, k: nat)
    requires k <= |built|
  {
    forall i :: 0 <= i < k ==> built[i].Ok?
  }

  /** The prefix builds exactly when each of its entries does; a failure is the first failing entry's error. */
  lemma {:induction false} MachinePrefixOk(config: seq<(string, StateEntry)>, built: seq<Result<TaskState>>, k: nat)
    requires |built| == |config| && k <= |config|
    ensures MachinePrefix(config, built, k).Ok? <==> AllBuild(built, k)
    ensures var r := MachinePrefix(config, built, k);
            r.Err? ==> exists i :: 0 <= i < k && built[i] == Err(r.error) && AllBuild(built, i)
  {
    if k > 0 {
      MachinePrefixOk(config, built, k - 1);
      if MachinePrefix(config, built, k - 1).Ok? {
        assert AllBuild(built, k - 1);
      }
    }
  }

  lemma NamesSnoc(config: seq<(string, StateEntry)>, k: nat)
    requires 0 < k <= |config|
    ensures Names(config[..k]) == Names(config[..k - 1]) + {config[k - 1].0}
  {
    assert config[..k][..k - 1] == config[..k - 1];
  }

  /** A prefix that builds maps exactly the names seen so far. */
  lemma {:induction false} MachinePrefixKeys(config: seq<(string, StateEntry)>, built: seq<Result<TaskState>>, k: nat)
    requires |built| == |config| && k <= |config|
    ensures var r := MachinePrefix(config, built, k);
            r.Ok? ==> r.value.0.Keys == Names(config[..k])
  {
    if k > 0 && MachinePrefix(config, built, k).Ok? {
      MachinePrefixKeys(config, built, k - 1);
      NamesSnoc(config, k);
    }
  }

  /** With distinct names, a prefix that builds maps each name to the state built from its own entry. */
  lemma {:induction false} MachinePrefixTable(config: seq<(string, StateEntry)>, built: seq<Result<TaskState>>, k: nat)
    requires |built| == |config| && k <= |config| && DistinctNames(config)
    ensures var r := MachinePrefix(config, built, k);
            r.Ok? ==> forall i :: 0 <= i < k ==> built[i].Ok? && config[i].0 in r.value.0 && r.value.0[config[i].0] == built[i].value
  {
    if k > 0 && MachinePrefix(config, built, k).Ok? {
      MachinePrefixTable(config, built, k - 1);
      var t := MachinePrefix(config, built, k).value.0;
      forall i | 0 <= i < k - 1 ensures config[i].0 in t && t[config[i].0] == built[i].value {
        assert config[i].0 != config[k - 1].0;
      }
    }
  }

  /** A prefix that builds has as candidate the last flagged name, and none when nothing is flagged. */
  lemma {:induction false} MachinePrefixFirst(config: seq<(string, StateEntry)>, built: seq<Result<TaskState>>, k: nat)
    requires |built| == |config| && k <= |config|
    ensures var r := MachinePrefix(config, built, k);
            r.Ok? ==>
              (r.value.1.None? <==> forall i :: 0 <= i < k ==> !config[i].1.firstState)
              && (r.value.1.Some? ==>
                    exists i :: (0 <= i < k && config[i].1.firstState && r.value.1.value == config[i].0
                                 && forall j :: i < j < k ==> !config[j].1.firstState))
  {
    if k > 0 {
      MachinePrefixFirst(config, built, k - 1);
      var p := MachinePrefix(config, built, k - 1);
      var r := MachinePrefix(config, built, k);
      if r.Ok? && !config[k - 1].1.firstState && r.value.1.Some? {
        var i :| 0 <= i < k - 1 && config[i].1.firstState && p.value.1.value == config[i].0
                 && forall j :: i < j < k - 1 ==> !config[j].1.firstState;
        assert forall j :: i < j < k ==> !config[j].1.firstState;
      }
    }
  }

  /**
   * `create_state_machine` succeeds exactly when the configuration is non-empty
   * and every entry builds, and otherwise fails with the first failing entry's
   * error. On success every name maps to the state built from its own entry,
   * and the first state is the last entry flagged FirstState, or else the
   * first entry.
   */
  lemma StateMachineSpec(config: seq<(string, StateEntry)>, gpioNames: seq<string>, beepNames: seq<string>)
    requires DistinctNames(config)
    ensures var r := StateMachine(config, gpioNames, beepNames);
            r.Ok? <==> |config| > 0 && forall i :: 0 <= i < |config| ==> BuildState(config[i].0, config[i].1, gpioNames, beepNames).Ok?
    ensures var r := StateMachine(config, gpioNames, beepNames);
            r.Err? && |config| > 0 ==>
              exists i :: 0 <= i < |config| && BuildState(config[i].0, config[i].1, gpioNames, beepNames) == Err(r.error)
    ensures var r := StateMachine(config, gpioNames, beepNames);
            r.Ok? ==>
              r.value.0.Keys == Names(config)
              && (forall i :: 0 <= i < |config| ==>
                    BuildState(config[i].0, config[i].1, gpioNames, beepNames).Ok?
                    && r.value.0[config[i].0] == BuildState(config[i].0, config[i].1, gpioNames, beepNames).value)
              && ((forall i :: 0 <= i < |config| ==> !config[i].1.firstState) ==> r.value.1 == config[0].0)
              && (exists i :: 0 <= i < |config| && r.value.1 == config[i].0
                    && (config[i].1.firstState || i == 0) && forall j :: i < j < |config| ==> !config[j].1.firstState)
    ensures |config| == 0 ==> StateMachine(config, gpioNames, beepNames) == Err(IndexError)
  {
    var built := Built(config, gpioNames, beepNames);
    MachinePrefixOk(config, built, |config|);
    MachinePrefixKeys(config, built, |config|);
    MachinePrefixTable(config, built, |config|);
    MachinePrefixFirst(config, built, |config|);
    assert config[..|config|] == config;
  }

  /**
   * The loop of `create_state_machine`: each entry's FirstState flag is read,
   * then its state is built and stored under its name; the first failure ends
   * the loop.
   */
  method FillTable(config: seq<(string, StateEntry)>, gpioNames: seq<string>, beepNames: seq<string>,
                   ghost built: seq<Result<TaskState>>)
    returns (p: Result<(map<string, TaskState>, Option<string>)>)
    requires |built| == |config|
    requires forall i :: 0 <= i < |config| ==> built[i] == BuildState(config[i].0, config[i].1, gpioNames, beepNames)
    ensures p == MachinePrefix(config, built, |config|)
    ensures p.Ok? ==> p.value.0.Keys == Names(config)
    ensures p.Err? ==> exists i :: 0 <= i < |config| && BuildState(config[i].0, config[i].1, gpioNames, beepNames) == Err(p.error)
  {
    var table: map<string, TaskState> := map[];
    var first: Option<string> := None;
    for k := 0 to |config|
      invariant MachinePrefix(config, built, k) == Ok((table, first))
    {
      var (name, e) := config[k];
      if e.firstState {
        first := Some(name);
      }
      var s := BuildState(name, e, gpioNames, beepNames);
      assert s == built[k];
      if s.Err? {
        assert config[k] == (name, e);
        MachineStops(config, built, k + 1, |config|);
        return Err(s.error);
      }
      table := table[name := s.value];
    }
    assert table.Keys == Names(config) by {
      MachinePrefixKeys(config, built, |config|);
      assert config[..|config|] == config;
    }
    p := Ok((table, first));
  }

  /**
   * `create_state_machine`: the table and the first state, or the error that
   * stopped it; `warned` is the SyntaxWarning issued when `gpioNames` is empty.
   */
  method CreateStateMachine(config: seq<(string, StateEntry)>, gpioNames: seq<string>, beepNames: seq<string>)
    returns (r: Result<(map<string, TaskState>, string)>, warned: bool)
    ensures r == StateMachine(config, gpioNames, beepNames)
    ensures warned <==> |gpioNames| == 0
  {
    warned := |gpioNames| == 0;
    var p := FillTable(config, gpioNames, beepNames, Built(config, gpioNames, beepNames));
    if p.Err? {
      return Err(p.error), warned;
    }
    var (table, first) := p.value;
    if first.Some? {
      return Ok((table, first.value)), warned;
    }
    if |config| == 0 {
      return Err(IndexError), warned;
    }
    r := Ok((table, config[0].0));
  }

  /** After a failure the rest of the configuration is not looked at. */
  lemma {:induction false} MachineStops(config: seq<(string, StateEntry)>, built: seq<Result<TaskState>>, k: nat, n: nat)
    requires |built| == |config| && k <= n <= |config| && MachinePrefix(config, built, k).Err?
    ensures MachinePrefix(config, built, n) == MachinePrefix(config, built, k)
  {
    if n > k {
      MachineStops(config, built, k, n - 1);
    }
  }
}
