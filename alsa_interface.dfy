/**
 * The playback process of ClientSide/treadmillio/alsainterface.py, whose
 * construction ClientSide/alsa_output.py repeats without the check on
 * stimulus names. It is built from one audio configuration dict: the output
 * devices give channels by name, the `Defaults` are merged into every
 * stimulus, and each stimulus is read from its sound file into its own slice
 * of the shared buffer. Each cycle of `play` fills the buffer and applies the
 * gain messages waiting in the control pipe, passing over unknown names.
 */
module AlsaInterface {
  import opened Common
  import opened ConfigValues
  import opened AlsaStimulus

  /** A `DeviceList` entry: its `Type` and, for an output, its `Channel`; either may be missing. */
  datatype Device = Device(kind: Option<Value>, channel: Option<int>)

  /** The keys the constructor reads from the configuration, each of which may be missing. */
  datatype AudioConfig = AudioConfig(
    fileRoot: Option<Value>,
    bufferSize: Option<Value>,
    dtype: Option<Value>,
    deviceList: Option<seq<(string, Device)>>,
    stimuliList: Option<seq<(string, map<string, Value>)>>,
    defaults: Option<map<string, Value>>)

  /** The device list used when none is configured: `{'Default': DEFAULT_OUTPUT_DEVICE}`. */
  const DefaultDevices: seq<(string, Device)> := [("Default", Device(Some(VStr("Output")), Some(0)))]

  /** DEFAULT_BUFFER_SIZE and DEFAULT_DTYPE. */
  const DefaultBufferSize: int := 16
  const DefaultDtype: string := "int16"

  /** The names no stimulus may have in treadmillio/alsainterface.py (ILLEGAL_STIMULUS_NAMES). */
  const IllegalNames: set<string> := {"StopMessage"}

  predicate IsOutput(d: Device)
  {
    d.kind == Some(VStr("Output"))
  }

  /**
   * The device loop: a device without `Type` raises KeyError, an output
   * device without `Channel` raises KeyError, and each output device is
   * registered under its name with its channel; other devices are skipped.
   */
  function Registered(devs: seq<(string, Device)>): (r: Result<map<string, int>>)
    decreases |devs|
    ensures r.Err? ==> r.error == KeyError
  {
    if |devs| == 0 then Ok(map[])
    else
      var n := |devs| - 1;
      var pre := Registered(devs[..n]);
      var d := devs[n].1;
      if pre.Err? then pre
      else if d.kind.None? then Err(KeyError)
      else if !IsOutput(d) then pre
      else if d.channel.None? then Err(KeyError)
      else Ok(pre.value[devs[n].0 := d.channel.value])
  }

  /** A device the loop raises on. */
  predicate Malformed(d: Device)
  {
    d.kind.None? || (IsOutput(d) && d.channel.None?)
  }

  /**
   * Only output devices are registered: the loop raises KeyError exactly when
   * some device is Malformed, and otherwise it maps the name of each output
   * device, and no other name, to that device's channel.
   */
  lemma {:induction false} RegisteredSpec(devs: seq<(string, Device)>)
    requires DistinctNames(devs)
    ensures Registered(devs).Err? <==> exists j :: 0 <= j < |devs| && Malformed(devs[j].1)
    ensures Registered(devs).Err? ==> Registered(devs).error == KeyError
    ensures Registered(devs).Ok? ==> forall name :: name in Registered(devs).value <==>
      exists j :: 0 <= j < |devs| && devs[j].0 == name && IsOutput(devs[j].1)
    ensures Registered(devs).Ok? ==> forall j :: 0 <= j < |devs| && IsOutput(devs[j].1) ==>
      devs[j].0 in Registered(devs).value && Registered(devs).value[devs[j].0] == devs[j].1.channel.value
    decreases |devs|
  {
    if |devs| > 0 {
      var n := |devs| - 1;
      var pre := devs[..n];
      assert forall j :: 0 <= j < n ==> pre[j] == devs[j];
      assert DistinctNames(pre);
      RegisteredSpec(pre);
      assert forall j :: 0 <= j < n ==> devs[j].0 != devs[n].0;
    }
  }

  /** The device loop of the constructor. */
  method RegisterDevices(devs: seq<(string, Device)>) returns (r: Result<map<string, int>>)
    ensures r == Registered(devs)
  {
    var m: map<string, int> := map[];
    var i := 0;
    while i < |devs|
      invariant 0 <= i <= |devs| && Registered(devs[..i]) == Ok(m)
    {
      assert devs[..i + 1][..i] == devs[..i];
      var d := devs[i].1;
      if d.kind.None? {
        RegisteredStops(devs, i + 1);
        return Err(KeyError);
      }
      if IsOutput(d) {
        if d.channel.None? {
          RegisteredStops(devs, i + 1);
          return Err(KeyError);
        }
        m := m[devs[i].0 := d.channel.value];
      }
      i := i + 1;
    }
    assert devs[..i] == devs;
    return Ok(m);
  }

  /** Once the device loop raised on a prefix, it raises the same on the whole list. */
  lemma {:induction false} RegisteredStops(devs: seq<(string, Device)>, i: nat)
    requires i <= |devs| && Registered(devs[..i]).Err?
    ensures Registered(devs) == Registered(devs[..i])
    decreases |devs| - i
  {
    if i < |devs| {
      assert devs[..i + 1][..i] == devs[..i];
      RegisteredStops(devs, i + 1);
    } else {
      assert devs[..i] == devs;
    }
  }

  /**
   * `self._devices[key]`: a string names a registered device or raises
   * KeyError; a list or dict cannot be a key (TypeError); any other value is
   * never a key of the string-keyed dict (KeyError).
   */
  function DeviceChannel(devices: map<string, int>, key: Value): (r: Result<int>)
    ensures r.Ok? <==> key.VStr? && key.s in devices
    ensures r.Ok? ==> r.value == devices[key.s]
    ensures r.Err? ==> r.error == if key.VList? || key.VDict? then TypeError else KeyError
  {
    if key.VStr? then (if key.s in devices then Ok(devices[key.s]) else Err(KeyError))
    else if key.VList? || key.VDict? then Err(TypeError)
    else Err(KeyError)
  }

  /** `stim.get(key, default)`. */
  function Lookup(stim: map<string, Value>, key: string, default: Value): (v: Value)
    ensures v in stim.Values || v == default
    ensures key in stim ==> v == stim[key]
  {
    if key in stim then stim[key] else default
  }

  /** What the loop takes from one stimulus entry: the file read, the channel of its device and its gain in dB. */
  datatype Made = Made(file: WavFile, channel: int, gainDb: real)

  /**
   * One pass of the stimulus loop, in its order: a name in `illegal`
   * (ValueError), the channel of `Device` (default 'Default'), `Filename`
   * (KeyError), the path joined to the file root, the file read as monaural,
   * and `BaselineGain` (default 0) turned into a gain.
   */
  function EntryLoad(name: string, stim: map<string, Value>, devices: map<string, int>, root: Value,
                     files: map<string, WavFile>, illegal: set<string>): (r: Result<Made>)
    ensures name in illegal ==> r == Err(ValueError)
    ensures r.Ok? ==> && name !in illegal && "Filename" in stim
                      && DeviceChannel(devices, Lookup(stim, "Device", VStr("Default"))) == Ok(r.value.channel)
                      && Join(root, stim["Filename"]).Ok?
                      && ReadMonaural(files, Join(root, stim["Filename"]).value) == Ok(r.value.file)
                      && GainDb(Lookup(stim, "BaselineGain", VInt(0))) == Ok(r.value.gainDb)
  {
    if name in illegal then Err(ValueError)
    else
      var ch := DeviceChannel(devices, Lookup(stim, "Device", VStr("Default")));
      if ch.Err? then Err(ch.error)
      else if "Filename" !in stim then Err(KeyError)
      else
        var path := Join(root, stim["Filename"]);
        if path.Err? then Err(path.error)
        else
          var file := ReadMonaural(files, path.value);
          if file.Err? then Err(file.error)
          else
            var g := GainDb(Lookup(stim, "BaselineGain", VInt(0)));
            if g.Err? then Err(g.error)
            else Ok(Made(file.value, ch.value, g.value))
  }

  /** The environment of the stimulus loop: the registered devices, the file root, the readable files and the illegal names. */
  datatype Env = Env(devices: map<string, int>, root: Value, files: map<string, WavFile>, illegal: set<string>)

  function Load(e: Env, entry: (string, map<string, Value>)): Result<Made>
  {
    EntryLoad(entry.0, entry.1, e.devices, e.root, e.files, e.illegal)
  }

  /** The index of the first entry that fails to load, or the number of entries. */
  function FirstFailure(entries: seq<(string, map<string, Value>)>, e: Env): (k: nat)
    ensures k <= |entries|
    ensures forall j :: 0 <= j < k ==> Load(e, entries[j]).Ok?
    ensures k < |entries| ==> Load(e, entries[k]).Err?
    decreases |entries|
  {
    if |entries| == 0 then 0
    else
      var n := |entries| - 1;
      var f := FirstFailure(entries[..n], e);
      if f < n then f else if Load(e, entries[n]).Err? then n else |entries|
  }

  /** The sampling rates of the files loaded, in the order of the entries. */
  function RatesOf(entries: seq<(string, map<string, Value>)>, e: Env): (r: seq<int>)
    requires forall j :: 0 <= j < |entries| ==> Load(e, entries[j]).Ok?
    ensures |r| == |entries|
    ensures forall j :: 0 <= j < |entries| ==> r[j] == Load(e, entries[j]).value.file.fs
  {
    seq(|entries|, j requires 0 <= j < |entries| => Load(e, entries[j]).value.file.fs)
  }

  /** The steps of the constructor before its stimulus loop: the merged entries, the rows of the buffer and what the loop needs. */
  datatype Setup = Setup(entries: seq<(string, map<string, Value>)>, bufferSize: nat, env: Env)

  /**
   * The constructor's steps before its stimulus loop, in order: the device
   * loop, `StimuliList` (KeyError), the `Defaults` merge, at least one
   * stimulus (ValueError), and the shape of the data buffer (`BufferSize`,
   * default 16, rows; 2 channels; a slice per stimulus).
   */
  function Prepared(config: AudioConfig, files: map<string, WavFile>, illegal: set<string>): (r: Result<Setup>)
    ensures r.Ok? ==> |r.value.entries| > 0 && r.value.env.files == files && r.value.env.illegal == illegal
    ensures r.Ok? ==> r.value.env.root == GetOr(config.fileRoot, VNone)
  {
    var devs := Registered(GetOr(config.deviceList, DefaultDevices));
    if devs.Err? then Err(devs.error)
    else if config.stimuliList.None? then Err(KeyError)
    else
      var merged := if config.defaults.Some? then MergedAll(config.stimuliList.value, config.defaults.value)
                    else Ok(config.stimuliList.value);
      if merged.Err? then Err(merged.error)
      else if |merged.value| == 0 then Err(ValueError)
      else
        var list := merged.value;
        var shape := Shape([GetOr(config.bufferSize, VInt(DefaultBufferSize)), VInt(2), VInt(|list|)]);
        if shape.Err? then Err(shape.error)
        else Ok(Setup(list, shape.value[0], Env(devs.value, GetOr(config.fileRoot, VNone), files, illegal)))
  }

  /** What a successful construction is made of: its setup and the common sampling rate. */
  datatype Plan = Plan(setup: Setup, fs: int)

  /**
   * The rest of the constructor: the stimulus loop up to its first failure,
   * the common sampling rate (CommonRate), and a `DType` (default 'int16')
   * other than 'int16' (ValueError).
   */
  function Finished(su: Setup, dtype: Value): (r: Result<Plan>)
    ensures r.Ok? ==> r.value.setup == su && dtype == VStr(DefaultDtype)
    ensures r.Ok? ==> forall j :: 0 <= j < |su.entries| ==> Load(su.env, su.entries[j]).Ok?
  {
    var k := FirstFailure(su.entries, su.env);
    if k < |su.entries| then Err(Load(su.env, su.entries[k]).error)
    else
      var rate := CommonRate(RatesOf(su.entries, su.env));
      if rate.Err? then Err(rate.error)
      else if dtype != VStr(DefaultDtype) then Err(ValueError)
      else Ok(Plan(su, rate.value))
  }

  /** The whole constructor up to opening the sound device. */
  function Construct(config: AudioConfig, files: map<string, WavFile>, illegal: set<string>): (r: Result<Plan>)
    ensures Registered(GetOr(config.deviceList, DefaultDevices)).Err? ==> r == Err(KeyError)
    ensures r.Ok? ==> config.stimuliList.Some? && |r.value.setup.entries| > 0 && r.value.setup.env.files == files
    ensures r.Ok? ==> GetOr(config.dtype, VStr(DefaultDtype)) == VStr(DefaultDtype)
  {
    var su := Prepared(config, files, illegal);
    if su.Err? then Err(su.error)
    else Finished(su.value, GetOr(config.dtype, VStr(DefaultDtype)))
  }

  /**
   * Without a file root the first stimulus's path cannot be joined, so a
   * configuration without `AudioFileDirectory` never constructs; and a
   * successful construction has at least one stimulus, every one of which
   * loads, all at one rate.
   */
  lemma ConstructFacts(config: AudioConfig, files: map<string, WavFile>, illegal: set<string>)
    ensures config.fileRoot.None? ==> Construct(config, files, illegal).Err?
    ensures Construct(config, files, illegal).Ok? ==> var p := Construct(config, files, illegal).value;
      && |p.setup.entries| > 0
      && forall j :: 0 <= j < |p.setup.entries| ==>
           Load(p.setup.env, p.setup.entries[j]).Ok? && Load(p.setup.env, p.setup.entries[j]).value.file.fs == p.fs
  {
    var c := Construct(config, files, illegal);
    if c.Ok? {
      var su := c.value.setup;
      var rates := RatesOf(su.entries, su.env);
      assert CommonRate(rates).Ok?;
      assert forall j :: 0 <= j < |su.entries| ==> rates[j] == Load(su.env, su.entries[j]).value.file.fs;
    }
  }

  /**
   * A StimuliList that is empty after the Defaults merge is refused with
   * ValueError, once the devices register and the list is present.
   */
  lemma EmptyStimuliRefused(config: AudioConfig, files: map<string, WavFile>, illegal: set<string>)
    requires Registered(GetOr(config.deviceList, DefaultDevices)).Ok? && config.stimuliList.Some?
    requires (if config.defaults.Some? then MergedAll(config.stimuliList.value, config.defaults.value)
              else Ok(config.stimuliList.value)) == Ok([])
    ensures Prepared(config, files, illegal) == Err(ValueError)
    ensures Construct(config, files, illegal) == Err(ValueError)
  {
  }

  /**
   * The rest of the constructor succeeds exactly when every stimulus loads, the
   * files share one rate and the DType is 'int16'; a DType other than 'int16'
   * is the ValueError raised once the stimuli are loaded at one rate, and a
   * success carries the setup and that rate.
   */
  lemma FinishedSpec(su: Setup, dtype: Value)
    ensures Finished(su, dtype).Ok? <==>
      && FirstFailure(su.entries, su.env) == |su.entries|
      && CommonRate(RatesOf(su.entries, su.env)).Ok?
      && dtype == VStr(DefaultDtype)
    ensures (FirstFailure(su.entries, su.env) == |su.entries| && CommonRate(RatesOf(su.entries, su.env)).Ok?
             && dtype != VStr(DefaultDtype)) ==> Finished(su, dtype) == Err(ValueError)
    ensures Finished(su, dtype).Ok? ==> Finished(su, dtype).value == Plan(su, CommonRate(RatesOf(su.entries, su.env)).value)
  {
  }

  /** A configured DType other than 'int16' never constructs. */
  lemma OnlyInt16Constructs(config: AudioConfig, files: map<string, WavFile>, illegal: set<string>)
    requires config.dtype.Some? && config.dtype.value != VStr(DefaultDtype)
    ensures Construct(config, files, illegal).Err?
  {
    var su := Prepared(config, files, illegal);
    if su.Ok? {
      FinishedSpec(su.value, config.dtype.value);
    }
  }

  /** The stimulus made from an entry that loads: its file, slice `j`, its channel, its gain and no fade window. */
  ghost predicate MadeFrom(s: Stimulus, m: Made, buf: array3<int>, j: nat, toLinear: real -> real)
    reads s
  {
    && s.samples == m.file.samples && s.fs == m.file.fs && s.data == buf && s.slice == j
    && s.bufferLen == buf.Length0 && s.channel == m.channel && !s.windowing
    && s.curpos == 0 && s.gain == toLinear(m.gainDb) && s.currentGain == s.gain
  }

  /** The stimulus loop has made a distinct stimulus from each of the first `|made|` entries, all of which load. */
  ghost predicate Progress(entries: seq<(string, map<string, Value>)>, e: Env, buf: array3<int>, toLinear: real -> real,
                           made: seq<Stimulus>)
    reads made
  {
    && |made| <= |entries|
    && (forall i, j :: 0 <= i < j < |made| ==> made[i] != made[j])
    && (forall j :: 0 <= j < |made| ==> Load(e, entries[j]).Ok? && MadeFrom(made[j], Load(e, entries[j]).value, buf, j, toLinear))
  }

  /** A distinct stimulus MadeFrom the next entry extends the progress by one. */
  lemma ProgressSnoc(entries: seq<(string, map<string, Value>)>, e: Env, buf: array3<int>, toLinear: real -> real,
                     made: seq<Stimulus>, s: Stimulus)
    requires Progress(entries, e, buf, toLinear, made) && |made| < |entries| && s !in made
    requires Load(e, entries[|made|]).Ok? && MadeFrom(s, Load(e, entries[|made|]).value, buf, |made|, toLinear)
    ensures Progress(entries, e, buf, toLinear, made + [s])
  {
  }

  /** The pieces of a constructed playback system. */
  datatype Parts = Parts(devices: map<string, int>, stimuli: map<string, Stimulus>, order: seq<Stimulus>,
                         dataBuf: array3<int>, fs: int)

  /**
   * The pieces hold what the plan says: a buffer of `bufferSize` rows, 2
   * channels and a slice per entry; the registered devices; the common rate;
   * in order, one distinct stimulus per entry, MadeFrom what it loads, in
   * the slice of its index; and the dict from names to those stimuli.
   */
  ghost predicate Built(p: Parts, plan: Plan, toLinear: real -> real)
    reads set s | s in p.order
  {
    && p.dataBuf.Length0 == plan.setup.bufferSize && p.dataBuf.Length1 == 2
    && p.dataBuf.Length2 == |plan.setup.entries| == |p.order|
    && p.devices == plan.setup.env.devices && p.fs == plan.fs
    && Progress(plan.setup.entries, plan.setup.env, p.dataBuf, toLinear, p.order)
    && p.stimuli == MapOf(plan.setup.entries, p.order)
  }

  /** Built pieces are distinct stimuli on the buffer, in distinct slices, with every dict value among them. */
  lemma BuiltValid(p: Parts, plan: Plan, toLinear: real -> real)
    requires Built(p, plan, toLinear)
    ensures Listed(p.order, p.dataBuf) && SlotsDistinct(p.order)
    ensures forall k :: k in p.stimuli ==> p.stimuli[k] in p.order
    ensures forall a, b :: a in p.stimuli && b in p.stimuli && a != b ==> p.stimuli[a] != p.stimuli[b]
  {
    MapOfValues(plan.setup.entries, p.order);
  }

  /**
   * The stimulus loop: one fresh stimulus per entry with slice `k` for the
   * `k`-th, up to the first entry that fails to load, whose error it raises.
   */
  method LoadStimuli(entries: seq<(string, map<string, Value>)>, e: Env, buf: array3<int>, toLinear: real -> real)
    returns (r: Outcome, made: seq<Stimulus>, m: map<string, Stimulus>)
    requires |entries| == buf.Length2
    ensures r.Fail? <==> FirstFailure(entries, e) < |entries|
    ensures r.Fail? ==> r.error == Load(e, entries[FirstFailure(entries, e)]).error
    ensures r.Done? ==> |made| == |entries| && Progress(entries, e, buf, toLinear, made) && m == MapOf(entries, made)
    ensures forall o :: o in made ==> fresh(o)
  {
    made := [];
    m := map[];
    var k := 0;
    while k < |entries|
      invariant k == |made| <= |entries| && Progress(entries, e, buf, toLinear, made)
      invariant m == MapOf(entries[..k], made)
      invariant forall o :: o in made ==> fresh(o)
    {
      var l := Load(e, entries[k]);
      if l.Err? {
        FirstFailureAt(entries, e, k);
        return Fail(l.error), made, m;
      }
      var s := new Stimulus(l.value.file.samples, l.value.file.fs, buf, k, l.value.channel, toLinear(l.value.gainDb), false);
      ProgressSnoc(entries, e, buf, toLinear, made, s);
      MapOfSnoc(entries, made, s);
      m := m[entries[k].0 := s];
      made := made + [s];
      k := k + 1;
    }
    FirstFailureAt(entries, e, k);
    assert entries[..k] == entries;
    r := Done;
  }

  /** A loop that stops at the first entry that fails to load stops at FirstFailure. */
  lemma {:induction false} FirstFailureAt(entries: seq<(string, map<string, Value>)>, e: Env, k: nat)
    requires k <= |entries| && forall j :: 0 <= j < k ==> Load(e, entries[j]).Ok?
    requires k == |entries| || Load(e, entries[k]).Err?
    ensures k == FirstFailure(entries, e)
  {
  }

  /** The steps before the stimulus loop. */
  method Prepare(config: AudioConfig, files: map<string, WavFile>, illegal: set<string>) returns (r: Result<Setup>)
    ensures r == Prepared(config, files, illegal)
  {
    var devs := RegisterDevices(GetOr(config.deviceList, DefaultDevices));
    if devs.Err? {
      return Err(devs.error);
    }
    if config.stimuliList.None? {
      return Err(KeyError);
    }
    var list := config.stimuliList.value;
    if config.defaults.Some? {
      var merged := MergeDefaults(list, config.defaults.value);
      if merged.Err? {
        return Err(merged.error);
      }
      list := merged.value;
    }
    if |list| < 1 {
      return Err(ValueError);
    }
    var shape := Shape([GetOr(config.bufferSize, VInt(DefaultBufferSize)), VInt(2), VInt(|list|)]);
    if shape.Err? {
      return Err(shape.error);
    }
    return Ok(Setup(list, shape.value[0], Env(devs.value, GetOr(config.fileRoot, VNone), files, illegal)));
  }

  /**
   * The rest of the constructor: it raises the error of Finished, and
   * otherwise gives pieces Built to the plan, on a fresh buffer, of fresh
   * stimuli.
   */
  method Finish(su: Setup, dtype: Value, toLinear: real -> real) returns (r: Result<Parts>)
    ensures r.Err? <==> Finished(su, dtype).Err?
    ensures r.Err? ==> r.error == Finished(su, dtype).error
    ensures r.Ok? ==> && fresh(r.value.dataBuf) && (forall o :: o in r.value.order ==> fresh(o))
                      && Built(r.value, Finished(su, dtype).value, toLinear)
  {
    var buf := new int[su.bufferSize, 2, |su.entries|];
    var loaded, made, m := LoadStimuli(su.entries, su.env, buf, toLinear);
    if loaded.Fail? {
      return Err(loaded.error);
    }
    var rates := seq(|made|, j requires 0 <= j < |made| => made[j].fs);
    assert rates == RatesOf(su.entries, su.env);
    var rate := CommonRate(rates);
    if rate.Err? {
      return Err(rate.error);
    }
    if dtype != VStr(DefaultDtype) {
      return Err(ValueError);
    }
    return Ok(Parts(su.env.devices, m, made, buf, rate.value));
  }

  /**
   * The constructor up to opening the sound device: it raises the error of
   * Construct, and otherwise gives pieces Built to its plan, on a fresh
   * buffer, of fresh stimuli.
   */
  method Build(config: AudioConfig, files: map<string, WavFile>, toLinear: real -> real, illegal: set<string>)
    returns (r: Result<Parts>)
    ensures r.Err? <==> Construct(config, files, illegal).Err?
    ensures r.Err? ==> r.error == Construct(config, files, illegal).error
    ensures r.Ok? ==> && fresh(r.value.dataBuf) && (forall o :: o in r.value.order ==> fresh(o))
                      && Built(r.value, Construct(config, files, illegal).value, toLinear)
  {
    var su := Prepare(config, files, illegal);
    if su.Err? {
      return Err(su.error);
    }
    r := Finish(su.value, GetOr(config.dtype, VStr(DefaultDtype)), toLinear);
  }

  /** `ALSAPlaybackSystem` of treadmillio/alsainterface.py. */
  class PlaybackSystem {
    var running: bool
    var devices: map<string, int>
    var stimuli: map<string, Stimulus>
    var order: seq<Stimulus>
    var dataBuf: array3<int>
    var fs: int

    /**
     * The stimuli are distinct objects bound to the data buffer, one per name,
     * and no two write the same column of the same slice.
     */
    ghost predicate Valid()
      reads this, set s | s in order
    {
      && Listed(order, dataBuf) && SlotsDistinct(order)
      && (forall k :: k in stimuli ==> stimuli[k] in order)
      && (forall a, b :: a in stimuli && b in stimuli && a != b ==> stimuli[a] != stimuli[b])
    }

    /** The system's pieces. */
    ghost function Pieces(): Parts
      reads this
    {
      Parts(devices, stimuli, order, dataBuf, fs)
    }

    /** A system that is not running, holding pieces Built to a plan. */
    constructor (p: Parts, ghost plan: Plan, ghost toLinear: real -> real)
      requires Built(p, plan, toLinear)
      ensures Valid() && !running && Pieces() == p
    {
      BuiltValid(p, plan, toLinear);
      running := false;
      devices := p.devices;
      stimuli := p.stimuli;
      order := p.order;
      dataBuf := p.dataBuf;
      fs := p.fs;
    }

    /**
     * The constructor: Build with 'StopMessage' as the only illegal name;
     * the new system is not running.
     */
    static method Create(config: AudioConfig, files: map<string, WavFile>, toLinear: real -> real)
      returns (r: Result<PlaybackSystem>)
      requires config.stimuliList.Some? ==> DistinctNames(config.stimuliList.value)
      ensures r.Err? <==> Construct(config, files, IllegalNames).Err?
      ensures r.Err? ==> r.error == Construct(config, files, IllegalNames).error
      ensures r.Ok? ==> && fresh(r.value) && fresh(r.value.dataBuf) && (forall o :: o in r.value.order ==> fresh(o))
                        && r.value.Valid() && !r.value.running
                        && Built(r.value.Pieces(), Construct(config, files, IllegalNames).value, toLinear)
    {
      var parts := Build(config, files, toLinear, IllegalNames);
      if parts.Err? {
        return Err(parts.error);
      }
      var system := new PlaybackSystem(parts.value, Construct(config, files, IllegalNames).value, toLinear);
      return Ok(system);
    }

    /** `set_gain`: the named stimulus gets the gain; an unknown name raises KeyError. */
    method SetGain(name: string, g: real) returns (r: Outcome)
      requires Valid()
      modifies set s | s in stimuli.Values
      ensures r == if name in stimuli then Done else Fail(KeyError)
      ensures name in stimuli ==> stimuli[name].gain == g
      ensures forall k :: k in stimuli && k != name ==> stimuli[k].gain == old(stimuli[k].gain)
      ensures forall k :: k in stimuli ==> stimuli[k].curpos == old(stimuli[k].curpos)
    {
      if name !in stimuli {
        return Fail(KeyError);
      }
      stimuli[name].SetGain(g);
      return Done;
    }

    /** `play` sets `running`, which only an interrupt clears again. */
    method Start()
      modifies this`running
      ensures running
    {
      running := true;
    }

    /**
     * One pass of `play`'s loop: every stimulus fills its slice (an exception
     * there ends `play`), then the waiting messages set the gains of the
     * stimuli they name and pass over other keys. As every stimulus has its
     * own slice, after a pass that did not raise every stimulus's column
     * holds its next samples.
     */
    method Cycle(msgs: seq<seq<Command>>) returns (r: Outcome)
      requires Valid()
      modifies dataBuf, set s | s in order
      ensures Valid()
      ensures r == old(FillOutcome(order))
      ensures r.Done? ==> forall j :: 0 <= j < |order| ==>
        && order[j].curpos == NextCursor(old(order[j].curpos), order[j].bufferLen, |order[j].samples|)
        && Filled(order[j], old(order[j].curpos))
      ensures r.Done? ==> forall k :: k in stimuli ==>
        stimuli[k].gain == GainAfter(msgs, stimuli.Keys, Ignore, k, old(stimuli[k].gain))
    {
      r := FillAll(order, dataBuf);
      if r.Fail? {
        return;
      }
      Deliver(msgs);
    }

    /** The message loop of a cycle: gains change, cursors and the buffer do not. */
    method Deliver(msgs: seq<seq<Command>>)
      requires Valid()
      modifies set s | s in order
      ensures Valid()
      ensures forall s :: s in order ==> s.curpos == old(s.curpos)
      ensures forall k :: k in stimuli ==> stimuli[k].gain == GainAfter(msgs, stimuli.Keys, Ignore, k, old(stimuli[k].gain))
    {
      ApplyMessages(stimuli, msgs, Ignore);
      forall s | s in order
        ensures s.curpos == old(s.curpos) && s.Valid()
      {
        if exists k :: k in stimuli && stimuli[k] == s {
          var k :| k in stimuli && stimuli[k] == s;
        }
      }
    }
  }
}
