/**
 * The playback process driven over a socket (ClientSide/treadmillio/alsaplayback.py):
 * a command configures the sound device, another loads the stimuli, and
 * playback then runs until a message stops it. Failures are reported by
 * appending a message to `errors` and returning False.
 */
module AlsaPlayback {
  import opened Common
  import opened AlsaStimulus

  /** The messages appended to `errors`. */
  datatype Report =
    | UnsupportedDtype
    | NoDeviceForLoad
    | NoStimulus
    | LoadFailed(filename: string)
    | NoDeviceConfigured
    | NoStimuliSpecified

  /** The keys `configure_device` reads from its command, each of which may be missing. */
  datatype DeviceRequest = DeviceRequest(hwDevice: Option<string>, bufferSize: Option<int>, dtype: Option<string>,
                                         samplingRate: Option<int>, nChannels: Option<int>)

  /** The keys `load_stimuli` reads from one stimulus entry. */
  datatype StimulusEntry = StimulusEntry(channel: Option<int>, offGain: Option<real>, filename: Option<string>)

  /** Loading one entry: its `Filename` is required, and the file must be readable and monaural. */
  function EntryLoad(e: StimulusEntry, files: map<string, WavFile>): (r: Result<WavFile>)
    ensures e.filename.None? ==> r == Err(KeyError)
    ensures r.Ok? <==> e.filename.Some? && e.filename.value in files && files[e.filename.value].ndim <= 1
    ensures r.Ok? ==> r.value == files[e.filename.value]
  {
    if e.filename.None? then Err(KeyError) else ReadMonaural(files, e.filename.value)
  }

  /** The index of the first entry that fails to load, or the number of entries when all load. */
  function FirstFailure(entries: seq<(string, StimulusEntry)>, files: map<string, WavFile>): (k: nat)
    ensures k <= |entries|
    ensures forall j :: 0 <= j < k ==> EntryLoad(entries[j].1, files).Ok?
    ensures k < |entries| ==> EntryLoad(entries[k].1, files).Err?
    decreases |entries|
  {
    if |entries| == 0 then 0
    else
      var n := |entries| - 1;
      var f := FirstFailure(entries[..n], files);
      if f < n then f else if EntryLoad(entries[n].1, files).Err? then n else |entries|
  }

  /** The sampling rates of the loaded files, in the order of the entries. */
  function RatesOf(entries: seq<(string, StimulusEntry)>, files: map<string, WavFile>): (r: seq<int>)
    requires forall j :: 0 <= j < |entries| ==> EntryLoad(entries[j].1, files).Ok?
    ensures |r| == |entries|
    ensures forall j :: 0 <= j < |entries| ==> r[j] == EntryLoad(entries[j].1, files).value.fs
    decreases |entries|
  {
    if |entries| == 0 then []
    else
      var n := |entries| - 1;
      RatesOf(entries[..n], files) + [EntryLoad(entries[n].1, files).value.fs]
  }

  /** A message contains the key `key`. */
  predicate HasKey(cmds: seq<Command>, key: string)
  {
    exists i :: 0 <= i < |cmds| && cmds[i].key == Some(key)
  }

  /**
   * The stimulus made from an entry: the file's samples and rate, slice 0 of
   * the data buffer (`k` is never incremented in the loading loop), the
   * channel (default 0), the linear gain of OffGain (default 0.0 dB), and a
   * window, so gain changes are faded.
   */
  ghost predicate LoadedFrom(s: Stimulus, e: StimulusEntry, files: map<string, WavFile>, buf: array3<int>,
                             toLinear: real -> real)
    reads s
  {
    && MadeFrom(s, e, files, buf, 0)
    && s.gain == toLinear(GetOr(e.offGain, 0.0)) && s.currentGain == s.gain && s.curpos == 0
  }

  /** The part of LoadedFrom fixed at construction, for a stimulus bound to slice `slice`. */
  predicate MadeFrom(s: Stimulus, e: StimulusEntry, files: map<string, WavFile>, buf: array3<int>, slice: nat)
  {
    && EntryLoad(e, files).Ok?
    && s.samples == EntryLoad(e, files).value.samples && s.fs == EntryLoad(e, files).value.fs
    && s.data == buf && s.bufferLen == buf.Length0 && s.slice == slice && s.channel == GetOr(e.channel, 0)
    && s.windowing
  }

  /**
   * The stimuli loaded from the first `k` entries: one per name, each made
   * from its entry.
   */
  ghost predicate Loaded(m: map<string, Stimulus>, entries: seq<(string, StimulusEntry)>, files: map<string, WavFile>,
                         buf: array3<int>, toLinear: real -> real, k: nat)
    requires k <= |entries|
    reads m.Values
  {
    && m.Keys == Names(entries[..k])
    && forall j :: 0 <= j < k ==> entries[j].0 in m && LoadedFrom(m[entries[j].0], entries[j].1, files, buf, toLinear)
  }

  /**
   * The state `load_stimuli` leaves once the data buffer exists: the stimuli
   * of the entries before the first failure, Loaded into the dict, listed in
   * the dict's order, each a distinct object bound to `buf`.
   */
  ghost predicate Installed(m: map<string, Stimulus>, order: seq<Stimulus>, entries: seq<(string, StimulusEntry)>,
                            files: map<string, WavFile>, buf: array3<int>, toLinear: real -> real)
    reads m.Values, set s | s in order
  {
    && Loaded(m, entries, files, buf, toLinear, FirstFailure(entries, files))
    && Listed(order, buf) && (forall k :: k in m ==> m[k] in order)
    && (forall a, b :: a in m && b in m && a != b ==> m[a] != m[b])
  }

  /** What loading yields once the data buffer exists: the result, the messages appended to `errors`, and the new rate. */
  datatype LoadOutcome = LoadOutcome(r: Result<bool>, reports: seq<Report>, rate: Option<int>)

  /**
   * The first entry that fails to load either has no Filename (the handler
   * reads it again and raises KeyError) or names a file that cannot be read as
   * monaural (reported, False). When all load, the rates of their files must
   * agree (CommonRate: AttributeError otherwise), and the common rate becomes
   * the system's.
   */
  function LoadOutcomeOf(entries: seq<(string, StimulusEntry)>, files: map<string, WavFile>): (o: LoadOutcome)
    ensures o.r.Err? ==> (o.r.error == KeyError || o.r.error == AttributeError) && o.reports == [] && o.rate.None?
    ensures o.rate.Some? <==> o.r == Ok(true)
    ensures o.r == Ok(true) ==> forall j :: 0 <= j < |entries| ==> EntryLoad(entries[j].1, files).Ok?
    ensures o.r == Ok(false) ==> exists j :: 0 <= j < |entries| && EntryLoad(entries[j].1, files).Err?
    ensures o.r == Ok(false) ==> |o.reports| == 1 && o.reports[0].LoadFailed?
  {
    var k := FirstFailure(entries, files);
    if k < |entries| then
      if entries[k].1.filename.None? then LoadOutcome(Err(KeyError), [], None)
      else LoadOutcome(Ok(false), [LoadFailed(entries[k].1.filename.value)], None)
    else
      var c := CommonRate(RatesOf(entries, files));
      if c.Err? then LoadOutcome(Err(AttributeError), [], None) else LoadOutcome(Ok(true), [], Some(c.value))
  }

  /** `ALSAPlaybackSystem`. */
  class PlaybackSystem {
    var errors: seq<Report>
    var running: bool
    var deviceOpen: bool
    var hwDevice: string
    var bufferSize: int
    var fs: int
    var numChannels: int
    var stimuli: map<string, Stimulus>
    /** The values of `stimuli` in the dict's order. */
    var order: seq<Stimulus>
    var dataBuf: array3<int>

    /** Each name has its own stimulus object. */
    ghost predicate Valid()
      reads this
    {
      forall a, b :: a in stimuli && b in stimuli && a != b ==> stimuli[a] != stimuli[b]
    }

    /** A new system has no device, no stimuli and no errors, and is not running. */
    constructor ()
      ensures Valid() && errors == [] && !running && !deviceOpen && stimuli == map[]
    {
      errors := [];
      running := false;
      deviceOpen := false;
      hwDevice := "";
      bufferSize := 0;
      fs := 0;
      numChannels := 0;
      stimuli := map[];
      order := [];
      dataBuf := new int[0, 0, 0];
    }

    /**
     * `configure_device`: BufferSize defaults to 1024, DType to 'int16',
     * SamplingRate to 96000 and NChannels to 2. The device is opened before the
     * sample type is checked, so it stays open when a DType other than 'int16'
     * is refused. The output buffer is allocated last; a negative size raises
     * ValueError there.
     */
    method ConfigureDevice(config: DeviceRequest) returns (r: Result<bool>)
      requires Valid()
      modifies this
      ensures Valid() && deviceOpen && hwDevice == GetOr(config.hwDevice, "")
      ensures bufferSize == GetOr(config.bufferSize, 1024) && fs == GetOr(config.samplingRate, 96000)
      ensures numChannels == GetOr(config.nChannels, 2)
      ensures GetOr(config.dtype, "int16") != "int16" ==> r == Ok(false) && errors == old(errors) + [UnsupportedDtype]
      ensures GetOr(config.dtype, "int16") == "int16" ==>
        errors == old(errors) && r == if bufferSize < 0 || numChannels < 0 then Err(ValueError) else Ok(true)
      ensures running == old(running) && stimuli == old(stimuli) && order == old(order) && dataBuf == old(dataBuf)
    {
      hwDevice := GetOr(config.hwDevice, "");
      bufferSize := GetOr(config.bufferSize, 1024);
      var dtype := GetOr(config.dtype, "int16");
      fs := GetOr(config.samplingRate, 96000);
      numChannels := GetOr(config.nChannels, 2);
      deviceOpen := true;
      if dtype != "int16" {
        errors := errors + [UnsupportedDtype];
        return Ok(false);
      }
      if bufferSize < 0 || numChannels < 0 {
        return Err(ValueError);
      }
      return Ok(true);
    }

    /**
     * `load_stimuli`: refused without an open device or without stimuli. A
     * buffer size or channel count below zero makes the allocation of the data
     * buffer raise ValueError. Otherwise the stimuli are made in order, all
     * bound to slice 0 of the new data buffer, up to the first entry that fails
     * to load (Loaded), and the result, the report and the new rate are those
     * of LoadOutcomeOf.
     */
    method LoadStimuli(entries: seq<(string, StimulusEntry)>, files: map<string, WavFile>, toLinear: real -> real)
      returns (r: Result<bool>)
      requires Valid() && DistinctNames(entries)
      modifies this`stimuli, this`order, this`errors, this`fs, this`dataBuf
      ensures Valid()
      ensures !deviceOpen ==> r == Ok(false) && errors == old(errors) + [NoDeviceForLoad]
      ensures deviceOpen && |entries| == 0 ==> r == Ok(false) && errors == old(errors) + [NoStimulus]
      ensures !deviceOpen || |entries| == 0 ==>
        stimuli == old(stimuli) && order == old(order) && fs == old(fs) && dataBuf == old(dataBuf)
      ensures deviceOpen && |entries| > 0 && (bufferSize < 0 || numChannels < 0) ==>
        r == Err(ValueError) && stimuli == map[] && order == []
        && errors == old(errors) && fs == old(fs) && dataBuf == old(dataBuf)
      ensures deviceOpen && |entries| > 0 && bufferSize >= 0 && numChannels >= 0 ==>
        && fresh(dataBuf) && (forall k :: k in stimuli ==> fresh(stimuli[k]))
        && Installed(stimuli, order, entries, files, dataBuf, toLinear)
        && r == LoadOutcomeOf(entries, files).r && errors == old(errors) + LoadOutcomeOf(entries, files).reports
        && fs == GetOr(LoadOutcomeOf(entries, files).rate, old(fs))
    {
      if !deviceOpen {
        errors := errors + [NoDeviceForLoad];
        return Ok(false);
      }
      if |entries| < 1 {
        errors := errors + [NoStimulus];
        return Ok(false);
      }
      if bufferSize < 0 || numChannels < 0 {
        stimuli, order := map[], [];
        return Err(ValueError);
      }
      r := Install(entries, files, toLinear);
    }

    /** The part of `load_stimuli` after its checks: the data buffer, the loading loop and the rate check. */
    method Install(entries: seq<(string, StimulusEntry)>, files: map<string, WavFile>, toLinear: real -> real)
      returns (r: Result<bool>)
      requires DistinctNames(entries) && |entries| > 0 && bufferSize >= 0 && numChannels >= 0
      modifies this`stimuli, this`order, this`errors, this`fs, this`dataBuf
      ensures Valid() && fresh(dataBuf) && (forall k :: k in stimuli ==> fresh(stimuli[k]))
      ensures Installed(stimuli, order, entries, files, dataBuf, toLinear)
      ensures r == LoadOutcomeOf(entries, files).r && errors == old(errors) + LoadOutcomeOf(entries, files).reports
      ensures fs == GetOr(LoadOutcomeOf(entries, files).rate, old(fs))
    {
      var buf := new int[bufferSize, numChannels, |entries|];
      var e := LoadOutcomeOf(entries, files);
      errors, fs, r := errors + e.reports, GetOr(e.rate, fs), e.r;
      var k, made, m := LoadEntries(entries, files, buf, toLinear);
      dataBuf := buf;
      stimuli := m;
      order := made;
    }

    /** `Stimulus(...)` for one entry that loads: slice 0 of `buf`, the channel and the linear OffGain. */
    static method NewStimulus(e: StimulusEntry, files: map<string, WavFile>, buf: array3<int>, toLinear: real -> real)
      returns (s: Stimulus)
      requires EntryLoad(e, files).Ok? && buf.Length2 > 0
      ensures fresh(s) && LoadedFrom(s, e, files, buf, toLinear)
    {
      var file := EntryLoad(e, files).value;
      s := new Stimulus(file.samples, file.fs, buf, 0, GetOr(e.channel, 0), toLinear(GetOr(e.offGain, 0.0)), true);
    }

    /** The loading loop: one fresh stimulus per entry, in order, until the first entry that fails to load. */
    static method LoadEntries(entries: seq<(string, StimulusEntry)>, files: map<string, WavFile>, buf: array3<int>,
                              toLinear: real -> real)
      returns (k: nat, made: seq<Stimulus>, m: map<string, Stimulus>)
      requires DistinctNames(entries) && buf.Length2 > 0
      ensures k == FirstFailure(entries, files) && forall n :: n in m ==> fresh(m[n])
      ensures Installed(m, made, entries, files, buf, toLinear)
    {
      k := 0;
      made := [];
      m := map[];
      while k < |entries| && EntryLoad(entries[k].1, files).Ok?
        invariant k == |made| && Progress(entries, files, buf, toLinear, made)
        invariant m == MapOf(entries[..k], made)
        invariant forall o :: o in made ==> fresh(o)
      {
        var s := NewStimulus(entries[k].1, files, buf, toLinear);
        ProgressStep(entries, files, buf, toLinear, made, s);
        MapOfSnoc(entries, made, s);
        m := m[entries[k].0 := s];
        made := made + [s];
        k := k + 1;
      }
      ProgressListed(entries, files, buf, toLinear, made);
      LoadedDict(entries, files, buf, toLinear, k, made);
      FirstFailureAt(entries, files, k);
    }

    /**
     * The loading loop as evidently intended, with `k` advanced for each entry:
     * the j-th stimulus is bound to slice j of a buffer with a slice per entry,
     * so no two loaded stimuli share a column and the playback cycle fills every
     * one of them.
     */
    static method LoadEntriesPerSlice(entries: seq<(string, StimulusEntry)>, files: map<string, WavFile>,
                                      buf: array3<int>, toLinear: real -> real)
      returns (made: seq<Stimulus>)
      requires |entries| <= buf.Length2
      ensures |made| == FirstFailure(entries, files)
      ensures forall j :: 0 <= j < |made| ==>
                fresh(made[j]) && MadeFrom(made[j], entries[j].1, files, buf, j)
                && made[j].gain == toLinear(GetOr(entries[j].1.offGain, 0.0)) && made[j].curpos == 0
      ensures Listed(made, buf) && SlotsDistinct(made)
    {
      made := [];
      while |made| < |entries| && EntryLoad(entries[|made|].1, files).Ok?
        invariant |made| <= |entries|
        invariant forall j :: 0 <= j < |made| ==>
                    fresh(made[j]) && MadeFrom(made[j], entries[j].1, files, buf, j) && made[j].Valid()
                    && made[j].gain == toLinear(GetOr(entries[j].1.offGain, 0.0)) && made[j].curpos == 0
      {
        var e := entries[|made|].1;
        var file := EntryLoad(e, files).value;
        var s := new Stimulus(file.samples, file.fs, buf, |made|, GetOr(e.channel, 0), toLinear(GetOr(e.offGain, 0.0)), true);
        made := made + [s];
      }
      FirstFailureAt(entries, files, |made|);
    }

    /** `set_gain`: the named stimulus gets the gain; a name that was not loaded raises KeyError. */
    method SetGain(name: string, g: real) returns (r: Outcome)
      requires Valid()
      modifies set s | s in stimuli.Values
      ensures r == if name in stimuli then Done else Fail(KeyError)
      ensures name in stimuli ==> stimuli[name].gain == g
      ensures forall k :: k in stimuli && k != name ==> stimuli[k].gain == old(stimuli[k].gain)
      ensures forall k :: k in stimuli ==> stimuli[k].curpos == old(stimuli[k].curpos)
    {
      if name !in stimuli {
        return Fail(KeyError);
      }
      stimuli[name].SetGain(g);
      return Done;
    }

    /**
     * One pass of `play`'s loop: every stimulus fills its column of slice 0
     * (an exception there ends `play`), then at most one message is received
     * from the socket and handled. All stimuli share slice 0, so a stimulus's
     * column holds its samples only when no later stimulus has its channel.
     */
    method Cycle(msg: Option<seq<Command>>) returns (r: Outcome)
      requires Valid() && Listed(order, dataBuf) && forall k :: k in stimuli ==> stimuli[k] in order
      modifies this`running, dataBuf, set s | s in order
      ensures Listed(order, dataBuf)
      ensures r == old(FillOutcome(order))
      ensures r.Fail? ==> running == old(running)
      ensures r.Done? ==> forall j :: 0 <= j < |order| ==>
        && order[j].curpos == NextCursor(old(order[j].curpos), order[j].bufferLen, |order[j].samples|)
        && order[j].currentGain == if order[j].windowing then old(order[j].gain) else old(order[j].currentGain)
      ensures r.Done? && msg.None? ==> running == old(running)
      ensures r.Done? && msg.Some? && HasKey(msg.value, "Stop") ==> !running
      ensures r.Done? && msg.Some? && !HasKey(msg.value, "Stop") ==>
        running == (old(running) && !Applied(msg.value, stimuli.Keys, Halt).1)
      ensures forall k :: k in stimuli ==> (stimuli[k].gain ==
        if r.Done? && msg.Some? && !HasKey(msg.value, "Stop") && k in Applied(msg.value, stimuli.Keys, Halt).0
        then Applied(msg.value, stimuli.Keys, Halt).0[k] else old(stimuli[k].gain))
    {
      r := FillAll(order, dataBuf);
      if r.Fail? || msg.None? {
        return;
      }
      HandleMessage(msg.value);
    }

    /**
     * `play`'s checks before the loop: refused without a device or without
     * stimuli (a partial load leaves some), otherwise playback starts.
     */
    method Play() returns (ok: bool)
      modifies this`errors, this`running
      ensures !deviceOpen ==> !ok && errors == old(errors) + [NoDeviceConfigured] && running == old(running)
      ensures deviceOpen && stimuli == map[] ==> !ok && errors == old(errors) + [NoStimuliSpecified] && running == old(running)
      ensures deviceOpen && stimuli != map[] ==> ok && running && errors == old(errors)
    {
      if !deviceOpen {
        errors := errors + [NoDeviceConfigured];
        return false;
      }
      if stimuli == map[] {
        errors := errors + [NoStimuliSpecified];
        return false;
      }
      running := true;
      return true;
    }

    /**
     * A message received while playing: a `Stop` key ends playback and sets no
     * gain. Otherwise the entries set the gains of the stimuli they name, in
     * order, and the first key that names no stimulus raises, which is caught
     * and also ends playback.
     */
    method HandleMessage(cmds: seq<Command>)
      requires Valid()
      modifies this`running, set s | s in stimuli.Values
      ensures forall s :: s in order ==> s.curpos == old(s.curpos) && s.currentGain == old(s.currentGain)
      ensures HasKey(cmds, "Stop") ==> !running
      ensures !HasKey(cmds, "Stop") ==> running == (old(running) && !Applied(cmds, stimuli.Keys, Halt).1)
      ensures forall k :: k in stimuli ==>
        stimuli[k].gain == (if !HasKey(cmds, "Stop") && k in Applied(cmds, stimuli.Keys, Halt).0
                            then Applied(cmds, stimuli.Keys, Halt).0[k] else old(stimuli[k].gain))
      ensures forall k :: k in stimuli ==>
        stimuli[k].curpos == old(stimuli[k].curpos) && stimuli[k].currentGain == old(stimuli[k].currentGain)
    {
      if HasKey(cmds, "Stop") {
        running := false;
        return;
      }
      var halted := ApplyCommands(stimuli, cmds, Halt);
      if halted {
        running := false;
      }
      forall s | s in order
        ensures s.curpos == old(s.curpos) && s.currentGain == old(s.currentGain)
      {
        if exists k :: k in stimuli && stimuli[k] == s {
          var k :| k in stimuli && stimuli[k] == s;
        }
      }
    }
  }

  /**
   * Because the loading loop never increments `k`, two loaded stimuli whose
   * entries name the same channel write the same column of slice 0.
   */
  lemma AliasedSlots(m: map<string, Stimulus>, entries: seq<(string, StimulusEntry)>, files: map<string, WavFile>,
                     buf: array3<int>, toLinear: real -> real, k: nat, i: nat, j: nat)
    requires k <= |entries| && Loaded(m, entries, files, buf, toLinear, k)
    requires i < j < k && GetOr(entries[i].1.channel, 0) == GetOr(entries[j].1.channel, 0)
    ensures m[entries[i].0].slice == m[entries[j].0].slice == 0
    ensures Column(m[entries[i].0].channel, buf.Length1) == Column(m[entries[j].0].channel, buf.Length1)
    ensures !SlotsDistinct([m[entries[i].0], m[entries[j].0]])
  {
    var pair := [m[entries[i].0], m[entries[j].0]];
    assert pair[0].slice == pair[1].slice;
  }

  /** The dict built by the loading loop holds the names of the entries loaded, each bound to the stimulus made from it. */
  lemma LoadedDict(entries: seq<(string, StimulusEntry)>, files: map<string, WavFile>, buf: array3<int>,
                   toLinear: real -> real, k: nat, made: seq<Stimulus>)
    requires DistinctNames(entries) && k == |made| && Progress(entries, files, buf, toLinear, made)
    ensures Loaded(MapOf(entries[..k], made), entries, files, buf, toLinear, k)
    ensures forall n :: n in MapOf(entries[..k], made) ==> MapOf(entries[..k], made)[n] in made
    ensures forall a, b :: a in MapOf(entries[..k], made) && b in MapOf(entries[..k], made) && a != b ==>
      MapOf(entries[..k], made)[a] != MapOf(entries[..k], made)[b]
  {
    var pre := entries[..k];
    assert forall j :: 0 <= j < k ==> pre[j] == entries[j];
    assert DistinctNames(pre);
    MapOfKeys(pre, made);
    MapOfAt(pre, made);
    MapOfValues(pre, made);
    var m := MapOf(pre, made);
    forall j | 0 <= j < k
      ensures entries[j].0 in m && LoadedFrom(m[entries[j].0], entries[j].1, files, buf, toLinear)
    {
      assert m[pre[j].0] == made[j];
    }
  }

  /** The loading loop has made one distinct stimulus from each of the first `|made|` entries, all of which load. */
  ghost predicate Progress(entries: seq<(string, StimulusEntry)>, files: map<string, WavFile>, buf: array3<int>,
                           toLinear: real -> real, made: seq<Stimulus>)
    reads made
  {
    && |made| <= |entries|
    && (forall j :: 0 <= j < |made| ==> EntryLoad(entries[j].1, files).Ok?)
    && (forall i, j :: 0 <= i < j < |made| ==> made[i] != made[j])
    && (forall j :: 0 <= j < |made| ==> LoadedFrom(made[j], entries[j].1, files, buf, toLinear))
  }

  /** The stimuli made so far are distinct objects bound to the data buffer. */
  lemma ProgressListed(entries: seq<(string, StimulusEntry)>, files: map<string, WavFile>, buf: array3<int>,
                       toLinear: real -> real, made: seq<Stimulus>)
    requires Progress(entries, files, buf, toLinear, made) && buf.Length2 > 0
    ensures Listed(made, buf)
  {
    forall s | s in made
      ensures s.data == buf && s.Valid()
    {
      var j :| 0 <= j < |made| && made[j] == s;
      assert LoadedFrom(made[j], entries[j].1, files, buf, toLinear);
    }
  }

  /** One more stimulus, made from the next entry, keeps Progress. */
  lemma ProgressStep(entries: seq<(string, StimulusEntry)>, files: map<string, WavFile>, buf: array3<int>,
                     toLinear: real -> real, made: seq<Stimulus>, s: Stimulus)
    requires Progress(entries, files, buf, toLinear, made) && |made| < |entries| && s !in made
    requires EntryLoad(entries[|made|].1, files).Ok? && LoadedFrom(s, entries[|made|].1, files, buf, toLinear)
    ensures Progress(entries, files, buf, toLinear, made + [s])
  {
    var m := made + [s];
    forall i, j | 0 <= i < j < |m|
      ensures m[i] != m[j]
    {
      if j == |made| {
        assert m[i] == made[i];
      }
    }
  }

  /**
   * When every entry loads, loading returns True exactly when the files share
   * one sampling rate, which becomes the system's rate, and raises
   * AttributeError otherwise; nothing is reported.
   */
  lemma AllLoadOutcome(entries: seq<(string, StimulusEntry)>, files: map<string, WavFile>)
    requires |entries| > 0 && forall j :: 0 <= j < |entries| ==> EntryLoad(entries[j].1, files).Ok?
    ensures LoadOutcomeOf(entries, files).reports == []
    ensures LoadOutcomeOf(entries, files).r == Ok(true) <==>
      forall j :: 0 <= j < |entries| ==> EntryLoad(entries[j].1, files).value.fs == EntryLoad(entries[0].1, files).value.fs
    ensures LoadOutcomeOf(entries, files).r != Ok(true) ==> LoadOutcomeOf(entries, files) == LoadOutcome(Err(AttributeError), [], None)
    ensures LoadOutcomeOf(entries, files).r == Ok(true) ==>
      LoadOutcomeOf(entries, files).rate == Some(EntryLoad(entries[0].1, files).value.fs)
  {
    FirstFailureAt(entries, files, |entries|);
    var rates := RatesOf(entries, files);
    assert forall j :: 0 <= j < |entries| ==> rates[j] == EntryLoad(entries[j].1, files).value.fs;
  }

  /**
   * The first entry that fails to load decides: without a Filename loading
   * raises KeyError, otherwise that file is reported and False returned; in
   * both cases the rate is left as it was.
   */
  lemma FailedLoadOutcome(entries: seq<(string, StimulusEntry)>, files: map<string, WavFile>, j: nat)
    requires j < |entries| && EntryLoad(entries[j].1, files).Err?
    requires forall i :: 0 <= i < j ==> EntryLoad(entries[i].1, files).Ok?
    ensures entries[j].1.filename.None? ==> LoadOutcomeOf(entries, files) == LoadOutcome(Err(KeyError), [], None)
    ensures entries[j].1.filename.Some? ==>
      LoadOutcomeOf(entries, files) == LoadOutcome(Ok(false), [LoadFailed(entries[j].1.filename.value)], None)
  {
    FirstFailureAt(entries, files, j);
  }

  /** A loop that stops at the first entry that fails to load stops at FirstFailure. */
  lemma {:induction false} FirstFailureAt(entries: seq<(string, StimulusEntry)>, files: map<string, WavFile>, k: nat)
    requires k <= |entries| && forall j :: 0 <= j < k ==> EntryLoad(entries[j].1, files).Ok?
    requires k == |entries| || EntryLoad(entries[k].1, files).Err?
    ensures k == FirstFailure(entries, files)
  {
  }
}
