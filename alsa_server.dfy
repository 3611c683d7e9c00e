/**
 * The playback process of the network sound server
 * (ClientSide/network_sound_server/alsainterface.py): it is built from a
 * device configuration, normalised against DEFAULT_OUTPUT_DEVICE, and a dict
 * of stimuli whose samples arrive with it; each stimulus gets its own slice
 * of the shared buffer and fades gain changes in. Each cycle of `play` fills
 * the buffer, applies the gain messages waiting in the control pipe, and
 * stops once the stop event is set.
 */
module AlsaServer {
  import opened Common
  import opened ConfigValues
  import opened AlsaStimulus

  /** DEFAULT_OUTPUT_DEVICE. */
  const DefaultOutputDevice: map<string, Value> :=
    map["Type" := VStr("Output"), "HWDevice" := VStr(""), "NChannels" := VInt(2), "NPeriods" := VInt(4),
        "DType" := VStr("int16"), "BufferSize" := VInt(256), "FS" := VInt(48000),
        "ChannelLabels" := VDict(map["Default1" := VInt(0), "Default2" := VInt(1)])]

  /** The names no stimulus may have (ILLEGAL_STIMULUS_NAMES). */
  const IllegalNames: set<string> := {"StopMessage"}

  /** The keys the constructor reads from the device configuration. */
  const DeviceKeys: set<string> := {"BufferSize", "DType", "HWDevice", "NChannels", "FS"}

  /** `normalize_output_device`: every missing DEFAULT_OUTPUT_DEVICE key is set to its default. */
  method NormalizeOutputDevice(config: map<string, Value>) returns (r: map<string, Value>)
    ensures r == WithDefaults(config, DefaultOutputDevice)
  {
    r := FillMissing(config, DefaultOutputDevice);
  }

  /**
   * A normalised configuration keeps every key it had, has every default key,
   * so none of the constructor's reads raises KeyError, and normalising it
   * again changes nothing.
   */
  lemma NormalizedConfig(config: map<string, Value>)
    ensures forall k :: k in config ==>
      (k in WithDefaults(config, DefaultOutputDevice) && WithDefaults(config, DefaultOutputDevice)[k] == config[k])
    ensures DefaultOutputDevice.Keys <= WithDefaults(config, DefaultOutputDevice).Keys
    ensures DeviceKeys <= WithDefaults(config, DefaultOutputDevice).Keys
    ensures WithDefaults(WithDefaults(config, DefaultOutputDevice), DefaultOutputDevice) == WithDefaults(config, DefaultOutputDevice)
  {
    WithDefaultsSpec(config, DefaultOutputDevice);
    WithDefaultsIdempotent(config, DefaultOutputDevice);
  }

  /** The keys the constructor reads from one stimulus entry, each of which may be missing. */
  datatype ServerEntry = ServerEntry(channel: Option<int>, stimData: Option<seq<int>>)

  /** The checks on one stimulus entry in the order the loop makes them: its name, then `Channel`, then `StimData`. */
  function EntryCheck(name: string, e: ServerEntry): (r: Outcome)
    ensures r.Done? <==> name !in IllegalNames && e.channel.Some? && e.stimData.Some?
    ensures name in IllegalNames ==> r == Fail(ValueError)
    ensures name !in IllegalNames && r.Fail? ==> r.error == KeyError
  {
    if name in IllegalNames then Fail(ValueError)
    else if e.channel.None? then Fail(KeyError)
    else if e.stimData.None? then Fail(KeyError)
    else Done
  }

  /** The index of the first entry that fails its checks, or the number of entries. */
  function FirstBad(entries: seq<(string, ServerEntry)>): (k: nat)
    ensures k <= |entries|
    ensures forall j :: 0 <= j < k ==> EntryCheck(entries[j].0, entries[j].1).Done?
    ensures k < |entries| ==> EntryCheck(entries[k].0, entries[k].1).Fail?
    decreases |entries|
  {
    if |entries| == 0 then 0
    else
      var n := |entries| - 1;
      var f := FirstBad(entries[..n]);
      if f < n then f else if EntryCheck(entries[n].0, entries[n].1).Fail? then n else |entries|
  }

  /** The sizes of the data buffer a successful construction allocates: rows, channels. */
  datatype Layout = Layout(bufferSize: nat, numChannels: nat)

  /**
   * The constructor's checks in the order it makes them: the five device keys
   * (KeyError), at least one stimulus (ValueError), the shape of the data
   * buffer (TypeError, then ValueError), each entry in turn, and finally a
   * sample type other than 'int16' (ValueError), checked only after the
   * device was opened.
   */
  function Construct(device: map<string, Value>, entries: seq<(string, ServerEntry)>): (r: Result<Layout>)
    ensures r.Err? ==> r.error == KeyError || r.error == ValueError || r.error == TypeError
    ensures r.Ok? ==> DeviceKeys <= device.Keys && |entries| > 0
                      && Dimension(device["BufferSize"]) == Ok(r.value.bufferSize as int)
                      && Dimension(device["NChannels"]) == Ok(r.value.numChannels as int)
  {
    if !(DeviceKeys <= device.Keys) then Err(KeyError)
    else if |entries| == 0 then Err(ValueError)
    else
      var shape := Shape([device["BufferSize"], device["NChannels"], VInt(|entries|)]);
      if shape.Err? then Err(shape.error)
      else if FirstBad(entries) < |entries| then Err(EntryCheck(entries[FirstBad(entries)].0, entries[FirstBad(entries)].1).error)
      else if device["DType"] != VStr("int16") then Err(ValueError)
      else Ok(Layout(shape.value[0], shape.value[1]))
  }

  /**
   * Construction succeeds exactly when the five device keys are present, there
   * is a stimulus, the buffer and channel counts are non-negative integers,
   * every entry has a legal name, a Channel and StimData, and the sample type
   * is 'int16'.
   */
  lemma ConstructOk(device: map<string, Value>, entries: seq<(string, ServerEntry)>)
    ensures Construct(device, entries).Ok? <==>
      && DeviceKeys <= device.Keys && |entries| > 0
      && Dimension(device["BufferSize"]).Ok? && Dimension(device["BufferSize"]).value >= 0
      && Dimension(device["NChannels"]).Ok? && Dimension(device["NChannels"]).value >= 0
      && (forall j :: 0 <= j < |entries| ==> EntryCheck(entries[j].0, entries[j].1).Done?)
      && device["DType"] == VStr("int16")
  {
    if DeviceKeys <= device.Keys && |entries| > 0 {
      var dims := [device["BufferSize"], device["NChannels"], VInt(|entries|)];
      assert Dimension(dims[2]) == Ok(|entries|);
      if Shape(dims).Ok? {
        assert Dimension(dims[0]) == Ok(Shape(dims).value[0] as int);
        assert Dimension(dims[1]) == Ok(Shape(dims).value[1] as int);
      } else if Dimension(dims[0]).Ok? && Dimension(dims[0]).value >= 0 && Dimension(dims[1]).Ok? && Dimension(dims[1]).value >= 0 {
        forall j | 0 <= j < 3 ensures Dimension(dims[j]).Ok? && Dimension(dims[j]).value >= 0 {
        }
      }
    }
  }

  /** The stimulus the loop makes from entry `j`: its samples, slice `j`, its channel, gain 0 and a fade window. */
  ghost predicate MadeFrom(s: Stimulus, e: ServerEntry, buf: array3<int>, j: nat)
    reads s
  {
    && e.channel.Some? && e.stimData.Some?
    && s.samples == e.stimData.value && s.data == buf && s.slice == j && s.bufferLen == buf.Length0
    && s.channel == e.channel.value && s.windowing
    && s.curpos == 0 && s.gain == 0.0 && s.currentGain == 0.0
  }

  /** The loop has made a distinct stimulus from each of the first `|made|` entries. */
  ghost predicate Progress(entries: seq<(string, ServerEntry)>, buf: array3<int>, made: seq<Stimulus>)
    reads made
  {
    && |made| <= |entries|
    && (forall i, j :: 0 <= i < j < |made| ==> made[i] != made[j])
    && (forall j :: 0 <= j < |made| ==> MadeFrom(made[j], entries[j].1, buf, j))
  }

  /**
   * `ALSAPlaybackSystem` of the network sound server: the stimuli by name, the
   * same stimuli in the dict's order, and the buffer they share.
   */
  class Server {
    var running: bool
    var stimuli: map<string, Stimulus>
    var order: seq<Stimulus>
    var dataBuf: array3<int>
    var numStimuli: nat

    /**
     * The stimuli are distinct objects bound to the data buffer, one per name,
     * and no two write the same column of the same slice.
     */
    ghost predicate Valid()
      reads this, set s | s in order
    {
      && Listed(order, dataBuf) && SlotsDistinct(order) && numStimuli == |order|
      && (forall k :: k in stimuli ==> stimuli[k] in order)
      && (forall a, b :: a in stimuli && b in stimuli && a != b ==> stimuli[a] != stimuli[b])
    }

    /** A server over the stimuli made for it. */
    constructor (buf: array3<int>, stimuli: map<string, Stimulus>, order: seq<Stimulus>)
      ensures !running && this.stimuli == stimuli && this.order == order && dataBuf == buf && numStimuli == |order|
    {
      running := false;
      this.stimuli := stimuli;
      this.order := order;
      dataBuf := buf;
      numStimuli := |order|;
    }

    /**
     * The constructor: it raises the error of Construct, and otherwise holds
     * one fresh stimulus per entry, in order, each MadeFrom its entry with its
     * own slice of a fresh buffer of the Layout's rows and channels, one slice
     * per stimulus.
     */
    static method Create(device: map<string, Value>, entries: seq<(string, ServerEntry)>) returns (r: Result<Server>)
      requires DistinctNames(entries)
      ensures r.Err? <==> Construct(device, entries).Err?
      ensures r.Err? ==> r.error == Construct(device, entries).error
      ensures r.Ok? ==> var s := r.value;
        && fresh(s) && fresh(s.dataBuf) && s.Valid() && !s.running
        && s.dataBuf.Length0 == Construct(device, entries).value.bufferSize
        && s.dataBuf.Length1 == Construct(device, entries).value.numChannels
        && s.dataBuf.Length2 == |entries| == |s.order|
        && s.stimuli == MapOf(entries, s.order)
        && forall j :: 0 <= j < |entries| ==> fresh(s.order[j]) && MadeFrom(s.order[j], entries[j].1, s.dataBuf, j)
    {
      var c := Construct(device, entries);
      if c.Err? {
        return Err(c.error);
      }
      var buf := new int[c.value.bufferSize, c.value.numChannels, |entries|];
      var made, m := MakeStimuli(entries, buf);
      MapOfValues(entries, made);
      ServerSlots(made, buf);
      var server := new Server(buf, m, made);
      return Ok(server);
    }

    /** The loop over the stimuli entries: one fresh stimulus per entry, with slice `k` for the `k`-th. */
    static method MakeStimuli(entries: seq<(string, ServerEntry)>, buf: array3<int>)
      returns (made: seq<Stimulus>, m: map<string, Stimulus>)
      requires |entries| == buf.Length2
      requires forall j :: 0 <= j < |entries| ==> EntryCheck(entries[j].0, entries[j].1).Done?
      ensures |made| == |entries| && Progress(entries, buf, made) && m == MapOf(entries, made)
      ensures forall o :: o in made ==> fresh(o)
    {
      made := [];
      m := map[];
      var k := 0;
      while k < |entries|
        invariant k == |made| <= |entries| && Progress(entries, buf, made)
        invariant m == MapOf(entries[..k], made)
        invariant forall o :: o in made ==> fresh(o)
      {
        var e := entries[k].1;
        var s := new Stimulus(e.stimData.value, 0, buf, k, e.channel.value, 0.0, true);
        MapOfSnoc(entries, made, s);
        m := m[entries[k].0 := s];
        made := made + [s];
        k := k + 1;
      }
      assert entries[..k] == entries;
    }

    /** `set_gain`: the named stimulus gets the gain; an unknown name raises KeyError. */
    method SetGain(name: string, g: real) returns (r: Outcome)
      requires Valid()
      modifies set s | s in stimuli.Values
      ensures r == if name in stimuli then Done else Fail(KeyError)
      ensures name in stimuli ==> stimuli[name].gain == g
      ensures forall k :: k in stimuli && k != name ==> stimuli[k].gain == old(stimuli[k].gain)
      ensures forall k :: k in stimuli ==> stimuli[k].curpos == old(stimuli[k].curpos)
    {
      if name !in stimuli {
        return Fail(KeyError);
      }
      stimuli[name].SetGain(g);
      return Done;
    }

    /**
     * One pass of `play`'s loop: every stimulus fills its slice (an exception
     * there ends `play`), the waiting messages are applied with unknown keys
     * raising inside the caught block, and the loop goes on unless the stop
     * event is set. As every stimulus has its own slice, after a pass that
     * did not raise every stimulus's column holds its next samples.
     */
    method Cycle(msgs: seq<seq<Command>>, stopSet: bool) returns (r: Outcome, more: bool)
      requires Valid()
      modifies dataBuf, set s | s in order
      ensures Valid()
      ensures r == old(FillOutcome(order))
      ensures more == (r.Done? && !stopSet)
      ensures r.Done? ==> forall j :: 0 <= j < |order| ==>
        && order[j].curpos == NextCursor(old(order[j].curpos), order[j].bufferLen, |order[j].samples|)
        && Filled(order[j], old(order[j].curpos))
      ensures r.Done? ==> forall k :: k in stimuli ==>
        stimuli[k].gain == GainAfter(msgs, stimuli.Keys, Halt, k, old(stimuli[k].gain))
    {
      r := FillAll(order, dataBuf);
      if r.Fail? {
        return r, false;
      }
      Deliver(msgs);
      more := !stopSet;
    }

    /** The message loop of a cycle: gains change, cursors and the buffer do not. */
    method Deliver(msgs: seq<seq<Command>>)
      requires Valid()
      modifies set s | s in order
      ensures Valid()
      ensures forall s :: s in order ==> s.curpos == old(s.curpos)
      ensures forall k :: k in stimuli ==> stimuli[k].gain == GainAfter(msgs, stimuli.Keys, Halt, k, old(stimuli[k].gain))
    {
      ApplyMessages(stimuli, msgs, Halt);
      forall s | s in order
        ensures s.curpos == old(s.curpos) && s.Valid()
      {
        if exists k :: k in stimuli && stimuli[k] == s {
          var k :| k in stimuli && stimuli[k] == s;
        }
      }
    }
  }

  /** Stimuli made from distinct entries in order have distinct slices, so no two share a column of a slice, and they are Listed on the buffer. */
  lemma ServerSlots(made: seq<Stimulus>, buf: array3<int>)
    requires forall j :: 0 <= j < |made| ==> made[j].slice == j && made[j].data == buf && made[j].Valid()
    requires forall i, j :: 0 <= i < j < |made| ==> made[i] != made[j]
    ensures SlotsDistinct(made) && Listed(made, buf)
  {
  }
}
