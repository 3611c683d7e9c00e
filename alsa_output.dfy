/**
 * The stand-alone playback process of ClientSide/alsa_output.py. It is built
 * like the one of ClientSide/treadmillio/alsainterface.py, from the same
 * audio configuration, except that no stimulus name is refused; it has no
 * control pipe, so its `play` only fills the buffer, cycle after cycle.
 */
module AlsaOutput {
  import opened Common
  import opened AlsaStimulus
  import opened AlsaInterface

  /** No name is illegal for a stimulus here. */
  const NoIllegalNames: set<string> := {}

  /**
   * Every configuration the treadmillio constructor accepts, this one accepts
   * too, with the same merged stimuli, buffer rows and sampling rate: the
   * stand-alone process only drops the check on names.
   */
  lemma ConstructAcceptsMore(config: AudioConfig, files: map<string, WavFile>)
    ensures Construct(config, files, IllegalNames).Ok? ==>
      && Construct(config, files, NoIllegalNames).Ok?
      && Construct(config, files, NoIllegalNames).value.setup.entries == Construct(config, files, IllegalNames).value.setup.entries
      && Construct(config, files, NoIllegalNames).value.setup.bufferSize == Construct(config, files, IllegalNames).value.setup.bufferSize
      && Construct(config, files, NoIllegalNames).value.fs == Construct(config, files, IllegalNames).value.fs
  {
    var c := Construct(config, files, IllegalNames);
    if c.Ok? {
      var su := c.value.setup;
      var su' := Prepared(config, files, NoIllegalNames).value;
      assert su'.entries == su.entries && su'.env == su.env.(illegal := NoIllegalNames);
      forall j | 0 <= j < |su.entries|
        ensures Load(su'.env, su.entries[j]) == Load(su.env, su.entries[j])
      {
        assert Load(su.env, su.entries[j]).Ok?;
      }
      FirstFailureAt(su.entries, su'.env, |su.entries|);
      assert RatesOf(su.entries, su'.env) == RatesOf(su.entries, su.env);
    }
  }

  /** `ALSAPlaybackSystem` of ClientSide/alsa_output.py. */
  class PlaybackSystem {
    var devices: map<string, int>
    var stimuli: map<string, Stimulus>
    var order: seq<Stimulus>
    var dataBuf: array3<int>
    var fs: int

    /**
     * The stimuli are distinct objects bound to the data buffer, one per name,
     * and no two write the same column of the same slice.
     */
    ghost predicate Valid()
      reads this, set s | s in order
    {
      && Listed(order, dataBuf) && SlotsDistinct(order)
      && (forall k :: k in stimuli ==> stimuli[k] in order)
      && (forall a, b :: a in stimuli && b in stimuli && a != b ==> stimuli[a] != stimuli[b])
    }

    /** The system's pieces. */
    ghost function Pieces(): Parts
      reads this
    {
      Parts(devices, stimuli, order, dataBuf, fs)
    }

    /** A system holding pieces Built to a plan. */
    constructor (p: Parts, ghost plan: Plan, ghost toLinear: real -> real)
      requires Built(p, plan, toLinear)
      ensures Valid() && Pieces() == p
    {
      BuiltValid(p, plan, toLinear);
      devices := p.devices;
      stimuli := p.stimuli;
      order := p.order;
      dataBuf := p.dataBuf;
      fs := p.fs;
    }

    /** The constructor: Build with no illegal name. */
    static method Create(config: AudioConfig, files: map<string, WavFile>, toLinear: real -> real)
      returns (r: Result<PlaybackSystem>)
      requires config.stimuliList.Some? ==> DistinctNames(config.stimuliList.value)
      ensures r.Err? <==> Construct(config, files, NoIllegalNames).Err?
      ensures r.Err? ==> r.error == Construct(config, files, NoIllegalNames).error
      ensures r.Ok? ==> && fresh(r.value) && fresh(r.value.dataBuf) && (forall o :: o in r.value.order ==> fresh(o))
                        && r.value.Valid()
                        && Built(r.value.Pieces(), Construct(config, files, NoIllegalNames).value, toLinear)
    {
      var parts := Build(config, files, toLinear, NoIllegalNames);
      if parts.Err? {
        return Err(parts.error);
      }
      var system := new PlaybackSystem(parts.value, Construct(config, files, NoIllegalNames).value, toLinear);
      return Ok(system);
    }

    /**
     * One pass of `play`'s endless loop: every stimulus fills its slice (an
     * exception there ends `play`); gains do not change. After a pass that
     * did not raise, every stimulus's column holds its next samples.
     */
    method Cycle() returns (r: Outcome)
      requires Valid()
      modifies dataBuf, set s | s in order
      ensures Valid()
      ensures r == old(FillOutcome(order))
      ensures forall j :: 0 <= j < |order| ==> order[j].gain == old(order[j].gain)
      ensures r.Done? ==> forall j :: 0 <= j < |order| ==>
        && order[j].curpos == NextCursor(old(order[j].curpos), order[j].bufferLen, |order[j].samples|)
        && Filled(order[j], old(order[j].curpos))
    {
      r := FillAll(order, dataBuf);
    }
  }
}
