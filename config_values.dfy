/**
 * The YAML-loaded configuration dicts of the ALSA playback processes, and
 * the operations their constructors apply to them: filling in default keys
 * (`normalize_output_device`, the `Defaults` merge of the stimuli list),
 * membership tests on arbitrary values, the shape given to `np.zeros`, the
 * gain in dB and `os.path.join`.
 */
module ConfigValues {
  import opened Common

  /** A configuration value as Python holds it after loading YAML. */
  datatype Value =
    | VNone
    | VBool(b: bool)
    | VInt(i: int)
    | VReal(r: real)
    | VStr(s: string)
    | VList(items: seq<Value>)
    | VDict(d: map<string, Value>)

  /**
   * `target[key] = target.get(key, value)` for every default: the keys of
   * `target` keep their values and the missing default keys are added with
   * their default values.
   */
  function WithDefaults(target: map<string, Value>, defaults: map<string, Value>): (r: map<string, Value>)
    ensures target.Keys <= r.Keys && defaults.Keys <= r.Keys
    ensures forall k :: k in r ==> if k in target then r[k] == target[k] else k in defaults && r[k] == defaults[k]
  {
    map k | k in target.Keys + defaults.Keys :: if k in target then target[k] else defaults[k]
  }

  /**
   * Filling in defaults adds exactly the missing default keys and changes no
   * key that was there.
   */
  lemma WithDefaultsSpec(target: map<string, Value>, defaults: map<string, Value>)
    ensures WithDefaults(target, defaults).Keys == target.Keys + defaults.Keys
    ensures forall k :: k in target ==> WithDefaults(target, defaults)[k] == target[k]
    ensures forall k :: k in defaults && k !in target ==> WithDefaults(target, defaults)[k] == defaults[k]
  {
  }

  /** Filling in the same defaults a second time changes nothing. */
  lemma WithDefaultsIdempotent(target: map<string, Value>, defaults: map<string, Value>)
    ensures WithDefaults(WithDefaults(target, defaults), defaults) == WithDefaults(target, defaults)
  {
    var once := WithDefaults(target, defaults);
    assert WithDefaults(once, defaults).Keys == once.Keys;
  }

  /** Defaults leave a dict as it is exactly when it already has every default key. */
  lemma WithDefaultsUnchanged(target: map<string, Value>, defaults: map<string, Value>)
    ensures WithDefaults(target, defaults) == target <==> defaults.Keys <= target.Keys
  {
    if defaults.Keys <= target.Keys {
      assert WithDefaults(target, defaults).Keys == target.Keys;
    }
  }

  /**
   * The loop over the items of a defaults dict that assigns each missing key
   * (`normalize_output_device`, and the sub-key loop of the `Defaults` merge).
   */
  method FillMissing(target: map<string, Value>, defaults: map<string, Value>) returns (r: map<string, Value>)
    ensures r == WithDefaults(target, defaults)
  {
    r := target;
    var todo := defaults.Keys;
    while todo != {}
      invariant todo <= defaults.Keys
      invariant r == WithDefaults(target, defaults - todo)
      decreases |todo|
    {
      var k :| k in todo;
      if k !in r {
        r := r[k := defaults[k]];
      }
      todo := todo - {k};
    }
    assert defaults - todo == defaults;
  }

  /** `sub` occurs in `s` as a contiguous part. */
  predicate IsSubstring(sub: string, s: string)
    decreases |s|
  {
    sub <= s || (|s| > 0 && IsSubstring(sub, s[1..]))
  }

  /** `sub` occurs in `s` at offset `i`. */
  predicate OccursAt(sub: string, s: string, i: int)
  {
    0 <= i && i + |sub| <= |s| && s[i..i + |sub|] == sub
  }

  /** A substring occurs at some offset of the string. */
  lemma {:induction false} IsSubstringAt(sub: string, s: string)
    requires IsSubstring(sub, s)
    ensures exists i :: OccursAt(sub, s, i)
    decreases |s|
  {
    if sub <= s {
      assert OccursAt(sub, s, 0);
    } else {
      IsSubstringAt(sub, s[1..]);
      var i :| OccursAt(sub, s[1..], i);
      assert s[i + 1..i + 1 + |sub|] == s[1..][i..i + |sub|];
      assert OccursAt(sub, s, i + 1);
    }
  }

  /**
   * `key in container`: a dict tests its keys, a string its substrings, a
   * list its elements; any other value raises TypeError.
   */
  function Contains(container: Value, key: string): (r: Result<bool>)
    ensures r.Ok? <==> container.VDict? || container.VStr? || container.VList?
    ensures r.Err? ==> r.error == TypeError
    ensures container.VDict? ==> r == Ok(key in container.d)
  {
    match container
    case VDict(d) => Ok(key in d)
    case VStr(s) => Ok(IsSubstring(key, s))
    case VList(items) => Ok(VStr(key) in items)
    case _ => Err(TypeError)
  }

  /**
   * The sub-key loop of the `Defaults` merge on a stimulus's existing value:
   * a dict gets its missing sub-keys; any other value is left as it is when
   * it contains every sub-key, and otherwise the first missing sub-key
   * raises TypeError, from the `in` test or from the item assignment.
   */
  function FillSubKeys(existing: Value, d: map<string, Value>): (r: Result<Value>)
    ensures existing.VDict? ==> r.Ok? && r.value.VDict? && existing.d.Keys <= r.value.d.Keys
    ensures r.Err? ==> r.error == TypeError && !existing.VDict? && d != map[]
    ensures r.Ok? && !existing.VDict? ==> r.value == existing
  {
    if existing.VDict? then Ok(VDict(WithDefaults(existing.d, d)))
    else if forall k :: k in d ==> Contains(existing, k) == Ok(true) then Ok(existing)
    else Err(TypeError)
  }

  /**
   * A dict keeps its sub-keys and gains the missing ones; any other value is
   * never changed, and it raises exactly when some sub-key is not in it
   * (always, for a value without `in`, when there are sub-keys).
   */
  lemma FillSubKeysSpec(existing: Value, d: map<string, Value>)
    ensures FillSubKeys(existing, d).Ok? && existing.VDict? ==>
      FillSubKeys(existing, d).value.VDict?
      && FillSubKeys(existing, d).value.d.Keys == existing.d.Keys + d.Keys
      && forall k :: k in existing.d ==> FillSubKeys(existing, d).value.d[k] == existing.d[k]
    ensures FillSubKeys(existing, d).Ok? && !existing.VDict? ==> FillSubKeys(existing, d).value == existing
    ensures FillSubKeys(existing, d).Err? <==> !existing.VDict? && exists k :: k in d && Contains(existing, k) != Ok(true)
    ensures FillSubKeys(existing, d).Err? ==> FillSubKeys(existing, d).error == TypeError
    ensures !(existing.VDict? || existing.VStr? || existing.VList?) ==> (FillSubKeys(existing, d).Err? <==> d != map[])
  {
    if existing.VDict? {
      WithDefaultsSpec(existing.d, d);
    } else if !(existing.VStr? || existing.VList?) && d != map[] {
      var k :| k in d;
      assert Contains(existing, k).Err?;
    }
  }

  /**
   * The sub-key loop on a value that is not a dict: each sub-key must be in
   * it, or the loop raises TypeError.
   */
  method CheckSubKeys(existing: Value, d: map<string, Value>) returns (r: Outcome)
    ensures r.Done? <==> forall k :: k in d ==> Contains(existing, k) == Ok(true)
    ensures r.Fail? ==> r.error == TypeError
  {
    var todo := d.Keys;
    while todo != {}
      invariant todo <= d.Keys
      invariant forall k :: k in d && k !in todo ==> Contains(existing, k) == Ok(true)
      decreases |todo|
    {
      var k :| k in todo;
      var c := Contains(existing, k);
      if c != Ok(true) {
        return Fail(TypeError);
      }
      todo := todo - {k};
    }
    return Done;
  }

  /** A default `key: item` needs the sub-key fill on the stimulus, and that fill raises. */
  predicate Clashes(stim: map<string, Value>, key: string, item: Value)
  {
    key in stim && item.VDict? && FillSubKeys(stim[key], item.d).Err?
  }

  /**
   * The `Defaults` merge into one stimulus dict: it raises TypeError when some
   * default Clashes with the stimulus; otherwise the missing default keys are
   * added with their values, the existing keys with a dict default get the
   * sub-key fill, and every other key keeps its value.
   */
  function Merged(stim: map<string, Value>, defaults: map<string, Value>): (r: Result<map<string, Value>>)
    ensures r.Err? <==> exists k :: k in defaults && Clashes(stim, k, defaults[k])
    ensures r.Err? ==> r.error == TypeError
    ensures r.Ok? ==> r.value.Keys == stim.Keys + defaults.Keys
    ensures r.Ok? ==> forall k :: k in defaults && k !in stim ==> r.value[k] == defaults[k]
    ensures r.Ok? ==> forall k :: k in stim && (k !in defaults || !defaults[k].VDict?) ==> r.value[k] == stim[k]
  {
    if exists k :: k in defaults && Clashes(stim, k, defaults[k]) then Err(TypeError)
    else Ok(map k | k in stim.Keys + defaults.Keys ::
      if k !in stim then defaults[k]
      else if k in defaults && defaults[k].VDict? then FillSubKeys(stim[k], defaults[k].d).value
      else stim[k])
  }

  /** Merging the same defaults into a merged stimulus changes nothing more. */
  lemma MergedIdempotent(stim: map<string, Value>, defaults: map<string, Value>)
    requires Merged(stim, defaults).Ok?
    ensures Merged(Merged(stim, defaults).value, defaults) == Merged(stim, defaults)
  {
    var m := Merged(stim, defaults).value;
    forall k | k in defaults && defaults[k].VDict?
      ensures FillSubKeys(m[k], defaults[k].d) == Ok(m[k])
    {
      var d := defaults[k].d;
      if k !in stim {
        WithDefaultsUnchanged(d, d);
      } else if stim[k].VDict? {
        WithDefaultsIdempotent(stim[k].d, d);
      }
    }
    assert Merged(m, defaults).Ok?;
    assert Merged(m, defaults).value.Keys == m.Keys;
    assert Merged(m, defaults).value == m;
  }

  /** The value a merge gives to a key the stimulus has, under a default that does not Clash. */
  function MergedValue(stim: map<string, Value>, key: string, item: Value): Value
    requires !Clashes(stim, key, item)
  {
    if key !in stim then item
    else if item.VDict? then FillSubKeys(stim[key], item.d).value
    else stim[key]
  }

  /** No defaults, no change. */
  lemma MergedNone(stim: map<string, Value>)
    ensures Merged(stim, map[]) == Ok(stim)
  {
    var e: map<string, Value> := map[];
    assert !exists k :: k in e && Clashes(stim, k, e[k]);
    var m := Merged(stim, e).value;
    assert m.Keys == stim.Keys;
    assert m == stim;
  }

  /** Merging one more default: the merge raises when it Clashes, and otherwise sets its key to the MergedValue. */
  lemma MergedInsert(stim: map<string, Value>, done: map<string, Value>, key: string, item: Value)
    requires Merged(stim, done).Ok? && key !in done
    ensures key in stim ==> key in Merged(stim, done).value && Merged(stim, done).value[key] == stim[key]
    ensures Clashes(stim, key, item) ==> Merged(stim, done[key := item]) == Err(TypeError)
    ensures !Clashes(stim, key, item) ==>
      Merged(stim, done[key := item]) == Ok(Merged(stim, done).value[key := MergedValue(stim, key, item)])
  {
    var d := done[key := item];
    assert d[key] == item;
    if !Clashes(stim, key, item) {
      forall k | k in d ensures !Clashes(stim, k, d[k]) {
        if k != key {
          assert k in done && d[k] == done[k];
        }
      }
      var m := Merged(stim, done).value;
      var m' := Merged(stim, d).value;
      assert m'.Keys == m[key := MergedValue(stim, key, item)].Keys;
      assert m' == m[key := MergedValue(stim, key, item)];
    }
  }

  /**
   * The loop over the `Defaults` items for one stimulus dict: a missing key is
   * assigned, an existing one with a dict default gets its sub-key loop, which
   * may raise.
   */
  method MergeStimulus(stim: map<string, Value>, defaults: map<string, Value>) returns (r: Result<map<string, Value>>)
    ensures r == Merged(stim, defaults)
  {
    var m := stim;
    var todo := defaults.Keys;
    assert defaults - todo == map[];
    MergedNone(stim);
    while todo != {}
      invariant todo <= defaults.Keys
      invariant Merged(stim, defaults - todo) == Ok(m)
      decreases |todo|
    {
      var key :| key in todo;
      var item := defaults[key];
      ghost var done := defaults - todo;
      MergedInsert(stim, done, key, item);
      ghost var m0 := m;
      if key !in m {
        m := m[key := item];
      } else if item.VDict? {
        var existing := m[key];
        if existing.VDict? {
          var filled := FillMissing(existing.d, item.d);
          m := m[key := VDict(filled)];
        } else {
          var ok := CheckSubKeys(existing, item.d);
          if ok.Fail? {
            assert Clashes(stim, key, defaults[key]);
            return Err(TypeError);
          }
          assert m[key := existing] == m;
        }
      } else {
        assert m[key := m[key]] == m;
      }
      assert !Clashes(stim, key, item) && m == m0[key := MergedValue(stim, key, item)];
      todo := todo - {key};
      assert defaults - todo == done[key := item];
    }
    assert defaults - todo == defaults;
    return Ok(m);
  }

  /**
   * The merge of the defaults into every stimulus of the list, in order: the
   * first stimulus whose merge raises ends it.
   */
  function MergedAll(stimuli: seq<(string, map<string, Value>)>, defaults: map<string, Value>)
    : (r: Result<seq<(string, map<string, Value>)>>)
    ensures r.Ok? ==> |r.value| == |stimuli|
    ensures r.Ok? ==> forall j :: 0 <= j < |stimuli| ==>
      r.value[j].0 == stimuli[j].0 && Merged(stimuli[j].1, defaults) == Ok(r.value[j].1)
    ensures r.Err? <==> exists j :: 0 <= j < |stimuli| && Merged(stimuli[j].1, defaults).Err?
    decreases |stimuli|
  {
    if |stimuli| == 0 then Ok([])
    else
      var n := |stimuli| - 1;
      var pre := MergedAll(stimuli[..n], defaults);
      var last := Merged(stimuli[n].1, defaults);
      if pre.Err? then pre
      else if last.Err? then Err(last.error)
      else Ok(pre.value + [(stimuli[n].0, last.value)])
  }

  /** The whole `Defaults` merge: the loop over the stimuli and, inside it, the loop over the defaults. */
  method MergeDefaults(stimuli: seq<(string, map<string, Value>)>, defaults: map<string, Value>)
    returns (r: Result<seq<(string, map<string, Value>)>>)
    ensures r == MergedAll(stimuli, defaults)
  {
    var merged: seq<(string, map<string, Value>)> := [];
    var i := 0;
    while i < |stimuli|
      invariant 0 <= i <= |stimuli|
      invariant MergedAll(stimuli[..i], defaults) == Ok(merged)
    {
      assert stimuli[..i + 1][..i] == stimuli[..i];
      var m := MergeStimulus(stimuli[i].1, defaults);
      if m.Err? {
        MergedAllStops(stimuli, defaults, i + 1);
        return Err(m.error);
      }
      merged := merged + [(stimuli[i].0, m.value)];
      i := i + 1;
    }
    assert stimuli[..i] == stimuli;
    return Ok(merged);
  }

  /** Once the merge of a prefix of the stimuli raised, the merge of all of them raises the same. */
  lemma {:induction false} MergedAllStops(stimuli: seq<(string, map<string, Value>)>, defaults: map<string, Value>, i: nat)
    requires i <= |stimuli| && MergedAll(stimuli[..i], defaults).Err?
    ensures MergedAll(stimuli, defaults) == MergedAll(stimuli[..i], defaults)
    decreases |stimuli| - i
  {
    if i < |stimuli| {
      assert stimuli[..i + 1][..i] == stimuli[..i];
      MergedAllStops(stimuli, defaults, i + 1);
    } else {
      assert stimuli[..i] == stimuli;
    }
  }

  /** A dimension passed to `np.zeros`: an int, or a bool counting as 0 or 1; any other value raises TypeError. */
  function Dimension(v: Value): (r: Result<int>)
    ensures r.Ok? <==> v.VInt? || v.VBool?
    ensures r.Err? ==> r.error == TypeError
    ensures v.VInt? ==> r == Ok(v.i)
  {
    match v
    case VInt(i) => Ok(i)
    case VBool(b) => Ok(if b then 1 else 0)
    case _ => Err(TypeError)
  }

  /**
   * `np.zeros(shape)`'s checks on its shape: every dimension must be an
   * integer (TypeError, checked first), and none may be negative (ValueError).
   */
  function Shape(dims: seq<Value>): (r: Result<seq<nat>>)
    ensures r.Ok? ==> |r.value| == |dims| && forall j :: 0 <= j < |dims| ==> Dimension(dims[j]) == Ok(r.value[j] as int)
    ensures r.Err? ==> r.error == (if exists j :: 0 <= j < |dims| && Dimension(dims[j]).Err? then TypeError else ValueError)
    ensures r.Err? <==> exists j :: 0 <= j < |dims| && (Dimension(dims[j]).Err? || Dimension(dims[j]).value < 0)
  {
    if exists j :: 0 <= j < |dims| && Dimension(dims[j]).Err? then Err(TypeError)
    else if exists j :: 0 <= j < |dims| && Dimension(dims[j]).value < 0 then Err(ValueError)
    else Ok(seq(|dims|, j requires 0 <= j < |dims| => Dimension(dims[j]).value as nat))
  }

  /** `gain_db / 20` needs a number: an int, a float or a bool; anything else raises TypeError. */
  function GainDb(v: Value): (r: Result<real>)
    ensures r.Ok? <==> v.VInt? || v.VReal? || v.VBool?
    ensures r.Err? ==> r.error == TypeError
    ensures v.VInt? ==> r == Ok(v.i as real)
    ensures v.VReal? ==> r == Ok(v.r)
  {
    match v
    case VInt(i) => Ok(i as real)
    case VReal(x) => Ok(x)
    case VBool(b) => Ok(if b then 1.0 else 0.0)
    case _ => Err(TypeError)
  }

  /**
   * `os.path.join(root, name)` on POSIX: both must be strings (TypeError, as
   * for the default root None); an absolute name replaces the root, an empty
   * root or one ending in '/' is followed directly by the name, and any other
   * root gets a '/' before it.
   */
  function Join(root: Value, name: Value): (r: Result<string>)
    ensures r.Ok? <==> root.VStr? && name.VStr?
    ensures r.Err? ==> r.error == TypeError
  {
    if !root.VStr? || !name.VStr? then Err(TypeError)
    else
      var a, b := root.s, name.s;
      if |b| > 0 && b[0] == '/' then Ok(b)
      else if |a| == 0 || a[|a| - 1] == '/' then Ok(a + b)
      else Ok(a + "/" + b)
  }

  /**
   * The joined path always ends with the name; it is the name itself for an
   * absolute name or an empty root, and otherwise the root followed by the
   * name, with exactly one '/' between them unless the root already ends in one.
   */
  lemma JoinSpec(root: string, name: string)
    ensures var p := Join(VStr(root), VStr(name)).value;
      && |name| <= |p| && p[|p| - |name|..] == name
      && ((|name| > 0 && name[0] == '/') || |root| == 0 ==> p == name)
      && (!(|name| > 0 && name[0] == '/') ==> p[..|root|] == root)
      && (!(|name| > 0 && name[0] == '/') && |root| > 0 && root[|root| - 1] != '/' ==> p == root + "/" + name)
  {
    var p := Join(VStr(root), VStr(name)).value;
    if !(|name| > 0 && name[0] == '/') && |root| > 0 && root[|root| - 1] != '/' {
      assert p == root + "/" + name;
      assert p[|p| - |name|..] == name;
    } else if !(|name| > 0 && name[0] == '/') {
      assert p == root + name;
      assert p[|p| - |name|..] == name;
    }
  }
}
