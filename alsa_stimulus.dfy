/**
 * The audio ring-buffer cursor of the ALSA playback processes. Each stimulus
 * copies a circular window of its samples into its own channel of a buffer
 * shared by all stimuli, and advances its cursor; the playback loop then sums
 * the buffers of all stimuli and writes the sum to the sound card. The same
 * `Stimulus.get_nextbuf` appears in ClientSide/treadmillio/alsaplayback.py,
 * ClientSide/network_sound_server/alsainterface.py,
 * ClientSide/treadmillio/alsainterface.py and ClientSide/alsa_output.py.
 */
module AlsaStimulus {
  import opened Common
  import Bytes

  /** A sound file as `scipy.io.wavfile.read` returns it: sampling rate, number of array dimensions, samples. */
  datatype WavFile = WavFile(fs: int, ndim: nat, samples: seq<int>)

  /**
   * Reading a stimulus file: a path that is not among the readable files raises
   * FileNotFoundError, and a file with more than one dimension is refused as
   * not monaural.
   */
  function ReadMonaural(files: map<string, WavFile>, filename: string): (r: Result<WavFile>)
    ensures r.Ok? <==> filename in files && files[filename].ndim <= 1
    ensures r.Ok? ==> r.value == files[filename]
    ensures r.Err? ==> r.error == (if filename in files then ValueError else FileNotFoundError)
  {
    if filename !in files then Err(FileNotFoundError)
    else if files[filename].ndim > 1 then Err(ValueError)
    else Ok(files[filename])
  }

  /** The column numpy selects as `channel` of `n` channels: negative indices count from the end, others raise IndexError. */
  function Column(channel: int, n: nat): (r: Result<nat>)
    ensures r.Ok? <==> -(n as int) <= channel < n
    ensures r.Ok? ==> r.value < n && (r.value == channel || r.value == channel + n)
    ensures r.Err? ==> r.error == IndexError
  {
    if 0 <= channel < n then Ok(channel)
    else if -(n as int) <= channel < 0 then Ok(channel + n)
    else Err(IndexError)
  }

  /** `get_nextbuf`'s new cursor: past the end it continues from the start of the samples, else it advances by a buffer. */
  function NextCursor(curpos: int, bufferLen: nat, len: nat): int
  {
    var remainder := curpos + bufferLen - len;
    if remainder > 0 then remainder else curpos + bufferLen
  }

  /** A buffer starting at `curpos` can be filled: the part read from the start again is no longer than the samples. */
  predicate Fits(curpos: int, bufferLen: nat, len: nat)
  {
    curpos + bufferLen - len <= len
  }

  /**
   * The cursor advances by the buffer length modulo the stimulus length and
   * stays in [0, len]; it equals len after a buffer that ends exactly at the
   * end of the samples.
   */
  lemma NextCursorWraps(curpos: int, bufferLen: nat, len: nat)
    requires 0 <= curpos <= len && Fits(curpos, bufferLen, len)
    ensures 0 <= NextCursor(curpos, bufferLen, len) <= len
    ensures len > 0 ==> NextCursor(curpos, bufferLen, len) % len == (curpos + bufferLen) % len
    ensures NextCursor(curpos, bufferLen, len) == len <==> curpos + bufferLen == len || curpos + bufferLen == 2 * len
  {
    if len > 0 && curpos + bufferLen - len > 0 {
      ModShift(curpos + bufferLen - len, len);
    }
  }

  /** The remainder of a sum depends only on the remainder of its first term. */
  lemma ModOfSum(a: int, d: int, m: int)
    requires m > 0
    ensures (a + d) % m == (a % m + d) % m
  {
    var r := a % m;
    var s, t := (r + d) / m, (r + d) % m;
    assert a == m * (a / m) + r;
    assert r + d == m * s + t;
    assert a + d == m * (a / m + s) + t;
    Bytes.DivIdent(a + d, m, a / m + s, t);
  }

  /** A number below the modulus is its own remainder. */
  lemma ModSmall(a: int, m: int)
    requires 0 <= a < m
    ensures a % m == a
  {
    Bytes.DivIdent(a, m, 0, a);
  }

  /** Adding the modulus does not change a remainder. */
  lemma ModShift(a: int, m: int)
    requires m > 0
    ensures (a + m) % m == a % m
  {
    ModOfSum(a, m, m);
    Bytes.DivIdent(a % m + m, m, 1, a % m);
  }

  /** Equal remainders stay equal when the same amount is added to both numbers. */
  lemma ModAddCongruent(a: int, b: int, d: int, m: int)
    requires m > 0 && a % m == b % m
    ensures (a + d) % m == (b + d) % m
  {
    ModOfSum(a, d, m);
    ModOfSum(b, d, m);
  }

  /** The cursor after `n` buffers from a fresh stimulus. */
  function CursorAfter(bufferLen: nat, len: nat, n: nat): int
  {
    if n == 0 then 0 else NextCursor(CursorAfter(bufferLen, len, n - 1), bufferLen, len)
  }

  /**
   * For a buffer no longer than the stimulus, every buffer can be filled, the
   * cursor stays in [0, len], and after `n` buffers it sits at sample
   * `n * bufferLen` taken modulo the stimulus length: the buffers play the
   * samples as one endless loop.
   */
  lemma {:induction false} CursorAfterStream(bufferLen: nat, len: nat, n: nat)
    requires 0 < len && bufferLen <= len
    ensures 0 <= CursorAfter(bufferLen, len, n) <= len
    ensures Fits(CursorAfter(bufferLen, len, n), bufferLen, len)
    ensures CursorAfter(bufferLen, len, n) % len == (n * bufferLen) % len
  {
    if n > 0 {
      var c := CursorAfter(bufferLen, len, n - 1);
      CursorAfterStream(bufferLen, len, n - 1);
      NextCursorWraps(c, bufferLen, len);
      ModAddCongruent(c, (n - 1) * bufferLen, bufferLen, len);
      assert (n - 1) * bufferLen + bufferLen == n * bufferLen;
    }
  }

  /** Row `i` of the `n`-th buffer holds sample `n * bufferLen + i` of the endless loop. */
  lemma StreamRow(bufferLen: nat, len: nat, n: nat, i: int)
    requires 0 < len && bufferLen <= len
    ensures (CursorAfter(bufferLen, len, n) + i) % len == (n * bufferLen + i) % len
  {
    CursorAfterStream(bufferLen, len, n);
    ModAddCongruent(CursorAfter(bufferLen, len, n), n * bufferLen, i, len);
  }

  /**
   * `Stimulus`: the samples of one sound file and the slice `data_buf[:, :, slice]`
   * of the shared buffer it writes into. The buffer length is the number of
   * rows of that slice, as every caller passes the same `buffer_size` for both.
   */
  class Stimulus {
    const samples: seq<int>
    const fs: int
    const data: array3<int>
    const slice: nat
    const bufferLen: nat
    const channel: int
    const windowing: bool
    var curpos: int
    /** `_gain`, the gain last set, and `_current_gain`, the gain the last buffer was faded to. */
    var gain: real
    var currentGain: real

    ghost predicate Valid()
      reads this
    {
      0 <= curpos <= |samples| && bufferLen == data.Length0 && slice < data.Length2
    }

    /** A fresh stimulus starts at the first sample, with the current gain equal to the gain. */
    constructor (samples: seq<int>, fs: int, data: array3<int>, slice: nat, channel: int, gain: real, windowing: bool)
      requires slice < data.Length2
      ensures Valid()
      ensures this.samples == samples && this.fs == fs && this.data == data && this.slice == slice
      ensures this.bufferLen == data.Length0 && this.channel == channel && this.windowing == windowing
      ensures curpos == 0 && this.gain == gain && currentGain == gain
    {
      this.samples := samples;
      this.fs := fs;
      this.data := data;
      this.slice := slice;
      this.bufferLen := data.Length0;
      this.channel := channel;
      this.windowing := windowing;
      curpos := 0;
      this.gain := gain;
      currentGain := gain;
    }

    /** The `gain` property setter. */
    method SetGain(g: real)
      modifies this
      ensures gain == g && curpos == old(curpos) && currentGain == old(currentGain)
    {
      gain := g;
    }

    /**
     * `get_nextbuf`: fills this stimulus's column of its slice with the next
     * `bufferLen` samples, continuing from the start of the samples past their
     * end, and advances the cursor. A channel outside the slice raises
     * IndexError before anything is written. When the part to read from the
     * start again is longer than the samples, the copy of the tail raises
     * ValueError after the rows up to the end of the samples were written.
     * With windowing, a gain change is faded in over this buffer and the
     * current gain then equals the gain.
     */
    method GetNextBuf() returns (r: Outcome)
      requires Valid()
      modifies this, data
      ensures Valid() && gain == old(gain)
      ensures r.Fail? <==> Column(channel, data.Length1).Err? || !Fits(old(curpos), bufferLen, |samples|)
      ensures r.Fail? ==> curpos == old(curpos) && currentGain == old(currentGain)
      ensures Column(channel, data.Length1).Err? ==> r == Fail(IndexError) && unchanged(data)
      ensures Column(channel, data.Length1).Ok? && r.Fail? ==> r.error == ValueError
      ensures r.Done? ==> curpos == NextCursor(old(curpos), bufferLen, |samples|)
      ensures r.Done? ==> currentGain == if windowing then gain else old(currentGain)
      ensures Column(channel, data.Length1).Ok? ==>
        var col := Column(channel, data.Length1).value;
        (r.Done? ==> forall i :: 0 <= i < bufferLen ==>
           0 < |samples| && data[i, col, slice] == samples[(old(curpos) + i) % |samples|])
        && (r == Fail(ValueError) ==> forall i :: 0 <= i < bufferLen ==>
           data[i, col, slice] == if i < |samples| - old(curpos) then samples[old(curpos) + i] else old(data[i, col, slice]))
        && (forall i, c, s :: (0 <= i < data.Length0 && 0 <= c < data.Length1 && 0 <= s < data.Length2
                               && (c != col || s != slice)) ==> data[i, c, s] == old(data[i, c, s]))
    {
      var column := Column(channel, data.Length1);
      if column.Err? {
        return Fail(IndexError);
      }
      var col := column.value;
      var len := |samples|;
      var remainder := curpos + bufferLen - len;
      ghost var c0 := curpos;
      if remainder > 0 {
        var first := len - curpos;
        Copy(col, 0, first, curpos);
        if remainder > len {
          return Fail(ValueError);
        }
        Copy(col, first, bufferLen, 0);
        curpos := remainder;
        forall i | 0 <= i < bufferLen
          ensures data[i, col, slice] == samples[(c0 + i) % len]
        {
          if i >= first {
            ModSmall(i - first, len);
            ModShift(i - first, len);
            assert c0 + i == (i - first) + len;
          } else {
            ModSmall(c0 + i, len);
          }
        }
      } else {
        Copy(col, 0, bufferLen, curpos);
        curpos := curpos + bufferLen;
        forall i | 0 <= i < bufferLen
          ensures data[i, col, slice] == samples[(c0 + i) % len]
        {
          ModSmall(c0 + i, len);
        }
      }
      if windowing && gain != currentGain {
        currentGain := gain;
      }
      return Done;
    }

    /** One numpy slice assignment: rows [lo, hi) of column `col` of the slice get the samples from `start` on. */
    method Copy(col: nat, lo: nat, hi: nat, start: nat)
      requires col < data.Length1 && slice < data.Length2 && lo <= hi <= data.Length0 && start + (hi - lo) <= |samples|
      modifies data
      ensures forall i :: 0 <= i < data.Length0 ==>
        data[i, col, slice] == if lo <= i < hi then samples[start + i - lo] else old(data[i, col, slice])
      ensures forall i, c, s :: (0 <= i < data.Length0 && 0 <= c < data.Length1 && 0 <= s < data.Length2
                                 && (c != col || s != slice)) ==> data[i, c, s] == old(data[i, c, s])
    {
      forall i | lo <= i < hi {
        data[i, col, slice] := samples[start + i - lo];
      }
    }
  }

  /** One `key: gain` entry of a command message; entries with a `None` key are passed over. */
  datatype Command = Command(key: Option<string>, gain: real)

  /** What a playback process does with a key that names no loaded stimulus: pass over it, or raise. */
  datatype UnknownKey = Ignore | Halt

  /** A message is a Python dict: its keys are distinct. */
  predicate DistinctKeys(cmds: seq<Command>)
  {
    forall i, j :: 0 <= i < j < |cmds| ==> cmds[i].key != cmds[j].key
  }

  predicate IsUnknown(c: Command, known: set<string>)
  {
    c.key.Some? && c.key.value !in known
  }

  /**
   * The gains a message sets when its entries are applied in order, and
   * whether an unknown key raised and so ended the application early.
   */
  function Applied(cmds: seq<Command>, known: set<string>, policy: UnknownKey): (map<string, real>, bool)
    decreases |cmds|
  {
    if |cmds| == 0 then (map[], false)
    else
      var n := |cmds| - 1;
      var (updates, halted) := Applied(cmds[..n], known, policy);
      var c := cmds[n];
      if halted then (updates, true)
      else if c.key.Some? && c.key.value in known then (updates[c.key.value := c.gain], false)
      else if IsUnknown(c, known) && policy == Halt then (updates, true)
      else (updates, false)
  }

  /** The index of the first entry with an unknown key, or the length of the message when there is none. */
  function FirstUnknown(cmds: seq<Command>, known: set<string>): (r: nat)
    ensures r <= |cmds|
    ensures forall j :: 0 <= j < r ==> !IsUnknown(cmds[j], known)
    ensures r < |cmds| ==> IsUnknown(cmds[r], known)
    decreases |cmds|
  {
    if |cmds| == 0 then 0
    else
      var n := |cmds| - 1;
      var f := FirstUnknown(cmds[..n], known);
      if f < n then f else if IsUnknown(cmds[n], known) then n else |cmds|
  }

  /**
   * Applying a message: it halts exactly when the policy raises and some key is
   * unknown; every known key before that point (or anywhere, when unknown keys
   * are passed over) gets its gain, and no other name gets one.
   */
  lemma {:induction false} AppliedSpec(cmds: seq<Command>, known: set<string>, policy: UnknownKey)
    requires DistinctKeys(cmds)
    ensures var limit := if policy == Ignore then |cmds| else FirstUnknown(cmds, known);
      && (Applied(cmds, known, policy).1 <==> policy == Halt && FirstUnknown(cmds, known) < |cmds|)
      && (forall j :: 0 <= j < limit && cmds[j].key.Some? && cmds[j].key.value in known ==>
            cmds[j].key.value in Applied(cmds, known, policy).0
            && Applied(cmds, known, policy).0[cmds[j].key.value] == cmds[j].gain)
      && (forall k :: k in Applied(cmds, known, policy).0 ==>
            k in known && exists j :: 0 <= j < limit && cmds[j].key == Some(k))
    decreases |cmds|
  {
    if |cmds| > 0 {
      var n := |cmds| - 1;
      var pre := cmds[..n];
      assert DistinctKeys(pre) by {
        forall i, j | 0 <= i < j < |pre| ensures pre[i].key != pre[j].key {
          assert pre[i] == cmds[i] && pre[j] == cmds[j];
        }
      }
      AppliedSpec(pre, known, policy);
      var (u, h) := Applied(pre, known, policy);
      var f := FirstUnknown(pre, known);
      assert forall j :: 0 <= j < n ==> pre[j] == cmds[j];
      var c := cmds[n];
      if !h && c.key.Some? && c.key.value in known {
        forall j | 0 <= j < n && cmds[j].key.Some? && cmds[j].key.value in known
          ensures cmds[j].key.value != c.key.value
        {
        }
      }
    }
  }

  /** Once a message has halted, its remaining entries change nothing. */
  lemma {:induction false} AppliedStops(cmds: seq<Command>, known: set<string>, policy: UnknownKey, i: nat)
    requires i <= |cmds| && Applied(cmds[..i], known, policy).1
    ensures Applied(cmds, known, policy) == Applied(cmds[..i], known, policy)
    decreases |cmds| - i
  {
    if i < |cmds| {
      assert cmds[..i + 1][..i] == cmds[..i];
      AppliedStops(cmds, known, policy, i + 1);
    } else {
      assert cmds[..i] == cmds;
    }
  }

  /**
   * The loop over a message's entries: each known key sets the gain of its
   * stimulus, and under `Halt` the first unknown key raises and ends the loop.
   * The stimuli are distinct objects, one per name.
   */
  method ApplyCommands(stimuli: map<string, Stimulus>, cmds: seq<Command>, policy: UnknownKey) returns (halted: bool)
    requires forall a, b :: a in stimuli && b in stimuli && a != b ==> stimuli[a] != stimuli[b]
    modifies set s | s in stimuli.Values
    ensures halted == Applied(cmds, stimuli.Keys, policy).1
    ensures forall k :: k in stimuli ==>
      stimuli[k].gain == (if k in Applied(cmds, stimuli.Keys, policy).0 then Applied(cmds, stimuli.Keys, policy).0[k]
                          else old(stimuli[k].gain))
    ensures forall k :: k in stimuli ==> stimuli[k].curpos == old(stimuli[k].curpos) && stimuli[k].currentGain == old(stimuli[k].currentGain)
  {
    halted := false;
    var i := 0;
    while i < |cmds| && !halted
      invariant 0 <= i <= |cmds|
      invariant halted == Applied(cmds[..i], stimuli.Keys, policy).1
      invariant forall k :: k in stimuli ==>
        stimuli[k].gain == (if k in Applied(cmds[..i], stimuli.Keys, policy).0 then Applied(cmds[..i], stimuli.Keys, policy).0[k]
                            else old(stimuli[k].gain))
      invariant forall k :: k in stimuli ==> stimuli[k].curpos == old(stimuli[k].curpos) && stimuli[k].currentGain == old(stimuli[k].currentGain)
    {
      var c := cmds[i];
      assert cmds[..i + 1][..i] == cmds[..i];
      if c.key.Some? && c.key.value in stimuli {
        stimuli[c.key.value].SetGain(c.gain);
      } else if c.key.Some? && policy == Halt {
        halted := true;
      }
      i := i + 1;
    }
    if halted {
      AppliedStops(cmds, stimuli.Keys, policy, i);
    } else {
      assert cmds[..i] == cmds;
    }
  }

  /** The gain of stimulus `k` after the messages were applied in order, starting from gain `g0`. */
  function GainAfter(msgs: seq<seq<Command>>, known: set<string>, policy: UnknownKey, k: string, g0: real): real
    decreases |msgs|
  {
    if |msgs| == 0 then g0
    else
      var n := |msgs| - 1;
      var g := GainAfter(msgs[..n], known, policy, k, g0);
      var applied := Applied(msgs[n], known, policy).0;
      if k in applied then applied[k] else g
  }

  /**
   * A stimulus keeps its gain through messages none of which sets it, and a
   * message that sets it decides its gain unless a later one sets it again.
   */
  lemma {:induction false} GainAfterLast(msgs: seq<seq<Command>>, known: set<string>, policy: UnknownKey, k: string, g0: real, i: nat)
    requires i <= |msgs|
    requires forall j :: i <= j < |msgs| ==> k !in Applied(msgs[j], known, policy).0
    ensures i == 0 ==> GainAfter(msgs, known, policy, k, g0) == g0
    ensures i > 0 && k in Applied(msgs[i - 1], known, policy).0 ==>
      GainAfter(msgs, known, policy, k, g0) == Applied(msgs[i - 1], known, policy).0[k]
    decreases |msgs|
  {
    if |msgs| > i {
      var n := |msgs| - 1;
      assert forall j :: 0 <= j < n ==> msgs[..n][j] == msgs[j];
      GainAfterLast(msgs[..n], known, policy, k, g0, i);
    } else if i > 0 {
      assert msgs[..i - 1] == msgs[..|msgs| - 1];
    }
  }

  /**
   * The `while self.control_pipe.poll()` loop of a playback cycle: every
   * waiting message is applied in turn (an exception it raises is caught and
   * ends only that message).
   */
  method ApplyMessages(stimuli: map<string, Stimulus>, msgs: seq<seq<Command>>, policy: UnknownKey)
    requires forall a, b :: a in stimuli && b in stimuli && a != b ==> stimuli[a] != stimuli[b]
    modifies set s | s in stimuli.Values
    ensures forall k :: k in stimuli ==> stimuli[k].gain == GainAfter(msgs, stimuli.Keys, policy, k, old(stimuli[k].gain))
    ensures forall k :: k in stimuli ==> stimuli[k].curpos == old(stimuli[k].curpos) && stimuli[k].currentGain == old(stimuli[k].currentGain)
  {
    var i := 0;
    while i < |msgs|
      invariant 0 <= i <= |msgs|
      invariant forall k :: k in stimuli ==> stimuli[k].gain == GainAfter(msgs[..i], stimuli.Keys, policy, k, old(stimuli[k].gain))
      invariant forall k :: k in stimuli ==> stimuli[k].curpos == old(stimuli[k].curpos) && stimuli[k].currentGain == old(stimuli[k].currentGain)
    {
      assert msgs[..i + 1][..i] == msgs[..i];
      var _ := ApplyCommands(stimuli, msgs[i], policy);
      i := i + 1;
    }
    assert msgs[..i] == msgs;
  }

  /** The distinct sampling rates of the loaded stimuli. */
  function Rates(rates: seq<int>): set<int>
  {
    set i | 0 <= i < |rates| :: rates[i]
  }

  /**
   * The sampling rate shared by all stimuli. With more than one distinct rate,
   * the report of the rates reads `stim.filename`, which `Stimulus` never
   * assigns, so AttributeError is raised before the intended error; an empty
   * set of rates cannot be popped (KeyError).
   */
  function CommonRate(rates: seq<int>): (r: Result<int>)
    ensures r.Ok? <==> |rates| > 0 && forall i :: 0 <= i < |rates| ==> rates[i] == rates[0]
    ensures r.Ok? ==> r.value == rates[0]
    ensures r.Err? ==> r.error == (if |rates| == 0 then KeyError else AttributeError)
  {
    RatesCard(rates);
    var fs := Rates(rates);
    if |fs| > 1 then Err(AttributeError)
    else if |fs| == 0 then Err(KeyError)
    else Ok(rates[0])
  }

  /** The set of rates has one element exactly when the rates are non-empty and all equal. */
  lemma RatesCard(rates: seq<int>)
    ensures |Rates(rates)| == 0 <==> |rates| == 0
    ensures |Rates(rates)| == 1 <==> |rates| > 0 && forall i :: 0 <= i < |rates| ==> rates[i] == rates[0]
  {
    var fs := Rates(rates);
    if |rates| > 0 {
      assert rates[0] in fs;
      if forall i :: 0 <= i < |rates| ==> rates[i] == rates[0] {
        assert fs == {rates[0]};
      } else {
        var i :| 0 <= i < |rates| && rates[i] != rates[0];
        assert {rates[0], rates[i]} <= fs;
        assert |{rates[0], rates[i]}| == 2;
        SubsetCard({rates[0], rates[i]}, fs);
      }
    } else {
      assert fs == {};
    }
  }

  lemma SubsetCard(a: set<int>, b: set<int>)
    requires a <= b
    ensures |a| <= |b|
  {
    assert b == a + (b - a);
  }

  /** The dict built by inserting `made[j]` under the name of entry `j`, in order. */
  function MapOf<E>(entries: seq<(string, E)>, made: seq<Stimulus>): map<string, Stimulus>
    requires |made| == |entries|
    decreases |entries|
  {
    if |entries| == 0 then map[]
    else
      var n := |entries| - 1;
      MapOf(entries[..n], made[..n])[entries[n].0 := made[n]]
  }

  /** The dict holds exactly the names of the entries. */
  lemma {:induction false} MapOfKeys<E>(entries: seq<(string, E)>, made: seq<Stimulus>)
    requires |made| == |entries|
    ensures MapOf(entries, made).Keys == Names(entries)
    decreases |entries|
  {
    if |entries| > 0 {
      var n := |entries| - 1;
      MapOfKeys(entries[..n], made[..n]);
    }
  }

  /** With distinct names, each entry's name maps to the object made for it. */
  lemma {:induction false} MapOfAt<E>(entries: seq<(string, E)>, made: seq<Stimulus>)
    requires |made| == |entries| && DistinctNames(entries)
    ensures forall j :: 0 <= j < |entries| ==> entries[j].0 in MapOf(entries, made)
    ensures forall j :: 0 <= j < |entries| ==> MapOf(entries, made)[entries[j].0] == made[j]
    decreases |entries|
  {
    if |entries| > 0 {
      var n := |entries| - 1;
      MapOfAt(entries[..n], made[..n]);
      forall j | 0 <= j < n
        ensures MapOf(entries, made)[entries[j].0] == made[j]
      {
        assert entries[..n][j] == entries[j] && made[..n][j] == made[j];
        assert entries[j].0 != entries[n].0;
      }
    }
  }

  /** Every value of the dict is one of the objects made; distinct objects give distinct values for distinct names. */
  lemma {:induction false} MapOfValues<E>(entries: seq<(string, E)>, made: seq<Stimulus>)
    requires |made| == |entries|
    requires forall i, j :: 0 <= i < j < |made| ==> made[i] != made[j]
    ensures forall n :: n in MapOf(entries, made) ==> MapOf(entries, made)[n] in made
    ensures forall a, b :: a in MapOf(entries, made) && b in MapOf(entries, made) && a != b ==>
      MapOf(entries, made)[a] != MapOf(entries, made)[b]
    decreases |entries|
  {
    if |entries| > 0 {
      var n := |entries| - 1;
      MapOfValues(entries[..n], made[..n]);
      var m := MapOf(entries[..n], made[..n]);
      forall x | x in m
        ensures m[x] != made[n]
      {
        assert m[x] in made[..n];
      }
    }
  }

  /** Inserting the next entry's stimulus extends the dict of the prefix. */
  lemma MapOfSnoc<E>(entries: seq<(string, E)>, made: seq<Stimulus>, s: Stimulus)
    requires |made| < |entries|
    ensures MapOf(entries[..|made| + 1], made + [s]) == MapOf(entries[..|made|], made)[entries[|made|].0 := s]
  {
    var k := |made|;
    var e', m' := entries[..k + 1], made + [s];
    assert e'[..k] == entries[..k] && m'[..k] == made;
    assert e'[k] == entries[k] && m'[k] == s;
    assert MapOf(e', m') == MapOf(e'[..k], m'[..k])[e'[k].0 := m'[k]];
  }

  /** `get_nextbuf` raises for this stimulus: its channel is no column of its buffer, or the part to read again from the start is longer than the samples. */
  predicate Fails(s: Stimulus)
    reads s
  {
    Column(s.channel, s.data.Length1).Err? || !Fits(s.curpos, s.bufferLen, |s.samples|)
  }

  /** The exception `get_nextbuf` raises for a stimulus that Fails. */
  function FailureOf(s: Stimulus): Error
  {
    if Column(s.channel, s.data.Length1).Err? then IndexError else ValueError
  }
  /** Running `get_nextbuf` on the stimuli in order: the exception of the first that fails, if any. */
  ghost function FillOutcome(list: seq<Stimulus>): Outcome
    reads set s | s in list
    decreases |list|
  {
    if |list| == 0 then Done
    else if Fails(list[0]) then Fail(FailureOf(list[0]))
    else FillOutcome(list[1..])
  }

  /** No two stimuli write the same column of the same slice of the shared buffer. */
  predicate SlotsDistinct(list: seq<Stimulus>)
  {
    forall i, j :: 0 <= i < j < |list| ==>
      list[i].slice != list[j].slice
      || Column(list[i].channel, list[i].data.Length1) != Column(list[j].channel, list[j].data.Length1)
  }

  /** The stimulus's column of its slice holds its next `bufferLen` samples from cursor `c0` on, taken around the end of the samples. */
  ghost predicate Filled(s: Stimulus, c0: int)
    reads s.data
  {
    && Column(s.channel, s.data.Length1).Ok? && s.slice < s.data.Length2 && s.bufferLen <= s.data.Length0
    && (0 < s.bufferLen ==> 0 < |s.samples|)
    && forall i :: 0 <= i < s.bufferLen ==>
         s.data[i, Column(s.channel, s.data.Length1).value, s.slice] == s.samples[(c0 + i) % |s.samples|]
  }

  /** The values of a stimuli dict in its iteration order: distinct objects, all bound to the buffer `buf`. */
  ghost predicate Listed(list: seq<Stimulus>, buf: array3<int>)
    reads set s | s in list
  {
    && (forall i, j :: 0 <= i < j < |list| ==> list[i] != list[j])
    && (forall s :: s in list ==> s.data == buf && s.Valid())
  }

  /** `s` after one successful `get_nextbuf` from cursor `c0` and current gain `g0`. */
  ghost predicate Advanced(s: Stimulus, c0: int, g0: real)
    reads s
  {
    && s.curpos == NextCursor(c0, s.bufferLen, |s.samples|)
    && s.currentGain == if s.windowing then s.gain else g0
  }

  /**
   * The state of a fill cycle over `list` after its first `i` stimuli succeeded:
   * cursors `c0s`, current gains `g0s` and gains `gs` were the starting values;
   * the first `i` stimuli have Advanced (and, when no two share a slot, are
   * Filled), the rest are as they were.
   */
  ghost predicate FillProgress(list: seq<Stimulus>, buf: array3<int>, c0s: seq<int>, g0s: seq<real>, gs: seq<real>, i: nat)
    reads buf, set s | s in list
  {
    && Listed(list, buf) && i <= |list| && |c0s| == |list| && |g0s| == |list| && |gs| == |list|
    && (forall j :: 0 <= j < |list| ==> list[j].gain == gs[j])
    && (forall j :: i <= j < |list| ==> list[j].curpos == c0s[j] && list[j].currentGain == g0s[j])
    && (forall j :: 0 <= j < i ==> Advanced(list[j], c0s[j], g0s[j]))
    && (SlotsDistinct(list) ==> forall j :: 0 <= j < i ==> Filled(list[j], c0s[j]))
  }

  /**
   * One `stim.get_nextbuf()` of the cycle, for the `i`-th stimulus: it either
   * raises (Fails), leaving its cursor and gain, or Advances and fills its
   * column; either way the columns already filled by the stimuli before it
   * stay Filled when no two stimuli share a slot.
   */
  method Advance(list: seq<Stimulus>, buf: array3<int>, ghost c0s: seq<int>, i: nat) returns (r: Outcome)
    requires Listed(list, buf) && i < |list| == |c0s| && list[i].curpos == c0s[i]
    requires SlotsDistinct(list) ==> forall j :: 0 <= j < i ==> Filled(list[j], c0s[j])
    modifies buf, list[i]
    ensures Listed(list, buf) && list[i].gain == old(list[i].gain)
    ensures r == if old(Fails(list[i])) then Fail(FailureOf(list[i])) else Done
    ensures r.Fail? ==> list[i].curpos == c0s[i] && list[i].currentGain == old(list[i].currentGain)
    ensures r.Done? ==> Advanced(list[i], c0s[i], old(list[i].currentGain))
    ensures SlotsDistinct(list) ==> forall j :: 0 <= j < (if r.Done? then i + 1 else i) ==> Filled(list[j], c0s[j])
  {
    var w := list[i];
    r := w.GetNextBuf();
    if SlotsDistinct(list) {
      forall j | 0 <= j < i
        ensures Filled(list[j], c0s[j])
      {
        var t := list[j];
        assert old(Filled(t, c0s[j]));
        var col := Column(t.channel, t.data.Length1).value;
        forall row | 0 <= row < t.bufferLen
          ensures t.data[row, col, t.slice] == t.samples[(c0s[j] + row) % |t.samples|]
        {
          assert old(t.data[row, col, t.slice]) == t.samples[(c0s[j] + row) % |t.samples|];
        }
      }
    }
  }

  /** Advance, seen as one step of a fill cycle's FillProgress. */
  method FillStep(list: seq<Stimulus>, buf: array3<int>, ghost c0s: seq<int>, ghost g0s: seq<real>, ghost gs: seq<real>, i: nat)
    returns (r: Outcome)
    requires FillProgress(list, buf, c0s, g0s, gs, i) && i < |list|
    modifies buf, list[i]
    ensures r == if old(Fails(list[i])) then Fail(FailureOf(list[i])) else Done
    ensures FillProgress(list, buf, c0s, g0s, gs, if r.Done? then i + 1 else i)
  {
    r := Advance(list, buf, c0s, i);
    forall j | 0 <= j < i
      ensures Advanced(list[j], c0s[j], g0s[j])
    {
      assert old(Advanced(list[j], c0s[j], g0s[j]));
    }
  }

  /**
   * The first half of a playback cycle, `for _, stim in self.stimuli.items():
   * stim.get_nextbuf()`: each stimulus in turn fills its column of the shared
   * buffer and advances its cursor; the first that raises ends the cycle with
   * its exception (FillOutcome). When all succeed every stimulus has Advanced,
   * and when moreover no two stimuli share a column of a slice, every
   * stimulus's column holds its next samples (Filled), none overwritten by another.
   */
  method FillAll(list: seq<Stimulus>, buf: array3<int>) returns (r: Outcome)
    requires Listed(list, buf)
    modifies buf, set s | s in list
    ensures Listed(list, buf)
    ensures r == old(FillOutcome(list))
    ensures forall j :: 0 <= j < |list| ==> list[j].gain == old(list[j].gain)
    ensures r.Done? ==> forall j :: 0 <= j < |list| ==> Advanced(list[j], old(list[j].curpos), old(list[j].currentGain))
    ensures r.Done? && SlotsDistinct(list) ==> forall j :: 0 <= j < |list| ==> Filled(list[j], old(list[j].curpos))
  {
    ghost var c0s := seq(|list|, j requires 0 <= j < |list| reads list => list[j].curpos);
    ghost var g0s := seq(|list|, j requires 0 <= j < |list| reads list => list[j].currentGain);
    ghost var gs := seq(|list|, j requires 0 <= j < |list| reads list => list[j].gain);
    var i := 0;
    while i < |list|
      invariant FillProgress(list, buf, c0s, g0s, gs, i)
      invariant forall j :: 0 <= j < |list| ==> c0s[j] == old(list[j].curpos) && g0s[j] == old(list[j].currentGain) && gs[j] == old(list[j].gain)
      invariant old(FillOutcome(list)) == old(FillOutcome(list[i..]))
    {
      assert list[i..][0] == list[i] && list[i..][1..] == list[i + 1..];
      r := FillStep(list, buf, c0s, g0s, gs, i);
      if r.Fail? {
        return;
      }
      i := i + 1;
    }
    r := Done;
  }
}
