/**
 * The byte-level protocol between the host and the treadmill interface board:
 * the fixed-size data frames the board streams, the search that finds the frame
 * boundary in a freshly read block, and the 4-byte commands the host sends.
 */
module Protocol {
  import opened Common
  import opened Bytes

  /** First byte of every host-to-board command. */
  const MAGIC: byte := 0xA9
  /** Number of consecutive frames whose start characters must line up during synchronisation. */
  const SYNC_REPEATS: nat := 3

  /** Frame length and start character for a protocol version; other versions have none. */
  function FrameFormat(version: int): (r: Option<(nat, byte)>)
    ensures r.Some? <==> version == 1 || version == 2
  {
    if version == 1 then Some((14, START_V1))
    else if version == 2 then Some((17, START_V2))
    else None
  }

  /** Start characters 'E' (version 1) and 'F' (version 2). */
  const START_V1: byte := 'E' as int
  const START_V2: byte := 'F' as int

  /** The fields a frame carries; `auxGpio` exists only in version-2 frames. */
  datatype Frame = Frame(startChar: byte, structSize: byte, masterTime: nat, encoder: int,
                         unwrappedEncoder: int, gpio: nat, auxGpio: Option<nat>)

  /** A frame whose fields fit the widths of the version-1 layout `<cBLhlBx`. */
  predicate FitsV1(f: Frame)
  {
    f.masterTime < 0x1_0000_0000 && -0x8000 <= f.encoder < 0x8000
    && -0x8000_0000 <= f.unwrappedEncoder < 0x8000_0000 && f.gpio < 256 && f.auxGpio.None?
  }

  /** A frame whose fields fit the widths of the version-2 layout `<cBLhlHHx`. */
  predicate FitsV2(f: Frame)
  {
    f.masterTime < 0x1_0000_0000 && -0x8000 <= f.encoder < 0x8000
    && -0x8000_0000 <= f.unwrappedEncoder < 0x8000_0000 && f.gpio < 0x1_0000
    && f.auxGpio.Some? && f.auxGpio.value < 0x1_0000
  }

  /** `struct.unpack('<cBLhlBx', x)`. */
  function ParseV1(x: seq<byte>): (f: Frame)
    requires |x| == 14
    ensures FitsV1(f)
  {
    Frame(x[0], x[1], U32(x[2], x[3], x[4], x[5]), Signed16(U16(x[6], x[7])),
          Signed32(U32(x[8], x[9], x[10], x[11])), x[12], None)
  }

  /** `struct.unpack('<cBLhlHHx', x)`. */
  function ParseV2(x: seq<byte>): (f: Frame)
    requires |x| == 17
    ensures FitsV2(f)
  {
    Frame(x[0], x[1], U32(x[2], x[3], x[4], x[5]), Signed16(U16(x[6], x[7])),
          Signed32(U32(x[8], x[9], x[10], x[11])), U16(x[12], x[13]), Some(U16(x[14], x[15])))
  }

  /** The version-1 byte layout of a frame, with `pad` in the trailing pad byte. */
  function EncodeV1(f: Frame, pad: byte): (x: seq<byte>)
    requires FitsV1(f)
    ensures |x| == 14
  {
    [f.startChar, f.structSize] + EncodeU32(f.masterTime) + EncodeI16(f.encoder)
    + EncodeI32(f.unwrappedEncoder) + [f.gpio, pad]
  }

  /** The version-2 byte layout of a frame, with `pad` in the trailing pad byte. */
  function EncodeV2(f: Frame, pad: byte): (x: seq<byte>)
    requires FitsV2(f)
    ensures |x| == 17
  {
    [f.startChar, f.structSize] + EncodeU32(f.masterTime) + EncodeI16(f.encoder)
    + EncodeI32(f.unwrappedEncoder) + EncodeU16(f.gpio) + EncodeU16(f.auxGpio.value) + [pad]
  }

  lemma ParseEncodeV1(f: Frame, pad: byte)
    requires FitsV1(f)
    ensures ParseV1(EncodeV1(f, pad)) == f
  {
    var x := EncodeV1(f, pad);
    var m, e, u := EncodeU32(f.masterTime), EncodeI16(f.encoder), EncodeI32(f.unwrappedEncoder);
    assert x[2..6] == m && x[6..8] == e && x[8..12] == u;
  }

  lemma ParseEncodeV2(f: Frame, pad: byte)
    requires FitsV2(f)
    ensures ParseV2(EncodeV2(f, pad)) == f
  {
    var x := EncodeV2(f, pad);
    var m, e, u := EncodeU32(f.masterTime), EncodeI16(f.encoder), EncodeI32(f.unwrappedEncoder);
    var g, a := EncodeU16(f.gpio), EncodeU16(f.auxGpio.value);
    assert x[2..6] == m && x[6..8] == e && x[8..12] == u && x[12..14] == g && x[14..16] == a;
  }

  // ---------------------------------------------------------------------------
  // Frame synchronisation

  /** `x.index(c, from)`: the first position at or after `from` that holds `c`, if any. */
  function IndexFrom(x: seq<byte>, c: byte, from: nat): (r: Option<nat>)
    decreases |x| - from
    ensures r.Some? ==> from <= r.value < |x| && x[r.value] == c
    ensures r.Some? ==> forall j :: from <= j < r.value ==> x[j] != c
    ensures r.None? <==> !Occurs(x, c, from)
  {
    if from >= |x| then None
    else if x[from] == c then Some(from)
    else IndexFrom(x, c, from + 1)
  }

  /** `c` occurs in `x` at or after position `from`. */
  predicate Occurs(x: seq<byte>, c: byte, from: nat)
  {
    exists j :: from <= j < |x| && x[j] == c
  }

  /** Offset `i` holds the start character in each of three consecutive frames of length `L`. */
  predicate Aligned(x: seq<byte>, L: nat, c: byte, i: nat)
    requires i + 2 * L < |x|
  {
    x[i] == c && x[i + L] == c && x[i + 2 * L] == c
  }

  /** What one pass of the inner `for k in range(K)` loop concludes at a candidate offset. */
  datatype Scan = Raise | Match | Mismatch

  function ScanAt(x: seq<byte>, L: nat, c: byte, index: nat): (s: Scan)
    requires index + 2 * L < |x|
    ensures s == Match ==> Aligned(x, L, c, index)
    ensures s == Raise ==> x[index + 2 * L] != c
  {
    var f0, f1, f2 := IndexFrom(x, c, index), IndexFrom(x, c, index + L), IndexFrom(x, c, index + 2 * L);
    if f0.None? || f1.None? || f2.None? then Raise
    else if f0.value == index && f1.value == index + L && f2.value == index + 2 * L then Match
    else Mismatch
  }

  /** The outcome of the offset search started at candidate `index`. */
  function SyncFrom(x: seq<byte>, L: nat, c: byte, index: nat): (r: Result<nat>)
    requires 0 < L && |x| == 4 * L && index < L
    decreases L - index
    ensures r.Ok? ==> index <= r.value < L
    ensures r.Err? ==> r.error == AssertionError || r.error == ValueError
  {
    match ScanAt(x, L, c, index)
    case Raise => Err(ValueError)
    case Match => Ok(index)
    case Mismatch => if index + 1 > L - 1 then Err(AssertionError) else SyncFrom(x, L, c, index + 1)
  }

  /** Synchronisation on a block `x` read for frames of length `L` starting with `c`. */
  function Sync(x: seq<byte>, L: nat, c: byte): (r: Result<nat>)
    requires 0 < L
    ensures |x| != 4 * L ==> r == Err(AssertionError)
    ensures r.Ok? ==> r.value < L && x[r.value] == c && x[r.value + L] == c && x[r.value + 2 * L] == c
  {
    if |x| != 4 * L then Err(AssertionError)
    else
      SyncFromOk(x, L, c, 0);
      SyncFrom(x, L, c, 0)
  }

  /** The inner loop raises exactly when the character is missing from the third frame start on, and matches exactly at an aligned offset. */
  lemma ScanAtSpec(x: seq<byte>, L: nat, c: byte, index: nat)
    requires index + 2 * L < |x|
    ensures ScanAt(x, L, c, index) == Raise <==> !Occurs(x, c, index + 2 * L)
    ensures ScanAt(x, L, c, index) == Match <==> Aligned(x, L, c, index)
  {
    if Occurs(x, c, index + 2 * L) {
      OccursEarlier(x, c, index, index + 2 * L);
      OccursEarlier(x, c, index + L, index + 2 * L);
    }
  }

  lemma OccursEarlier(x: seq<byte>, c: byte, a: nat, b: nat)
    requires a <= b && Occurs(x, c, b)
    ensures Occurs(x, c, a)
  {
    var j :| b <= j < |x| && x[j] == c;
    assert a <= j;
  }

  /** No offset in `[lo, hi)` is aligned. */
  predicate NoneAligned(x: seq<byte>, L: nat, c: byte, lo: nat, hi: nat)
    requires hi <= L && |x| == 4 * L
  {
    forall j :: lo <= j < hi ==> !Aligned(x, L, c, j)
  }

  /** A successful search from `index` returns an aligned offset with no aligned offset before it. */
  lemma {:induction false} SyncFromOk(x: seq<byte>, L: nat, c: byte, index: nat)
    requires 0 < L && |x| == 4 * L && index < L
    ensures SyncFrom(x, L, c, index).Ok? ==>
              var i := SyncFrom(x, L, c, index).value;
              index <= i < L && Aligned(x, L, c, i) && NoneAligned(x, L, c, index, i)
    decreases L - index
  {
    ScanAtSpec(x, L, c, index);
    if ScanAt(x, L, c, index) == Mismatch && index + 1 <= L - 1 {
      SyncFromOk(x, L, c, index + 1);
    }
  }

  /** A failed search from `index` saw no aligned offset. */
  lemma {:induction false} SyncFromErrNone(x: seq<byte>, L: nat, c: byte, index: nat)
    requires 0 < L && |x| == 4 * L && index < L
    ensures SyncFrom(x, L, c, index).Err? ==> NoneAligned(x, L, c, index, L)
    decreases L - index
  {
    var s := ScanAt(x, L, c, index);
    if s == Raise || (s == Mismatch && index + 1 > L - 1) {
      SyncFromErrHere(x, L, c, index);
    } else if s == Mismatch {
      var r := SyncFrom(x, L, c, index + 1);
      assert SyncFrom(x, L, c, index) == r;
      if r.Err? {
        SyncFromErrNone(x, L, c, index + 1);
        NoneAlignedExtend(x, L, c, index);
      }
    }
  }

  /** An unaligned offset followed by none aligned up to L: none aligned from it. */
  lemma NoneAlignedExtend(x: seq<byte>, L: nat, c: byte, index: nat)
    requires 0 < L && |x| == 4 * L && index < L - 1
    requires ScanAt(x, L, c, index) == Mismatch && NoneAligned(x, L, c, index + 1, L)
    ensures NoneAligned(x, L, c, index, L)
  {
    ScanAtSpec(x, L, c, index);
    forall j | index <= j < L
      ensures !Aligned(x, L, c, j)
    {
      if j > index {
        assert NoneAligned(x, L, c, index + 1, L);
      }
    }
  }

  /** A failed search from `index` raised AssertionError iff the character occurs from 3L-1 on, and ValueError otherwise. */
  lemma {:induction false} SyncFromErrKind(x: seq<byte>, L: nat, c: byte, index: nat)
    requires 0 < L && |x| == 4 * L && index < L
    ensures SyncFrom(x, L, c, index).Err? ==>
              SyncFrom(x, L, c, index).error == if Occurs(x, c, 3 * L - 1) then AssertionError else ValueError
    decreases L - index
  {
    var s := ScanAt(x, L, c, index);
    if s == Raise || (s == Mismatch && index + 1 > L - 1) {
      SyncFromErrHere(x, L, c, index);
    } else if s == Mismatch {
      assert SyncFrom(x, L, c, index) == SyncFrom(x, L, c, index + 1);
      SyncFromErrKind(x, L, c, index + 1);
    }
  }

  /** The search ends at `index` with an error: the character is missing from the third frame on, or `index` is the last candidate. */
  lemma SyncFromErrHere(x: seq<byte>, L: nat, c: byte, index: nat)
    requires 0 < L && |x| == 4 * L && index < L
    requires ScanAt(x, L, c, index) == Raise || (ScanAt(x, L, c, index) == Mismatch && index == L - 1)
    ensures SyncFrom(x, L, c, index).Err? && NoneAligned(x, L, c, index, L)
    ensures SyncFrom(x, L, c, index).error == if Occurs(x, c, 3 * L - 1) then AssertionError else ValueError
  {
    ScanAtSpec(x, L, c, index);
    if ScanAt(x, L, c, index) == Raise {
      AbsentFromThirdFrame(x, L, c, index);
    } else {
      assert index + 2 * L == 3 * L - 1;
      forall j | index <= j < L
        ensures !Aligned(x, L, c, j)
      {
        assert j == index;
      }
    }
  }

  /** Without the character from the third frame start on, no later offset is aligned and none occurs from 3L-1. */
  lemma AbsentFromThirdFrame(x: seq<byte>, L: nat, c: byte, index: nat)
    requires 0 < L && |x| == 4 * L && index < L && !Occurs(x, c, index + 2 * L)
    ensures NoneAligned(x, L, c, index, L) && !Occurs(x, c, 3 * L - 1)
  {
    forall j | index <= j < L ensures !Aligned(x, L, c, j) {
      assert x[j + 2 * L] != c;
    }
  }

  lemma SyncFromSpec(x: seq<byte>, L: nat, c: byte, index: nat)
    requires 0 < L && |x| == 4 * L && index < L
    ensures forall i :: SyncFrom(x, L, c, index) == Ok(i) <==>
              index <= i < L && Aligned(x, L, c, i) && NoneAligned(x, L, c, index, i)
    ensures SyncFrom(x, L, c, index) == Err(AssertionError) <==>
              NoneAligned(x, L, c, index, L) && Occurs(x, c, 3 * L - 1)
    ensures SyncFrom(x, L, c, index) == Err(ValueError) <==>
              NoneAligned(x, L, c, index, L) && !Occurs(x, c, 3 * L - 1)
  {
    SyncFromOk(x, L, c, index);
    SyncFromErrNone(x, L, c, index);
    SyncFromErrKind(x, L, c, index);
    var r := SyncFrom(x, L, c, index);
    forall i | index <= i < L && Aligned(x, L, c, i) && NoneAligned(x, L, c, index, i)
      ensures r == Ok(i)
    {
      // two aligned offsets that are both the first one coincide
      assert r.Ok? ==> Aligned(x, L, c, r.value) && NoneAligned(x, L, c, index, r.value);
    }
  }

  /**
   * Synchronisation returns the smallest offset at which three consecutive frames
   * start with the start character; with no such offset it fails with AssertionError
   * when the character still occurs at or after position 3L-1 and with ValueError
   * otherwise; a short read fails with AssertionError.
   */
  lemma SyncSpec(x: seq<byte>, L: nat, c: byte)
    requires 0 < L
    ensures |x| != 4 * L ==> Sync(x, L, c) == Err(AssertionError)
    ensures |x| == 4 * L ==> forall i: nat :: Sync(x, L, c) == Ok(i) <==>
              i < L && Aligned(x, L, c, i) && NoneAligned(x, L, c, 0, i)
    ensures |x| == 4 * L ==> (Sync(x, L, c) == Err(AssertionError) <==>
              NoneAligned(x, L, c, 0, L) && Occurs(x, c, 3 * L - 1))
    ensures |x| == 4 * L ==> (Sync(x, L, c) == Err(ValueError) <==>
              NoneAligned(x, L, c, 0, L) && !Occurs(x, c, 3 * L - 1))
  {
    if |x| == 4 * L { SyncFromSpec(x, L, c, 0); }
  }

  /**
   * A block cut from a stream whose frames start at offset `o` (start character at
   * o, o+L, o+2L) and which holds no earlier such offset synchronises to exactly `o`.
   */
  lemma SyncRecoversOffset(x: seq<byte>, L: nat, c: byte, o: nat)
    requires 0 < L && |x| == 4 * L && o < L
    requires Aligned(x, L, c, o) && NoneAligned(x, L, c, 0, o)
    ensures Sync(x, L, c) == Ok(o)
  {
    SyncSpec(x, L, c);
  }

  /** Where the `j`-th of the three frames checked for candidate `index` should start. */
  function FrameStart(index: nat, L: nat, j: nat): (r: nat)
    requires j < SYNC_REPEATS
    ensures r == index + j * L
  {
    if j == 0 then index else if j == 1 then index + L else index + 2 * L
  }

  /** The candidate-offset test of the first `k` of the three frames, in the order the loop makes them. */
  function PartialScan(x: seq<byte>, L: nat, c: byte, index: nat, k: nat): Scan
    requires k <= SYNC_REPEATS && index + 2 * L < |x|
  {
    if k == 0 then Match
    else
      var s := PartialScan(x, L, c, index, k - 1);
      var f := IndexFrom(x, c, FrameStart(index, L, k - 1));
      if s == Raise || f.None? then Raise
      else if f.value != FrameStart(index, L, k - 1) then Mismatch
      else s
  }

  lemma PartialScanComplete(x: seq<byte>, L: nat, c: byte, index: nat)
    requires index + 2 * L < |x|
    ensures PartialScan(x, L, c, index, SYNC_REPEATS) == ScanAt(x, L, c, index)
  {
    var f0, f1 := IndexFrom(x, c, index), IndexFrom(x, c, index + L);
    assert PartialScan(x, L, c, index, 1) == if f0.None? then Raise else if f0.value != index then Mismatch else Match;
    assert PartialScan(x, L, c, index, 2) ==
      if f0.None? || f1.None? then Raise
      else if f1.value != index + L then Mismatch
      else PartialScan(x, L, c, index, 1);
  }

  /** The synchronisation loop of `connect`: find the offset of the frame boundary in `x`. */
  method FindOffset(x: seq<byte>, L: nat, c: byte) returns (r: Result<nat>)
    requires 0 < L && |x| == 4 * L
    ensures r == SyncFrom(x, L, c, 0)
  {
    var index := 0;
    while true
      invariant 0 <= index < L
      invariant SyncFrom(x, L, c, index) == SyncFrom(x, L, c, 0)
      decreases L - index
    {
      var scan := ScanCandidate(x, L, c, index);
      if scan == Raise {
        return Err(ValueError);
      }
      var continueFlag := scan == Mismatch;
      if continueFlag {
        index := index + 1;
      } else {
        break;
      }
      if index > L - 1 {
        return Err(AssertionError);
      }
    }
    r := Ok(index);
  }

  /** The inner loop of the synchronisation: look for `c` at `index`, `index + L` and `index + 2L`. */
  method ScanCandidate(x: seq<byte>, L: nat, c: byte, index: nat) returns (s: Scan)
    requires index + 2 * L < |x|
    ensures s == ScanAt(x, L, c, index)
  {
    var continueFlag := false;
    for k := 0 to SYNC_REPEATS
      invariant PartialScan(x, L, c, index, k) == if continueFlag then Mismatch else Match
    {
      var found := IndexFrom(x, c, FrameStart(index, L, k));
      if found.None? {
        PartialScanRaises(x, L, c, index, k + 1);
        PartialScanComplete(x, L, c, index);
        return Raise;
      }
      if found.value - (k * L + index) != 0 {
        continueFlag := true;
      }
    }
    PartialScanComplete(x, L, c, index);
    s := if continueFlag then Mismatch else Match;
  }

  /** Once a frame start is missing the remaining frames cannot change the verdict. */
  lemma {:induction false} PartialScanRaises(x: seq<byte>, L: nat, c: byte, index: nat, k: nat)
    requires 0 < k <= SYNC_REPEATS && index + 2 * L < |x| && PartialScan(x, L, c, index, k) == Raise
    ensures PartialScan(x, L, c, index, SYNC_REPEATS) == Raise
    decreases SYNC_REPEATS - k
  {
    if k < SYNC_REPEATS {
      PartialScanRaises(x, L, c, index, k + 1);
    }
  }

  /** The frame length and start character fixed by synchronisation (MessageLen, startChar). */
  datatype Link = Link(messageLen: nat, startChar: byte)

  /** `serial.read(n)` on the pending bytes `s`: at most `n` of them (fewer on timeout). */
  function Take(s: seq<byte>, n: nat): (r: seq<byte>)
    ensures |r| == if n <= |s| then n else |s|
    ensures r == s[..|r|]
  {
    if n <= |s| then s[..n] else s
  }

  /** What synchronisation leaves: the frame format, the offset search's verdict and the unread bytes. */
  datatype SyncResult = SyncResult(link: Option<Link>, offset: Result<nat>, rest: seq<byte>)

  /**
   * Synchronisation on the bytes the board has sent: read four frames' worth of
   * bytes, search the frame boundary and, on success, discard the bytes before it.
   */
  function SyncStream(version: int, incoming: seq<byte>): (r: SyncResult)
    ensures r.link.None? <==> FrameFormat(version).None?
    ensures r.link.None? ==> r.offset == Err(AttributeError) && r.rest == incoming
    ensures r.link.Some? ==>
      var L, c := r.link.value.messageLen, r.link.value.startChar;
      FrameFormat(version) == Some((L, c))
      && r.offset == Sync(Take(incoming, 4 * L), L, c)
      && (r.offset.Err? ==> r.rest == incoming[|Take(incoming, 4 * L)|..])
  {
    match FrameFormat(version)
    case None => SyncResult(None, Err(AttributeError), incoming)
    case Some((L, c)) =>
      var x := Take(incoming, 4 * L);
      var rest := incoming[|x|..];
      var s := Sync(x, L, c);
      if s.Err? then SyncResult(Some(Link(L, c)), s, rest)
      else SyncResult(Some(Link(L, c)), s, rest[|Take(rest, s.value)|..])
  }

  /**
   * When the first four frames' worth of bytes has its earliest frame boundary at
   * `o`, synchronisation leaves the stream positioned exactly at the boundary `4L + o`.
   */
  lemma SyncLandsOnBoundary(version: int, incoming: seq<byte>, o: nat)
    requires FrameFormat(version).Some?
    requires var (L, c) := FrameFormat(version).value;
             |incoming| >= 4 * L + o && o < L
             && Aligned(incoming[..4 * L], L, c, o) && NoneAligned(incoming[..4 * L], L, c, 0, o)
    ensures var L := FrameFormat(version).value.0;
            SyncStream(version, incoming).offset == Ok(o) && SyncStream(version, incoming).rest == incoming[4 * L + o..]
  {
    var (L, c) := FrameFormat(version).value;
    SyncRecoversOffset(incoming[..4 * L], L, c, o);
    var rest := incoming[4 * L..];
    assert Take(rest, o) == rest[..o];
    assert rest[o..] == incoming[4 * L + o..];
  }

  /** One frame as `read_data` checks it: exactly `L` bytes whose start character is `c`. */
  function DecodeFrame(L: nat, c: byte, x: seq<byte>): (r: Result<Frame>)
    requires L == 14 || L == 17
    ensures r.Ok? <==> |x| == L && x[0] == c
    ensures r.Err? ==> r.error == AssertionError
  {
    if |x| != L then Err(AssertionError)
    else
      var f := if L == 14 then ParseV1(x) else ParseV2(x);
      if f.startChar != c then Err(AssertionError) else Ok(f)
  }

  /** Every frame the board can send in either layout is decoded back to itself, whatever its pad byte. */
  lemma DecodeEncodedFrame(f: Frame, pad: byte)
    ensures FitsV1(f) ==> DecodeFrame(14, f.startChar, EncodeV1(f, pad)) == Ok(f)
    ensures FitsV2(f) ==> DecodeFrame(17, f.startChar, EncodeV2(f, pad)) == Ok(f)
  {
    if FitsV1(f) { ParseEncodeV1(f, pad); }
    if FitsV2(f) { ParseEncodeV2(f, pad); }
  }

  /** A frame is never accepted with a start character other than the expected one. */
  lemma DecodeRejectsWrongStart(L: nat, c: byte, x: seq<byte>)
    requires L == 14 || L == 17
    requires |x| > 0 && x[0] != c
    ensures DecodeFrame(L, c, x) == Err(AssertionError)
  {
  }

  // ---------------------------------------------------------------------------
  // Commands

  /** Two's-complement reading of a byte. */
  function Signed8(b: byte): (r: int)
    ensures -128 <= r < 128
  {
    if b < 128 then b else b - 256
  }

  /** `v.to_bytes(1, byteorder='big', signed=True)`. */
  function SignedByte(v: int): (r: Result<byte>)
    ensures r.Ok? <==> -128 <= v < 128
    ensures r.Err? ==> r.error == OverflowError
    ensures r.Ok? ==> Signed8(r.value) == v
  {
    if -128 <= v < 128 then Ok(v % 256) else Err(OverflowError)
  }

  /** Teensy pin modes (teensy3/core_pins.h) accepted by the configure command. */
  const PIN_MODES: map<string, int> :=
    map["INPUT" := 0, "OUTPUT" := 1, "INPUT_PULLUP" := 2, "INPUT_PULLDOWN" := 3,
        "OUTPUT_OPENDRAIN" := 4, "INPUT_DISABLE" := 5]

  /** `str.upper()` on ASCII letters. */
  function Upper(s: string): (r: string)
    ensures |r| == |s|
    ensures forall i :: 0 <= i < |s| ==> (r[i] == s[i] || ('a' <= s[i] <= 'z' && r[i] as int == s[i] as int - 32))
  {
    if s == [] then []
    else [if 'a' <= s[0] <= 'z' then (s[0] as int - 32) as char else s[0]] + Upper(s[1..])
  }

  /** Upper-casing leaves a string without lower-case letters unchanged. */
  lemma {:induction false} UpperKeepsUpper(s: string)
    requires forall i :: 0 <= i < |s| ==> !('a' <= s[i] <= 'z')
    ensures Upper(s) == s
  {
    if s != [] { UpperKeepsUpper(s[1..]); }
  }

  /** Command characters: configure a DIO or AUX pin, write a DIO or AUX pin, write a DIO pin and its AUX mirror. */
  const CONFIGURE_DIO: byte := 'C' as int
  const CONFIGURE_AUX: byte := 'X' as int
  const WRITE_DIO: byte := 'D' as int
  const WRITE_AUX: byte := 'A' as int
  const WRITE_MIRROR: byte := 'M' as int

  /** The command byte that selects the pin bank of a configure command; other types add none. */
  function ConfigureTag(pinType: string): seq<byte>
  {
    if pinType == "DIO" then [CONFIGURE_DIO] else if pinType == "AUX" then [CONFIGURE_AUX] else []
  }

  /** The command byte of a write command; mirror writes use 'M' whatever the pin type. */
  function WriteTag(pinType: string, mirror: bool): seq<byte>
  {
    if mirror then [WRITE_MIRROR]
    else if pinType == "DIO" then [WRITE_DIO] else if pinType == "AUX" then [WRITE_AUX] else []
  }

  /** The bytes `configure_pin` writes: magic, bank, signed pin, signed mode. */
  function ConfigureCommand(pin: int, direction: string, pinType: string): (r: Result<seq<byte>>)
    ensures r.Err? ==> (r.error == OverflowError <==> !(-128 <= pin < 128))
    ensures r.Err? ==> r.error == OverflowError || r.error == AssertionError
    ensures r.Ok? ==> |r.value| >= 3 && r.value[0] == MAGIC
    ensures r.Ok? && pinType != "DIO" && pinType != "AUX" ==> DecodeCommand(r.value) == None
  {
    var p := SignedByte(pin);
    if p.Err? then Err(OverflowError)
    else if Upper(direction) !in PIN_MODES then Err(AssertionError)
    else Ok([MAGIC] + ConfigureTag(pinType) + [p.value, PIN_MODES[Upper(direction)]])
  }

  /** The bytes `write_pin` writes: magic, command, signed pin, signed value. */
  function WriteCommand(pin: int, value: int, pinType: string, mirror: bool): (r: Result<seq<byte>>)
    ensures r.Err? ==> r.error == OverflowError
    ensures r.Ok? ==> |r.value| >= 3 && r.value[0] == MAGIC
    ensures r.Ok? && !mirror && pinType != "DIO" && pinType != "AUX" ==> DecodeCommand(r.value) == None
  {
    var p, v := SignedByte(pin), SignedByte(value);
    if p.Err? || v.Err? then Err(OverflowError)
    else Ok([MAGIC] + WriteTag(pinType, mirror) + [p.value, v.value])
  }

  /** A command as the board's parser reads four bytes: command character, pin, argument. */
  datatype Command = Command(tag: char, pin: int, arg: int)

  function DecodeCommand(p: seq<byte>): (r: Option<Command>)
    ensures r.Some? <==> |p| == 4 && p[0] == MAGIC
    ensures r.Some? ==> -128 <= r.value.pin < 128 && -128 <= r.value.arg < 128 && r.value.tag as int == p[1] as int
  {
    if |p| == 4 && p[0] == MAGIC then Some(Command(p[1] as char, Signed8(p[2]), Signed8(p[3]))) else None
  }

  /**
   * A configure command succeeds exactly for a pin in -128..127 and a known mode
   * (ignoring case), and for the DIO and AUX banks decodes back to its bank, pin and mode.
   */
  lemma ConfigureCommandRoundTrip(pin: int, direction: string, pinType: string)
    ensures ConfigureCommand(pin, direction, pinType).Ok? <==>
              -128 <= pin < 128 && Upper(direction) in PIN_MODES
    ensures ConfigureCommand(pin, direction, pinType).Ok? && (pinType == "DIO" || pinType == "AUX") ==>
              DecodeCommand(ConfigureCommand(pin, direction, pinType).value) ==
              Some(Command(if pinType == "DIO" then 'C' else 'X', pin, PIN_MODES[Upper(direction)]))
  {
  }

  /** A write command succeeds exactly for pin and value in -128..127 and decodes back to them. */
  lemma WriteCommandRoundTrip(pin: int, value: int, pinType: string, mirror: bool)
    ensures WriteCommand(pin, value, pinType, mirror).Ok? <==> -128 <= pin < 128 && -128 <= value < 128
    ensures WriteCommand(pin, value, pinType, mirror).Ok? && (mirror || pinType == "DIO" || pinType == "AUX") ==>
              DecodeCommand(WriteCommand(pin, value, pinType, mirror).value) ==
              Some(Command(if mirror then 'M' else if pinType == "DIO" then 'D' else 'A', pin, value))
  {
  }
}
