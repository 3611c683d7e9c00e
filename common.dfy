/** Exceptions raised by the Python and C code, and the result types that carry them. */
module Common {

  /** The Python exception classes that the modelled code raises (AssertionError for a failed `assert`). */
  datatype Error =
    | AssertionError
    | ValueError
    | KeyError
    | IndexError
    | TypeError
    | AttributeError
    | OverflowError
    | ZeroDivisionError
    | NotImplementedError
    | FileNotFoundError
    | Warning

  datatype Option<T> = None | Some(value: T)

  /** A computation that returns a value or raises. */
  datatype Result<T> = Ok(value: T) | Err(error: Error)

  /** A computation run for its effect that completes or raises. */
  datatype Outcome = Done | Fail(error: Error)

  /** `dict.get(key, default)` on an optional entry. */
  function GetOr<T>(o: Option<T>, default: T): T
  {
    if o.Some? then o.value else default
  }

  /** The names of a list of named entries. */
  function Names<E>(entries: seq<(string, E)>): (r: set<string>)
    ensures forall j :: 0 <= j < |entries| ==> entries[j].0 in r
    ensures forall n :: n in r ==> exists j :: 0 <= j < |entries| && entries[j].0 == n
    decreases |entries|
  {
    if |entries| == 0 then {} else Names(entries[..|entries| - 1]) + {entries[|entries| - 1].0}
  }

  /** The entries come from a Python dict: their names are distinct. */
  predicate DistinctNames<E>(entries: seq<(string, E)>)
  {
    forall i, j :: 0 <= i < j < |entries| ==> entries[i].0 != entries[j].0
  }

  /** The sum of a list of reals, `sum(xs)`, added from the left. */
  function Sum(s: seq<real>): real
  {
    if s == [] then 0.0 else Sum(s[..|s| - 1]) + s[|s| - 1]
  }

  /** A sum of non-negative terms is non-negative, and one of non-positive terms non-positive. */
  lemma {:induction false} SumSign(s: seq<real>)
    ensures (forall i :: 0 <= i < |s| ==> s[i] >= 0.0) ==> Sum(s) >= 0.0
    ensures (forall i :: 0 <= i < |s| ==> s[i] <= 0.0) ==> Sum(s) <= 0.0
    decreases |s|
  {
    if s != [] {
      var p := s[..|s| - 1];
      SumSign(p);
      assert forall i :: 0 <= i < |p| ==> p[i] == s[i];
    }
  }

  /** The sum also peels off its first element. */
  lemma {:induction false} SumDropFirst(s: seq<real>)
    requires |s| > 0
    ensures Sum(s) == s[0] + Sum(s[1..])
    decreases |s|
  {
    if |s| > 1 {
      SumDropFirst(s[..|s| - 1]);
      assert s[..|s| - 1][1..] == s[1..][..|s| - 2];
    }
  }

  function Min(a: real, b: real): real { if a <= b then a else b }
  function Max(a: real, b: real): real { if a >= b then a else b }
}

/** Bytes, the little-endian integer layouts used on the serial link, and bit sets. */
module Bytes {

  type byte = x: int | 0 <= x < 256

  function Pow2(n: nat): (r: nat)
    ensures r >= 1
  {
    if n == 0 then 1 else 2 * Pow2(n - 1)
  }

  /** Unsigned 16-bit little-endian value of two bytes. */
  function U16(lo: byte, hi: byte): (r: nat)
    ensures r < 0x1_0000
  {
    lo + 256 * hi
  }

  /** Unsigned 32-bit little-endian value of four bytes. */
  function U32(b0: byte, b1: byte, b2: byte, b3: byte): (r: nat)
    ensures r < 0x1_0000_0000
  {
    U16(b0, b1) + 0x1_0000 * U16(b2, b3)
  }

  /** Two's-complement reading of a 16-bit and a 32-bit unsigned value. */
  function Signed16(u: nat): (r: int)
    requires u < 0x1_0000
    ensures -0x8000 <= r < 0x8000
    ensures r % 0x1_0000 == u
  {
    if u < 0x8000 then u else u - 0x1_0000
  }

  function Signed32(u: nat): (r: int)
    requires u < 0x1_0000_0000
    ensures -0x8000_0000 <= r < 0x8000_0000
    ensures r % 0x1_0000_0000 == u
  {
    if u < 0x8000_0000 then u else u - 0x1_0000_0000
  }

  /** Wrap-around of an integer into the range of int16_t / int32_t, as two's-complement hardware does. */
  function Wrap16(x: int): (r: int)
    ensures -0x8000 <= r < 0x8000
    ensures (r - x) % 0x1_0000 == 0
  {
    Signed16(x % 0x1_0000)
  }

  function Wrap32(x: int): (r: int)
    ensures -0x8000_0000 <= r < 0x8000_0000
    ensures (r - x) % 0x1_0000_0000 == 0
  {
    Signed32(x % 0x1_0000_0000)
  }

  /** Little-endian encodings of unsigned values. */
  function EncodeU16(v: nat): (r: seq<byte>)
    requires v < 0x1_0000
    ensures |r| == 2 && U16(r[0], r[1]) == v
  {
    [v % 256, v / 256]
  }

  function EncodeU32(v: nat): (r: seq<byte>)
    requires v < 0x1_0000_0000
    ensures |r| == 4 && U32(r[0], r[1], r[2], r[3]) == v
  {
    EncodeU16(v % 0x1_0000) + EncodeU16(v / 0x1_0000)
  }

  /** Two's-complement little-endian encodings of signed values. */
  function EncodeI16(v: int): (r: seq<byte>)
    requires -0x8000 <= v < 0x8000
    ensures |r| == 2 && Signed16(U16(r[0], r[1])) == v
  {
    var u := v % 0x1_0000;
    assert u == if v >= 0 then v else v + 0x1_0000;
    EncodeU16(u)
  }

  function EncodeI32(v: int): (r: seq<byte>)
    requires -0x8000_0000 <= v < 0x8000_0000
    ensures |r| == 4 && Signed32(U32(r[0], r[1], r[2], r[3])) == v
  {
    var u := v % 0x1_0000_0000;
    assert u == if v >= 0 then v else v + 0x1_0000_0000;
    EncodeU32(u)
  }

  /** The bit `i` of a non-negative integer, as `n & (1 << i) > 0` tests it. */
  predicate TestBit(n: nat, i: nat)
  {
    (n / Pow2(i)) % 2 == 1
  }

  /** The set of 1-bits of a 16-bit word. */
  function BitsOf16(n: nat): (r: set<nat>)
    requires n < 0x1_0000
    ensures forall i :: i in r <==> i < 16 && TestBit(n, i)
  {
    set i: nat | i < 16 && TestBit(n, i)
  }

  /** `a | b` on non-negative integers. */
  function BitOr(a: nat, b: nat): (r: nat)
    decreases a + b
  {
    if a == 0 then b
    else if b == 0 then a
    else 2 * BitOr(a / 2, b / 2) + (if a % 2 == 1 || b % 2 == 1 then 1 else 0)
  }

  /** `a | b` has a 1-bit exactly where `a` or `b` has one. */
  lemma {:induction false} BitOrBits(a: nat, b: nat, i: nat)
    ensures TestBit(BitOr(a, b), i) <==> TestBit(a, i) || TestBit(b, i)
    decreases i
  {
    var o := BitOr(a, b);
    if a == 0 || b == 0 {
      assert TestBit(0, i) == false by { assert 0 / Pow2(i) == 0; }
    } else if i == 0 {
    } else {
      var h := BitOr(a / 2, b / 2);
      assert o / 2 == h;
      BitOrBits(a / 2, b / 2, i - 1);
      HalfBit(o, i);
      HalfBit(a, i);
      HalfBit(b, i);
    }
  }

  /** Bit `i` of `n` is bit `i - 1` of `n / 2`. */
  lemma HalfBit(n: nat, i: nat)
    requires i > 0
    ensures TestBit(n, i) == TestBit(n / 2, i - 1)
  {
    DivTwice(n, Pow2(i - 1));
  }

  lemma DivTwice(n: nat, p: nat)
    requires p > 0
    ensures n / (2 * p) == (n / 2) / p
  {
    var q, r2 := (n / 2) / p, (n / 2) % p;
    assert n / 2 == p * q + r2;
    assert n == (2 * p) * q + (2 * r2 + n % 2);
    DivIdent(n, 2 * p, q, 2 * r2 + n % 2);
  }

  /** Euclidean division is determined by its quotient-remainder equation. */
  lemma DivIdent(n: int, d: int, q: int, r: int)
    requires d > 0 && n == d * q + r && 0 <= r < d
    ensures n / d == q
  {
    var q', r' := n / d, n % d;
    assert n == d * q' + r';
    if q > q' {
      MulAtLeast(d, q - q');
    } else if q < q' {
      MulAtLeast(d, q' - q);
    }
  }

  lemma {:induction false} MulAtLeast(d: int, k: int)
    requires d > 0 && k >= 1
    ensures d * k >= d
    decreases k
  {
    if k > 1 {
      MulAtLeast(d, k - 1);
      assert d * k == d * (k - 1) + d;
    }
  }

  /** `a | b` is at least each of its operands. */
  lemma {:induction false} BitOrAtLeast(a: nat, b: nat)
    ensures BitOr(a, b) >= a && BitOr(a, b) >= b
    decreases a + b
  {
    if a != 0 && b != 0 {
      BitOrAtLeast(a / 2, b / 2);
    }
  }

  /** `a | b` of two numbers below 2^n is below 2^n. */
  lemma {:induction false} BitOrBelow(a: nat, b: nat, n: nat)
    requires a < Pow2(n) && b < Pow2(n)
    ensures BitOr(a, b) < Pow2(n)
    decreases n
  {
    if a != 0 && b != 0 {
      BitOrBelow(a / 2, b / 2, n - 1);
    }
  }

  /** The integer whose 1-bits are the members of `s` below `n`. */
  function BitsValue(s: set<nat>, n: nat): (r: nat)
    ensures r < Pow2(n)
  {
    if n == 0 then 0 else BitsValue(s, n - 1) + (if n - 1 in s then Pow2(n - 1) else 0)
  }
}
