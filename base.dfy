/**
 * Shared vocabulary: optional values, results, the outcome of a call that
 * may panic, fixed-width integers, little-endian byte strings and decimal
 * numerals.
 */
module Base {

  datatype Option<T> = None | Some(value: T)

  datatype Result<T, E> = Ok(value: T) | Err(error: E)

  /** The outcome of a call that either returns or panics (an `assert!`,
   *  an `unwrap()` on nothing, an `unimplemented!()`, an index out of range). */
  datatype Exec<T> = Done(value: T) | Panic(msg: string)

  type U8 = x: int | 0 <= x < 0x100
  type U16 = x: int | 0 <= x < 0x1_0000
  type U32 = x: int | 0 <= x < 0x1_0000_0000
  type U64 = x: int | 0 <= x < 0x1_0000_0000_0000_0000
  type I32 = x: int | -0x8000_0000 <= x < 0x8000_0000
  type I64 = x: int | -0x8000_0000_0000_0000 <= x < 0x8000_0000_0000_0000

  const TWO_32: int := 0x1_0000_0000
  const TWO_64: int := 0x1_0000_0000_0000_0000

  function Max(a: int, b: int): (r: int)
    ensures r >= a && r >= b && (r == a || r == b)
  {
    if a >= b then a else b
  }

  /** Two's-complement wrap of an arbitrary integer into i32 (Rust's
   *  wrapping arithmetic and `as i32` casts). */
  function WrapI32(x: int): (r: I32)
    ensures (r - x) % TWO_32 == 0
  {
    var m := x % TWO_32;
    if m < 0x8000_0000 then m else m - TWO_32
  }

  /** The bit pattern of an i32 (`x as u32`). */
  function I32Bits(x: I32): (r: U32)
    ensures (r - x) % TWO_32 == 0
  {
    if x >= 0 then x else x + TWO_32
  }

  /** The i32 with a given bit pattern (`u as i32`). */
  function I32FromBits(u: U32): (r: I32)
    ensures I32Bits(r) == u
  {
    if u < 0x8000_0000 then u else u - TWO_32
  }

  lemma I32BitsRoundTrip(x: I32)
    ensures I32FromBits(I32Bits(x)) == x
  {
  }

  /** The bit pattern of an i64 (`x as u64`). */
  function I64Bits(x: I64): (r: U64)
    ensures (r - x) % TWO_64 == 0
  {
    if x >= 0 then x else x + TWO_64
  }

  /** The i64 with a given bit pattern (`u as i64`). */
  function I64FromBits(u: U64): (r: I64)
    ensures I64Bits(r) == u
  {
    if u < 0x8000_0000_0000_0000 then u else u - TWO_64
  }

  lemma I64BitsRoundTrip(x: I64)
    ensures I64FromBits(I64Bits(x)) == x
  {
  }

  function Pow256(n: nat): (r: nat)
    ensures r >= 1
  {
    if n == 0 then 1 else 256 * Pow256(n - 1)
  }

  /** The `n` low-order bytes of `x`, least significant first. */
  function LittleEndian(x: nat, n: nat): (r: seq<U8>)
    ensures |r| == n
  {
    if n == 0 then [] else [x % 256] + LittleEndian(x / 256, n - 1)
  }

  /** The number a little-endian byte string denotes. */
  function FromLittleEndian(s: seq<U8>): (r: nat)
    ensures r < Pow256(|s|)
  {
    if s == [] then 0 else s[0] + 256 * FromLittleEndian(s[1..])
  }

  lemma {:induction false} ModOfProduct(x: nat, b: nat, p: nat)
    requires b > 0 && p > 0
    ensures x % (b * p) == x % b + b * ((x / b) % p)
  {
    var q := x / b;
    var t := x % b;
    var q2 := q / p;
    var t2 := q % p;
    assert x == b * q + t;
    assert q == p * q2 + t2;
    Regroup(b, p, q, q2, t2);
    assert x == (b * p) * q2 + (b * t2 + t);
    ProductBound(b, p, t2, t);
    DivModUnique(x, b * p, q2, b * t2 + t);
  }

  lemma Regroup(b: int, p: int, q: int, q2: int, t2: int)
    requires q == p * q2 + t2
    ensures b * q == (b * p) * q2 + b * t2
  {
    calc {
      b * q;
      b * (p * q2 + t2);
      b * (p * q2) + b * t2;
      (b * p) * q2 + b * t2;
    }
  }

  lemma ProductBound(b: nat, p: nat, t2: nat, t: nat)
    requires t2 < p && t < b
    ensures b * t2 + t < b * p
  {
    assert b * t2 <= b * (p - 1);
  }

  lemma DivModUnique(x: int, m: int, q: int, t: int)
    requires m > 0 && 0 <= t < m && x == m * q + t
    ensures x % m == t && x / m == q
  {
    var q', t' := x / m, x % m;
    assert m * q + t == m * q' + t';
    assert m * (q - q') == t' - t;
    if q > q' {
      MulAtLeast(m, q - q');
      assert false;
    } else if q < q' {
      MulAtLeast(m, q' - q);
      assert false;
    }
  }

  lemma MulAtLeast(m: int, k: int)
    requires m > 0 && k >= 1
    ensures m * k >= m
  {
  }

  /** Decoding `n` little-endian bytes of `x` gives `x` modulo 256^n. */
  lemma {:induction false} LittleEndianRoundTrip(x: nat, n: nat)
    ensures FromLittleEndian(LittleEndian(x, n)) == x % Pow256(n)
  {
    if n > 0 {
      var s := LittleEndian(x, n);
      assert s[1..] == LittleEndian(x / 256, n - 1);
      LittleEndianRoundTrip(x / 256, n - 1);
      ModOfProduct(x, 256, Pow256(n - 1));
    }
  }

  /** Encoding the value of a byte string gives the byte string back. */
  lemma {:induction false} FromLittleEndianRoundTrip(s: seq<U8>)
    ensures LittleEndian(FromLittleEndian(s), |s|) == s
  {
    if s != [] {
      var v := FromLittleEndian(s);
      assert v % 256 == s[0] && v / 256 == FromLittleEndian(s[1..]);
      FromLittleEndianRoundTrip(s[1..]);
    }
  }

  lemma LittleEndianOfSmall(x: nat, n: nat)
    requires x < Pow256(n)
    ensures FromLittleEndian(LittleEndian(x, n)) == x
  {
    LittleEndianRoundTrip(x, n);
  }

  /** Writing `bytes` over `body` from `at` on, one element at a time
   *  (`copy_from_slice` on a sub-slice). */
  function Splice<T>(body: seq<T>, at: nat, bytes: seq<T>): (r: seq<T>)
    requires at + |bytes| <= |body|
    ensures |r| == |body|
    decreases |bytes|
  {
    if bytes == [] then body else Splice(body[at := bytes[0]], at + 1, bytes[1..])
  }

  /** Each element of a splice: a new one inside the written window, the
   *  old one outside it. */
  lemma {:induction false} SpliceIndex<T>(body: seq<T>, at: nat, bytes: seq<T>)
    requires at + |bytes| <= |body|
    ensures forall k :: 0 <= k < |body| ==>
      Splice(body, at, bytes)[k] == if at <= k < at + |bytes| then bytes[k - at] else body[k]
    decreases |bytes|
  {
    if bytes != [] {
      SpliceIndex(body[at := bytes[0]], at + 1, bytes[1..]);
    }
  }

  /** The same splice cut into slices: the prefix, the new elements, the
   *  suffix. */
  lemma SpliceSlices<T>(body: seq<T>, at: nat, bytes: seq<T>)
    requires at + |bytes| <= |body|
    ensures Splice(body, at, bytes) == body[..at] + bytes + body[at + |bytes|..]
  {
    SpliceIndex(body, at, bytes);
  }

  /** A splice holds the new bytes at `at` and the old ones elsewhere. */
  lemma SpliceFacts<T>(body: seq<T>, at: nat, bytes: seq<T>)
    requires at + |bytes| <= |body|
    ensures Splice(body, at, bytes)[at..at + |bytes|] == bytes
    ensures forall k :: 0 <= k < |body| && !(at <= k < at + |bytes|) ==> Splice(body, at, bytes)[k] == body[k]
  {
    SpliceIndex(body, at, bytes);
  }

  /** Two splices, the second after the first: the first one's bytes stay,
   *  and nothing outside both changes. */
  lemma SpliceTwice<T>(body: seq<T>, at: nat, bytes: seq<T>, at2: nat, bytes2: seq<T>)
    requires at + |bytes| <= at2 && at2 + |bytes2| <= |body|
    ensures Splice(Splice(body, at, bytes), at2, bytes2)[at..at + |bytes|] == bytes
    ensures forall k :: 0 <= k < |body| && !(at <= k < at2 + |bytes2|) ==> Splice(Splice(body, at, bytes), at2, bytes2)[k] == body[k]
  {
    var once := Splice(body, at, bytes);
    SpliceFacts(body, at, bytes);
    SpliceFacts(once, at2, bytes2);
    assert Splice(once, at2, bytes2)[at..at + |bytes|] == once[at..at + |bytes|];
  }

  // ---- decimal numerals (`format!("{}", n)` and `str::parse::<usize>()`) ----

  function DigitChar(d: nat): (c: char)
    requires d < 10
    ensures '0' <= c <= '9' && c as int - '0' as int == d
  {
    (d + '0' as int) as char
  }

  predicate IsDigit(c: char)
  {
    '0' <= c <= '9'
  }

  function DigitOf(c: char): (d: nat)
    requires IsDigit(c)
    ensures d < 10 && DigitChar(d) == c
  {
    c as int - '0' as int
  }

  /** The shortest decimal numeral of `n` (what `format!("{}", n)` prints). */
  function NatToString(n: nat): (s: string)
    ensures |s| >= 1 && forall i :: 0 <= i < |s| ==> IsDigit(s[i])
    ensures |s| > 1 ==> s[0] != '0'
    decreases n
  {
    if n < 10 then [DigitChar(n)] else NatToString(n / 10) + [DigitChar(n % 10)]
  }

  /** The value of a string of decimal digits. */
  function DigitsValue(s: string): (v: nat)
    requires forall i :: 0 <= i < |s| ==> IsDigit(s[i])
  {
    if s == [] then 0 else 10 * DigitsValue(s[..|s| - 1]) + DigitOf(s[|s| - 1])
  }

  /** `s.parse::<usize>()` on a 64-bit target: an optional `+` followed by
   *  at least one decimal digit, denoting a value below 2^64. */
  function ParseUsize(s: string): (r: Option<nat>)
    ensures r.Some? ==> r.value < TWO_64
    ensures r.Some? && s != [] && s[0] != '+' ==> forall i :: 0 <= i < |s| ==> IsDigit(s[i])
  {
    var digits := if |s| > 0 && s[0] == '+' then s[1..] else s;
    if digits != [] && (forall i :: 0 <= i < |digits| ==> IsDigit(digits[i]))
       && DigitsValue(digits) < TWO_64
    then Some(DigitsValue(digits))
    else None
  }

  lemma {:induction false} DigitsOfNatToString(n: nat)
    ensures DigitsValue(NatToString(n)) == n
    decreases n
  {
    if n >= 10 {
      var s := NatToString(n);
      assert s[..|s| - 1] == NatToString(n / 10);
      DigitsOfNatToString(n / 10);
    }
  }

  /** Printing a usize in decimal and parsing it back gives the number. */
  lemma ParseNatToString(n: nat)
    requires n < TWO_64
    ensures ParseUsize(NatToString(n)) == Some(n)
  {
    DigitsOfNatToString(n);
  }

  /** `s.strip_prefix(p)` */
  function StripPrefix(s: string, p: string): (r: Option<string>)
    ensures r.Some? <==> (|p| <= |s| && s[..|p|] == p)
    ensures r.Some? ==> s == p + r.value
  {
    if |p| <= |s| && s[..|p|] == p then Some(s[|p|..]) else None
  }
}
