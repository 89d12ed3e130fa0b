/**
 * Byte-level vocabulary shared by both crates: Rust's truncating integer
 * casts (`as u8`, `as u16`), the saturating float-to-integer cast, the
 * big-endian `to_be_bytes` layouts, and the ASCII/decimal text used for
 * display names.
 */
module Bytes {

  type byte = x: int | 0 <= x < 0x100
  type u16 = x: int | 0 <= x < 0x1_0000
  type u32 = x: int | 0 <= x < 0x1_0000_0000
  type u64 = x: int | 0 <= x < 0x1_0000_0000_0000_0000

  /** 256^n, the number of values that n bytes can hold. */
  function Pow256(n: nat): (p: nat)
    ensures p >= 1
  {
    if n == 0 then 1 else 256 * Pow256(n - 1)
  }

  /** Rust `x as u8` on an integer: the low 8 bits of its two's complement form. */
  function U8(x: int): (b: byte)
    ensures (x - b) % 0x100 == 0
    ensures 0 <= x < 0x100 ==> b == x
  {
    x % 0x100
  }

  /** Rust `x as u16` on an integer: the low 16 bits of its two's complement form. */
  function U16(x: int): (v: u16)
    ensures (x - v) % 0x1_0000 == 0
    ensures 0 <= x < 0x1_0000 ==> v == x
  {
    x % 0x1_0000
  }

  /**
   * Rust `f as u16` on a float whose product has already been truncated
   * toward zero to the integer x: values below 0 become 0 and values above
   * u16::MAX become u16::MAX (Rust's float casts saturate, they never wrap).
   */
  function SatU16(x: int): (v: u16)
    ensures 0 <= x < 0x1_0000 ==> v == x
    ensures x < 0 ==> v == 0
    ensures x >= 0x1_0000 ==> v == 0xFFFF
  {
    if x < 0 then 0 else if x > 0xFFFF then 0xFFFF else x
  }

  /** The n low-order bytes of x, most significant first (Rust `to_be_bytes`). */
  function BE(x: nat, n: nat): (r: seq<byte>)
    ensures |r| == n
  {
    if n == 0 then [] else BE(x / 0x100, n - 1) + [x % 0x100]
  }

  /** The unsigned value of a big-endian byte string. */
  function FromBE(s: seq<byte>): (v: nat)
    ensures v < Pow256(|s|)
  {
    if |s| == 0 then 0 else FromBE(s[..|s| - 1]) * 0x100 + s[|s| - 1]
  }

  /** `(x as u16).to_be_bytes()`. */
  function U16BE(x: int): (r: seq<byte>)
    ensures |r| == 2
  {
    BE(U16(x), 2)
  }

  /** `x.to_be_bytes()` for a u32. */
  function U32BE(x: u32): (r: seq<byte>)
    ensures |r| == 4
  {
    BE(x, 4)
  }

  /** Euclidean division is unique: any split x == d*a + r with 0 <= r < d is the one. */
  lemma DivModUnique(x: int, d: int, a: int, r: int)
    requires d > 0 && x == d * a + r && 0 <= r < d
    ensures x / d == a && x % d == r
  {
    var q, m := x / d, x % d;
    var k := q - a;
    assert d * q == d * a + d * k;
    assert d * k == m - r;
    MulOutside(d, k);
  }

  /** A non-zero multiple of d is at least d away from 0. */
  lemma MulOutside(d: int, k: int)
    requires d > 0
    ensures k >= 1 ==> d * k >= d
    ensures k <= -1 ==> d * k <= -d
  {
    if k >= 1 {
      assert d * k == d * (k - 1) + d;
      assert d * (k - 1) >= 0;
    } else if k <= -1 {
      assert d * k == d * (k + 1) - d;
      assert d * (k + 1) <= 0;
    }
  }

  /** Peeling the last byte off a modulus that is a multiple of 256. */
  lemma ModSplit(x: nat, p: nat)
    requires p >= 1
    ensures (x / 0x100) % p * 0x100 + x % 0x100 == x % (0x100 * p)
  {
    var q, r := x / 0x100, x % 0x100;
    var a, b := q / p, q % p;
    assert q == p * a + b;
    assert x == 0x100 * q + r;
    assert x == (0x100 * p) * a + (0x100 * b + r) by {
      assert 0x100 * q == 0x100 * (p * a) + 0x100 * b;
      assert 0x100 * (p * a) == (0x100 * p) * a;
    }
    assert 0x100 * b + r < 0x100 * p by {
      assert b <= p - 1;
      assert 0x100 * b <= 0x100 * (p - 1);
    }
    DivModUnique(x, 0x100 * p, a, 0x100 * b + r);
  }

  /** Decoding the n-byte big-endian form of x gives back x modulo 256^n. */
  lemma {:induction false} FromBEOfBE(x: nat, n: nat)
    ensures FromBE(BE(x, n)) == x % Pow256(n)
  {
    if n > 0 {
      var r := BE(x, n);
      assert r[..n - 1] == BE(x / 0x100, n - 1);
      FromBEOfBE(x / 0x100, n - 1);
      ModSplit(x, Pow256(n - 1));
    }
  }

  /** Dropping the k leading bytes of an (n+k)-byte form leaves the n-byte form. */
  lemma {:induction false} BEDropHigh(x: nat, n: nat, k: nat)
    ensures BE(x, n + k)[k..] == BE(x, n)
  {
    if n > 0 {
      BEDropHigh(x / 0x100, n - 1, k);
      assert BE(x, n + k) == BE(x / 0x100, n - 1 + k) + [x % 0x100];
    }
  }

  /** A u16 round-trips through its two big-endian bytes. */
  lemma U16BERoundTrip(x: int)
    ensures FromBE(U16BE(x)) == U16(x)
  {
    FromBEOfBE(U16(x), 2);
  }

  /** A u32 round-trips through its four big-endian bytes. */
  lemma U32BERoundTrip(x: u32)
    ensures FromBE(U32BE(x)) == x
  {
    FromBEOfBE(x, 4);
  }

  /**
   * `(x >> 8) & 0xFF` and `x & 0xFF` on an i32 (arithmetic shift): the
   * shape `training_start_payload` uses for the stage bytes.
   */
  function ShiftMaskBytes(x: int): (r: seq<byte>)
    ensures r == U16BE(x)
  {
    var hi := (x / 0x100) % 0x100;
    var lo := x % 0x100;
    assert [hi, lo] == U16BE(x) by { ShiftMaskIsLow16(x); }
    [hi, lo]
  }

  lemma ShiftMaskIsLow16(x: int)
    ensures U16BE(x) == [(x / 0x100) % 0x100, x % 0x100]
  {
    var y := x % 0x1_0000;
    var k := x / 0x1_0000;
    assert x == 0x1_0000 * k + y;
    var a, b := y / 0x100, y % 0x100;
    assert y == 0x100 * a + b;
    assert x == 0x100 * (0x100 * k + a) + b;
    DivModUnique(x, 0x100, 0x100 * k + a, b);
    DivModUnique(0x100 * k + a, 0x100, k, a);
    assert BE(y, 2) == BE(y / 0x100, 1) + [y % 0x100];
    assert BE(y / 0x100, 1) == [] + [(y / 0x100) % 0x100];
  }

  // ---------------------------------------------------------------------
  // Text

  /** The bytes of an ASCII string (Rust `str::as_bytes` for ASCII text). */
  function Ascii(s: string): (r: seq<byte>)
    requires forall i | 0 <= i < |s| :: s[i] < 128 as char
    ensures |r| == |s|
    ensures forall i | 0 <= i < |s| :: r[i] == s[i] as int
  {
    seq(|s|, i requires 0 <= i < |s| => s[i] as int)
  }

  predicate IsDigit(b: byte) { '0' as int <= b <= '9' as int }

  /** The decimal digits of n, most significant first, with no leading zeros. */
  function Digits(n: nat): (r: seq<byte>)
    ensures |r| >= 1
    ensures forall i | 0 <= i < |r| :: IsDigit(r[i])
    ensures n > 0 ==> r[0] != '0' as int
    decreases n
  {
    if n < 10 then ['0' as int + n] else Digits(n / 10) + ['0' as int + n % 10]
  }

  /** The value of a string of decimal digits. */
  function ParseDigits(s: seq<byte>): nat
    requires forall i | 0 <= i < |s| :: IsDigit(s[i])
  {
    if |s| == 0 then 0
    else
      var last := s[|s| - 1];
      assert IsDigit(last);
      ParseDigits(s[..|s| - 1]) * 10 + (last - '0' as int)
  }

  /** Decimal formatting loses nothing: the digits parse back to n. */
  lemma {:induction false} DigitsRoundTrip(n: nat)
    ensures ParseDigits(Digits(n)) == n
    decreases n
  {
    if n >= 10 {
      var d := Digits(n);
      assert d[..|d| - 1] == Digits(n / 10);
      DigitsRoundTrip(n / 10);
    }
  }

  /** Rust's `{}` formatting of an integer: an optional '-' and the digits. */
  function DecimalText(n: int): (r: seq<byte>)
    ensures |r| >= 1
    ensures n >= 0 ==> (forall i | 0 <= i < |r| :: IsDigit(r[i])) && ParseDigits(r) == n
    ensures n < 0 ==> r[0] == '-' as int && (forall i | 1 <= i < |r| :: IsDigit(r[i]))
    ensures n < 0 ==> ParseDigits(r[1..]) == -n
    ensures n >= 0 ==> |r| == 1 || r[0] != '0' as int
    ensures n < 0 ==> |r| >= 2 && r[1] != '0' as int
  {
    DigitsRoundTrip(if n < 0 then -n else n);
    if n < 0 then ['-' as int] + Digits(-n) else Digits(n)
  }
}
