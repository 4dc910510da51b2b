/** UTF-8 bytes of Rust strings (RFC 3629, section 3). A string is a sequence of
    Unicode scalar values. */
module Utf8 {

  type Byte = b: int | 0 <= b < 256

  function EncodeChar(c: char): (r: seq<Byte>)
    ensures 1 <= |r| <= 4
    ensures c as int < 0x80 ==> r == [c as int]
    ensures c as int >= 0x80 ==> r[0] >= 0xC2 && |r| >= 2 && 0x80 <= r[1] < 0xC0
  {
    var n := c as int;
    if n < 0x80 then [n]
    else if n < 0x800 then [0xC0 + n / 64, 0x80 + n % 64]
    else if n < 0x10000 then [0xE0 + n / 64 / 64, 0x80 + n / 64 % 64, 0x80 + n % 64]
    else [0xF0 + n / 64 / 64 / 64, 0x80 + n / 64 / 64 % 64, 0x80 + n / 64 % 64, 0x80 + n % 64]
  }

  function Encode(s: string): seq<Byte> {
    if s == [] then [] else EncodeChar(s[0]) + Encode(s[1..])
  }

  lemma {:induction false} EncodeAppend(a: string, b: string)
    ensures Encode(a + b) == Encode(a) + Encode(b)
  {
    if a == [] {
      assert a + b == b;
    } else {
      assert (a + b)[1..] == a[1..] + b;
      EncodeAppend(a[1..], b);
    }
  }

  // --- Byte order ---

  /** The order of byte strings. */
  predicate BytesLe(a: seq<Byte>, b: seq<Byte>) {
    a == [] || (b != [] && (a[0] < b[0] || (a[0] == b[0] && BytesLe(a[1..], b[1..]))))
  }

  lemma {:induction false} SharedPrefix(p: seq<Byte>, a: seq<Byte>, b: seq<Byte>)
    ensures BytesLe(p + a, p + b) <==> BytesLe(a, b)
  {
    if p == [] {
      assert p + a == a && p + b == b;
    } else {
      assert (p + a)[1..] == p[1..] + a && (p + b)[1..] == p[1..] + b;
      SharedPrefix(p[1..], a, b);
    }
  }

  lemma FirstDifference(x: seq<Byte>, y: seq<Byte>, i: nat, r: seq<Byte>, t: seq<Byte>)
    requires i < |x| && i < |y| && x[..i] == y[..i] && x[i] < y[i]
    ensures BytesLe(x + r, y + t) && !BytesLe(y + t, x + r)
  {
    assert x + r == x[..i] + (x[i..] + r) && y + t == x[..i] + (y[i..] + t);
    SharedPrefix(x[..i], x[i..] + r, y[i..] + t);
    SharedPrefix(x[..i], y[i..] + t, x[i..] + r);
  }

  lemma DigitsOrdered(m: nat, n: nat)
    requires m < n
    ensures m / 64 < n / 64 || (m / 64 == n / 64 && m % 64 < n % 64)
  {
  }

  lemma LengthOrder(c: char, d: char)
    requires c < d
    ensures var x, y := EncodeChar(c), EncodeChar(d); |x| <= |y| && (|x| < |y| ==> x[0] < y[0])
  {
  }

  /** Characters of equal length that differ before their last six bits. */
  lemma LeadDifference(c: char, d: char) returns (i: nat)
    requires c < d && |EncodeChar(c)| == |EncodeChar(d)| > 1 && c as int / 64 < d as int / 64
    ensures var x, y := EncodeChar(c), EncodeChar(d); i < |x| && x[..i] == y[..i] && x[i] < y[i]
  {
    var m, n := c as int, d as int;
    var x, y := EncodeChar(c), EncodeChar(d);
    DigitsOrdered(m / 64, n / 64);
    if |x| == 2 {
      i := 0;
    } else if m / 64 / 64 == n / 64 / 64 {
      i := |x| - 2;
    } else {
      DigitsOrdered(m / 64 / 64, n / 64 / 64);
      i := if x[0] < y[0] then 0 else 1;
    }
  }

  /** Where the bytes of two characters first differ, the smaller has the smaller byte. */
  lemma CharDifference(c: char, d: char) returns (i: nat)
    requires c < d
    ensures var x, y := EncodeChar(c), EncodeChar(d); i < |x| && i < |y| && x[..i] == y[..i] && x[i] < y[i]
  {
    LengthOrder(c, d);
    DigitsOrdered(c as int, d as int);
    if |EncodeChar(c)| < |EncodeChar(d)| || |EncodeChar(c)| == 1 {
      i := 0;
    } else if c as int / 64 == d as int / 64 {
      i := |EncodeChar(c)| - 1;
    } else {
      i := LeadDifference(c, d);
    }
  }

  lemma CharOrder(c: char, d: char, r: seq<Byte>, t: seq<Byte>)
    requires c < d
    ensures BytesLe(EncodeChar(c) + r, EncodeChar(d) + t) && !BytesLe(EncodeChar(d) + t, EncodeChar(c) + r)
  {
    var i := CharDifference(c, d);
    FirstDifference(EncodeChar(c), EncodeChar(d), i, r, t);
  }
}
