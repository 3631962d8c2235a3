/**
  * Unicode scalar values and their two encodings: UTF-8 as RFC 3629 defines it and UTF-16.
  */
module Unicode {
  import opened Prelude

  type Unit = u: nat | u < 0x1_0000

  predicate IsHigh(u: nat) {
    0xD800 <= u < 0xDC00
  }

  predicate IsLow(u: nat) {
    0xDC00 <= u < 0xE000
  }

  predicate IsSurrogate(u: nat) {
    0xD800 <= u < 0xE000
  }

  type Scalar = c: nat | c < 0x11_0000 && !IsSurrogate(c)

  const REPLACEMENT: Scalar := 0xFFFD

  /** The octets of a scalar value (section 3 of RFC 3629). */
  function Octets(c: Scalar): (s: seq<Byte>)
    ensures 1 <= |s| <= 4
  {
    if c < 0x80 then [c]
    else if c < 0x800 then [0xC0 + c / 0x40, 0x80 + c % 0x40]
    else if c < 0x1_0000 then [0xE0 + c / 0x1000, 0x80 + c / 0x40 % 0x40, 0x80 + c % 0x40]
    else [0xF0 + c / 0x4_0000, 0x80 + c / 0x1000 % 0x40, 0x80 + c / 0x40 % 0x40, 0x80 + c % 0x40]
  }

  function Utf8(cs: seq<Scalar>): seq<Byte> {
    if cs == [] then [] else Octets(cs[0]) + Utf8(cs[1..])
  }

  /** The code units of a scalar value in UTF-16. */
  function Units(c: Scalar): (s: seq<Unit>)
    ensures 1 <= |s| <= 2
  {
    if c < 0x1_0000 then [c]
    else [0xD800 + (c - 0x1_0000) / 0x400, 0xDC00 + (c - 0x1_0000) % 0x400]
  }

  function Utf16(cs: seq<Scalar>): seq<Unit> {
    if cs == [] then [] else Units(cs[0]) + Utf16(cs[1..])
  }

  function Pair(high: Unit, low: Unit): (c: Scalar)
    requires IsHigh(high) && IsLow(low)
    ensures c >= 0x1_0000 && Units(c) == [high, low]
  {
    0x1_0000 + (high - 0xD800) * 0x400 + (low - 0xDC00)
  }

  /** Every surrogate belongs to a pair. */
  predicate WellFormed(u: seq<Unit>) {
    if u == [] then true
    else if IsHigh(u[0]) then |u| > 1 && IsLow(u[1]) && WellFormed(u[2..])
    else !IsLow(u[0]) && WellFormed(u[1..])
  }

  /** The scalar values of a string, with one replacement for each unpaired surrogate. */
  function Scalars(u: seq<Unit>): seq<Scalar> {
    if u == [] then []
    else if IsHigh(u[0]) && |u| > 1 && IsLow(u[1]) then [Pair(u[0], u[1])] + Scalars(u[2..])
    else if IsSurrogate(u[0]) then [REPLACEMENT] + Scalars(u[1..])
    else [u[0]] + Scalars(u[1..])
  }

  /** A well-formed string is the encoding of its scalar values. */
  lemma {:induction false} ScalarsInvert(u: seq<Unit>)
    requires WellFormed(u)
    ensures Utf16(Scalars(u)) == u
  {
    if u != [] {
      if IsHigh(u[0]) {
        ScalarsInvert(u[2..]);
      } else {
        ScalarsInvert(u[1..]);
      }
    }
  }

  lemma {:induction false} Utf16WellFormed(cs: seq<Scalar>)
    ensures WellFormed(Utf16(cs)) && Scalars(Utf16(cs)) == cs
  {
    if cs != [] {
      Utf16WellFormed(cs[1..]);
      var u := Utf16(cs);
      if cs[0] >= 0x1_0000 {
        assert Pair(u[0], u[1]) == cs[0];
        assert u[2..] == Utf16(cs[1..]);
      } else {
        assert u[1..] == Utf16(cs[1..]);
      }
    }
  }

  predicate Tail(b: Byte) {
    0x80 <= b <= 0xBF
  }

  /** The length of the character of section 4 of RFC 3629 at the start of `b`, or 0 if there is none. */
  function CharLength(b: seq<Byte>): (n: nat)
    ensures n <= |b| && n <= 4
  {
    if |b| >= 1 && b[0] <= 0x7F then 1
    else if |b| >= 2 && 0xC2 <= b[0] <= 0xDF && Tail(b[1]) then 2
    else if |b| >= 3 && IsUtf8Three(b[0], b[1], b[2]) then 3
    else if |b| >= 4 && IsUtf8Four(b[0], b[1], b[2], b[3]) then 4
    else 0
  }

  predicate IsUtf8Three(b0: Byte, b1: Byte, b2: Byte) {
    && (|| (b0 == 0xE0 && 0xA0 <= b1 <= 0xBF)
        || (0xE1 <= b0 <= 0xEC && Tail(b1))
        || (b0 == 0xED && 0x80 <= b1 <= 0x9F)
        || (0xEE <= b0 <= 0xEF && Tail(b1)))
    && Tail(b2)
  }

  predicate IsUtf8Four(b0: Byte, b1: Byte, b2: Byte, b3: Byte) {
    && (|| (b0 == 0xF0 && 0x90 <= b1 <= 0xBF)
        || (0xF1 <= b0 <= 0xF3 && Tail(b1))
        || (b0 == 0xF4 && 0x80 <= b1 <= 0x8F))
    && Tail(b2) && Tail(b3)
  }

  /** The grammar of section 4 of RFC 3629. */
  predicate IsUtf8(b: seq<Byte>) {
    b == [] || (CharLength(b) > 0 && IsUtf8(b[CharLength(b)..]))
  }
}
