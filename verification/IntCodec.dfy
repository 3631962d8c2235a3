/**
  * Signed integers of one to six bytes: `readIntLE`, `readIntBE`, `writeIntLE` and `writeIntBE`.
  *
  * A number is written digit by digit in base 256.  The source divides with truncation towards zero
  * and corrects the quotients of negative numbers with a borrow that sticks once it is set.
  */
module IntCodec {
  import opened Prelude

  datatype Outcome = Done(next: nat) | ValueOutOfBounds | IndexOutOfRange
  datatype Reading = Value(v: int) | BeyondBuffer

  function Pow256(n: nat): (p: nat)
    ensures p > 0
  {
    if n == 0 then 1 else 256 * Pow256(n - 1)
  }

  // The specification: digits in base 256 of a two's complement number.

  /** The floor of `v / 256^k`. */
  function Quotient(v: int, k: nat): int {
    if k == 0 then v else Quotient(v, k - 1) / 256
  }

  function Digit(v: int, k: nat): Byte {
    Quotient(v, k) % 256
  }

  /** The first `n` digits, least significant first. */
  function Digits(v: int, n: nat): (s: seq<Byte>)
    ensures |s| == n
  {
    seq(n, k requires 0 <= k => Digit(v, k))
  }

  function Reversed(s: seq<Byte>): (r: seq<Byte>)
    ensures |r| == |s|
  {
    seq(|s|, k requires 0 <= k < |s| => s[|s| - 1 - k])
  }

  predicate InRange(v: int, n: nat) {
    n > 0 && -128 * Pow256(n - 1) <= v < 128 * Pow256(n - 1)
  }

  /** The unsigned number of some digits. */
  function Unsigned(s: seq<Byte>): nat {
    if s == [] then 0
    else
      var n, d: nat := |s| - 1, s[|s| - 1];
      Unsigned(s[..n]) + d * Pow256(n)
  }

  /** The signed number of some digits. */
  function Signed(s: seq<Byte>): int
    requires s != []
  {
    var u := Unsigned(s);
    if u >= 128 * Pow256(|s| - 1) then u - Pow256(|s|) else u
  }

  lemma {:induction false} UnsignedOfDigits(v: int, n: nat)
    ensures Unsigned(Digits(v, n)) == v - Quotient(v, n) * Pow256(n)
    ensures Unsigned(Digits(v, n)) < Pow256(n)
  {
    if n > 0 {
      UnsignedOfDigits(v, n - 1);
      var s := Digits(v, n);
      assert s[..n - 1] == Digits(v, n - 1);
      var q, p, d: nat := Quotient(v, n), Pow256(n - 1), s[n - 1];
      assert Quotient(v, n - 1) == 256 * q + d;
      Distribute(q, d, p);
    }
  }

  lemma Distribute(q: int, d: nat, p: nat)
    ensures (256 * q + d) * p == q * (256 * p) + d * p
    ensures d < 256 ==> d * p <= 255 * p
  {
  }

  /** Reading back the digits of a number in range gives the number. */
  lemma SignedOfDigits(v: int, n: nat)
    requires InRange(v, n)
    ensures Signed(Digits(v, n)) == v
  {
    UnsignedOfDigits(v, n);
    var q, p, u := Quotient(v, n), Pow256(n), Unsigned(Digits(v, n));
    assert v == q * p + u && 0 <= u < p && -p <= 2 * v < p;
    Between(q, p, u);
  }

  lemma Between(q: int, p: int, u: int)
    requires 0 <= u < p && -p <= 2 * (q * p + u) < p
    ensures q == 0 || q == -1
  {
  }

  // The operators of the source.

  /** Division with truncation towards zero. */
  function Trunc(v: int, s: nat): int
    requires s > 0
  {
    if v >= 0 then v / s else -((-v) / s)
  }

  /** `x | 0`. */
  function ToInt32(x: int): int {
    (x + 0x8000_0000) % 0x1_0000_0000 - 0x8000_0000
  }

  /** `(v / s | 0) - o & 255`. */
  function Stored(v: int, s: nat, o: nat): Byte
    requires s > 0
  {
    (ToInt32(Trunc(v, s)) - o) % 256
  }

  /** Some digit before digit `k` is not zero. */
  predicate Sticky(v: int, k: nat) {
    k > 0 && (Digit(v, k - 1) != 0 || Sticky(v, k - 1))
  }

  lemma Positive(d: nat, p: nat)
    requires p > 0
    ensures d * p > 0 <==> d > 0
  {
    if d > 0 {
      assert d * p == (d - 1) * p + p;
    }
  }

  lemma {:induction false} StickyIsRemainder(v: int, k: nat)
    ensures Sticky(v, k) <==> Unsigned(Digits(v, k)) > 0
  {
    if k > 0 {
      StickyIsRemainder(v, k - 1);
      var s := Digits(v, k);
      assert s[..k - 1] == Digits(v, k - 1);
      var d: nat := s[k - 1];
      Positive(d, Pow256(k - 1));
    }
  }

  /** The borrow turns truncating division into floor division. */
  lemma BorrowIsFloor(v: int, k: nat)
    requires 1 <= k <= 5
    ensures Quotient(v, k) == Trunc(v, Pow256(k)) - (if v < 0 && Sticky(v, k) then 1 else 0)
  {
    StickyIsRemainder(v, k);
    UnsignedOfDigits(v, k);
    var q, u := Quotient(v, k), Unsigned(Digits(v, k));
    match k
    case 1 => assert Pow256(1) == 0x100; FloorOfTrunc(v, 0x100, q, u);
    case 2 => assert Pow256(2) == 0x1_0000; FloorOfTrunc(v, 0x1_0000, q, u);
    case 3 => assert Pow256(3) == 0x100_0000; FloorOfTrunc(v, 0x100_0000, q, u);
    case 4 => assert Pow256(4) == 0x1_0000_0000; FloorOfTrunc(v, 0x1_0000_0000, q, u);
    case _ => assert Pow256(5) == 0x100_0000_0000; FloorOfTrunc(v, 0x100_0000_0000, q, u);
  }

  lemma FloorOfTrunc(v: int, s: int, q: int, u: int)
    requires s in {0x100, 0x1_0000, 0x100_0000, 0x1_0000_0000, 0x100_0000_0000}
    requires 0 <= u < s && v == q * s + u
    ensures q == Trunc(v, s) - (if v < 0 && u > 0 then 1 else 0)
  {
    if v >= 0 {
      DivUnique(v, s, q, u);
    } else if u == 0 {
      assert -v == -q * s;
      DivUnique(-v, s, -q, 0);
    } else {
      assert -v == (-q - 1) * s + (s - u);
      DivUnique(-v, s, -q - 1, s - u);
    }
  }

  lemma DivUnique(v: int, s: int, q: int, u: int)
    requires s in {0x100, 0x1_0000, 0x100_0000, 0x1_0000_0000, 0x100_0000_0000}
    requires 0 <= u < s && v == q * s + u
    ensures v / s == q
  {
    if s == 0x100 {
      assert v / 0x100 == q;
    } else if s == 0x1_0000 {
      assert v / 0x1_0000 == q;
    } else if s == 0x100_0000 {
      assert v / 0x100_0000 == q;
    } else if s == 0x1_0000_0000 {
      assert v / 0x1_0000_0000 == q;
    } else {
      assert v / 0x100_0000_0000 == q;
    }
  }

  /** What the loops store, the borrow being set once some lower digit is not zero. */
  lemma StoredIsDigit(v: int, k: nat, o: nat)
    requires 1 <= k <= 5 && o == if v < 0 && Sticky(v, k) then 1 else 0
    ensures Stored(v, Pow256(k), o) == Digit(v, k)
  {
    BorrowIsFloor(v, k);
    Int32Byte(Trunc(v, Pow256(k)), o);
  }

  lemma Int32Byte(x: int, o: nat)
    ensures (ToInt32(x) - o) % 256 == (x - o) % 256
  {
    var q := (x + 0x8000_0000) / 0x1_0000_0000;
    assert ToInt32(x) - o == (x - o) - 256 * (q * 0x100_0000);
    SameByte(x - o, q * 0x100_0000);
  }

  lemma SameByte(x: int, j: int)
    ensures (x - 256 * j) % 256 == x % 256
  {
  }

  // Writing.

  /** `checkInt`. */
  function CheckInt(length: nat, v: int, offset: nat, n: nat): (r: Outcome)
    requires n > 0
    ensures r.ValueOutOfBounds? <==> !InRange(v, n)
    ensures r.IndexOutOfRange? <==> InRange(v, n) && offset + n > length
    ensures r.Done? <==> InRange(v, n) && offset + n <= length
    ensures r.Done? ==> r.next == offset + n
  {
    var limit := 128 * Pow256(n - 1);
    if v > limit - 1 || v < -limit then ValueOutOfBounds
    else if offset + n > length then IndexOutOfRange
    else Done(offset + n)
  }

  method WriteIntLE(buffer: array<Byte>, v: int, offset: nat, n: nat) returns (r: Outcome)
    requires 1 <= n <= 6
    modifies buffer
    ensures r == CheckInt(buffer.Length, v, offset, n)
    ensures buffer[..] == if r.Done? then Overwritten(old(buffer[..]), offset, Digits(v, n)) else old(buffer[..])
  {
    hide Stored, Digit, Digits, Overwritten, Sticky, ToInt32, InRange;
    r := CheckInt(buffer.Length, v, offset, n);
    if !r.Done? {
      return;
    }
    ghost var before := buffer[..];
    var a, s, o := 0, 1, 0;
    SplicedFirst(before, offset, v);
    buffer[offset] := ToInt32(v) % 256;
    assert buffer[..] == before[offset := Digit(v, 0)];
    a := 1;
    while a < n
      invariant 1 <= a <= n && s == Pow256(a - 1)
      invariant o == if v < 0 && Sticky(v, a - 1) then 1 else 0
      invariant buffer[..] == Overwritten(before, offset, Digits(v, a))
    {
      ghost var was := buffer[..];
      s := s * 256;
      SplicedNext(before, was, offset, v, a);
      StickyStep(v, a);
      assert buffer[offset + a - 1] == was[offset + a - 1] == Digit(v, a - 1);
      if v < 0 && o == 0 && buffer[offset + a - 1] != 0 {
        o := 1;
      }
      StoredIsDigit(v, a, o);
      buffer[offset + a] := Stored(v, s, o);
      assert buffer[..] == was[offset + a := Digit(v, a)];
      a := a + 1;
    }
  }

  /** The first digit. */
  lemma SplicedFirst(was: seq<Byte>, offset: nat, v: int)
    requires offset < |was|
    ensures Digit(v, 0) == ToInt32(v) % 256 && !Sticky(v, 0)
    ensures was[offset := Digit(v, 0)] == Overwritten(was, offset, Digits(v, 1))
  {
    Int32Byte(v, 0);
    assert Digits(v, 1) == [Digit(v, 0)];
  }

  /** The digits written so far, and the next one. */
  lemma SplicedNext(was: seq<Byte>, now: seq<Byte>, offset: nat, v: int, a: nat)
    requires 1 <= a && offset + a < |was| && now == Overwritten(was, offset, Digits(v, a))
    ensures now[offset + a - 1] == Digit(v, a - 1)
    ensures now[offset + a := Digit(v, a)] == Overwritten(was, offset, Digits(v, a + 1))
  {
    assert now[offset + a - 1] == Digits(v, a)[a - 1];
    assert Digits(v, a + 1) == Digits(v, a) + [Digit(v, a)];
  }

  lemma SpliceBefore(buffer: seq<Byte>, i: nat, v: int, k: nat)
    requires i + k + 1 <= |buffer|
    ensures Overwritten(buffer, i, Reversed(Digits(v, k + 1)))
         == Overwritten(buffer, i + 1, Reversed(Digits(v, k)))[i := Digit(v, k)]
  {
    assert Reversed(Digits(v, k + 1)) == [Digit(v, k)] + Reversed(Digits(v, k));
  }

  lemma LowestDigit(buffer: seq<Byte>, i: nat, v: int)
    requires i < |buffer|
    ensures ToInt32(v) % 256 == Digit(v, 0) && !Sticky(v, 0)
    ensures buffer[i := Digit(v, 0)] == Overwritten(buffer, i, Reversed(Digits(v, 1)))
  {
    Int32Byte(v, 0);
  }

  lemma StickyStep(v: int, k: nat)
    requires k > 0
    ensures Sticky(v, k) <==> Digit(v, k - 1) != 0 || Sticky(v, k - 1)
  {
  }

  lemma FirstOfSplice(buffer: seq<Byte>, i: nat, v: int, k: nat)
    requires k > 0 && i + k <= |buffer|
    ensures Overwritten(buffer, i, Reversed(Digits(v, k)))[i] == Digit(v, k - 1)
  {
  }

  method WriteIntBE(buffer: array<Byte>, v: int, offset: nat, n: nat) returns (r: Outcome)
    requires 1 <= n <= 6
    modifies buffer
    ensures r == CheckInt(buffer.Length, v, offset, n)
    ensures buffer[..] == if r.Done? then Overwritten(old(buffer[..]), offset, Reversed(Digits(v,
              n))) else old(buffer[..])
  {
    hide Stored, Digit, Digits, Reversed, Overwritten, Sticky, ToInt32, InRange;
    r := CheckInt(buffer.Length, v, offset, n);
    if !r.Done? {
      return;
    }
    ghost var before := buffer[..];
    var a, s, o := n - 1, 1, 0;
    LowestDigit(before, offset + a, v);
    buffer[offset + a] := ToInt32(v) % 256;
    assert buffer[..] == before[offset + a := Digit(v, 0)];
    a := a - 1;
    while a >= 0
      invariant -1 <= a < n - 1 && s == Pow256(n - 2 - a)
      invariant o == if v < 0 && Sticky(v, n - 2 - a) then 1 else 0
      invariant buffer[..] == Overwritten(before, offset + a + 1, Reversed(Digits(v, n - 1 - a)))
    {
      ghost var k, was := n - 1 - a, buffer[..];
      s := s * 256;
      FirstOfSplice(before, offset + a + 1, v, k);
      StickyStep(v, k);
      assert buffer[offset + a + 1] == was[offset + a + 1] == Digit(v, k - 1);
      if v < 0 && o == 0 && buffer[offset + a + 1] != 0 {
        o := 1;
      }
      StoredIsDigit(v, k, o);
      SpliceBefore(before, offset + a, v, k);
      buffer[offset + a] := Stored(v, s, o);
      assert buffer[..] == was[offset + a := Digit(v, k)];
      a := a - 1;
    }
  }

  // Reading.

  lemma UnsignedNext(bytes: seq<Byte>, s: nat, a: nat)
    requires s < |bytes| && a == Pow256(s)
    ensures var d: nat := bytes[s]; Unsigned(bytes[..s + 1]) == Unsigned(bytes[..s]) + d * a
  {
    assert bytes[..s + 1][..s] == bytes[..s];
  }

  /** `readIntLE`: the digits from `offset` on. */
  method ReadIntLE(buffer: array<Byte>, offset: nat, n: nat) returns (r: Reading)
    requires 1 <= n <= 6
    ensures r == if offset + n > buffer.Length then BeyondBuffer else Value(Signed(buffer[offset..offset + n]))
  {
    if offset + n > buffer.Length {
      return BeyondBuffer;
    }
    ghost var bytes := buffer[offset..offset + n];
    var v: int, a, s := buffer[offset], 1, 1;
    assert bytes[..1] == [bytes[0]] && bytes[..1][..0] == [];
    while s < n
      invariant 1 <= s <= n && a == Pow256(s - 1)
      invariant v == Unsigned(bytes[..s])
    {
      a := a * 256;
      UnsignedNext(bytes, s, a);
      var d: nat := buffer[offset + s];
      v := v + d * a;
      s := s + 1;
    }
    assert bytes[..n] == bytes;
    a := a * 128;
    if v >= a {
      v := v - Pow256(n);
    }
    r := Value(v);
  }

  method ReadIntBE(buffer: array<Byte>, offset: nat, n: nat) returns (r: Reading)
    requires 1 <= n <= 6
    ensures r == if offset + n > buffer.Length then BeyondBuffer
                 else Value(Signed(Reversed(buffer[offset..offset + n])))
  {
    if offset + n > buffer.Length {
      return BeyondBuffer;
    }
    ghost var bytes := Reversed(buffer[offset..offset + n]);
    var k, a := n - 1, 1;
    var v: int := buffer[offset + k];
    assert bytes[..1] == [bytes[0]] && bytes[..1][..0] == [];
    while k > 0
      invariant 0 <= k < n && a == Pow256(n - 1 - k)
      invariant v == Unsigned(bytes[..n - k])
    {
      ghost var s := n - k;
      a := a * 256;
      k := k - 1;
      UnsignedNext(bytes, s, a);
      var d: nat := buffer[offset + k];
      v := v + d * a;
    }
    assert bytes[..n] == bytes;
    a := a * 128;
    if v >= a {
      v := v - Pow256(n);
    }
    r := Value(v);
  }

  /** Writing and reading back, in either byte order. */
  method RoundTrip(buffer: array<Byte>, v: int, offset: nat, n: nat, bigEndian: bool) returns (r: Reading)
    requires 1 <= n <= 6 && InRange(v, n) && offset + n <= buffer.Length
    modifies buffer
    ensures r == Value(v)
    ensures buffer[..offset] == old(buffer[..offset]) && buffer[offset + n..] == old(buffer[offset + n..])
  {
    SignedOfDigits(v, n);
    var w: Outcome;
    if bigEndian {
      w := WriteIntBE(buffer, v, offset, n);
      assert buffer[offset..offset + n] == Reversed(Digits(v, n));
      assert Reversed(Reversed(Digits(v, n))) == Digits(v, n);
      r := ReadIntBE(buffer, offset, n);
    } else {
      w := WriteIntLE(buffer, v, offset, n);
      assert buffer[offset..offset + n] == Digits(v, n);
      r := ReadIntLE(buffer, offset, n);
    }
  }

  /** Adding a multiple of `256^n` leaves the digits below `n` alone. */
  lemma {:induction false} QuotientShift(x: int, y: int, n: nat, k: nat)
    requires k <= n
    ensures Quotient(x + y * Pow256(n), k) == Quotient(x, k) + y * Pow256(n - k)
  {
    if k > 0 {
      QuotientShift(x, y, n, k - 1);
      Regroup(y, Pow256(n - k));
    }
  }

  lemma Regroup(y: int, p: int)
    ensures y * (256 * p) == 256 * (y * p)
  {
  }

  lemma DigitShift(x: int, y: int, n: nat, k: nat)
    requires k < n
    ensures Digit(x + y * Pow256(n), k) == Digit(x, k)
  {
    QuotientShift(x, y, n, k);
    var p := Pow256(n - k - 1);
    assert y * (256 * p) == -256 * (-(y * p));
    SameByte(Quotient(x, k), -(y * p));
  }

  lemma {:induction false} DigitsOfUnsigned(s: seq<Byte>)
    ensures Unsigned(s) < Pow256(|s|) && Digits(Unsigned(s), |s|) == s && Quotient(Unsigned(s), |s|) == 0
  {
    if s != [] {
      var n, d: nat := |s| - 1, s[|s| - 1];
      var u := Unsigned(s[..n]);
      DigitsOfUnsigned(s[..n]);
      Distribute(0, d, Pow256(n));
      forall k | 0 <= k < n
        ensures Digit(Unsigned(s), k) == s[k]
      {
        DigitShift(u, d, n, k);
        assert Digits(u, n)[k] == s[k];
      }
      QuotientShift(u, d, n, n);
    }
  }

  /** The converse: any digits are those of the number they read as. */
  lemma DigitsOfSigned(s: seq<Byte>)
    requires s != []
    ensures InRange(Signed(s), |s|) && Digits(Signed(s), |s|) == s
  {
    var n, u := |s|, Unsigned(s);
    DigitsOfUnsigned(s);
    if Signed(s) != u {
      assert Signed(s) == u + -1 * Pow256(n);
      forall k | 0 <= k < n
        ensures Digit(Signed(s), k) == s[k]
      {
        DigitShift(u, -1, n, k);
        assert Digits(u, n)[k] == s[k];
      }
    }
  }
}
