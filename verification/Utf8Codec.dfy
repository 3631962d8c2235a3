/**
  * The UTF-8 encoder and decoder of the Buffer module.
  *
  * Masks and shifts of non-negative numbers are written as remainders, quotients and products by
  * powers of two, and `|` on parts without common bits as a sum.
  */
module Utf8Codec {
  import opened Prelude
  import opened Unicode

  // Decoding.

  /** What one turn of the decoding loop finds: a code point and the bytes it takes. */
  datatype Found = Found(c: Scalar, n: nat)

  const NONE: Found := Found(REPLACEMENT, 1)

  function Code2(b0: nat, b1: nat): nat {
    b0 % 32 * 64 + b1 % 64
  }

  function Code3(b0: nat, b1: nat, b2: nat): nat {
    b0 % 16 * 4096 + b1 % 64 * 64 + b2 % 64
  }

  function Code4(b0: nat, b1: nat, b2: nat, b3: nat): nat {
    b0 % 16 * 262144 + b1 % 64 * 4096 + b2 % 64 * 64 + b3 % 64
  }

  /** `128 == (192 & b)`. */
  predicate IsContinuation(b: Byte) {
    b / 64 == 2
  }

  /** One turn of the loop of `utf8Slice`, on the bytes from the current position to the end. */
  function Next(b: seq<Byte>): (f: Found)
    requires b != []
    ensures 1 <= f.n <= |b|
  {
    var t := b[0];
    var o := if t > 239 then 4 else if t > 223 then 3 else if t > 191 then 2 else 1;
    if o > |b| then NONE
    else if o == 1 then
      if t < 128 then Found(t, 1) else NONE
    else if o == 2 then
      var c := Code2(t, b[1]);
      if IsContinuation(b[1]) && c > 127 then Found(c, 2) else NONE
    else if o == 3 then
      var c := Code3(t, b[1], b[2]);
      if IsContinuation(b[1]) && IsContinuation(b[2]) && c > 2047 && (c < 55296 || c > 57343) then Found(c, 3)
      else NONE
    else
      var c := Code4(t, b[1], b[2], b[3]);
      if IsContinuation(b[1]) && IsContinuation(b[2]) && IsContinuation(b[3]) && c > 65535 && c < 1114112
      then Found(c, 4) else NONE
  }

  /** The code points of a byte string, with a replacement for each byte that starts none. */
  function Decoded(b: seq<Byte>): seq<Scalar> {
    if b == [] then [] else [Next(b).c] + Decoded(b[Next(b).n..])
  }

  lemma OneByte(b0: Byte)
    requires b0 < 128
    ensures Octets(b0) == [b0]
  {
  }

  lemma TwoBytes(b0: Byte, b1: Byte)
    requires 192 <= b0 < 224
    ensures IsContinuation(b1) && Code2(b0, b1) > 127 <==> 0xC2 <= b0 && Tail(b1)
    ensures 0xC2 <= b0 && Tail(b1) ==> Octets(Code2(b0, b1)) == [b0, b1]
  {
    assert b0 % 32 == b0 - 192;
    if Tail(b1) {
      assert b1 % 64 == b1 - 128;
    }
  }

  lemma ThreeBytes(b0: Byte, b1: Byte, b2: Byte)
    requires 224 <= b0 < 240
    ensures var c := Code3(b0, b1, b2);
            (IsContinuation(b1) && IsContinuation(b2) && c > 2047 && (c < 55296 || c > 57343)
             <==> IsUtf8Three(b0, b1, b2))
    ensures IsUtf8Three(b0, b1, b2) ==> Octets(Code3(b0, b1, b2)) == [b0, b1, b2]
  {
    assert b0 % 16 == b0 - 224;
    if Tail(b1) && Tail(b2) {
      assert b1 % 64 == b1 - 128 && b2 % 64 == b2 - 128;
      var c := Code3(b0, b1, b2);
      assert c / 0x1000 == b0 - 224 && c / 0x40 % 0x40 == b1 - 128 && c % 0x40 == b2 - 128;
    }
  }

  lemma FourBytes(b0: Byte, b1: Byte, b2: Byte, b3: Byte)
    requires 240 <= b0
    ensures var c := Code4(b0, b1, b2, b3);
            IsContinuation(b1) && IsContinuation(b2) && IsContinuation(b3) && c > 65535 && c < 1114112
            <==> IsUtf8Four(b0, b1, b2, b3)
    ensures IsUtf8Four(b0, b1, b2, b3) ==> Octets(Code4(b0, b1, b2, b3)) == [b0, b1, b2, b3]
  {
    hide Code4, Octets, IsContinuation;
    Continuation(b1);
    Continuation(b2);
    Continuation(b3);
    if Tail(b1) && Tail(b2) && Tail(b3) {
      Code4Digits(b0, b1, b2, b3);
      Code4Range(b0, b1, b2, b3);
    }
  }

  lemma Continuation(b: Byte)
    ensures IsContinuation(b) <==> Tail(b)
  {
  }

  /** The code points of four bytes are those above the ones of three bytes, up to the last one. */
  lemma Code4Range(b0: Byte, b1: Byte, b2: Byte, b3: Byte)
    requires 240 <= b0 && Tail(b1) && Tail(b2) && Tail(b3)
    ensures var c := (b0 - 240) * 262144 + (b1 - 128) * 4096 + (b2 - 128) * 64 + (b3 - 128);
            && (c > 65535 && c < 1114112 <==> IsUtf8Four(b0, b1, b2, b3))
            && (IsUtf8Four(b0, b1, b2, b3) ==> Octets(c) == [b0, b1, b2, b3])
  {
    Digits4(b0 - 240, b1 - 128, b2 - 128, b3 - 128);
  }

  lemma Code4Digits(b0: Byte, b1: Byte, b2: Byte, b3: Byte)
    requires 240 <= b0 && Tail(b1) && Tail(b2) && Tail(b3)
    ensures Code4(b0, b1, b2, b3) == (b0 - 240) * 262144 + (b1 - 128) * 4096 + (b2 - 128) * 64 + (b3 - 128)
  {
    assert b0 % 16 == b0 - 240;
    assert b1 % 64 == b1 - 128 && b2 % 64 == b2 - 128 && b3 % 64 == b3 - 128;
  }

  /** A number from its digits in base 64. */
  lemma Digits4(d0: nat, d1: nat, d2: nat, d3: nat)
    requires d1 < 64 && d2 < 64 && d3 < 64
    ensures var c := d0 * 262144 + d1 * 4096 + d2 * 64 + d3;
            c / 0x4_0000 == d0 && c / 0x1000 % 0x40 == d1 && c / 0x40 % 0x40 == d2 && c % 0x40 == d3
  {
    var c := d0 * 262144 + d1 * 4096 + d2 * 64 + d3;
    assert c / 0x40 == d0 * 4096 + d1 * 64 + d2;
    assert c / 0x1000 == d0 * 64 + d1;
  }

  /** A turn succeeds exactly on the characters of RFC 3629, and then finds the one they encode. */
  lemma NextIsCharacter(b: seq<Byte>)
    requires b != []
    ensures CharLength(b) > 0 ==> Next(b).n == CharLength(b) && Octets(Next(b).c) == b[..CharLength(b)]
    ensures CharLength(b) == 0 ==> Next(b) == NONE
  {
    hide Code2, Code3, Code4, Octets;
    var t := b[0];
    if t < 128 {
      OneByte(t);
    } else if 192 <= t < 224 && |b| > 1 {
      TwoBytes(t, b[1]);
    } else if 224 <= t < 240 && |b| > 2 {
      ThreeBytes(t, b[1], b[2]);
    } else if 240 <= t && |b| > 3 {
      FourBytes(t, b[1], b[2], b[3]);
    }
  }

  lemma NextOfOctets(c: Scalar, rest: seq<Byte>)
    ensures Next(Octets(c) + rest) == Found(c, |Octets(c)|)
    ensures CharLength(Octets(c) + rest) == |Octets(c)|
  {
    hide Code2, Code3, Code4;
    var b := Octets(c) + rest;
    if c < 0x80 {
    } else if c < 0x800 {
      OctetsOf2(c);
      TwoBytes(b[0], b[1]);
    } else if c < 0x1_0000 {
      OctetsOf3(c);
      ThreeBytes(b[0], b[1], b[2]);
    } else {
      OctetsOf4(c);
      FourBytes(b[0], b[1], b[2], b[3]);
    }
  }

  lemma OctetsOf2(c: Scalar)
    requires 0x80 <= c < 0x800
    ensures var b := Octets(c);
            0xC2 <= b[0] <= 0xDF && Tail(b[1]) && Code2(b[0], b[1]) == c
  {
    var d0, d1 := c / 0x40, c % 0x40;
    assert (0xC0 + d0) % 32 == d0 && (0x80 + d1) % 64 == d1;
  }

  lemma OctetsOf3(c: Scalar)
    requires 0x800 <= c < 0x1_0000
    ensures var b := Octets(c);
            IsUtf8Three(b[0], b[1], b[2]) && Code3(b[0], b[1], b[2]) == c
  {
    var d0, d1, d2 := c / 0x1000, c / 0x40 % 0x40, c % 0x40;
    assert c == d0 * 4096 + d1 * 64 + d2;
    assert (0x80 + d1) % 64 == d1 && (0x80 + d2) % 64 == d2;
    assert !IsSurrogate(c);
    assert d0 < 16 && (d0 == 0 ==> d1 >= 32) && (d0 == 13 ==> d1 < 32);
  }

  lemma OctetsOf4(c: Scalar)
    requires 0x1_0000 <= c
    ensures var b := Octets(c);
            IsUtf8Four(b[0], b[1], b[2], b[3]) && Code4(b[0], b[1], b[2], b[3]) == c
  {
    var d0, d1, d2, d3 := c / 0x4_0000, c / 0x1000 % 0x40, c / 0x40 % 0x40, c % 0x40;
    assert c / 0x1000 == d0 * 64 + d1;
    assert c == d0 * 262144 + d1 * 4096 + d2 * 64 + d3;
    assert (0x80 + d1) % 64 == d1 && (0x80 + d2) % 64 == d2 && (0x80 + d3) % 64 == d3;
    assert (0xF0 + d0) % 16 == d0;
  }

  /** What `utf8Slice` returns. */
  function Slice(buffer: seq<Byte>, start: nat, end: nat): seq<Unit> {
    var r := if |buffer| < end then |buffer| else end;
    if start <= r then Utf16(Decoded(buffer[start..r])) else []
  }

  /** `utf8Slice`. */
  method Utf8Slice(buffer: seq<Byte>, start: nat, end: nat) returns (units: seq<Unit>)
    ensures units == Slice(buffer, start, end)
  {
    hide Next, Units, Slice;
    var r := if |buffer| < end then |buffer| else end;
    units := [];
    var a := start;
    while a < r
      invariant Slice(buffer, start, end) == units + Slice(buffer, a, end)
    {
      var found := Next(buffer[a..r]);
      SliceTurn(buffer, a, end);
      units := units + Units(found.c);
      a := a + found.n;
    }
    SliceEnd(buffer, a, end);
  }

  /** One turn of the loop. */
  lemma SliceTurn(buffer: seq<Byte>, a: nat, end: nat)
    requires a < |buffer| && a < end
    ensures var r := if |buffer| < end then |buffer| else end;
            var found := Next(buffer[a..r]);
            Slice(buffer, a, end) == Units(found.c) + Slice(buffer, a + found.n, end)
  {
    hide Next, Units;
    var r := if |buffer| < end then |buffer| else end;
    var b := buffer[a..r];
    assert b[Next(b).n..] == buffer[a + Next(b).n..r];
    DecodedTurn(b);
  }

  lemma SliceEnd(buffer: seq<Byte>, a: nat, end: nat)
    requires |buffer| <= a || end <= a
    ensures Slice(buffer, a, end) == []
  {
  }

  lemma DecodedTurn(b: seq<Byte>)
    requires b != []
    ensures Utf16(Decoded(b)) == Units(Next(b).c) + Utf16(Decoded(b[Next(b).n..]))
  {
  }

  /** Decoding returns well-formed UTF-16 whatever the bytes. */
  lemma DecodedIsWellFormed(b: seq<Byte>)
    ensures WellFormed(Utf16(Decoded(b))) && Scalars(Utf16(Decoded(b))) == Decoded(b)
  {
    Utf16WellFormed(Decoded(b));
  }

  lemma {:induction false} DecodedOfUtf8(cs: seq<Scalar>)
    ensures Decoded(Utf8(cs)) == cs && IsUtf8(Utf8(cs))
  {
    if cs != [] {
      var rest := Utf8(cs[1..]);
      DecodedOfUtf8(cs[1..]);
      NextOfOctets(cs[0], rest);
      assert (Octets(cs[0]) + rest)[|Octets(cs[0])|..] == rest;
    }
  }

  lemma ReplacementOctets()
    ensures |Octets(REPLACEMENT)| == 3
  {
  }

  /** Re-encoding what was decoded never gives fewer bytes, and gives the same bytes only for UTF-8. */
  lemma {:induction false} ReencodedLength(b: seq<Byte>)
    ensures |Utf8(Decoded(b))| >= |b|
    ensures |Utf8(Decoded(b))| == |b| ==> IsUtf8(b)
    ensures IsUtf8(b) ==> Utf8(Decoded(b)) == b
  {
    hide Next, Octets, CharLength;
    if b != [] {
      var f := Next(b);
      NextIsCharacter(b);
      assert NONE.n == 1 && |Octets(REPLACEMENT)| == 3 by { ReplacementOctets(); }
      ReencodedLength(b[f.n..]);
      assert Utf8(Decoded(b)) == Octets(f.c) + Utf8(Decoded(b[f.n..]));
      assert b == b[..f.n] + b[f.n..];
    }
  }

  /** Decoding and re-encoding is the identity exactly on the byte strings of RFC 3629. */
  lemma ReencodeExact(b: seq<Byte>)
    ensures Utf8(Decoded(b)) == b <==> IsUtf8(b)
  {
    ReencodedLength(b);
  }

  // Encoding.

  /** The bytes that may still be written. */
  datatype Room = Unlimited | Left(n: int) {
    /** `t -= k`. */
    function Less(k: nat): Room {
      if Unlimited? then Unlimited else Left(n - k)
    }

    /** `t > -1`. */
    predicate Holds() {
      Unlimited? || n > -1
    }
  }

  /** `t = t || Infinity`: a budget of 0 is no limit at all. */
  function InitialRoom(t: nat): Room {
    if t == 0 then Unlimited else Left(t)
  }

  /** The three bytes pushed for an unpaired surrogate when there is room. */
  function Replacement(room: Room): seq<Byte> {
    if room.Less(3).Holds() then Octets(REPLACEMENT) else []
  }

  /** The rest of the encoding, with `lead` the pending high surrogate or 0. */
  function Rest(u: seq<Unit>, lead: nat, room: Room): seq<Byte>
    requires lead == 0 || IsHigh(lead)
    decreases |u|, 1
  {
    if u == [] then []
    else
      var r := u[0];
      if IsSurrogate(r) then
        if lead == 0 then
          if IsLow(r) || |u| == 1 then Replacement(room) + Rest(u[1..], 0, room.Less(3))
          else Rest(u[1..], r, room)
        else if IsHigh(r) then Replacement(room) + Rest(u[1..], r, room.Less(3))
        else Emit(Pair(lead, r), u, room)
      else if lead != 0 then Replacement(room) + Emit(r, u, room.Less(3))
      else Emit(r, u, room)
  }

  /** One code point that ends at `u[0]`, if there is room, and the rest. */
  function Emit(c: Scalar, u: seq<Unit>, room: Room): seq<Byte>
    requires u != []
    decreases |u|, 0
  {
    var room' := room.Less(|Octets(c)|);
    if room'.Holds() then Octets(c) + Rest(u[1..], 0, room') else []
  }

  /** `utf8ToBytes`. */
  method Utf8ToBytes(u: seq<Unit>, t: nat) returns (bytes: seq<Byte>)
    ensures bytes == Rest(u, 0, InitialRoom(t))
  {
    hide Octets, Pair, Replacement;
    var room, lead := InitialRoom(t), 0;
    bytes := [];
    var o := 0;
    while o < |u|
      invariant 0 <= o <= |u| && (lead == 0 || IsHigh(lead))
      invariant Rest(u, 0, InitialRoom(t)) == bytes + Rest(u[o..], lead, room)
    {
      var r: nat := u[o];
      ghost var all, rest := Rest(u[o..], lead, room), u[o + 1..];
      assert u[o..][1..] == rest;
      if IsSurrogate(r) && !(lead != 0 && IsLow(r)) {
        if lead == 0 && (IsLow(r) || o + 1 == |u|) {
          assert all == Replacement(room) + Rest(rest, 0, room.Less(3));
          bytes, room := bytes + Replacement(room), room.Less(3);
        } else if lead == 0 {
          assert all == Rest(rest, r, room);
          lead := r;
        } else {
          assert all == Replacement(room) + Rest(rest, r, room.Less(3));
          bytes, room, lead := bytes + Replacement(room), room.Less(3), r;
        }
      } else {
        var c: Scalar := REPLACEMENT;
        if IsSurrogate(r) {
          c := Pair(lead, r);
        } else {
          c := r;
          if lead != 0 {
            assert all == Replacement(room) + Emit(c, u[o..], room.Less(3));
            bytes, room := bytes + Replacement(room), room.Less(3);
          }
        }
        assert Rest(u, 0, InitialRoom(t)) == bytes + Emit(c, u[o..], room);
        lead := 0;
        room := room.Less(|Octets(c)|);
        if !room.Holds() {
          break;
        }
        bytes := bytes + Octets(c);
      }
      o := o + 1;
    }
  }

  predicate EndsInTwoHighs(u: seq<Unit>) {
    |u| >= 2 && IsHigh(u[|u| - 2]) && IsHigh(u[|u| - 1])
  }

  /** Without its last unit, if the last two are high surrogates. */
  function Trimmed(u: seq<Unit>): seq<Unit> {
    if EndsInTwoHighs(u) then u[..|u| - 1] else u
  }

  /** What is encoded of a string that follows the pending surrogate `lead`. */
  lemma {:induction false} RestAfterLead(lead: Unit, u: seq<Unit>)
    requires IsHigh(lead) && u != []
    ensures Rest(u, lead, Unlimited) == Utf8(Scalars(Trimmed([lead] + u)))
    decreases |u|, 0
  {
    hide Octets, Pair, Trimmed, Scalars;
    var r, rest := u[0], u[1..];
    assert [r] + rest == u;
    if IsHigh(r) && rest == [] {
      assert [lead] + u == [lead, r];
      LoneHighs(lead, r);
    } else if IsHigh(r) {
      RestAfterLead(r, rest);
      TrimmedCons(lead, u);
      ScalarsAlone(lead, Trimmed(u));
    } else if IsLow(r) {
      RestFromStart(rest);
      TrimmedCons(r, rest);
      TrimmedCons(lead, u);
      assert [lead] + ([r] + Trimmed(rest)) == [lead, r] + Trimmed(rest);
      ScalarsPair(lead, r, Trimmed(rest));
    } else {
      RestFromStart(rest);
      TrimmedCons(r, rest);
      TrimmedCons(lead, u);
      ScalarsAlone(lead, [r] + Trimmed(rest));
      ScalarsAlone(r, Trimmed(rest));
    }
  }

  lemma TrimmedCons(x: Unit, u: seq<Unit>)
    requires |u| >= 2 || !EndsInTwoHighs([x] + u)
    ensures Trimmed([x] + u) == [x] + Trimmed(u)
    ensures u != [] ==> Trimmed(u) != [] && Trimmed(u)[0] == u[0]
  {
  }

  /** Two high surrogates at the end count as one. */
  lemma LoneHighs(lead: Unit, r: Unit)
    requires IsHigh(lead) && IsHigh(r)
    ensures Scalars(Trimmed([lead, r])) == [REPLACEMENT]
  {
    assert Trimmed([lead, r]) == [lead];
  }

  /** A unit that is not the first one of a pair. */
  lemma ScalarsAlone(x: Unit, u: seq<Unit>)
    requires u == [] || !(IsHigh(x) && IsLow(u[0]))
    ensures Scalars([x] + u) == [if IsSurrogate(x) then REPLACEMENT else x] + Scalars(u)
  {
  }

  lemma ScalarsPair(x: Unit, y: Unit, u: seq<Unit>)
    requires IsHigh(x) && IsLow(y)
    ensures Scalars([x, y] + u) == [Pair(x, y)] + Scalars(u)
  {
  }

  lemma {:induction false} RestFromStart(u: seq<Unit>)
    ensures Rest(u, 0, Unlimited) == Utf8(Scalars(Trimmed(u)))
    decreases |u|, 1
  {
    hide Octets, Pair;
    if u != [] {
      var r, rest := u[0], u[1..];
      if IsHigh(r) && rest != [] {
        RestAfterLead(r, rest);
        assert [r] + rest == u;
      } else {
        RestFromStart(rest);
        assert Trimmed(u) == [r] + Trimmed(rest);
        assert Trimmed(u)[1..] == Trimmed(rest);
      }
    }
  }

  /** Without a budget, every unpaired surrogate is replaced exactly when the string does not end in two high ones. */
  lemma EncodeExact(u: seq<Unit>)
    ensures Rest(u, 0, Unlimited) == Utf8(Scalars(u)) <==> !EndsInTwoHighs(u)
  {
    RestFromStart(u);
    if EndsInTwoHighs(u) {
      var n := |u| - 1;
      DecodedOfUtf8(Scalars(u));
      DecodedOfUtf8(Scalars(u[..n]));
      LastSurrogate(u);
    }
  }

  /** A final surrogate that pairs with nothing is one more replacement. */
  lemma {:induction false} LastSurrogate(u: seq<Unit>)
    requires EndsInTwoHighs(u)
    ensures Scalars(u) == Scalars(u[..|u| - 1]) + [REPLACEMENT]
  {
    var init := u[..|u| - 1];
    if |u| == 2 {
      assert Scalars(u[1..]) == [REPLACEMENT] + Scalars(u[2..]);
      assert Scalars(init) == [REPLACEMENT] + Scalars(init[1..]);
    } else if IsHigh(u[0]) && IsLow(u[1]) {
      if |u| == 3 {
        assert false;
      }
      LastSurrogate(u[2..]);
      assert u[2..][..|u| - 3] == init[2..];
    } else {
      LastSurrogate(u[1..]);
      assert u[1..][..|u| - 2] == init[1..];
    }
  }

  /** The number of leading scalar values whose octets fit in `n` bytes. */
  function Fit(cs: seq<Scalar>, n: nat): (k: nat)
    ensures k <= |cs|
  {
    if cs == [] || |Octets(cs[0])| > n then 0 else 1 + Fit(cs[1..], n - |Octets(cs[0])|)
  }

  lemma {:induction false} FitIsLongest(cs: seq<Scalar>, n: nat, j: nat)
    requires j <= |cs|
    ensures |Utf8(cs[..j])| <= n <==> j <= Fit(cs, n)
  {
    if j > 0 {
      var k := |Octets(cs[0])|;
      assert cs[..j][1..] == cs[1..][..j - 1];
      if k <= n {
        FitIsLongest(cs[1..], n - k, j - 1);
      }
    }
  }

  lemma {:induction false} RestFits(cs: seq<Scalar>, n: nat)
    ensures Rest(Utf16(cs), 0, Left(n)) == Utf8(cs[..Fit(cs, n)])
  {
    hide Octets;
    if cs != [] {
      var c, u, rest := cs[0], Utf16(cs), Utf16(cs[1..]);
      var room := Left(n).Less(|Octets(c)|);
      if c >= 0x1_0000 {
        assert u[1..][1..] == rest && Pair(u[0], u[1]) == c;
        assert Rest(u, 0, Left(n)) == Emit(c, u[1..], Left(n));
      } else {
        assert u[1..] == rest;
        assert Rest(u, 0, Left(n)) == Emit(c, u, Left(n));
      }
      if room.Holds() {
        RestFits(cs[1..], room.n);
        var k := Fit(cs, n);
        assert cs[..k][1..] == cs[1..][..k - 1];
      }
    }
  }

  /** With a budget above 0, the encoding of the longest prefix of whole code points that fits. */
  lemma EncodeWithin(u: seq<Unit>, t: nat) returns (k: nat)
    requires WellFormed(u) && t > 0
    ensures k <= |Scalars(u)|
    ensures Rest(u, 0, InitialRoom(t)) == Utf8(Scalars(u)[..k])
    ensures forall j :: 0 <= j <= |Scalars(u)| ==> (|Utf8(Scalars(u)[..j])| <= t <==> j <= k)
  {
    var cs := Scalars(u);
    k := Fit(cs, t);
    ScalarsInvert(u);
    RestFits(cs, t);
    forall j | 0 <= j <= |cs|
      ensures |Utf8(cs[..j])| <= t <==> j <= k
    {
      FitIsLongest(cs, t, j);
    }
  }

  /** Decoding inverts encoding on well-formed UTF-16. */
  lemma RoundTrip(u: seq<Unit>)
    requires WellFormed(u)
    ensures var bytes := Rest(u, 0, Unlimited); Slice(bytes, 0, |bytes|) == u
  {
    EncodeExact(u);
    NoDangling(u);
    ScalarsInvert(u);
    DecodedOfUtf8(Scalars(u));
    var bytes := Rest(u, 0, Unlimited);
    assert bytes[0..|bytes|] == bytes;
  }

  lemma {:induction false} NoDangling(u: seq<Unit>)
    requires WellFormed(u)
    ensures u != [] ==> !IsHigh(u[|u| - 1])
  {
    if u != [] {
      NoDangling(if IsHigh(u[0]) then u[2..] else u[1..]);
    }
  }

  /** Encoding inverts decoding exactly on UTF-8. */
  lemma RoundTripBytes(b: seq<Byte>)
    ensures Rest(Slice(b, 0, |b|), 0, Unlimited) == b <==> IsUtf8(b)
  {
    assert b[0..|b|] == b;
    var u := Utf16(Decoded(b));
    DecodedIsWellFormed(b);
    NoDangling(u);
    EncodeExact(u);
    ReencodeExact(b);
  }
}
