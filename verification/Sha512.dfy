/**
  * The block update of SHA-512 as the source computes it: 64-bit words kept as pairs of 32-bit
  * words, with the carry of every addition recovered by a comparison.
  */
module Sha512 {
  import opened Prelude
  import opened Words
  import opened WordBytes
  import opened Sha512Constants
  import opened Fips180

  // The 32-bit functions of the source, each called once for either half of its result.

  function JsCh(e: U32, f: U32, g: U32): U32 {
    Xor32(g, And32(e, Xor32(f, g)))
  }

  function JsMaj(a: U32, b: U32, c: U32): U32 {
    Or32(And32(a, b), And32(c, Or32(a, b)))
  }

  function JsSigma0(e: U32, t: U32): U32 {
    Xor32(Xor32(Half(e, t, 28), Half(t, e, 2)), Half(t, e, 7))
  }

  function JsSigma1(e: U32, t: U32): U32 {
    Xor32(Xor32(Half(e, t, 14), Half(e, t, 18)), Half(t, e, 9))
  }

  function JsGamma0(e: U32, t: U32): U32 {
    Xor32(Xor32(Half(e, t, 1), Half(e, t, 8)), Shr(e, 7))
  }

  function JsGamma0l(e: U32, t: U32): U32 {
    Xor32(Xor32(Half(e, t, 1), Half(e, t, 8)), Half(e, t, 7))
  }

  function JsGamma1(e: U32, t: U32): U32 {
    Xor32(Xor32(Half(e, t, 19), Half(t, e, 29)), Shr(e, 6))
  }

  function JsGamma1l(e: U32, t: U32): U32 {
    Xor32(Xor32(Half(e, t, 19), Half(t, e, 29)), Half(e, t, 6))
  }

  function GetCarry(a: U32, b: U32): U32 {
    if a < b then 1 else 0
  }

  lemma JoinXor3(h: U32, l: U32, h': U32, l': U32, h'': U32, l'': U32)
    ensures Xor3(Join(h, l), Join(h', l'), Join(h'', l''))
         == Join(Xor32(Xor32(h, h'), h''), Xor32(Xor32(l, l'), l''))
  {
    JoinBitwise(Xor, h, l, h', l');
    JoinBitwise(Xor, Xor32(h, h'), Xor32(l, l'), h'', l'');
  }

  lemma BigSigma0Pair(h: U32, l: U32)
    ensures BigSigma0(Join(h, l)) == Join(JsSigma0(h, l), JsSigma0(l, h))
  {
    RotatePair(h, l, 28);
    RotatePairFar(h, l, 2);
    RotatePairFar(h, l, 7);
    JoinXor3(Half(h, l, 28), Half(l, h, 28), Half(l, h, 2), Half(h, l, 2), Half(l, h, 7), Half(h, l, 7));
  }

  lemma BigSigma1Pair(h: U32, l: U32)
    ensures BigSigma1(Join(h, l)) == Join(JsSigma1(h, l), JsSigma1(l, h))
  {
    RotatePair(h, l, 14);
    RotatePair(h, l, 18);
    RotatePairFar(h, l, 9);
    JoinXor3(Half(h, l, 14), Half(l, h, 14), Half(h, l, 18), Half(l, h, 18), Half(l, h, 9), Half(h, l, 9));
  }

  lemma SmallSigma0Pair(h: U32, l: U32)
    ensures SmallSigma0(Join(h, l)) == Join(JsGamma0(h, l), JsGamma0l(l, h))
  {
    RotatePair(h, l, 1);
    RotatePair(h, l, 8);
    ShiftPair(h, l, 7);
    JoinXor3(Half(h, l, 1), Half(l, h, 1), Half(h, l, 8), Half(l, h, 8), Shr(h, 7), Half(l, h, 7));
  }

  lemma SmallSigma1Pair(h: U32, l: U32)
    ensures SmallSigma1(Join(h, l)) == Join(JsGamma1(h, l), JsGamma1l(l, h))
  {
    RotatePair(h, l, 19);
    RotatePairFar(h, l, 29);
    ShiftPair(h, l, 6);
    JoinXor3(Half(h, l, 19), Half(l, h, 19), Half(l, h, 29), Half(h, l, 29), Shr(h, 6), Half(l, h, 6));
  }

  lemma Halves(op: BitOp, x: nat, y: nat)
    ensures Bitwise(op, x, y) % 2 == Bit(op, x % 2, y % 2)
    ensures Bitwise(op, x, y) / 2 == Bitwise(op, x / 2, y / 2)
  {
  }

  function ChLeft(x: nat, y: nat, z: nat): nat {
    Bitwise(Xor, z, Bitwise(And, x, Bitwise(Xor, y, z)))
  }

  function ChRight(x: nat, n: nat, y: nat, z: nat): nat {
    Bitwise(Xor, Bitwise(And, x, y), Bitwise(And, n, z))
  }

  lemma ChLeftStep(x: nat, y: nat, z: nat)
    ensures ChLeft(x, y, z) / 2 == ChLeft(x / 2, y / 2, z / 2)
    ensures ChLeft(x, y, z) % 2 == if x % 2 == 1 then y % 2 else z % 2
  {
    var u := Bitwise(Xor, y, z);
    Halves(Xor, y, z);
    var v := Bitwise(And, x, u);
    Halves(And, x, u);
    Halves(Xor, z, v);
  }

  lemma ChRightStep(x: nat, n: nat, y: nat, z: nat)
    requires n % 2 == 1 - x % 2
    ensures ChRight(x, n, y, z) / 2 == ChRight(x / 2, n / 2, y / 2, z / 2)
    ensures ChRight(x, n, y, z) % 2 == if x % 2 == 1 then y % 2 else z % 2
  {
    var u, v := Bitwise(And, x, y), Bitwise(And, n, z);
    Halves(And, x, y);
    Halves(And, n, z);
    Halves(Xor, u, v);
  }

  /** The two forms of the choice function agree on words of any width. */
  lemma {:induction false} ChForms(w: nat, x: nat, y: nat, z: nat)
    requires x < Pow2(w) && y < Pow2(w) && z < Pow2(w)
    ensures ChLeft(x, y, z) == ChRight(x, Pow2(w) - 1 - x, y, z)
  {
    if w > 0 {
      var n := Pow2(w) - 1 - x;
      assert n / 2 == Pow2(w - 1) - 1 - x / 2 && n % 2 == 1 - x % 2;
      ChForms(w - 1, x / 2, y / 2, z / 2);
      ChLeftStep(x, y, z);
      ChRightStep(x, n, y, z);
    }
  }

  function MajLeft(x: nat, y: nat, z: nat): nat {
    Bitwise(Or, Bitwise(And, x, y), Bitwise(And, z, Bitwise(Or, x, y)))
  }

  function MajRight(x: nat, y: nat, z: nat): nat {
    Bitwise(Xor, Bitwise(Xor, Bitwise(And, x, y), Bitwise(And, x, z)), Bitwise(And, y, z))
  }

  lemma MajLeftStep(x: nat, y: nat, z: nat)
    ensures MajLeft(x, y, z) / 2 == MajLeft(x / 2, y / 2, z / 2)
    ensures MajLeft(x, y, z) % 2 == if x % 2 + y % 2 + z % 2 >= 2 then 1 else 0
  {
    var u, v := Bitwise(And, x, y), Bitwise(Or, x, y);
    Halves(And, x, y);
    Halves(Or, x, y);
    var t := Bitwise(And, z, v);
    Halves(And, z, v);
    Halves(Or, u, t);
  }

  lemma MajRightStep(x: nat, y: nat, z: nat)
    ensures MajRight(x, y, z) / 2 == MajRight(x / 2, y / 2, z / 2)
    ensures MajRight(x, y, z) % 2 == if x % 2 + y % 2 + z % 2 >= 2 then 1 else 0
  {
    var t, u, v := Bitwise(And, x, y), Bitwise(And, x, z), Bitwise(And, y, z);
    Halves(And, x, y);
    Halves(And, x, z);
    Halves(And, y, z);
    Halves(Xor, t, u);
    Halves(Xor, Bitwise(Xor, t, u), v);
  }

  /** The two forms of the majority function agree. */
  lemma {:induction false} MajForms(x: nat, y: nat, z: nat)
    ensures MajLeft(x, y, z) == MajRight(x, y, z)
    decreases x + y + z
  {
    if x + y + z > 0 {
      MajForms(x / 2, y / 2, z / 2);
      MajLeftStep(x, y, z);
      MajRightStep(x, y, z);
    }
  }

  lemma ChPair(eh: U32, el: U32, fh: U32, fl: U32, gh: U32, gl: U32)
    ensures Ch(Join(eh, el), Join(fh, fl), Join(gh, gl)) == Join(JsCh(eh, fh, gh), JsCh(el, fl, gl))
  {
    Pow2Values();
    ChForms(64, Join(eh, el), Join(fh, fl), Join(gh, gl));
    JoinBitwise(Xor, fh, fl, gh, gl);
    JoinBitwise(And, eh, el, Xor32(fh, gh), Xor32(fl, gl));
    JoinBitwise(Xor, gh, gl, And32(eh, Xor32(fh, gh)), And32(el, Xor32(fl, gl)));
  }

  lemma MajPair(ah: U32, al: U32, bh: U32, bl: U32, ch: U32, cl: U32)
    ensures Maj(Join(ah, al), Join(bh, bl), Join(ch, cl)) == Join(JsMaj(ah, bh, ch), JsMaj(al, bl, cl))
  {
    MajForms(Join(ah, al), Join(bh, bl), Join(ch, cl));
    JoinBitwise(And, ah, al, bh, bl);
    JoinBitwise(Or, ah, al, bh, bl);
    JoinBitwise(And, ch, cl, Or32(ah, bh), Or32(al, bl));
    JoinBitwise(Or, And32(ah, bh), And32(al, bl), And32(ch, Or32(ah, bh)), And32(cl, Or32(al, bl)));
  }

  // Additions of pairs: the low words first, then the high words and the carry.

  datatype Pair = Pair(h: U32, l: U32) {
    function Value(): U64 {
      Join(h, l)
    }
  }

  /** `l = p.l + q.l | 0`, then `p.h + q.h + getCarry(l, p.l) | 0`. */
  function AddFirst(p: Pair, q: Pair): Pair {
    var l := Add32(p.l, q.l);
    Pair((p.h + q.h + GetCarry(l, p.l)) % P32, l)
  }

  /** The same with the carry found by comparing with `q.l`. */
  function AddSecond(p: Pair, q: Pair): Pair {
    var l := Add32(p.l, q.l);
    Pair((p.h + q.h + GetCarry(l, q.l)) % P32, l)
  }

  lemma AddPair(p: Pair, q: Pair)
    ensures AddFirst(p, q).Value() == AddSecond(p, q).Value() == (p.Value() + q.Value()) % P64
  {
    var l := p.l + q.l;
    var c := if l < P32 then 0 else 1;
    assert Add32(p.l, q.l) == l - c * P32;
    assert AddFirst(p, q) == AddSecond(p, q) == Pair((p.h + q.h + c) % P32, l - c * P32);
    assert p.Value() + q.Value() == (p.h + q.h + c) * P32 + (l - c * P32);
  }

  /** The sum of five pairs, in the order of the source. */
  function Sum5(p: Pair, q: Pair, r: Pair, s: Pair, t: Pair): Pair {
    AddSecond(AddSecond(AddSecond(AddFirst(p, q), r), s), t)
  }

  function Sum4(p: Pair, q: Pair, r: Pair, s: Pair): Pair {
    AddSecond(AddSecond(AddFirst(p, q), r), s)
  }

  lemma Sum4Value(p: Pair, q: Pair, r: Pair, s: Pair)
    ensures Sum4(p, q, r, s).Value() == (p.Value() + q.Value() + r.Value() + s.Value()) % P64
  {
    var u := AddFirst(p, q);
    var v := AddSecond(u, r);
    AddPair(p, q);
    AddPair(u, r);
    AddPair(v, s);
    ModChain(p.Value() + q.Value(), r.Value());
    ModChain(p.Value() + q.Value() + r.Value(), s.Value());
  }

  lemma Sum5Value(p: Pair, q: Pair, r: Pair, s: Pair, t: Pair)
    ensures Sum5(p, q, r, s, t).Value() == (p.Value() + q.Value() + r.Value() + s.Value() + t.Value()) % P64
  {
    Sum4Value(p, q, r, s);
    AddPair(Sum4(p, q, r, s), t);
    ModChain(p.Value() + q.Value() + r.Value() + s.Value(), t.Value());
  }

  lemma ModChain(x: nat, y: nat)
    ensures (x % P64 + y) % P64 == (x + y) % P64
  {
  }

  function Sigma0(p: Pair): Pair {
    Pair(JsSigma0(p.h, p.l), JsSigma0(p.l, p.h))
  }

  function Sigma1(p: Pair): Pair {
    Pair(JsSigma1(p.h, p.l), JsSigma1(p.l, p.h))
  }

  function Gamma0(p: Pair): Pair {
    Pair(JsGamma0(p.h, p.l), JsGamma0l(p.l, p.h))
  }

  function Gamma1(p: Pair): Pair {
    Pair(JsGamma1(p.h, p.l), JsGamma1l(p.l, p.h))
  }

  function Choose(p: Pair, q: Pair, r: Pair): Pair {
    Pair(JsCh(p.h, q.h, r.h), JsCh(p.l, q.l, r.l))
  }

  function Majority(p: Pair, q: Pair, r: Pair): Pair {
    Pair(JsMaj(p.h, q.h, r.h), JsMaj(p.l, q.l, r.l))
  }

  /** The first temporary of a round, its five terms added in the order of the source. */
  function Temp1(e: Pair, f: Pair, g: Pair, h: Pair, k: Pair, w: Pair): Pair {
    Sum5(h, Sigma1(e), Choose(e, f, g), k, w)
  }

  /** The second temporary of a round. */
  function Temp2(a: Pair, b: Pair, c: Pair): Pair {
    AddFirst(Sigma0(a), Majority(a, b, c))
  }

  /** The next word of the message schedule from the words 2, 7, 15 and 16 places back. */
  function NextWord(w2: Pair, w7: Pair, w15: Pair, w16: Pair): Pair {
    Sum4(Gamma0(w15), w7, Gamma1(w2), w16)
  }

  /** The eight pairs after a round are those of the round of section 6.4.2. */
  lemma RoundRefines(a: Pair, b: Pair, c: Pair, d: Pair, e: Pair, f: Pair, g: Pair, h: Pair, k: Pair, w: Pair)
    ensures StateOf(AddFirst(Temp1(e, f, g, h, k, w), Temp2(a, b, c)), a, b, c,
                    AddFirst(d, Temp1(e, f, g, h, k, w)), e, f, g)
         == Round(StateOf(a, b, c, d, e, f, g, h), k.Value(), w.Value())
  {
    hide BigSigma0, BigSigma1, Ch, Maj, Sum5, AddFirst, AddSecond, Sum4, Join;
    var t1, t2 := Temp1(e, f, g, h, k, w), Temp2(a, b, c);
    BigSigma1Pair(e.h, e.l);
    ChPair(e.h, e.l, f.h, f.l, g.h, g.l);
    Sum5Value(h, Sigma1(e), Choose(e, f, g), k, w);
    BigSigma0Pair(a.h, a.l);
    MajPair(a.h, a.l, b.h, b.l, c.h, c.l);
    AddPair(Sigma0(a), Majority(a, b, c));
    AddPair(d, t1);
    AddPair(t1, t2);
  }

  /** The next pair of the schedule is its next word. */
  lemma NextWordRefines(m: seq<U64>, t: nat, w2: Pair, w7: Pair, w15: Pair, w16: Pair)
    requires |m| == 16 && t >= 16
    requires w2.Value() == W(m, t - 2) && w7.Value() == W(m, t - 7)
    requires w15.Value() == W(m, t - 15) && w16.Value() == W(m, t - 16)
    ensures NextWord(w2, w7, w15, w16).Value() == W(m, t)
  {
    SmallSigma0Pair(w15.h, w15.l);
    SmallSigma1Pair(w2.h, w2.l);
    Sum4Value(Gamma0(w15), w7, Gamma1(w2), w16);
  }

  function StateOf(a: Pair, b: Pair, c: Pair, d: Pair, e: Pair, f: Pair, g: Pair, h: Pair): State {
    State(a.Value(), b.Value(), c.Value(), d.Value(), e.Value(), f.Value(), g.Value(), h.Value())
  }

  // Words in a byte buffer.

  /** `buffer.readInt32BE(i)`. */
  function ReadInt32BE(b: seq<Byte>, i: nat): U32
    requires i + 4 <= |b|
  {
    Or32(Or32(Or32(Shl32(b[i], 24), Shl32(b[i + 1], 16)), Shl32(b[i + 2], 8)), b[i + 3])
  }

  /** The number that four bytes stand for, most significant first. */
  function BigEndian32(b: seq<Byte>, i: nat): U32
    requires i + 4 <= |b|
  {
    var b0: nat, b1: nat, b2: nat, b3: nat := b[i], b[i + 1], b[i + 2], b[i + 3];
    0x100_0000 * b0 + 0x1_0000 * b1 + 0x100 * b2 + b3
  }

  lemma ReadsBigEndian(b: seq<Byte>, i: nat)
    requires i + 4 <= |b|
    ensures ReadInt32BE(b, i) == BigEndian32(b, i)
  {
    ShiftByte(b[i], 24);
    ShiftByte(b[i + 1], 16);
    ShiftByte(b[i + 2], 8);
    OrBytes(b[i], b[i + 1], b[i + 2], b[i + 3]);
  }

  lemma OrBytes(b0: nat, b1: nat, b2: nat, b3: nat)
    requires b0 < 256 && b1 < 256 && b2 < 256 && b3 < 256
    ensures Bitwise(Or, Bitwise(Or, Bitwise(Or, b0 * 0x100_0000, b1 * 0x1_0000), b2 * 0x100), b3)
         == b0 * 0x100_0000 + b1 * 0x1_0000 + b2 * 0x100 + b3
  {
    hide Bitwise;
    OrNext(b0, b1 * 0x1_0000, 24, 0x100_0000);
    OrNext(b0 * 0x100 + b1, b2 * 0x100, 16, 0x1_0000);
    OrNext(b0 * 0x1_0000 + b1 * 0x100 + b2, b3, 8, 0x100);
  }

  lemma OrNext(h: nat, l: nat, n: nat, p: nat)
    requires (n, p) in {(8, 0x100), (16, 0x1_0000), (24, 0x100_0000)}
    requires l < p
    ensures Bitwise(Or, h * p, l) == h * p + l
  {
    hide Bitwise;
    Pow2Values();
    ScaleIsProduct(h, n);
    OrIsSum(n, h, l);
  }

  lemma ShiftByte(b: nat, n: nat)
    requires b < 256 && (n == 8 || n == 16 || n == 24)
    ensures Shl32(b, n) == b * if n == 8 then 0x100 else if n == 16 then 0x1_0000 else 0x100_0000
  {
    ScaleIsProduct(b, n);
    Pow2Values();
  }

  /** The sixteen words of a block (section 5.2.2 of FIPS 180-4). */
  function BlockWords(b: seq<Byte>): (m: seq<U64>)
    requires |b| == 128
    ensures |m| == 16
  {
    seq(16, t requires 0 <= t < 16 => Join(BigEndian32(b, 8 * t), BigEndian32(b, 8 * t + 4)))
  }

  class Sha512 {
    // The fields `_ah` and `_al`, ..., `_hh` and `_hl` of the source, each two as one pair.
    var a: Pair
    var b: Pair
    var c: Pair
    var d: Pair
    var e: Pair
    var f: Pair
    var g: Pair
    var h: Pair
    const w: array<U32>

    ghost predicate Valid() {
      w.Length == 160
    }

    /** The hash value held in the sixteen fields. */
    ghost function Value(): State
      reads this
    {
      StateOf(a, b, c, d, e, f, g, h)
    }

    /** The schedule buffer `w` is one array shared by every instance in the source. */
    constructor (w: array<U32>)
      requires w.Length == 160
      ensures Valid() && this.w == w
      ensures Value() == INITIAL
    {
      this.w := w;
      a, b := Pair(1779033703, 4089235720), Pair(3144134277, 2227873595);
      c, d := Pair(1013904242, 4271175723), Pair(2773480762, 1595750129);
      e, f := Pair(1359893119, 2917565137), Pair(2600822924, 725511199);
      g, h := Pair(528734635, 4215389547), Pair(1541459225, 327033209);
    }

    method Update(block: array<Byte>)
      requires Valid() && block.Length == 128
      modifies this, w
      ensures Value() == Compress(old(Value()), BlockWords(old(block[..])))
    {
      hide AddFirst, Temp1, Temp2, Round, W, KTable, Join, BlockWords;
      ghost var was, m := Value(), BlockWords(block[..]);
      var a, b, c, d, e, f, g, h := a, b, c, d, e, f, g, h;
      FillSchedule(block);
      var i := 0;
      while i < 160
        invariant i % 2 == 0 && 0 <= i <= 160
        invariant unchanged(this)
        invariant Scheduled(w[..], m, 80)
        invariant StateOf(a, b, c, d, e, f, g, h) == Rounds(was, m, i / 2)
      {
        var k, word := Pair(KTable(i), KTable(i + 1)), Pair(w[i], w[i + 1]);
        assert 2 * (i / 2) == i;
        assert word.Value() == W(m, i / 2) by { assert ScheduledAt(w[..], m, i / 2); }
        RoundRefines(a, b, c, d, e, f, g, h, k, word);
        var t1, t2 := Temp1(e, f, g, h, k, word), Temp2(a, b, c);
        h, g, f, e := g, f, e, AddFirst(d, t1);
        d, c, b, a := c, b, a, AddFirst(t1, t2);
        i := i + 2;
      }
      AddToState(a, b, c, d, e, f, g, h);
    }

    /** The two loops that fill the schedule: the sixteen words of the block, then the others. */
    method FillSchedule(block: array<Byte>)
      requires Valid() && block.Length == 128
      modifies w
      ensures Scheduled(w[..], BlockWords(old(block[..])), 80)
    {
      hide NextWord, ReadInt32BE, BigEndian32, Join, SmallSigma0, SmallSigma1;
      ghost var m := BlockWords(block[..]);
      var bytes := block[..];
      var v := 0;
      while v < 32
        invariant v % 2 == 0 && 0 <= v <= 32
        invariant block[..] == bytes
        invariant Scheduled(w[..], m, v / 2)
      {
        ReadsBigEndian(bytes, 4 * v);
        ReadsBigEndian(bytes, 4 * v + 4);
        assert 8 * (v / 2) == 4 * v;
        ExtendSchedule(w[..], m, v / 2, Pair(ReadInt32BE(bytes, 4 * v), ReadInt32BE(bytes, 4 * v + 4)));
        w[v], w[v + 1] := ReadInt32BE(block[..], 4 * v), ReadInt32BE(block[..], 4 * v + 4);
        v := v + 2;
      }
      while v < 160
        invariant v % 2 == 0 && 32 <= v <= 160
        invariant Scheduled(w[..], m, v / 2)
      {
        var next := NextWord(Pair(w[v - 4], w[v - 3]), Pair(w[v - 14], w[v - 13]),
                             Pair(w[v - 30], w[v - 29]), Pair(w[v - 32], w[v - 31]));
        ScheduleStep(w[..], m, v / 2);
        ExtendSchedule(w[..], m, v / 2, next);
        w[v], w[v + 1] := next.h, next.l;
        v := v + 2;
      }
    }

    /** The last lines of the update. */
    method AddToState(a': Pair, b': Pair, c': Pair, d': Pair, e': Pair, f': Pair, g': Pair, h': Pair)
      modifies this
      ensures Value() == Plus(old(Value()), StateOf(a', b', c', d', e', f', g', h'))
    {
      hide AddSecond, Plus, StateOf;
      AddStates(a, b, c, d, e, f, g, h, a', b', c', d', e', f', g', h');
      a, b, c, d := AddSecond(a, a'), AddSecond(b, b'), AddSecond(c, c'), AddSecond(d, d');
      e, f, g, h := AddSecond(e, e'), AddSecond(f, f'), AddSecond(g, g'), AddSecond(h, h');
    }

    /** `_hash`. */
    method Bytes() returns (digest: seq<Byte>)
      ensures digest == StateBytes(Value())
    {
      hide BigEndian, Bytes4;
      digest := Bytes8(a) + Bytes8(b) + Bytes8(c) + Bytes8(d) + Bytes8(e) + Bytes8(f) + Bytes8(g) + Bytes8(h);
    }
  }

  /** The eight words of a hash value, most significant byte first. */
  function StateBytes(s: State): seq<Byte> {
    BigEndian(s.a, 8) + BigEndian(s.b, 8) + BigEndian(s.c, 8) + BigEndian(s.d, 8)
    + BigEndian(s.e, 8) + BigEndian(s.f, 8) + BigEndian(s.g, 8) + BigEndian(s.h, 8)
  }

  /** `writeInt64BE`. */
  function Bytes8(p: Pair): (s: seq<Byte>)
    ensures s == BigEndian(p.Value(), 8)
  {
    PairBytes(p.h, p.l);
    Bytes4(p.h) + Bytes4(p.l)
  }

  lemma AddStates(a: Pair, b: Pair, c: Pair, d: Pair, e: Pair, f: Pair, g: Pair, h: Pair,
                  a': Pair, b': Pair, c': Pair, d': Pair, e': Pair, f': Pair, g': Pair, h': Pair)
    ensures StateOf(AddSecond(a, a'), AddSecond(b, b'), AddSecond(c, c'), AddSecond(d, d'),
                    AddSecond(e, e'), AddSecond(f, f'), AddSecond(g, g'), AddSecond(h, h'))
         == Plus(StateOf(a, b, c, d, e, f, g, h), StateOf(a', b', c', d', e', f', g', h'))
  {
    hide AddFirst, AddSecond, Join;
    AddPair(a, a');
    AddPair(b, b');
    AddPair(c, c');
    AddPair(d, d');
    AddPair(e, e');
    AddPair(f, f');
    AddPair(g, g');
    AddPair(h, h');
  }

  /** Pair `t` of the schedule buffer holds word `t` of the schedule. */
  ghost predicate ScheduledAt(w: seq<U32>, m: seq<U64>, t: nat)
    requires |m| == 16 && |w| == 160 && t < 80
  {
    Join(w[2 * t], w[2 * t + 1]) == W(m, t)
  }

  ghost predicate Scheduled(w: seq<U32>, m: seq<U64>, n: nat)
    requires |m| == 16 && |w| == 160 && n <= 80
  {
    forall t :: 0 <= t < n ==> ScheduledAt(w, m, t)
  }

  lemma ScheduleStep(w: seq<U32>, m: seq<U64>, t: nat)
    requires |m| == 16 && |w| == 160 && 16 <= t < 80 && Scheduled(w, m, t)
    ensures var v := 2 * t;
            NextWord(Pair(w[v - 4], w[v - 3]), Pair(w[v - 14], w[v - 13]),
                     Pair(w[v - 30], w[v - 29]), Pair(w[v - 32], w[v - 31])).Value() == W(m, t)
  {
    hide NextWord, W, Join;
    assert ScheduledAt(w, m, t - 2) && ScheduledAt(w, m, t - 7);
    assert ScheduledAt(w, m, t - 15) && ScheduledAt(w, m, t - 16);
    var v := 2 * t;
    NextWordRefines(m, t, Pair(w[v - 4], w[v - 3]), Pair(w[v - 14], w[v - 13]),
                    Pair(w[v - 30], w[v - 29]), Pair(w[v - 32], w[v - 31]));
  }

  lemma ExtendSchedule(w: seq<U32>, m: seq<U64>, t: nat, p: Pair)
    requires |m| == 16 && |w| == 160 && t < 80 && Scheduled(w, m, t) && p.Value() == W(m, t)
    ensures Scheduled(w[2 * t := p.h][2 * t + 1 := p.l], m, t + 1)
  {
    var w' := w[2 * t := p.h][2 * t + 1 := p.l];
    forall k | 0 <= k < t + 1
      ensures ScheduledAt(w', m, k)
    {
      if k < t {
        assert ScheduledAt(w, m, k);
      }
    }
  }
}
