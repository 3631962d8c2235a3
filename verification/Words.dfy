/**
  * Machine words as natural numbers, and the bitwise operators of JavaScript on them.
  *
  * A JavaScript bitwise operator works on the residue of its operands modulo 2^32.  A word is
  * therefore modelled by its residue in [0, 2^32): the sign that `|0` or `^` may leave on a
  * number has no effect on any of the operations modelled here.
  */
module Words {

  function Pow2(k: nat): (p: nat)
    ensures p > 0
  {
    if k == 0 then 1 else 2 * Pow2(k - 1)
  }

  lemma Pow2Values()
    ensures Pow2(8) == 0x100 && Pow2(16) == 0x1_0000 && Pow2(24) == 0x100_0000
    ensures Pow2(32) == P32 && Pow2(64) == P64
  {
    assert Pow2(8) == 0x100;
    assert Pow2(16) == 0x1_0000;
    assert Pow2(24) == 0x100_0000;
    assert Pow2(32) == 0x1_0000_0000;
    assert Pow2(40) == 0x100_0000_0000;
    assert Pow2(48) == 0x1_0000_0000_0000;
    assert Pow2(56) == 0x100_0000_0000_0000;
    assert Pow2(64) == 0x1_0000_0000_0000_0000;
  }

  const P32: nat := 0x1_0000_0000
  const P64: nat := 0x1_0000_0000_0000_0000

  type U32 = x: nat | x < P32
  type U64 = x: nat | x < P64

  datatype BitOp = And | Or | Xor

  /** The truth table of an operator on two bits. */
  function Bit(op: BitOp, a: nat, b: nat): (c: nat)
    requires a < 2 && b < 2
    ensures c < 2
  {
    match op
    case And => if a + b == 2 then 1 else 0
    case Or => if a + b > 0 then 1 else 0
    case Xor => if a == b then 0 else 1
  }

  /** The operator applied to every pair of bits of `x` and `y`. */
  function Bitwise(op: BitOp, x: nat, y: nat): nat
    decreases x + y
  {
    if x == 0 && y == 0 then 0
    else Bit(op, x % 2, y % 2) + 2 * Bitwise(op, x / 2, y / 2)
  }

  /** `x * 2^k`. */
  function Scale(x: nat, k: nat): nat {
    if k == 0 then x else 2 * Scale(x, k - 1)
  }

  lemma {:induction false} ScaleZero(k: nat)
    ensures Scale(0, k) == 0
  {
    if k > 0 {
      ScaleZero(k - 1);
    }
  }

  lemma {:induction false} ScaleIsProduct(x: nat, k: nat)
    ensures Scale(x, k) == x * Pow2(k)
  {
    if k > 0 {
      ScaleIsProduct(x, k - 1);
      calc {
        x * Pow2(k);
        x * (2 * Pow2(k - 1));
        2 * (x * Pow2(k - 1));
      }
    }
  }

  lemma {:induction false} BitwiseBound(op: BitOp, k: nat, x: nat, y: nat)
    requires x < Pow2(k) && y < Pow2(k)
    ensures Bitwise(op, x, y) < Pow2(k)
  {
    if k > 0 {
      BitwiseBound(op, k - 1, x / 2, y / 2);
    }
  }

  /** A bitwise operator can be computed on the low `k` bits and on the others separately. */
  lemma {:induction false} BitwiseSplit(op: BitOp, k: nat, x: nat, h: nat, l: nat, x': nat, h': nat, l': nat)
    requires l < Pow2(k) && l' < Pow2(k)
    requires x == Scale(h, k) + l && x' == Scale(h', k) + l'
    ensures Bitwise(op, x, x') == Scale(Bitwise(op, h, h'), k) + Bitwise(op, l, l')
  {
    if k > 0 {
      BitwiseSplit(op, k - 1, x / 2, h, l / 2, x' / 2, h', l' / 2);
      assert x % 2 == l % 2 && x' % 2 == l' % 2;
    }
  }

  lemma {:induction false} OrZero(x: nat)
    ensures Bitwise(Or, x, 0) == x && Bitwise(Or, 0, x) == x
    ensures Bitwise(Xor, x, 0) == x && Bitwise(Xor, 0, x) == x
  {
    if x > 0 {
      OrZero(x / 2);
    }
  }

  /** The or of two numbers without common bits is their sum. */
  lemma OrIsSum(k: nat, h: nat, l: nat)
    requires l < Pow2(k)
    ensures Bitwise(Or, Scale(h, k), l) == Scale(h, k) + l == Bitwise(Or, l, Scale(h, k))
  {
    ScaleZero(k);
    BitwiseSplit(Or, k, Scale(h, k), h, 0, l, 0, l);
    BitwiseSplit(Or, k, l, 0, l, Scale(h, k), h, 0);
    OrZero(h);
    OrZero(l);
  }

  // The JavaScript operators on 32-bit words.

  function Bitwise32(op: BitOp, x: U32, y: U32): U32 {
    Pow2Values();
    BitwiseBound(op, 32, x, y);
    Bitwise(op, x, y)
  }

  function Xor32(x: U32, y: U32): U32 {
    Bitwise32(Xor, x, y)
  }

  function And32(x: U32, y: U32): U32 {
    Bitwise32(And, x, y)
  }

  function Or32(x: U32, y: U32): U32 {
    Bitwise32(Or, x, y)
  }

  /** `x >>> n`: halve `n` times. */
  function Shr(x: nat, n: nat): (r: nat)
    ensures r <= x
  {
    if n == 0 then x else Shr(x / 2, n - 1)
  }

  /** `x << n`. */
  function Shl32(x: U32, n: nat): U32 {
    Scale(x, n) % P32
  }

  function Shl64(x: U64, n: nat): U64 {
    Scale(x, n) % P64
  }

  /** `a + b | 0`. */
  function Add32(a: nat, b: nat): U32 {
    (a + b) % P32
  }

  // A 64-bit word as a pair of 32-bit words.

  function Join(h: U32, l: U32): U64 {
    h * P32 + l
  }

  function Bitwise64(op: BitOp, x: U64, y: U64): U64 {
    Pow2Values();
    BitwiseBound(op, 64, x, y);
    Bitwise(op, x, y)
  }

  function Not64(x: U64): U64 {
    P64 - 1 - x
  }

  lemma JoinBitwise(op: BitOp, h: U32, l: U32, h': U32, l': U32)
    ensures Bitwise64(op, Join(h, l), Join(h', l')) == Join(Bitwise32(op, h, h'), Bitwise32(op, l, l'))
  {
    Pow2Values();
    ScaleIsProduct(h, 32);
    ScaleIsProduct(h', 32);
    BitwiseSplit(op, 32, Join(h, l), h, l, Join(h', l'), h', l');
    ScaleIsProduct(Bitwise(op, h, h'), 32);
  }

  // Shifts and rotations of pairs.

  /** The low `n` bits of `x`. */
  function Low(x: nat, n: nat): nat {
    if n == 0 then 0 else x % 2 + 2 * Low(x / 2, n - 1)
  }

  lemma {:induction false} ShrLow(x: nat, n: nat)
    ensures x == Scale(Shr(x, n), n) + Low(x, n)
    ensures Low(x, n) < Pow2(n)
  {
    if n > 0 {
      ShrLow(x / 2, n - 1);
    }
  }

  lemma {:induction false} ShrUnique(x: nat, q: nat, r: nat, n: nat)
    requires r < Pow2(n) && x == Scale(q, n) + r
    ensures Shr(x, n) == q && Low(x, n) == r
  {
    if n > 0 {
      ShrUnique(x / 2, q, r / 2, n - 1);
    }
  }

  lemma {:induction false} ScaleSum(x: nat, y: nat, n: nat)
    ensures Scale(x + y, n) == Scale(x, n) + Scale(y, n)
  {
    if n > 0 {
      ScaleSum(x, y, n - 1);
    }
  }

  lemma {:induction false} ScaleTwice(x: nat, a: nat, b: nat)
    ensures Scale(Scale(x, a), b) == Scale(x, a + b)
  {
    if b > 0 {
      ScaleTwice(x, a, b - 1);
    }
  }

  lemma {:induction false} ScaleBound(x: nat, a: nat, n: nat)
    requires x < Pow2(a)
    ensures Scale(x, n) < Pow2(a + n)
  {
    if n > 0 {
      ScaleBound(x, a, n - 1);
    }
  }

  /** A left shift moves the low bits up and drops the others. */
  lemma ShiftLeft(x: nat, n: nat, w: nat)
    requires n <= w
    ensures Scale(x, n) == Scale(Shr(x, w - n), w) + Scale(Low(x, w - n), n)
    ensures Scale(Low(x, w - n), n) < Pow2(w)
  {
    ShrLow(x, w - n);
    ScaleSum(Scale(Shr(x, w - n), w - n), Low(x, w - n), n);
    ScaleTwice(Shr(x, w - n), w - n, n);
    ScaleBound(Low(x, w - n), w - n, n);
  }

  lemma ShiftLeft32(x: U32, n: nat)
    requires n <= 32
    ensures Shl32(x, n) == Scale(Low(x, 32 - n), n)
  {
    Pow2Values();
    ShiftLeft(x, n, 32);
    ScaleIsProduct(Shr(x, 32 - n), 32);
  }

  lemma ShiftLeft64(x: U64, n: nat)
    requires n <= 64
    ensures Shl64(x, n) == Scale(Low(x, 64 - n), n)
  {
    Pow2Values();
    ShiftLeft(x, n, 64);
    ScaleIsProduct(Shr(x, 64 - n), 64);
  }

  lemma {:induction false} ShrBound(x: nat, a: nat, n: nat)
    requires x < Pow2(a + n)
    ensures Shr(x, n) < Pow2(a)
  {
    if n > 0 {
      ShrBound(x / 2, a, n - 1);
    }
  }

  /** `ROTR^n(x)` of section 3.2 of FIPS 180-4, on 64-bit words. */
  function RotR64(x: U64, n: nat): U64
    requires n <= 64
  {
    Bitwise64(Or, Shr(x, n), Shl64(x, 64 - n))
  }

  /** `h >>> n | l << 32 - n`: one half of a rotated or shifted pair. */
  function Half(h: U32, l: U32, n: nat): U32
    requires n <= 32
  {
    Or32(Shr(h, n), Shl32(l, 32 - n))
  }

  lemma RotR64IsSum(x: U64, n: nat)
    requires n <= 64
    ensures RotR64(x, n) == Shr(x, n) + Scale(Low(x, n), 64 - n)
  {
    Pow2Values();
    ShiftLeft64(x, 64 - n);
    ShrBound(x, 64 - n, n);
    OrIsSum(64 - n, Low(x, n), Shr(x, n));
  }

  lemma HalfIsSum(h: U32, l: U32, n: nat)
    requires n <= 32
    ensures Half(h, l, n) == Shr(h, n) + Scale(Low(l, n), 32 - n)
  {
    Pow2Values();
    ShiftLeft32(l, 32 - n);
    ShrBound(h, 32 - n, n);
    OrIsSum(32 - n, Low(l, n), Shr(h, n));
  }

  /** `h * 2^(32 - n)`, split at bit 32. */
  lemma ScaleHigh(h: nat, n: nat)
    requires n <= 32
    ensures Scale(h, 32 - n) == Shr(h, n) * P32 + Scale(Low(h, n), 32 - n)
  {
    Pow2Values();
    ShiftLeft(h, 32 - n, 32);
    ScaleIsProduct(Shr(h, n), 32);
  }

  lemma JoinLow(h: U32, l: U32, n: nat)
    requires n <= 32
    ensures Shr(Join(h, l), n) == Scale(h, 32 - n) + Shr(l, n)
    ensures Low(Join(h, l), n) == Low(l, n)
  {
    Pow2Values();
    ShrLow(l, n);
    ScaleIsProduct(h, 32);
    ScaleTwice(h, 32 - n, n);
    ScaleSum(Scale(h, 32 - n), Shr(l, n), n);
    ShrUnique(Join(h, l), Scale(h, 32 - n) + Shr(l, n), Low(l, n), n);
  }

  lemma JoinHigh(h: U32, l: U32, n: nat)
    requires n <= 32
    ensures Shr(Join(h, l), 32 + n) == Shr(h, n)
    ensures Low(Join(h, l), 32 + n) == Low(h, n) * P32 + l
  {
    Pow2Values();
    ShrLow(h, n);
    ScaleIsProduct(h, 32);
    ScaleIsProduct(Low(h, n), 32);
    ScaleTwice(Shr(h, n), n, 32);
    ScaleSum(Scale(Shr(h, n), n), Low(h, n), 32);
    Pow2Word(n);
    ShrUnique(Join(h, l), Shr(h, n), Low(h, n) * P32 + l, 32 + n);
  }

  lemma {:induction false} Pow2Word(n: nat)
    ensures Pow2(32 + n) == Pow2(n) * P32
  {
    if n == 0 {
      Pow2Values();
    } else {
      Pow2Word(n - 1);
    }
  }

  lemma ScaleWord(x: nat, n: nat)
    ensures Scale(x, n + 32) == Scale(x, n) * P32
  {
    Pow2Values();
    ScaleTwice(x, n, 32);
    ScaleIsProduct(Scale(x, n), 32);
  }

  /** The two halves of a 64-bit rotation are 32-bit expressions on the two halves of its operand. */
  lemma RotatePair(h: U32, l: U32, n: nat)
    requires n <= 32
    ensures RotR64(Join(h, l), n) == Join(Half(h, l, n), Half(l, h, n))
  {
    HalfIsSum(h, l, n);
    HalfIsSum(l, h, n);
    RotR64IsSum(Join(h, l), n);
    JoinLow(h, l, n);
    ScaleHigh(h, n);
    ScaleWord(Low(l, n), 32 - n);
  }

  /** From 32 bits on, the halves change places. */
  lemma RotatePairFar(h: U32, l: U32, n: nat)
    requires n <= 32
    ensures RotR64(Join(h, l), 32 + n) == Join(Half(l, h, n), Half(h, l, n))
  {
    HalfIsSum(h, l, n);
    HalfIsSum(l, h, n);
    RotR64IsSum(Join(h, l), 32 + n);
    JoinHigh(h, l, n);
    ScaleIsProduct(Low(h, n), 32);
    Pow2Values();
    ScaleSum(Scale(Low(h, n), 32), l, 32 - n);
    ScaleTwice(Low(h, n), 32, 32 - n);
    ScaleWord(Low(h, n), 32 - n);
    ScaleHigh(l, n);
  }

  lemma ShiftPair(h: U32, l: U32, n: nat)
    requires n <= 32
    ensures Shr(Join(h, l), n) == Join(Shr(h, n), Half(l, h, n))
  {
    HalfIsSum(l, h, n);
    JoinLow(h, l, n);
    ScaleHigh(h, n);
  }
}
