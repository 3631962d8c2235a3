/**
  * Words as bytes, most significant byte first: the stores of the source and the numbers they encode.
  */
module WordBytes {
  import opened Prelude
  import opened Words

  function Zeros(n: nat): (s: seq<Byte>)
    ensures |s| == n
  {
    seq(n, _ => 0)
  }

  /** `x` on `n` bytes, most significant first. */
  function BigEndian(x: nat, n: nat): (s: seq<Byte>)
    ensures |s| == n
  {
    if n == 0 then [] else BigEndian(x / 256, n - 1) + [x % 256]
  }

  // Bytes of words.

  lemma {:induction false} AndOnes(k: nat, x: nat)
    requires x < Pow2(k)
    ensures Bitwise(And, Pow2(k) - 1, x) == x
  {
    if k > 0 {
      AndOnes(k - 1, x / 2);
    }
  }

  lemma LowByte(x: nat)
    ensures Bitwise(And, 255, x) == x % 256
  {
    Pow2Values();
    ScaleIsProduct(x / 256, 8);
    ScaleZero(8);
    AndOnes(8, x % 256);
    AndZero(x / 256);
    BitwiseSplit(And, 8, 255, 0, 255, x, x / 256, x % 256);
  }

  lemma {:induction false} AndZero(x: nat)
    ensures Bitwise(And, 0, x) == 0
  {
    if x > 0 {
      AndZero(x / 2);
    }
  }

  lemma {:induction false} ShrTwice(x: nat, a: nat, b: nat)
    ensures Shr(Shr(x, a), b) == Shr(x, a + b)
  {
    if a > 0 {
      ShrTwice(x / 2, a - 1, b);
    }
  }

  lemma ShrByte(x: nat)
    ensures Shr(x, 8) == x / 256
  {
    Pow2Values();
    ShrLow(x, 8);
    ScaleIsProduct(Shr(x, 8), 8);
  }

  /** What `writeUInt32BE` and `writeInt32BE` store, the stores being modulo 256. */
  function Bytes4(x: U32): (s: seq<Byte>)
    ensures |s| == 4
  {
    LowByte(x);
    [Shr(x, 24) % 256, Shr(x, 16) % 256, Shr(x, 8) % 256, And32(255, x)]
  }

  lemma Bytes4IsBigEndian(x: U32)
    ensures Bytes4(x) == BigEndian(x, 4)
  {
    LowByte(x);
    ShrByte(x);
    ShrByte(x / 256);
    ShrByte(x / 256 / 256);
    ShrTwice(x, 8, 8);
    ShrTwice(x, 16, 8);
    var y := x / 256;
    var z := y / 256;
    assert BigEndian(x, 4) == BigEndian(y, 3) + [x % 256];
    assert BigEndian(y, 3) == BigEndian(z, 2) + [y % 256];
    assert BigEndian(z, 2) == BigEndian(z / 256, 1) + [z % 256];
  }

  lemma {:induction false} BigEndianZero(n: nat)
    ensures BigEndian(0, n) == Zeros(n)
  {
    if n > 0 {
      BigEndianZero(n - 1);
    }
  }

  lemma BigEndianStep(x: nat, n: nat)
    ensures BigEndian(x, n + 1) == BigEndian(x / 256, n) + [x % 256]
  {
  }

  lemma LowWord(x: nat)
    ensures var x1 := x / 256; var x2 := x1 / 256; var x3 := x2 / 256;
            x3 / 256 == x / P32 && x % P32 == x % 256 + 0x100 * (x1 % 256) + 0x1_0000 * (x2 % 256) + 0x100_0000 * (x3 % 256)
  {
  }

  lemma BigEndianSplit(x: nat, n: nat)
    ensures BigEndian(x, n + 4) == BigEndian(x / P32, n) + BigEndian(x % P32, 4)
  {
    hide BigEndian;
    var x1 := x / 256;
    var x2 := x1 / 256;
    var x3 := x2 / 256;
    BigEndianStep(x, n + 3);
    BigEndianStep(x1, n + 2);
    BigEndianStep(x2, n + 1);
    BigEndianStep(x3, n);
    LowWord(x);
    WordOf(x % 256, x1 % 256, x2 % 256, x3 % 256);
  }

  lemma WordOf(b0: nat, b1: nat, b2: nat, b3: nat)
    requires b0 < 256 && b1 < 256 && b2 < 256 && b3 < 256
    ensures BigEndian(b0 + 0x100 * b1 + 0x1_0000 * b2 + 0x100_0000 * b3, 4) == [b3, b2, b1, b0]
  {
    hide BigEndian;
    BigEndianStep(b0 + 0x100 * b1 + 0x1_0000 * b2 + 0x100_0000 * b3, 3);
    BigEndianStep(b1 + 0x100 * b2 + 0x1_0000 * b3, 2);
    BigEndianStep(b2 + 0x100 * b3, 1);
    BigEndianStep(b3, 0);
    BigEndianZero(0);
  }

  /** The bytes of a length below 2^64, on 8 or more bytes: zeros, a high word, a low word. */
  lemma LengthBytes(x: nat, n: nat)
    requires x < P64
    ensures BigEndian(x, n + 8) == Zeros(n) + Bytes4(x / P32) + Bytes4(x % P32)
  {
    BigEndianSplit(x, n + 4);
    BigEndianSplit(x / P32, n);
    BigEndianZero(n);
    Bytes4IsBigEndian(x / P32);
    Bytes4IsBigEndian(x % P32);
    assert x / P32 % P32 == x / P32 && x / P32 / P32 == 0;
  }

  lemma PairBytes(h: U32, l: U32)
    ensures BigEndian(Join(h, l), 8) == Bytes4(h) + Bytes4(l)
  {
    assert Join(h, l) / P32 == h && Join(h, l) % P32 == l;
    hide Join, Bytes4;
    LengthBytes(Join(h, l), 0);
  }
}
