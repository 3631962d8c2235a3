/**
  * The block computation of SHA-512 as FIPS 180-4 states it, on 64-bit words: the functions of
  * section 4.1.3, the message schedule and the eighty rounds of section 6.4.2.
  */
module Fips180 {
  import opened Words
  import opened Sha512Constants

  function Ch(x: U64, y: U64, z: U64): U64 {
    Bitwise64(Xor, Bitwise64(And, x, y), Bitwise64(And, Not64(x), z))
  }

  function Maj(x: U64, y: U64, z: U64): U64 {
    Xor3(Bitwise64(And, x, y), Bitwise64(And, x, z), Bitwise64(And, y, z))
  }

  function Xor3(x: U64, y: U64, z: U64): U64 {
    Bitwise64(Xor, Bitwise64(Xor, x, y), z)
  }

  function BigSigma0(x: U64): U64 {
    Xor3(RotR64(x, 28), RotR64(x, 34), RotR64(x, 39))
  }

  function BigSigma1(x: U64): U64 {
    Xor3(RotR64(x, 14), RotR64(x, 18), RotR64(x, 41))
  }

  function SmallSigma0(x: U64): U64 {
    Xor3(RotR64(x, 1), RotR64(x, 8), Shr(x, 7))
  }

  function SmallSigma1(x: U64): U64 {
    Xor3(RotR64(x, 19), RotR64(x, 61), Shr(x, 6))
  }

  datatype State = State(a: U64, b: U64, c: U64, d: U64, e: U64, f: U64, g: U64, h: U64)

  /** Word `t` of the message schedule of a block of 16 words. */
  function W(m: seq<U64>, t: nat): U64
    requires |m| == 16
  {
    if t < 16 then m[t]
    else (SmallSigma1(W(m, t - 2)) + W(m, t - 7) + SmallSigma0(W(m, t - 15)) + W(m, t - 16)) % P64
  }

  function Round(s: State, k: U64, w: U64): State {
    var t1 := (s.h + BigSigma1(s.e) + Ch(s.e, s.f, s.g) + k + w) % P64;
    var t2 := (BigSigma0(s.a) + Maj(s.a, s.b, s.c)) % P64;
    State((t1 + t2) % P64, s.a, s.b, s.c, (s.d + t1) % P64, s.e, s.f, s.g)
  }

  /** The working variables after the first `n` rounds. */
  function Rounds(s: State, m: seq<U64>, n: nat): State
    requires n <= 80 && |m| == 16
  {
    if n == 0 then s else Round(Rounds(s, m, n - 1), K(n - 1), W(m, n - 1))
  }

  function Plus(s: State, t: State): State {
    State((s.a + t.a) % P64, (s.b + t.b) % P64, (s.c + t.c) % P64, (s.d + t.d) % P64,
          (s.e + t.e) % P64, (s.f + t.f) % P64, (s.g + t.g) % P64, (s.h + t.h) % P64)
  }

  /** The hash value after one more block of 16 words. */
  function Compress(s: State, m: seq<U64>): State
    requires |m| == 16
  {
    Plus(s, Rounds(s, m, 80))
  }

  const INITIAL: State :=
    State(H(0), H(1), H(2), H(3), H(4), H(5), H(6), H(7))
}
