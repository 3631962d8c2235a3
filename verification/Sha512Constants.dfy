/**
  * The constants of SHA-512 as the source lists them, and the definition FIPS 180-4 gives of them:
  * the first 64 bits of the fractional parts of the cube roots of the first eighty primes (section
  * 4.2.3) and of the square roots of the first eight (section 5.3.5).
  */
module Sha512Constants {
  import opened Primes
  import opened Words

  /** The table of round constants: a high word, then a low word, for each round. */
  function KTable(i: nat): U32
    requires i < 160
  {
    match i
    case 0 => 1116352408 case 1 => 3609767458 case 2 => 1899447441 case 3 => 602891725
    case 4 => 3049323471 case 5 => 3964484399 case 6 => 3921009573 case 7 => 2173295548
    case 8 => 961987163 case 9 => 4081628472 case 10 => 1508970993 case 11 => 3053834265
    case 12 => 2453635748 case 13 => 2937671579 case 14 => 2870763221 case 15 => 3664609560
    case 16 => 3624381080 case 17 => 2734883394 case 18 => 310598401 case 19 => 1164996542
    case 20 => 607225278 case 21 => 1323610764 case 22 => 1426881987 case 23 => 3590304994
    case 24 => 1925078388 case 25 => 4068182383 case 26 => 2162078206 case 27 => 991336113
    case 28 => 2614888103 case 29 => 633803317 case 30 => 3248222580 case 31 => 3479774868
    case 32 => 3835390401 case 33 => 2666613458 case 34 => 4022224774 case 35 => 944711139
    case 36 => 264347078 case 37 => 2341262773 case 38 => 604807628 case 39 => 2007800933
    case 40 => 770255983 case 41 => 1495990901 case 42 => 1249150122 case 43 => 1856431235
    case 44 => 1555081692 case 45 => 3175218132 case 46 => 1996064986 case 47 => 2198950837
    case 48 => 2554220882 case 49 => 3999719339 case 50 => 2821834349 case 51 => 766784016
    case 52 => 2952996808 case 53 => 2566594879 case 54 => 3210313671 case 55 => 3203337956
    case 56 => 3336571891 case 57 => 1034457026 case 58 => 3584528711 case 59 => 2466948901
    case 60 => 113926993 case 61 => 3758326383 case 62 => 338241895 case 63 => 168717936
    case 64 => 666307205 case 65 => 1188179964 case 66 => 773529912 case 67 => 1546045734
    case 68 => 1294757372 case 69 => 1522805485 case 70 => 1396182291 case 71 => 2643833823
    case 72 => 1695183700 case 73 => 2343527390 case 74 => 1986661051 case 75 => 1014477480
    case 76 => 2177026350 case 77 => 1206759142 case 78 => 2456956037 case 79 => 344077627
    case 80 => 2730485921 case 81 => 1290863460 case 82 => 2820302411 case 83 => 3158454273
    case 84 => 3259730800 case 85 => 3505952657 case 86 => 3345764771 case 87 => 106217008
    case 88 => 3516065817 case 89 => 3606008344 case 90 => 3600352804 case 91 => 1432725776
    case 92 => 4094571909 case 93 => 1467031594 case 94 => 275423344 case 95 => 851169720
    case 96 => 430227734 case 97 => 3100823752 case 98 => 506948616 case 99 => 1363258195
    case 100 => 659060556 case 101 => 3750685593 case 102 => 883997877 case 103 => 3785050280
    case 104 => 958139571 case 105 => 3318307427 case 106 => 1322822218 case 107 => 3812723403
    case 108 => 1537002063 case 109 => 2003034995 case 110 => 1747873779 case 111 => 3602036899
    case 112 => 1955562222 case 113 => 1575990012 case 114 => 2024104815 case 115 => 1125592928
    case 116 => 2227730452 case 117 => 2716904306 case 118 => 2361852424 case 119 => 442776044
    case 120 => 2428436474 case 121 => 593698344 case 122 => 2756734187 case 123 => 3733110249
    case 124 => 3204031479 case 125 => 2999351573 case 126 => 3329325298 case 127 => 3815920427
    case 128 => 3391569614 case 129 => 3928383900 case 130 => 3515267271 case 131 => 566280711
    case 132 => 3940187606 case 133 => 3454069534 case 134 => 4118630271 case 135 => 4000239992
    case 136 => 116418474 case 137 => 1914138554 case 138 => 174292421 case 139 => 2731055270
    case 140 => 289380356 case 141 => 3203993006 case 142 => 460393269 case 143 => 320620315
    case 144 => 685471733 case 145 => 587496836 case 146 => 852142971 case 147 => 1086792851
    case 148 => 1017036298 case 149 => 365543100 case 150 => 1126000580 case 151 => 2618297676
    case 152 => 1288033470 case 153 => 3409855158 case 154 => 1501505948 case 155 => 4234509866
    case 156 => 1607167915 case 157 => 987167468 case 158 => 1816402316 case 159 => 1246189591
  }

  function K(t: nat): U64
    requires t < 80
  {
    Join(KTable(2 * t), KTable(2 * t + 1))
  }

  /** The initial high words. */
  function HTableHigh(i: nat): U32
    requires i < 8
  {
    match i
    case 0 => 1779033703 case 1 => 3144134277 case 2 => 1013904242 case 3 => 2773480762 case 4 => 1359893119 case 5 => 2600822924 case 6 => 528734635 case 7 => 1541459225
  }

  /** The initial low words. */
  function HTableLow(i: nat): U32
    requires i < 8
  {
    match i
    case 0 => 4089235720 case 1 => 2227873595 case 2 => 4271175723 case 3 => 1595750129 case 4 => 2917565137 case 5 => 725511199 case 6 => 4215389547 case 7 => 327033209
  }

  function H(i: nat): U64
    requires i < 8
  {
    Join(HTableHigh(i), HTableLow(i))
  }

  function Cube(x: nat): nat {
    x * x * x
  }

  function Square(x: nat): nat {
    x * x
  }

  /** `i` is the integer part of the cube root of `y` and `f` the next 64 bits of it. */
  ghost predicate CubeRootBits(i: nat, y: nat, f: U64) {
    && Cube(i) <= y < Cube(i + 1)
    && Cube(i * P64 + f) <= y * Cube(P64) < Cube(i * P64 + f + 1)
  }

  /** `i` is the integer part of the square root of `y` and `f` the next 64 bits of it. */
  ghost predicate SquareRootBits(i: nat, y: nat, f: U64) {
    && Square(i) <= y < Square(i + 1)
    && Square(i * P64 + f) <= y * Square(P64) < Square(i * P64 + f + 1)
  }

  /** The integer part of the cube root, below 512. */
  function CubeRoot(y: nat): nat {
    if y < 8 then 1 else if y < 27 then 2 else if y < 64 then 3 else if y < 125 then 4
    else if y < 216 then 5 else if y < 343 then 6 else 7
  }

  /** The integer part of the square root, below 25. */
  function SquareRoot(y: nat): nat {
    if y < 4 then 1 else if y < 9 then 2 else if y < 16 then 3 else 4
  }

  /** Every initial word of the source is the one section 5.3.5 defines. */
  lemma InitialConstants(t: nat)
    requires t < 8
    ensures SquareRootBits(SquareRoot(Prime(t)), Prime(t), H(t))
  {
  }

  /** Every round constant of the source is the one section 4.2.3 defines. */
  lemma RoundConstants(t: nat)
    requires t < 80
    ensures CubeRootBits(CubeRoot(Prime(t)), Prime(t), K(t))
  {
    match t / 8
    case 0 => RoundConstants0(t);
    case 1 => RoundConstants8(t);
    case 2 => RoundConstants16(t);
    case 3 => RoundConstants24(t);
    case 4 => RoundConstants32(t);
    case 5 => RoundConstants40(t);
    case 6 => RoundConstants48(t);
    case 7 => RoundConstants56(t);
    case 8 => RoundConstants64(t);
    case _ => RoundConstants72(t);
  }

  lemma RoundConstants0(t: nat)
    requires t / 8 == 0
    ensures CubeRootBits(CubeRoot(Prime(t)), Prime(t), K(t))
  {
    match t
    case 0 => case 1 => case 2 => case 3 => case 4 => case 5 => case 6 => case _ =>
  }

  lemma RoundConstants8(t: nat)
    requires t / 8 == 1
    ensures CubeRootBits(CubeRoot(Prime(t)), Prime(t), K(t))
  {
    match t
    case 8 => case 9 => case 10 => case 11 => case 12 => case 13 => case 14 => case _ =>
  }

  lemma RoundConstants16(t: nat)
    requires t / 8 == 2
    ensures CubeRootBits(CubeRoot(Prime(t)), Prime(t), K(t))
  {
    match t
    case 16 => case 17 => case 18 => case 19 => case 20 => case 21 => case 22 => case _ =>
  }

  lemma RoundConstants24(t: nat)
    requires t / 8 == 3
    ensures CubeRootBits(CubeRoot(Prime(t)), Prime(t), K(t))
  {
    match t
    case 24 => case 25 => case 26 => case 27 => case 28 => case 29 => case 30 => case _ =>
  }

  lemma RoundConstants32(t: nat)
    requires t / 8 == 4
    ensures CubeRootBits(CubeRoot(Prime(t)), Prime(t), K(t))
  {
    match t
    case 32 => case 33 => case 34 => case 35 => case 36 => case 37 => case 38 => case _ =>
  }

  lemma RoundConstants40(t: nat)
    requires t / 8 == 5
    ensures CubeRootBits(CubeRoot(Prime(t)), Prime(t), K(t))
  {
    match t
    case 40 => case 41 => case 42 => case 43 => case 44 => case 45 => case 46 => case _ =>
  }

  lemma RoundConstants48(t: nat)
    requires t / 8 == 6
    ensures CubeRootBits(CubeRoot(Prime(t)), Prime(t), K(t))
  {
    match t
    case 48 => case 49 => case 50 => case 51 => case 52 => case 53 => case 54 => case _ =>
  }

  lemma RoundConstants56(t: nat)
    requires t / 8 == 7
    ensures CubeRootBits(CubeRoot(Prime(t)), Prime(t), K(t))
  {
    match t
    case 56 => case 57 => case 58 => case 59 => case 60 => case 61 => case 62 => case _ =>
  }

  lemma RoundConstants64(t: nat)
    requires t / 8 == 8
    ensures CubeRootBits(CubeRoot(Prime(t)), Prime(t), K(t))
  {
    match t
    case 64 => case 65 => case 66 => case 67 => case 68 => case 69 => case 70 => case _ =>
  }

  lemma RoundConstants72(t: nat)
    requires t / 8 == 9
    ensures CubeRootBits(CubeRoot(Prime(t)), Prime(t), K(t))
  {
    match t
    case 72 => case 73 => case 74 => case 75 => case 76 => case 77 => case 78 => case _ =>
  }
}
