/**
  * The first eighty primes, from whose roots FIPS 180-4 takes the constants of SHA-512.
  */
module Primes {

  function Prime(i: nat): nat
    requires i < 80
  {
    match i
    case 0 => 2 case 1 => 3 case 2 => 5 case 3 => 7 case 4 => 11 case 5 => 13 case 6 => 17 case 7 => 19 case 8 => 23 case 9 => 29
    case 10 => 31 case 11 => 37 case 12 => 41 case 13 => 43 case 14 => 47 case 15 => 53 case 16 => 59 case 17 => 61 case 18 => 67 case 19 => 71
    case 20 => 73 case 21 => 79 case 22 => 83 case 23 => 89 case 24 => 97 case 25 => 101 case 26 => 103 case 27 => 107 case 28 => 109 case 29 => 113
    case 30 => 127 case 31 => 131 case 32 => 137 case 33 => 139 case 34 => 149 case 35 => 151 case 36 => 157 case 37 => 163 case 38 => 167 case 39 => 173
    case 40 => 179 case 41 => 181 case 42 => 191 case 43 => 193 case 44 => 197 case 45 => 199 case 46 => 211 case 47 => 223 case 48 => 227 case 49 => 229
    case 50 => 233 case 51 => 239 case 52 => 241 case 53 => 251 case 54 => 257 case 55 => 263 case 56 => 269 case 57 => 271 case 58 => 277 case 59 => 281
    case 60 => 283 case 61 => 293 case 62 => 307 case 63 => 311 case 64 => 313 case 65 => 317 case 66 => 331 case 67 => 337 case 68 => 347 case 69 => 349
    case 70 => 353 case 71 => 359 case 72 => 367 case 73 => 373 case 74 => 379 case 75 => 383 case 76 => 389 case 77 => 397 case 78 => 401 case 79 => 409
  }

  ghost predicate IsPrime(n: nat) {
    n >= 2 && forall d :: 2 <= d < n ==> n % d != 0
  }

  /** The first of the first eight primes that divides a number, or the number. */
  function Divisor(n: nat): nat {
    if n % 2 == 0 then 2 else if n % 3 == 0 then 3 else if n % 5 == 0 then 5 else if n % 7 == 0 then 7
    else if n % 11 == 0 then 11 else if n % 13 == 0 then 13 else if n % 17 == 0 then 17 else if n % 19 == 0 then 19
    else n
  }

  /** It is a proper divisor, which every composite number below 529 has. */
  predicate Sieved(n: nat) {
    Divisor(n) < n
  }

  lemma DivisorDivides(n: nat)
    requires n >= 2
    ensures 2 <= Divisor(n) && n % Divisor(n) == 0
  {
    if n % 2 == 0 {
    } else if n % 3 == 0 {
    } else if n % 5 == 0 {
    } else if n % 7 == 0 {
    } else if n % 11 == 0 {
    } else if n % 13 == 0 {
    } else if n % 17 == 0 {
    } else if n % 19 == 0 {
    } else {
      assert Divisor(n) == n == 1 * n;
      MultipleOf(1, n);
    }
  }

  lemma HasDivisor(n: nat, p: nat)
    requires p in {2, 3, 5, 7, 11, 13, 17, 19} && p < n && n % p == 0
    ensures Sieved(n)
  {
  }

  /** A divisor below 23 leads to a prime one. */
  lemma SmallDivisor(n: nat, d: nat)
    requires 2 <= d < 23 && d < n && n % d == 0
    ensures Sieved(n)
  {
    hide Sieved;
    var p := PrimeFactor(d);
    DivisorOfDivisor(n, d, p);
    HasDivisor(n, p);
  }

  lemma PrimeFactor(d: nat) returns (p: nat)
    requires 2 <= d < 23
    ensures p in {2, 3, 5, 7, 11, 13, 17, 19} && p <= d && d % p == 0
  {
    p := if d % 2 == 0 then 2 else if d % 3 == 0 then 3 else d;
  }

  lemma DivisorOfDivisor(n: nat, d: nat, p: nat)
    requires d > 0 && p > 0 && n % d == 0 && d % p == 0
    ensures n % p == 0
  {
    var k, m := n / d, d / p;
    assert n == k * (m * p) == (k * m) * p;
    MultipleOf(k * m, p);
  }

  lemma MultipleOf(k: nat, p: nat)
    requires p > 0
    ensures k * p % p == 0
  {
    var q, r := k * p / p, k * p % p;
    assert k * p == q * p + r;
    assert (k - q) * p == r;
    Times(k - q, p);
  }

  lemma Times(c: int, p: int)
    requires p > 0
    ensures (c >= 1 ==> c * p >= p) && (c <= -1 ==> c * p <= -p) && (c == 0 ==> c * p == 0)
  {
  }

  lemma SieveIsExact(n: nat)
    requires 2 <= n < 529
    ensures IsPrime(n) <==> !Sieved(n)
  {
    hide Sieved, Divisor;
    SievedDivides(n);
    if !IsPrime(n) {
      var d :| 2 <= d < n && n % d == 0;
      ProperDivisor(n, d);
    }
  }

  lemma SievedDivides(n: nat)
    requires n >= 2
    ensures Sieved(n) ==> 2 <= Divisor(n) < n && n % Divisor(n) == 0
  {
    DivisorDivides(n);
  }

  lemma ProperDivisor(n: nat, d: nat)
    requires 2 <= d < n < 529 && n % d == 0
    ensures Sieved(n)
  {
    hide Sieved;
    var e := n / d;
    assert n == e * d;
    if d < 23 {
      SmallDivisor(n, d);
    } else {
      assert e < 23;
      MultipleOf(d, e);
      assert d * e == n;
      SmallDivisor(n, e);
    }
  }

  lemma Composites0()
    ensures Sieved(4) && Sieved(6) && Sieved(8) && Sieved(9) && Sieved(10) && Sieved(12) && Sieved(14)
    ensures Sieved(15) && Sieved(16) && Sieved(18) && Sieved(20) && Sieved(21) && Sieved(22) && Sieved(24)
    ensures Sieved(25) && Sieved(26) && Sieved(27) && Sieved(28) && Sieved(30) && Sieved(32) && Sieved(33)
    ensures Sieved(34) && Sieved(35) && Sieved(36) && Sieved(38) && Sieved(39) && Sieved(40) && Sieved(42)
    ensures Sieved(44) && Sieved(45) && Sieved(46) && Sieved(48) && Sieved(49) && Sieved(50) && Sieved(51)
    ensures Sieved(52) && Sieved(54) && Sieved(55) && Sieved(56) && Sieved(57) && Sieved(58) && Sieved(60)
    ensures Sieved(62) && Sieved(63) && Sieved(64) && Sieved(65) && Sieved(66) && Sieved(68) && Sieved(69)
    ensures Sieved(70) && Sieved(72) && Sieved(74) && Sieved(75) && Sieved(76) && Sieved(77)
  {
  }

  lemma Composites1()
    ensures Sieved(78) && Sieved(80) && Sieved(81) && Sieved(82) && Sieved(84) && Sieved(85) && Sieved(86)
    ensures Sieved(87) && Sieved(88) && Sieved(90) && Sieved(91) && Sieved(92) && Sieved(93) && Sieved(94)
    ensures Sieved(95) && Sieved(96) && Sieved(98) && Sieved(99) && Sieved(100) && Sieved(102) && Sieved(104)
    ensures Sieved(105) && Sieved(106) && Sieved(108) && Sieved(110) && Sieved(111) && Sieved(112) && Sieved(114)
    ensures Sieved(115) && Sieved(116) && Sieved(117) && Sieved(118) && Sieved(119) && Sieved(120) && Sieved(121)
    ensures Sieved(122) && Sieved(123) && Sieved(124) && Sieved(125) && Sieved(126) && Sieved(128) && Sieved(129)
    ensures Sieved(130) && Sieved(132) && Sieved(133) && Sieved(134) && Sieved(135) && Sieved(136) && Sieved(138)
    ensures Sieved(140) && Sieved(141) && Sieved(142) && Sieved(143) && Sieved(144) && Sieved(145)
  {
  }

  lemma Composites2()
    ensures Sieved(146) && Sieved(147) && Sieved(148) && Sieved(150) && Sieved(152) && Sieved(153) && Sieved(154)
    ensures Sieved(155) && Sieved(156) && Sieved(158) && Sieved(159) && Sieved(160) && Sieved(161) && Sieved(162)
    ensures Sieved(164) && Sieved(165) && Sieved(166) && Sieved(168) && Sieved(169) && Sieved(170) && Sieved(171)
    ensures Sieved(172) && Sieved(174) && Sieved(175) && Sieved(176) && Sieved(177) && Sieved(178) && Sieved(180)
    ensures Sieved(182) && Sieved(183) && Sieved(184) && Sieved(185) && Sieved(186) && Sieved(187) && Sieved(188)
    ensures Sieved(189) && Sieved(190) && Sieved(192) && Sieved(194) && Sieved(195) && Sieved(196) && Sieved(198)
    ensures Sieved(200) && Sieved(201) && Sieved(202) && Sieved(203) && Sieved(204) && Sieved(205) && Sieved(206)
    ensures Sieved(207) && Sieved(208) && Sieved(209) && Sieved(210) && Sieved(212) && Sieved(213)
  {
  }

  lemma Composites3()
    ensures Sieved(214) && Sieved(215) && Sieved(216) && Sieved(217) && Sieved(218) && Sieved(219) && Sieved(220)
    ensures Sieved(221) && Sieved(222) && Sieved(224) && Sieved(225) && Sieved(226) && Sieved(228) && Sieved(230)
    ensures Sieved(231) && Sieved(232) && Sieved(234) && Sieved(235) && Sieved(236) && Sieved(237) && Sieved(238)
    ensures Sieved(240) && Sieved(242) && Sieved(243) && Sieved(244) && Sieved(245) && Sieved(246) && Sieved(247)
    ensures Sieved(248) && Sieved(249) && Sieved(250) && Sieved(252) && Sieved(253) && Sieved(254) && Sieved(255)
    ensures Sieved(256) && Sieved(258) && Sieved(259) && Sieved(260) && Sieved(261) && Sieved(262) && Sieved(264)
    ensures Sieved(265) && Sieved(266) && Sieved(267) && Sieved(268) && Sieved(270) && Sieved(272) && Sieved(273)
    ensures Sieved(274) && Sieved(275) && Sieved(276) && Sieved(278) && Sieved(279) && Sieved(280)
  {
  }

  lemma Composites4()
    ensures Sieved(282) && Sieved(284) && Sieved(285) && Sieved(286) && Sieved(287) && Sieved(288) && Sieved(289)
    ensures Sieved(290) && Sieved(291) && Sieved(292) && Sieved(294) && Sieved(295) && Sieved(296) && Sieved(297)
    ensures Sieved(298) && Sieved(299) && Sieved(300) && Sieved(301) && Sieved(302) && Sieved(303) && Sieved(304)
    ensures Sieved(305) && Sieved(306) && Sieved(308) && Sieved(309) && Sieved(310) && Sieved(312) && Sieved(314)
    ensures Sieved(315) && Sieved(316) && Sieved(318) && Sieved(319) && Sieved(320) && Sieved(321) && Sieved(322)
    ensures Sieved(323) && Sieved(324) && Sieved(325) && Sieved(326) && Sieved(327) && Sieved(328) && Sieved(329)
    ensures Sieved(330) && Sieved(332) && Sieved(333) && Sieved(334) && Sieved(335) && Sieved(336) && Sieved(338)
    ensures Sieved(339) && Sieved(340) && Sieved(341) && Sieved(342) && Sieved(343) && Sieved(344)
  {
  }

  lemma Composites5()
    ensures Sieved(345) && Sieved(346) && Sieved(348) && Sieved(350) && Sieved(351) && Sieved(352) && Sieved(354)
    ensures Sieved(355) && Sieved(356) && Sieved(357) && Sieved(358) && Sieved(360) && Sieved(361) && Sieved(362)
    ensures Sieved(363) && Sieved(364) && Sieved(365) && Sieved(366) && Sieved(368) && Sieved(369) && Sieved(370)
    ensures Sieved(371) && Sieved(372) && Sieved(374) && Sieved(375) && Sieved(376) && Sieved(377) && Sieved(378)
    ensures Sieved(380) && Sieved(381) && Sieved(382) && Sieved(384) && Sieved(385) && Sieved(386) && Sieved(387)
    ensures Sieved(388) && Sieved(390) && Sieved(391) && Sieved(392) && Sieved(393) && Sieved(394) && Sieved(395)
    ensures Sieved(396) && Sieved(398) && Sieved(399) && Sieved(400) && Sieved(402) && Sieved(403) && Sieved(404)
    ensures Sieved(405) && Sieved(406) && Sieved(407) && Sieved(408)
  {
  }

  /** Between two primes of the table, every number is sieved out. */
  lemma Gap(i: nat, n: nat)
    requires i < 79 && Prime(i) < n < Prime(i + 1)
    ensures Sieved(n)
  {
    hide Sieved, Prime;
    match i / 20
    case 0 => Gap0(i, n);
    case 1 => Gap20(i, n);
    case 2 => Gap40(i, n);
    case _ => Gap60(i, n);
  }

  lemma Gap0(i: nat, n: nat)
    requires 0 <= i < 20 && Prime(i) < n < Prime(i + 1)
    ensures Sieved(n)
  {
    hide Sieved;
    Composites0();
  }

  lemma Gap20(i: nat, n: nat)
    requires 20 <= i < 40 && Prime(i) < n < Prime(i + 1)
    ensures Sieved(n)
  {
    hide Sieved;
    Composites0();
    Composites1();
    Composites2();
  }

  lemma Gap40(i: nat, n: nat)
    requires 40 <= i < 60 && Prime(i) < n < Prime(i + 1)
    ensures Sieved(n)
  {
    hide Sieved;
    Composites2();
    Composites3();
    Composites4();
  }

  lemma Gap60(i: nat, n: nat)
    requires 60 <= i < 79 && Prime(i) < n < Prime(i + 1)
    ensures Sieved(n)
  {
    hide Sieved;
    Composites4();
    Composites5();
  }

  lemma Increasing(i: nat)
    requires i < 79
    ensures Prime(i) < Prime(i + 1)
  {
  }

  /** The table is the list of the primes, in order: each number is prime, and none between it and the next is. */
  lemma NextPrime(i: nat)
    requires i < 79
    ensures Prime(0) == 2 && IsPrime(Prime(i)) && IsPrime(Prime(i + 1)) && Prime(i) < Prime(i + 1)
    ensures forall n :: Prime(i) < n < Prime(i + 1) ==> !IsPrime(n)
  {
    hide IsPrime, Sieved, Divisor;
    Increasing(i);
    InTable(i);
    InTable(i + 1);
    SieveIsExact(Prime(i));
    SieveIsExact(Prime(i + 1));
    forall n | Prime(i) < n < Prime(i + 1)
      ensures !IsPrime(n)
    {
      Gap(i, n);
      SieveIsExact(n);
    }
  }

  lemma InTable(i: nat)
    requires i < 80
    ensures 2 <= Prime(i) < 529 && !Sieved(Prime(i))
  {
    if i < 40 {
      InTable0(i);
    } else {
      InTable40(i);
    }
  }

  lemma InTable0(i: nat)
    requires i < 40
    ensures 2 <= Prime(i) < 529 && !Sieved(Prime(i))
  {
  }

  lemma InTable40(i: nat)
    requires 40 <= i < 80
    ensures 2 <= Prime(i) < 529 && !Sieved(Prime(i))
  {
  }
}
