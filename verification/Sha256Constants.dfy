/**
 What sections 4.2.2 and 5.3.3 of FIPS 180-4 say the constants of SHA-256 are: the first 32 bits of the
 fractional parts of the cube roots of the first 64 primes, and of the square roots of the first eight.
 */
module Sha256Constants {
  import opened Sha256Spec

  // ----- the first 64 primes -----

  ghost predicate IsPrime(p: nat) {
    p >= 2 && forall d :: 2 <= d < p ==> p % d != 0
  }

  function PrimeRow(r: nat): (s: seq<nat>)
    requires r < 8
    ensures |s| == 8
  {
    match r
    case 0 => [2, 3, 5, 7, 11, 13, 17, 19]
    case 1 => [23, 29, 31, 37, 41, 43, 47, 53]
    case 2 => [59, 61, 67, 71, 73, 79, 83, 89]
    case 3 => [97, 101, 103, 107, 109, 113, 127, 131]
    case 4 => [137, 139, 149, 151, 157, 163, 167, 173]
    case 5 => [179, 181, 191, 193, 197, 199, 211, 223]
    case 6 => [227, 229, 233, 239, 241, 251, 257, 263]
    case _ => [269, 271, 277, 281, 283, 293, 307, 311]
  }

  /** The primes in order, counted from 0. */
  function Prime(i: nat): nat
    requires i < 64
  {
    PrimeRow(i / 8)[i % 8]
  }

  /** No prime up to 17 divides n, unless it is n. */
  predicate Sieved(n: nat) {
    n in {2, 3, 5, 7, 11, 13, 17} ||
    (n >= 2 && n % 2 != 0 && n % 3 != 0 && n % 5 != 0 && n % 7 != 0 && n % 11 != 0 && n % 13 != 0 && n % 17 != 0)
  }

  predicate HasSmallFactor(n: nat) {
    n % 2 == 0 || n % 3 == 0 || n % 5 == 0 || n % 7 == 0 || n % 11 == 0 || n % 13 == 0 || n % 17 == 0
  }

  lemma FactorOf(d: nat) returns (k: nat)
    requires 2 <= d <= 18
    ensures k in {2, 3, 5, 7, 11, 13, 17} && d % k == 0
  {
    k := if d % 2 == 0 then 2 else if d % 3 == 0 then 3 else if d % 5 == 0 then 5 else if d % 7 == 0 then 7 else d;
  }

  lemma Multiples(x: nat)
    ensures (2 * x) % 2 == 0 && (3 * x) % 3 == 0 && (5 * x) % 5 == 0 && (7 * x) % 7 == 0
    ensures (11 * x) % 11 == 0 && (13 * x) % 13 == 0 && (17 * x) % 17 == 0
  {
  }

  /** A number with a divisor from 2 to 18 has a prime factor up to 17. */
  lemma SmallFactor(d: nat, e: nat)
    requires 2 <= d <= 18
    ensures HasSmallFactor(d * e)
  {
    var k := FactorOf(d);
    var a := d / k;
    assert d == k * a;
    Reassociate(k, a, e);
    OfPrime(k, a * e);
    hide HasSmallFactor;
  }

  lemma OfPrime(k: nat, x: nat)
    requires k in {2, 3, 5, 7, 11, 13, 17}
    ensures HasSmallFactor(k * x)
  {
    Multiples(x);
    if k == 2 { assert (k * x) % 2 == 0; }
    else if k == 3 { assert (k * x) % 3 == 0; }
    else if k == 5 { assert (k * x) % 5 == 0; }
    else if k == 7 { assert (k * x) % 7 == 0; }
    else if k == 11 { assert (k * x) % 11 == 0; }
    else if k == 13 { assert (k * x) % 13 == 0; }
    else { assert (k * x) % 17 == 0; }
  }

  lemma Reassociate(k: nat, a: nat, e: nat)
    ensures (k * a) * e == k * (a * e)
  {
  }

  lemma NoCofactor(n: nat, d: nat, e: nat)
    requires n < 361 && d >= 2 && e >= 2 && Sieved(n) && n !in {2, 3, 5, 7, 11, 13, 17}
    ensures n != d * e
  {
    if d <= 18 { SmallFactor(d, e); } else if e <= 18 { SmallFactor(e, d); } else { TooLarge(d, e); }
  }

  lemma TooLarge(d: nat, e: nat)
    requires d >= 19 && e >= 19
    ensures d * e >= 361
  {
    assert d * e >= 19 * e;
  }

  lemma SmallPrime(n: nat, d: nat)
    requires n in {2, 3, 5, 7, 11, 13, 17} && 2 <= d < n
    ensures n % d != 0
  {
    match d
    case 2 => case 3 => case 4 => case 5 => case 6 => case 7 => case 8 => case 9 =>
    case 10 => case 11 => case 12 => case 13 => case 14 => case 15 => case 16 =>
  }

  /** Below 19 * 19 the sieve finds exactly the primes. */
  lemma SieveIsPrime(n: nat)
    requires n < 361
    ensures Sieved(n) <==> IsPrime(n)
  {
    if Sieved(n) {
      forall d | 2 <= d < n ensures n % d != 0 {
        if n in {2, 3, 5, 7, 11, 13, 17} { SmallPrime(n, d); } else { NotDivided(n, d); }
      }
    }
  }

  lemma NotDivided(n: nat, d: nat)
    requires n < 361 && 2 <= d < n && Sieved(n) && n !in {2, 3, 5, 7, 11, 13, 17}
    ensures n % d != 0
  {
    var e := n / d;
    assert n == d * e + n % d;
    if n % d == 0 {
      AtLeastTwo(d, e);
      NoCofactor(n, d, e);
    }
  }

  lemma AtLeastTwo(d: nat, e: nat)
    requires d * e > d
    ensures e >= 2
  {
  }

  // ----- one prime after the other -----

  predicate ClearBetween(p: nat, q: nat)
    decreases q - p
  {
    p + 1 >= q || (!Sieved(p + 1) && ClearBetween(p + 1, q))
  }

  lemma {:induction false} NoneBetween(p: nat, q: nat, n: nat)
    requires ClearBetween(p, q) && p < n < q
    ensures !Sieved(n)
    decreases q - p
  {
    if p + 1 < n { NoneBetween(p + 1, q, n); }
  }

  /** q is the next number after p that passes the sieve. */
  predicate Link(p: nat, q: nat) {
    p < q && Sieved(q) && ClearBetween(p, q)
  }

  lemma Links0()
    ensures Link(2, 3) && Link(3, 5) && Link(5, 7) && Link(7, 11)
    ensures Link(11, 13) && Link(13, 17) && Link(17, 19) && Link(19, 23)
  {
  }

  lemma Links1()
    ensures Link(23, 29) && Link(29, 31) && Link(31, 37) && Link(37, 41)
    ensures Link(41, 43) && Link(43, 47) && Link(47, 53) && Link(53, 59)
  {
  }

  lemma Links2()
    ensures Link(59, 61) && Link(61, 67) && Link(67, 71) && Link(71, 73)
    ensures Link(73, 79) && Link(79, 83) && Link(83, 89) && Link(89, 97)
  {
  }

  lemma Links3()
    ensures Link(97, 101) && Link(101, 103) && Link(103, 107) && Link(107, 109)
    ensures Link(109, 113) && Link(113, 127) && Link(127, 131) && Link(131, 137)
  {
  }

  lemma Links4()
    ensures Link(137, 139) && Link(139, 149) && Link(149, 151) && Link(151, 157)
    ensures Link(157, 163) && Link(163, 167) && Link(167, 173) && Link(173, 179)
  {
  }

  lemma Links5()
    ensures Link(179, 181) && Link(181, 191) && Link(191, 193) && Link(193, 197)
    ensures Link(197, 199) && Link(199, 211) && Link(211, 223) && Link(223, 227)
  {
  }

  lemma Links6()
    ensures Link(227, 229) && Link(229, 233) && Link(233, 239) && Link(239, 241)
    ensures Link(241, 251) && Link(251, 257) && Link(257, 263) && Link(263, 269)
  {
  }

  lemma Links7()
    ensures Link(269, 271) && Link(271, 277) && Link(277, 281) && Link(281, 283)
    ensures Link(283, 293) && Link(293, 307) && Link(307, 311)
  {
  }

  lemma LinkLow(i: nat)
    requires i < 32
    ensures Link(Prime(i), Prime(i + 1)) && Prime(i + 1) <= 311
  {
    hide Link;
    Links0();
    Links1();
    Links2();
    Links3();
  }

  lemma LinkHigh(i: nat)
    requires 32 <= i < 63
    ensures Link(Prime(i), Prime(i + 1)) && Prime(i + 1) <= 311
  {
    hide Link;
    Links4();
    Links5();
    Links6();
    Links7();
  }

  lemma LinkAt(i: nat)
    requires i < 63
    ensures Link(Prime(i), Prime(i + 1)) && Prime(i + 1) <= 311
  {
    hide Link, Prime;
    if i < 32 { LinkLow(i); } else { LinkHigh(i); }
  }

  /** The list starts with 2, each number in it is the next prime after the one before: it is the first 64 primes. */
  lemma FirstPrimes(i: nat)
    requires i < 64
    ensures Prime(0) == 2 && IsPrime(Prime(i))
    ensures i < 63 ==> Prime(i) < Prime(i + 1) && forall n :: Prime(i) < n < Prime(i + 1) ==> !IsPrime(n)
  {
    hide Sieved, IsPrime, ClearBetween;
    if i == 0 { SieveIsPrime(2); assert Sieved(2) by { TwoPasses(); } } else { LinkAt(i - 1); SieveIsPrime(Prime(i)); }
    if i < 63 {
      LinkAt(i);
      forall n | Prime(i) < n < Prime(i + 1) ensures !IsPrime(n) {
        NoneBetween(Prime(i), Prime(i + 1), n);
        SieveIsPrime(n);
      }
    }
  }

  lemma TwoPasses()
    ensures Sieved(2)
  {
  }

  // ----- fractional parts of roots -----

  function Square(x: int): int { x * x }

  function Cube(x: int): int { x * x * x }

  /** n + w / 2^32 is the cube root of p cut off after 32 bits of its fraction. */
  predicate CubeRootAt(p: nat, n: nat, w: bv32) {
    var x := n * 0x1_0000_0000 + w as int;
    Cube(x) <= p * 0x1_0000_0000_0000_0000_0000_0000 < Cube(x + 1)
  }

  predicate SquareRootAt(p: nat, n: nat, w: bv32) {
    var x := n * 0x1_0000_0000 + w as int;
    Square(x) <= p * 0x1_0000_0000_0000_0000 < Square(x + 1)
  }

  ghost predicate CubeRootBits(p: nat, w: bv32) {
    exists n: nat :: CubeRootAt(p, n, w)
  }

  ghost predicate SquareRootBits(p: nat, w: bv32) {
    exists n: nat :: SquareRootAt(p, n, w)
  }

  lemma Cubes0()
    ensures CubeRootAt(2, 1, 0x428a2f98) && CubeRootAt(3, 1, 0x71374491)
    ensures CubeRootAt(5, 1, 0xb5c0fbcf) && CubeRootAt(7, 1, 0xe9b5dba5)
    ensures CubeRootAt(11, 2, 0x3956c25b) && CubeRootAt(13, 2, 0x59f111f1)
    ensures CubeRootAt(17, 2, 0x923f82a4) && CubeRootAt(19, 2, 0xab1c5ed5)
  {
  }

  lemma Cubes1()
    ensures CubeRootAt(23, 2, 0xd807aa98) && CubeRootAt(29, 3, 0x12835b01)
    ensures CubeRootAt(31, 3, 0x243185be) && CubeRootAt(37, 3, 0x550c7dc3)
    ensures CubeRootAt(41, 3, 0x72be5d74) && CubeRootAt(43, 3, 0x80deb1fe)
    ensures CubeRootAt(47, 3, 0x9bdc06a7) && CubeRootAt(53, 3, 0xc19bf174)
  {
  }

  lemma Cubes2()
    ensures CubeRootAt(59, 3, 0xe49b69c1) && CubeRootAt(61, 3, 0xefbe4786)
    ensures CubeRootAt(67, 4, 0x0fc19dc6) && CubeRootAt(71, 4, 0x240ca1cc)
    ensures CubeRootAt(73, 4, 0x2de92c6f) && CubeRootAt(79, 4, 0x4a7484aa)
    ensures CubeRootAt(83, 4, 0x5cb0a9dc) && CubeRootAt(89, 4, 0x76f988da)
  {
  }

  lemma Cubes3()
    ensures CubeRootAt(97, 4, 0x983e5152) && CubeRootAt(101, 4, 0xa831c66d)
    ensures CubeRootAt(103, 4, 0xb00327c8) && CubeRootAt(107, 4, 0xbf597fc7)
    ensures CubeRootAt(109, 4, 0xc6e00bf3) && CubeRootAt(113, 4, 0xd5a79147)
    ensures CubeRootAt(127, 5, 0x06ca6351) && CubeRootAt(131, 5, 0x14292967)
  {
  }

  lemma Cubes4()
    ensures CubeRootAt(137, 5, 0x27b70a85) && CubeRootAt(139, 5, 0x2e1b2138)
    ensures CubeRootAt(149, 5, 0x4d2c6dfc) && CubeRootAt(151, 5, 0x53380d13)
    ensures CubeRootAt(157, 5, 0x650a7354) && CubeRootAt(163, 5, 0x766a0abb)
    ensures CubeRootAt(167, 5, 0x81c2c92e) && CubeRootAt(173, 5, 0x92722c85)
  {
  }

  lemma Cubes5()
    ensures CubeRootAt(179, 5, 0xa2bfe8a1) && CubeRootAt(181, 5, 0xa81a664b)
    ensures CubeRootAt(191, 5, 0xc24b8b70) && CubeRootAt(193, 5, 0xc76c51a3)
    ensures CubeRootAt(197, 5, 0xd192e819) && CubeRootAt(199, 5, 0xd6990624)
    ensures CubeRootAt(211, 5, 0xf40e3585) && CubeRootAt(223, 6, 0x106aa070)
  {
  }

  lemma Cubes6()
    ensures CubeRootAt(227, 6, 0x19a4c116) && CubeRootAt(229, 6, 0x1e376c08)
    ensures CubeRootAt(233, 6, 0x2748774c) && CubeRootAt(239, 6, 0x34b0bcb5)
    ensures CubeRootAt(241, 6, 0x391c0cb3) && CubeRootAt(251, 6, 0x4ed8aa4a)
    ensures CubeRootAt(257, 6, 0x5b9cca4f) && CubeRootAt(263, 6, 0x682e6ff3)
  {
  }

  lemma Cubes7()
    ensures CubeRootAt(269, 6, 0x748f82ee) && CubeRootAt(271, 6, 0x78a5636f)
    ensures CubeRootAt(277, 6, 0x84c87814) && CubeRootAt(281, 6, 0x8cc70208)
    ensures CubeRootAt(283, 6, 0x90befffa) && CubeRootAt(293, 6, 0xa4506ceb)
    ensures CubeRootAt(307, 6, 0xbef9a3f7) && CubeRootAt(311, 6, 0xc67178f2)
  {
  }

  lemma Squares()
    ensures SquareRootAt(2, 1, 0x6a09e667)
    ensures SquareRootAt(3, 1, 0xbb67ae85)
    ensures SquareRootAt(5, 2, 0x3c6ef372)
    ensures SquareRootAt(7, 2, 0xa54ff53a)
    ensures SquareRootAt(11, 3, 0x510e527f)
    ensures SquareRootAt(13, 3, 0x9b05688c)
    ensures SquareRootAt(17, 4, 0x1f83d9ab)
    ensures SquareRootAt(19, 4, 0x5be0cd19)
  {
  }

  /** K_t belongs to prime t. */
  lemma RoundConstants(t: nat)
    requires t < 64
    ensures CubeRootBits(Prime(t), K(t))
  {
    hide CubeRootBits, Prime, K;
    if t < 16 { Constants0(t); } else if t < 32 { Constants1(t); }
    else if t < 48 { Constants2(t); } else { Constants3(t); }
  }

  lemma Constants0(t: nat)
    requires 0 <= t < 16
    ensures CubeRootBits(Prime(t), K(t))
  {
    hide CubeRootAt;
    Cubes0();
    Cubes1();
  }

  lemma Constants1(t: nat)
    requires 16 <= t < 32
    ensures CubeRootBits(Prime(t), K(t))
  {
    hide CubeRootAt;
    Cubes2();
    Cubes3();
  }

  lemma Constants2(t: nat)
    requires 32 <= t < 48
    ensures CubeRootBits(Prime(t), K(t))
  {
    hide CubeRootAt;
    Cubes4();
    Cubes5();
  }

  lemma Constants3(t: nat)
    requires 48 <= t < 64
    ensures CubeRootBits(Prime(t), K(t))
  {
    hide CubeRootAt;
    Cubes6();
    Cubes7();
  }

  /** Word i of the initial hash value belongs to prime i. */
  lemma InitialWords(i: nat)
    requires i < 8
    ensures SquareRootBits(Prime(i), Words(INITIAL)[i])
  {
    hide SquareRootAt;
    Squares();
  }

  // ----- the bitwise functions -----

  /** Where x has a bit Ch takes y's, elsewhere z's. */
  lemma ChChooses(x: bv32, y: bv32, z: bv32, bits: bv32)
    ensures x & bits == bits ==> Ch(x, y, z) & bits == y & bits
    ensures x & bits == 0 ==> Ch(x, y, z) & bits == z & bits
  {
  }

  /** Where two of the three agree Maj takes what they have. */
  lemma MajAgrees(x: bv32, y: bv32, z: bv32, bits: bv32)
    ensures x & bits == y & bits ==> Maj(x, y, z) & bits == x & bits
    ensures x & bits == z & bits ==> Maj(x, y, z) & bits == x & bits
    ensures y & bits == z & bits ==> Maj(x, y, z) & bits == y & bits
  {
    MajMasked(x, y, z, bits);
    MajSame(x & bits, y & bits, z & bits);
    hide Maj;
  }

  lemma MajMasked(x: bv32, y: bv32, z: bv32, bits: bv32)
    ensures Maj(x, y, z) & bits == Maj(x & bits, y & bits, z & bits)
  {
  }

  lemma MajSame(x: bv32, y: bv32, z: bv32)
    ensures (x == y ==> Maj(x, y, z) == x) && (x == z ==> Maj(x, y, z) == x) && (y == z ==> Maj(x, y, z) == y)
  {
  }

  // ----- the order of bytes -----

  /** The first byte of a word is its most significant one. */
  lemma WordOrder(b0: bv8, b1: bv8, b2: bv8, b3: bv8)
    ensures var w := Word(b0, b1, b2, b3);
      w >> 24 == b0 as bv32 && (w >> 16) & 0xff == b1 as bv32 && (w >> 8) & 0xff == b2 as bv32 && w & 0xff == b3 as bv32
  {
  }

  lemma BytesOrder(b0: bv8, b1: bv8, b2: bv8, b3: bv8)
    ensures Bytes(Word(b0, b1, b2, b3)) == [b0, b1, b2, b3]
  {
  }

  /** A digit stands for its value: 0 to 9, then a to f. */
  lemma HexDigits(n: nat)
    requires n < 16
    ensures HexDigit(n) as int == if n < 10 then '0' as int + n else 'a' as int + (n - 10)
  {
    assert "0123456789abcdef" == "01234567" + "89abcdef";
    if n < 8 { assert HexDigit(n) == "01234567"[n]; } else { assert HexDigit(n) == "89abcdef"[n - 8]; }
  }
}
