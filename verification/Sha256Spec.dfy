/** SHA-256 as FIPS 180-4 defines it: functions of section 4.1.2, padding 5.1.1, parsing 5.2.1, hashing 6.2.2. */
module Sha256Spec {

  function Ch(x: bv32, y: bv32, z: bv32): bv32 { (x & y) ^ (!x & z) }

  function Maj(x: bv32, y: bv32, z: bv32): bv32 { (x & y) ^ (x & z) ^ (y & z) }

  function Xor3(x: bv32, y: bv32, z: bv32): bv32 { x ^ y ^ z }

  /** SHR of section 3.2. */
  function Shr(x: bv32, n: nat): bv32
    requires n <= 32
  {
    x >> n
  }

  function BigSigma0(x: bv32): bv32 { Xor3(x.RotateRight(2), x.RotateRight(13), x.RotateRight(22)) }

  function BigSigma1(x: bv32): bv32 { Xor3(x.RotateRight(6), x.RotateRight(11), x.RotateRight(25)) }

  function SmallSigma0(x: bv32): bv32 { Xor3(x.RotateRight(7), x.RotateRight(18), Shr(x, 3)) }

  function SmallSigma1(x: bv32): bv32 { Xor3(x.RotateRight(17), x.RotateRight(19), Shr(x, 10)) }

  /** Addition modulo 2^32. */
  function Add(x: bv32, y: bv32): bv32 { x + y }

  /** The constants of section 4.2.2, eight to a row. */
  function KRow(r: nat): (k: seq<bv32>)
    requires r < 8
    ensures |k| == 8
  {
    match r
    case 0 => [0x428a2f98, 0x71374491, 0xb5c0fbcf, 0xe9b5dba5, 0x3956c25b, 0x59f111f1, 0x923f82a4, 0xab1c5ed5]
    case 1 => [0xd807aa98, 0x12835b01, 0x243185be, 0x550c7dc3, 0x72be5d74, 0x80deb1fe, 0x9bdc06a7, 0xc19bf174]
    case 2 => [0xe49b69c1, 0xefbe4786, 0x0fc19dc6, 0x240ca1cc, 0x2de92c6f, 0x4a7484aa, 0x5cb0a9dc, 0x76f988da]
    case 3 => [0x983e5152, 0xa831c66d, 0xb00327c8, 0xbf597fc7, 0xc6e00bf3, 0xd5a79147, 0x06ca6351, 0x14292967]
    case 4 => [0x27b70a85, 0x2e1b2138, 0x4d2c6dfc, 0x53380d13, 0x650a7354, 0x766a0abb, 0x81c2c92e, 0x92722c85]
    case 5 => [0xa2bfe8a1, 0xa81a664b, 0xc24b8b70, 0xc76c51a3, 0xd192e819, 0xd6990624, 0xf40e3585, 0x106aa070]
    case 6 => [0x19a4c116, 0x1e376c08, 0x2748774c, 0x34b0bcb5, 0x391c0cb3, 0x4ed8aa4a, 0x5b9cca4f, 0x682e6ff3]
    case _ => [0x748f82ee, 0x78a5636f, 0x84c87814, 0x8cc70208, 0x90befffa, 0xa4506ceb, 0xbef9a3f7, 0xc67178f2]
  }

  function K(t: nat): bv32
    requires t < 64
  {
    KRow(t / 8)[t % 8]
  }

  /** The working variables a to h, and equally the hash value H0 to H7. */
  datatype Vars = Vars(a: bv32, b: bv32, c: bv32, d: bv32, e: bv32, f: bv32, g: bv32, h: bv32)

  /** The initial hash value of section 5.3.3. */
  const INITIAL := Vars(0x6a09e667, 0xbb67ae85, 0x3c6ef372, 0xa54ff53a, 0x510e527f, 0x9b05688c, 0x1f83d9ab, 0x5be0cd19)

  /** Four bytes as one big-endian word. */
  function Word(b0: bv8, b1: bv8, b2: bv8, b3: bv8): bv32 {
    ((b0 as bv32) << 24) | ((b1 as bv32) << 16) | ((b2 as bv32) << 8) | (b3 as bv32)
  }

  /** W_t of the message schedule. */
  function Schedule(block: seq<bv8>, t: nat): bv32
    requires |block| == 64
  {
    if t < 16 then Word(block[4 * t], block[4 * t + 1], block[4 * t + 2], block[4 * t + 3])
    else
      Add(Add(Add(Schedule(block, t - 16), SmallSigma0(Schedule(block, t - 15))), Schedule(block, t - 7)),
          SmallSigma1(Schedule(block, t - 2)))
  }

  function Round(v: Vars, k: bv32, w: bv32): Vars {
    var t1 := Add(Add(Add(Add(v.h, BigSigma1(v.e)), Ch(v.e, v.f, v.g)), k), w);
    var t2 := Add(BigSigma0(v.a), Maj(v.a, v.b, v.c));
    Vars(Add(t1, t2), v.a, v.b, v.c, Add(v.d, t1), v.e, v.f, v.g)
  }

  function Rounds(v: Vars, block: seq<bv8>, n: nat): Vars
    requires |block| == 64 && n <= 64
  {
    if n == 0 then v else Round(Rounds(v, block, n - 1), K(n - 1), Schedule(block, n - 1))
  }

  function Compress(v: Vars, block: seq<bv8>): Vars
    requires |block| == 64
  {
    var r := Rounds(v, block, 64);
    Vars(Add(v.a, r.a), Add(v.b, r.b), Add(v.c, r.c), Add(v.d, r.d), Add(v.e, r.e), Add(v.f, r.f), Add(v.g, r.g),
         Add(v.h, r.h))
  }

  /** The hash value after the blocks of m. */
  function Hash(m: seq<bv8>): Vars
    requires |m| % 64 == 0
    decreases |m|
  {
    if m == [] then INITIAL else Compress(Hash(m[..|m| - 64]), m[|m| - 64..])
  }

  // ----- padding -----

  /** After n message bytes, 0x80 and k zero bytes, eight bytes complete a block. */
  predicate Leaves(n: nat, k: nat) {
    (n + 1 + k) % 64 == 56
  }

  /** The least number of zero bytes that does so. */
  function ZeroBytes(n: nat): (k: nat)
    ensures Leaves(n, k) && forall j: nat :: j < k ==> !Leaves(n, j)
  {
    (55 - n) % 64
  }

  function Zeros(k: nat): (z: seq<bv8>)
    ensures |z| == k
  {
    seq(k, _ => 0)
  }

  /** n as `width` bytes, most significant first. */
  function BigEndian(n: nat, width: nat): (r: seq<bv8>)
    ensures |r| == width
  {
    if width == 0 then [] else BigEndian(n / 256, width - 1) + [(n % 256) as bv8]
  }

  /** The message, 0x80, zeros, and `bits` in 64 bits. */
  function Padded(m: seq<bv8>, bits: nat): (r: seq<bv8>)
    ensures |r| % 64 == 0
  {
    m + [0x80] + Zeros(ZeroBytes(|m|)) + BigEndian(bits, 8)
  }

  // ----- the digest -----

  function Bytes(w: bv32): (r: seq<bv8>)
    ensures |r| == 4
  {
    [((w >> 24) & 0xff) as bv8, ((w >> 16) & 0xff) as bv8, ((w >> 8) & 0xff) as bv8, (w & 0xff) as bv8]
  }

  /** Writing a word out and reading it back is the identity, so the digest determines the hash value. */
  lemma WordOfBytes(w: bv32)
    ensures var b := Bytes(w); Word(b[0], b[1], b[2], b[3]) == w
  {
  }

  function Words(v: Vars): (r: seq<bv32>)
    ensures |r| == 8
  {
    [v.a, v.b, v.c, v.d, v.e, v.f, v.g, v.h]
  }

  function Concat(ws: seq<bv32>): (r: seq<bv8>)
    ensures |r| == 4 * |ws|
  {
    if ws == [] then [] else Concat(ws[..|ws| - 1]) + Bytes(ws[|ws| - 1])
  }

  function DigestBytes(v: Vars): (r: seq<bv8>)
    ensures |r| == 32
  {
    Concat(Words(v))
  }

  /** The digest of a message shorter than 2^64 bits. */
  function Digest(m: seq<bv8>): seq<bv8>
    requires 8 * |m| < 0x1_0000_0000_0000_0000
  {
    DigestBytes(Hash(Padded(m, 8 * |m|)))
  }

  function HexDigit(n: nat): char
    requires n < 16
  {
    "0123456789abcdef"[n]
  }

  /** Lowercase hexadecimal, two digits a byte. */
  function Hex(b: seq<bv8>): (s: string)
    ensures |s| == 2 * |b|
  {
    if b == [] then "" else Hex(b[..|b| - 1]) + [HexDigit(b[|b| - 1] as nat / 16), HexDigit(b[|b| - 1] as nat % 16)]
  }
}
