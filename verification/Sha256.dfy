/**
 examples/dump_container/sha256.h: the streaming hasher. However a message is cut into Update calls, the
 digest is the one FIPS 180-4 gives the whole message.
 */
module Sha256 {
  import opened Sha256Spec

  const WORD64 := 0x1_0000_0000_0000_0000

  function Rotr(x: bv32, n: nat): bv32
    requires n <= 32
  {
    (x >> n) | (x << (32 - n))
  }

  // The mixing expressions as the loops write them.

  function MixE(x: bv32): bv32 { Xor3(Rotr(x, 6), Rotr(x, 11), Rotr(x, 25)) }

  function MixA(x: bv32): bv32 { Xor3(Rotr(x, 2), Rotr(x, 13), Rotr(x, 22)) }

  function Mix15(x: bv32): bv32 { Xor3(Rotr(x, 7), Rotr(x, 18), Shr(x, 3)) }

  function Mix2(x: bv32): bv32 { Xor3(Rotr(x, 17), Rotr(x, 19), Shr(x, 10)) }

  /** The shift-and-or form is the circular right shift for every distance the algorithm uses. */
  lemma RotationsA(x: bv32)
    ensures Rotr(x, 2) == x.RotateRight(2) && Rotr(x, 13) == x.RotateRight(13) && Rotr(x, 22) == x.RotateRight(22)
  {
  }

  lemma RotationsE(x: bv32)
    ensures Rotr(x, 6) == x.RotateRight(6) && Rotr(x, 11) == x.RotateRight(11) && Rotr(x, 25) == x.RotateRight(25)
  {
  }

  lemma RotationsW(x: bv32)
    ensures Rotr(x, 7) == x.RotateRight(7) && Rotr(x, 18) == x.RotateRight(18)
    ensures Rotr(x, 17) == x.RotateRight(17) && Rotr(x, 19) == x.RotateRight(19)
  {
  }

  lemma MixesA(x: bv32)
    ensures MixA(x) == BigSigma0(x)
  {
    RotationsA(x);
    hide Rotr, Xor3, Shr;
  }

  lemma MixesE(x: bv32)
    ensures MixE(x) == BigSigma1(x)
  {
    RotationsE(x);
    hide Rotr, Xor3, Shr;
  }

  lemma MixesW(x: bv32)
    ensures Mix15(x) == SmallSigma0(x) && Mix2(x) == SmallSigma1(x)
  {
    RotationsW(x);
    hide Rotr, Xor3, Shr;
  }

  function VarsOf(s: seq<bv32>): Vars
    requires |s| == 8
  {
    Vars(s[0], s[1], s[2], s[3], s[4], s[5], s[6], s[7])
  }

  // ----- hashing what has been absorbed -----

  /** The whole blocks of a message. */
  function Whole(m: seq<bv8>): (r: seq<bv8>)
    ensures |r| % 64 == 0 && |m| - 64 < |r| <= |m|
  {
    m[..|m| - |m| % 64]
  }

  /** What is left after them. */
  function Tail(m: seq<bv8>): (r: seq<bv8>)
    ensures |r| < 64 && m == Whole(m) + r
  {
    m[|m| - |m| % 64..]
  }

  lemma HashSnoc(m: seq<bv8>, block: seq<bv8>)
    requires |m| % 64 == 0 && |block| == 64
    ensures Hash(m + block) == Sha256Spec.Compress(Hash(m), block)
  {
    hide Sha256Spec.Compress;
    assert (m + block)[..|m|] == m && (m + block)[|m|..] == block;
  }

  lemma HashEmpty()
    ensures Hash(Whole([])) == INITIAL && Tail([]) == []
  {
    assert Whole([]) == [];
  }

  /** Absorbing bytes that do not fill the buffer leaves the whole blocks as they were. */
  lemma WholeExtends(m: seq<bv8>, data: seq<bv8>)
    requires |Tail(m)| + |data| < 64
    ensures Whole(m + data) == Whole(m) && Tail(m + data) == Tail(m) + data
  {
    assert |m + data| % 64 == |m| % 64 + |data|;
  }

  /** Absorbing bytes that fill it adds one block. */
  lemma WholeFills(m: seq<bv8>, data: seq<bv8>)
    requires |Tail(m)| + |data| == 64
    ensures Whole(m + data) == Whole(m) + (Tail(m) + data) && Tail(m + data) == []
  {
    assert |m + data| == |m| - |m| % 64 + 64;
  }

  /** 64-bit unsigned addition. */
  function Add64(x: nat, y: nat): nat {
    (x + y) % WORD64
  }

  /** What a 64-bit counter holds after counting to n. */
  function Counted(n: nat): nat {
    n % WORD64
  }

  lemma CountedZero()
    ensures Counted(0) == 0
  {
  }

  lemma CountOn(a: nat, d: nat)
    ensures Add64(Counted(a), d) == Counted(a + d)
  {
    assert a == WORD64 * (a / WORD64) + a % WORD64;
    assert (a % WORD64 + d) % WORD64 == (a % WORD64 + d + WORD64 * (a / WORD64)) % WORD64;
  }

  lemma AdvanceBy(m: seq<bv8>, rest: seq<bv8>, take: nat)
    requires take <= |rest|
    ensures m + rest[..take] + rest[take..] == m + rest
  {
  }

  class Hasher {
    const state: array<bv32>
    const buf: array<bv8>
    var bufLen: nat
    var totalLen: nat
    ghost var absorbed: seq<bv8>  // everything since Reset

    /** Whole blocks are in the state, the rest in the buffer, and the length is counted modulo 2^64. */
    ghost predicate Valid()
      reads this, state, buf
    {
      Absorbing() && totalLen == Counted(|absorbed|)
    }

    /** Valid but for the length counter, which Update advances before it absorbs. */
    ghost predicate Absorbing()
      reads this`bufLen, this`absorbed, state, buf
    {
      && state.Length == 8 && buf.Length == 64
      && bufLen == |Tail(absorbed)| && buf[..bufLen] == Tail(absorbed)
      && VarsOf(state[..]) == Hash(Whole(absorbed))
    }

    constructor ()
      ensures Valid() && absorbed == [] && fresh(state) && fresh(buf)
    {
      state, buf := new bv32[8], new bv8[64];
      new;
      Reset();
    }

    method Reset()
      requires state.Length == 8 && buf.Length == 64
      modifies this, state
      ensures Valid() && absorbed == []
    {
      HashEmpty();
      CountedZero();
      hide Hash, Whole, Tail, Counted, INITIAL, VarsOf;
      Store(INITIAL);
      totalLen, bufLen, absorbed := 0, 0, [];
    }

    method Store(v: Vars)
      requires state.Length == 8
      modifies state
      ensures VarsOf(state[..]) == v
    {
      state[0], state[1], state[2], state[3] := v.a, v.b, v.c, v.d;
      state[4], state[5], state[6], state[7] := v.e, v.f, v.g, v.h;
    }

    /** One block: the message schedule, 64 rounds, and the sum with the old hash value. */
    method Compress()
      requires state.Length == 8 && buf.Length == 64
      modifies state
      ensures VarsOf(state[..]) == Sha256Spec.Compress(old(VarsOf(state[..])), buf[..])
    {
      hide Add, K, Round, Ch, Maj, MixE, MixA, Schedule;
      ghost var block, was := buf[..], VarsOf(state[..]);
      var w := MessageSchedule();
      var a, b, c, d := state[0], state[1], state[2], state[3];
      var e, f, g, h := state[4], state[5], state[6], state[7];
      for i := 0 to 64
        modifies {}
        invariant Vars(a, b, c, d, e, f, g, h) == Rounds(was, block, i)
      {
        NextRound(was, block, i, Vars(a, b, c, d, e, f, g, h), w[i]);
        var t1 := Add(Add(Add(Add(h, MixE(e)), Ch(e, f, g)), K(i)), w[i]);
        var t2 := Add(MixA(a), Maj(a, b, c));
        h := g;
        g := f;
        f := e;
        e := Add(d, t1);
        d := c;
        c := b;
        b := a;
        a := Add(t1, t2);
      }
      state[0], state[1], state[2], state[3] := Add(state[0], a), Add(state[1], b), Add(state[2], c), Add(state[3], d);
      state[4], state[5], state[6], state[7] := Add(state[4], e), Add(state[5], f), Add(state[6], g), Add(state[7], h);
    }

    /** Absorbs more bytes: full buffers are compressed, the rest waits. */
    method Update(data: seq<bv8>)
      requires Valid()
      modifies this`bufLen, this`totalLen, this`absorbed, state, buf
      ensures Valid() && absorbed == old(absorbed) + data
    {
      CountOn(|absorbed|, |data|);
      assert bufLen < 64;
      hide Absorbing, Counted, Add64, VarsOf, Hash, Whole, Tail;
      totalLen := Add64(totalLen, |data|);
      var rest := data;
      while |rest| > 0
        invariant Absorbing() && bufLen < 64 && absorbed + rest == old(absorbed) + data
        invariant totalLen == Counted(|old(absorbed)| + |data|)
      {
        var take := if 64 - bufLen > |rest| then |rest| else 64 - bufLen;
        AdvanceBy(absorbed, rest, take);
        Absorb(rest[..take]);
        rest := rest[take..];
      }
      assert absorbed + rest == absorbed;
    }

    /** At most a buffer's worth of bytes: copied in, and the buffer compressed when it is full. */
    method Absorb(chunk: seq<bv8>)
      requires Absorbing() && bufLen + |chunk| <= 64
      modifies this`bufLen, this`absorbed, state, buf
      ensures Absorbing() && bufLen < 64 && absorbed == old(absorbed) + chunk
    {
      hide Hash, Whole, Tail, VarsOf, Sha256Spec.Compress;
      ghost var m := absorbed;
      if bufLen + |chunk| < 64 { WholeExtends(m, chunk); } else { WholeFills(m, chunk); }
      CopyIn(chunk);
      absorbed := m + chunk;
      if bufLen == 64 {
        assert buf[..] == buf[..bufLen];
        HashSnoc(Whole(m), buf[..]);
        Compress();
        bufLen := 0;
      }
    }

    /** memcpy into the buffer, after what it holds. */
    method CopyIn(chunk: seq<bv8>)
      requires buf.Length == 64 && bufLen + |chunk| <= 64
      modifies this`bufLen, buf
      ensures bufLen == old(bufLen) + |chunk| && buf[..bufLen] == old(buf[..bufLen]) + chunk
    {
      forall i | 0 <= i < |chunk| {
        buf[bufLen + i] := chunk[i];
      }
      bufLen := bufLen + |chunk|;
    }

    method MessageSchedule() returns (w: array<bv32>)
      requires buf.Length == 64
      ensures fresh(w) && w.Length == 64 && forall t :: 0 <= t < 64 ==> w[t] == Schedule(buf[..], t)
    {
      hide Add, Word, Schedule, Mix15, Mix2;
      ghost var block := buf[..];
      w := new bv32[64];
      for i := 0 to 16
        modifies w
        invariant forall t :: 0 <= t < i ==> w[t] == Schedule(block, t)
      {
        FirstWords(block, i);
        w[i] := Word(buf[i * 4], buf[i * 4 + 1], buf[i * 4 + 2], buf[i * 4 + 3]);
      }
      for i := 16 to 64
        modifies w
        invariant forall t :: 0 <= t < i ==> w[t] == Schedule(block, t)
      {
        NextWord(block, i);
        w[i] := Add(Add(Add(w[i - 16], Mix15(w[i - 15])), w[i - 7]), Mix2(w[i - 2]));
      }
    }

    /** Pads, absorbs the length, and writes the digest out. The object must be Reset before it is used again. */
    method HexDigest() returns (out: string)
      requires Valid()
      modifies this`bufLen, this`totalLen, this`absorbed, state, buf
      ensures out == Hex(DigestBytes(Hash(Padded(old(absorbed), 8 * |old(absorbed)| % 0x1_0000_0000_0000_0000))))
      ensures 8 * |old(absorbed)| < 0x1_0000_0000_0000_0000 ==> out == Hex(Digest(old(absorbed)))
    {
      hide Hash, Hex, DigestBytes, BigEndian, Counted, ZeroBytes;
      ghost var m := absorbed;
      BitLength(|m|);
      var bits := TimesEight(totalLen);
      PadZeros();
      var lengthBytes := LengthBytes(bits);
      Update(lengthBytes);
      assert absorbed == Padded(m, bits);
      WholeOfBlocks(absorbed);
      out := Digits();
    }

    /** 0x80, then zeros while the buffer does not hold exactly 56 bytes. */
    method PadZeros()
      requires Valid()
      modifies this`bufLen, this`totalLen, this`absorbed, state, buf
      ensures Valid() && absorbed == old(absorbed) + [0x80] + Zeros(ZeroBytes(|old(absorbed)|))
    {
      hide Absorbing, Counted, Leaves, ZeroBytes, Zeros, Filled;
      ghost var m, k := absorbed, 0;
      Update([0x80]);
      assert m + [0x80] == m + [0x80] + Zeros(0);
      BufferRoom(m, k);
      while bufLen != 56
        invariant Valid() && absorbed == m + [0x80] + Zeros(k) && bufLen < 64
        invariant bufLen == 56 <==> Leaves(|m|, k)
        invariant forall j: nat :: j < k ==> !Leaves(|m|, j)
        decreases (56 - bufLen) % 64
      {
        ghost var was := bufLen;
        BufferRoom(m, k);
        NextZero(m + [0x80], k);
        Update([0]);
        k := k + 1;
        BufferRoom(m, k);
        Shrinks(was);
      }
      LeastRoom(|m|, k);
    }

    /** The buffer length after k zeros: the message length so far modulo 64. */
    lemma BufferRoom(m: seq<bv8>, k: nat)
      requires Valid() && absorbed == m + [0x80] + Zeros(k)
      ensures bufLen == Filled(|m| + 1 + k) < 64 && (bufLen == 56 <==> Leaves(|m|, k))
      ensures Filled(|m| + 1 + (k + 1)) == if bufLen == 63 then 0 else bufLen + 1
    {
    }

    /** The state as 64 hexadecimal digits. */
    method Digits() returns (out: string)
      requires state.Length == 8
      ensures out == Hex(DigestBytes(VarsOf(state[..])))
    {
      hide Bytes, Hex, HexDigit, DigestBytes, VarsOf;
      var s := new char[64](_ => '0');
      ghost var bytes := DigestBytes(VarsOf(state[..]));
      HexNone(bytes);
      for i := 0 to 8
        modifies s
        invariant s[..2 * (4 * i)] == Hex(bytes[..4 * i])
      {
        for b := 0 to 4
          modifies s
          invariant s[..2 * (4 * i + b)] == Hex(bytes[..4 * i + b])
        {
          PutByte(s, state[..], i, b, Bytes(state[i])[b]);
        }
      }
      assert s[..64] == s[..] && bytes[..32] == bytes;
      out := s[..];
    }
  }

  /** Two digits for byte b of word i. */
  method PutByte(s: array<char>, ghost words: seq<bv32>, i: nat, b: nat, byte: bv8)
    requires s.Length == 64 && |words| == 8 && i < 8 && b < 4 && byte == Bytes(words[i])[b]
    requires s[..2 * (4 * i + b)] == Hex(DigestBytes(VarsOf(words))[..4 * i + b])
    modifies s
    ensures s[..2 * (4 * i + b + 1)] == Hex(DigestBytes(VarsOf(words))[..4 * i + b + 1])
  {
    hide Bytes, Hex, HexDigit, DigestBytes, VarsOf;
    NextDigits(words, i, b);
    var at := 2 * (4 * i + b);
    s[at] := HexDigit((byte >> 4) as nat);
    s[at + 1] := HexDigit((byte & 0xf) as nat);
  }

  /** Byte b of state word i adds its two digits. */
  lemma NextDigits(s: seq<bv32>, i: nat, b: nat)
    requires |s| == 8 && i < 8 && b < 4
    ensures var bytes, byte := DigestBytes(VarsOf(s)), Bytes(s[i])[b];
            Hex(bytes[..4 * i + b + 1])
              == Hex(bytes[..4 * i + b]) + [HexDigit((byte >> 4) as nat), HexDigit((byte & 0xf) as nat)]
  {
    hide Bytes, Hex, HexDigit, DigestBytes, VarsOf;
    DigestByteAt(s, i, b);
    Nibbles(Bytes(s[i])[b]);
    HexNext(DigestBytes(VarsOf(s)), 4 * i + b);
  }

  lemma HexNone(bytes: seq<bv8>)
    ensures Hex(bytes[..0]) == []
  {
  }

  lemma DigestByteAt(s: seq<bv32>, i: nat, b: nat)
    requires |s| == 8 && i < 8 && b < 4
    ensures DigestBytes(VarsOf(s))[4 * i + b] == Bytes(s[i])[b]
  {
    hide Bytes;
    var ws := Words(VarsOf(s));
    assert ws[i] == s[i];
    ByteOfWords(ws, i, b);
  }

  lemma {:induction false} ByteOfWords(ws: seq<bv32>, i: nat, b: nat)
    requires i < |ws| && b < 4
    ensures Concat(ws)[4 * i + b] == Bytes(ws[i])[b]
  {
    hide Bytes;
    if i < |ws| - 1 { ByteOfWords(ws[..|ws| - 1], i, b); }
  }

  // ----- the length field and the digits -----

  function TimesEight(n: nat): nat {
    n * 8 % WORD64
  }

  /** The wrapped counter still gives the bit length modulo 2^64. */
  lemma BitLength(n: nat)
    ensures TimesEight(Counted(n)) == 8 * n % WORD64
  {
    var q := n / WORD64;
    assert 8 * n == Counted(n) * 8 + WORD64 * (8 * q);
    assert (Counted(n) * 8 + WORD64 * (8 * q)) % WORD64 == Counted(n) * 8 % WORD64;
  }

  function Pow256(j: nat): (r: nat)
    ensures r > 0
  {
    if j == 0 then 1 else 256 * Pow256(j - 1)
  }

  lemma DivDiv(n: nat, a: nat, b: nat)
    requires a > 0 && b > 0
    ensures n / a / b == n / (a * b)
  {
    Requotient(n, a, b, n / a, n % a, n / a / b, n / a % b);
  }

  lemma Requotient(n: nat, a: nat, b: nat, m: nat, s: nat, q: nat, r: nat)
    requires a > 0 && b > 0 && n == a * m + s && s < a && m == b * q + r && r < b
    ensures n / (a * b) == q
  {
    Nested(a, b, q, r, s);
    Quotient(n, a * b, q, a * r + s);
  }

  lemma Nested(a: nat, b: nat, q: nat, r: nat, s: nat)
    requires s < a && r < b
    ensures a * (b * q + r) + s == (a * b) * q + (a * r + s) && 0 <= a * r + s < a * b
  {
    assert a * (b * q) == (a * b) * q;
    assert a * (r + 1) <= a * b;
  }

  lemma MulSign(d: int, x: int)
    requires d >= 0
    ensures (x >= 1 ==> d * x >= d) && (x <= -1 ==> d * x <= -d)
  {
  }

  lemma Quotient(n: nat, d: nat, q: nat, r: nat)
    requires d > 0 && n == d * q + r && r < d
    ensures n / d == q
  {
    var x := q - n / d;
    assert d * x == n % d - r;
    MulSign(d, x);
  }

  /** Byte i of the big-endian form is the value shifted right and truncated. */
  lemma {:induction false} BigEndianAt(n: nat, width: nat, i: nat)
    requires i < width
    ensures BigEndian(n, width)[i] == (n / Pow256(width - 1 - i) % 256) as bv8
  {
    if i < width - 1 {
      BigEndianAt(n / 256, width - 1, i);
      DivDiv(n, 256, Pow256(width - 2 - i));
    }
  }

  /** The eight length bytes: bits >> (56 - 8 * i), truncated. */
  method LengthBytes(bits: nat) returns (r: seq<bv8>)
    ensures r == BigEndian(bits, 8)
  {
    r := [];
    for i := 0 to 8
      invariant r == BigEndian(bits, 8)[..i]
    {
      BigEndianAt(bits, 8, i);
      r := r + [(bits / Pow256(7 - i) % 256) as bv8];
    }
  }

  lemma Nibbles(b: bv8)
    ensures (b >> 4) as nat == b as nat / 16 < 16 && (b & 0xf) as nat == b as nat % 16
  {
  }

  lemma HexNext(bytes: seq<bv8>, n: nat)
    requires n < |bytes|
    ensures Hex(bytes[..n + 1]) == Hex(bytes[..n]) + [HexDigit(bytes[n] as nat / 16), HexDigit(bytes[n] as nat % 16)]
  {
    assert bytes[..n + 1][..n] == bytes[..n];
  }

  function Filled(n: nat): nat {
    n % 64
  }

  /** The distance to 56 modulo 64 goes down by one with every byte. */
  lemma Shrinks(len: nat)
    requires len < 64 && len != 56
    ensures (56 - (if len == 63 then 0 else len + 1)) % 64 < (56 - len) % 64
  {
  }

  lemma NextZero(m: seq<bv8>, k: nat)
    ensures m + Zeros(k) + [0] == m + Zeros(k + 1)
  {
    assert Zeros(k) + [0] == Zeros(k + 1);
  }

  lemma LeastRoom(n: nat, k: nat)
    requires Leaves(n, k) && forall j: nat :: j < k ==> !Leaves(n, j)
    ensures k == ZeroBytes(n)
  {
  }

  lemma WholeOfBlocks(m: seq<bv8>)
    requires |m| % 64 == 0
    ensures Whole(m) == m
  {
  }

  lemma FirstWords(block: seq<bv8>, t: nat)
    requires |block| == 64 && t < 16
    ensures Schedule(block, t) == Word(block[t * 4], block[t * 4 + 1], block[t * 4 + 2], block[t * 4 + 3])
  {
    hide Word;
  }

  /** The loop's expression for a later word is the standard's. */
  lemma NextWord(block: seq<bv8>, t: nat)
    requires |block| == 64 && t >= 16
    ensures Schedule(block, t)
         == Add(Add(Add(Schedule(block, t - 16), Mix15(Schedule(block, t - 15))), Schedule(block, t - 7)),
                Mix2(Schedule(block, t - 2)))
  {
    hide Add, Word, SmallSigma0, SmallSigma1, Mix15, Mix2;
    MixesW(Schedule(block, t - 15));
    MixesW(Schedule(block, t - 2));
  }

  /** The loop body's expressions are one round of the standard. */
  lemma NextRound(was: Vars, block: seq<bv8>, i: nat, v: Vars, w: bv32)
    requires |block| == 64 && i < 64 && v == Rounds(was, block, i) && w == Schedule(block, i)
    ensures Rounds(was, block, i + 1) ==
      (var t1 := Add(Add(Add(Add(v.h, MixE(v.e)), Ch(v.e, v.f, v.g)), K(i)), w);
       var t2 := Add(MixA(v.a), Maj(v.a, v.b, v.c));
       Vars(Add(t1, t2), v.a, v.b, v.c, Add(v.d, t1), v.e, v.f, v.g))
  {
    hide K, Schedule, Add, Ch, Maj, MixE, MixA, BigSigma0, BigSigma1;
    MixesE(v.e);
    MixesA(v.a);
  }

  // ----- any way of cutting the message -----

  function Flat(chunks: seq<seq<bv8>>): seq<bv8> {
    if chunks == [] then [] else Flat(chunks[..|chunks| - 1]) + chunks[|chunks| - 1]
  }

  /** The digest of a message fed in any number of pieces of any lengths. */
  method DigestOfChunks(chunks: seq<seq<bv8>>) returns (out: string)
    requires 8 * |Flat(chunks)| < 0x1_0000_0000_0000_0000
    ensures out == Hex(Digest(Flat(chunks)))
  {
    hide Digest;
    var h := new Hasher();
    for i := 0 to |chunks|
      invariant h.Valid() && fresh(h) && fresh(h.state) && fresh(h.buf) && h.absorbed == Flat(chunks[..i])
    {
      assert chunks[..i + 1][..i] == chunks[..i];
      h.Update(chunks[i]);
    }
    assert chunks[..|chunks|] == chunks;
    out := h.HexDigest();
  }
}
