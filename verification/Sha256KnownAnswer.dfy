/**
 A known answer: the one-block message "abc" hashed by the specification step by step, which fixes every rotation,
 constant and byte order in it.
 */
module Sha256KnownAnswer {
  import opened Sha256Spec

  /** "abc" padded: the message, 0x80, zeros, and its length of 24 bits. */
  function Block(): (b: seq<bv8>)
    ensures |b| == 64
  {
    [0x61, 0x62, 0x63, 0x80] + Zeros(59) + [0x18]
  }

  lemma PaddedAbc()
    ensures Padded([0x61, 0x62, 0x63], 24) == Block()
  {
    hide BigEndian, Zeros, Padded, Leaves;
    PaddedForm([0x61, 0x62, 0x63], 24);
    LengthField();
    ZerosJoin(52, 7);
    Regroup([0x61, 0x62, 0x63] + [0x80], Zeros(52), Zeros(7), [0x18]);
  }

  lemma PaddedForm(m: seq<bv8>, bits: nat)
    ensures Padded(m, bits) == m + [0x80] + Zeros(ZeroBytes(|m|)) + BigEndian(bits, 8)
  {
    hide BigEndian, Zeros;
  }

  lemma Regroup(a: seq<bv8>, b: seq<bv8>, c: seq<bv8>, d: seq<bv8>)
    ensures a + b + (c + d) == a + (b + c) + d
  {
  }

  lemma ZerosJoin(m: nat, n: nat)
    ensures Zeros(m) + Zeros(n) == Zeros(m + n)
  {
  }

  lemma LengthField()
    ensures BigEndian(24, 8) == Zeros(7) + [0x18]
  {
    SmallField(7);
    assert BigEndian(24, 8) == BigEndian(0, 7) + [0x18];
  }

  lemma {:induction false} SmallField(n: nat)
    ensures BigEndian(0, n) == Zeros(n)
  {
    if n > 0 {
      SmallField(n - 1);
      assert Zeros(n) == Zeros(n - 1) + [0];
    }
  }

  // ----- the message schedule -----

  lemma FirstWords(t: nat)
    requires t < 16
    ensures Schedule(Block(), t) == if t == 0 then 0x61626380 else if t == 15 then 0x00000018 else 0
  {
  }

  lemma NextWord(b: seq<bv8>, t: nat)
    requires |b| == 64 && t >= 16
    ensures Schedule(b, t)
         == Add(Add(Add(Schedule(b, t - 16), SmallSigma0(Schedule(b, t - 15))), Schedule(b, t - 7)),
                SmallSigma1(Schedule(b, t - 2)))
  {
  }

  /** Word t of the schedule of the block. */
  ghost predicate WordIs(b: seq<bv8>, t: nat, w: bv32) {
    b == Block() && Schedule(b, t) == w
  }

  lemma Words0(b: seq<bv8>)
    requires b == Block()
    ensures WordIs(b, 0, 0x61626380) && WordIs(b, 1, 0x00000000) && WordIs(b, 2, 0x00000000)
    ensures WordIs(b, 3, 0x00000000) && WordIs(b, 4, 0x00000000) && WordIs(b, 5, 0x00000000)
    ensures WordIs(b, 6, 0x00000000) && WordIs(b, 7, 0x00000000) && WordIs(b, 8, 0x00000000)
    ensures WordIs(b, 9, 0x00000000) && WordIs(b, 10, 0x00000000) && WordIs(b, 11, 0x00000000)
    ensures WordIs(b, 12, 0x00000000) && WordIs(b, 13, 0x00000000) && WordIs(b, 14, 0x00000000)
    ensures WordIs(b, 15, 0x00000018)
  {
    hide Schedule, Block;
    FirstWords(0);
    FirstWords(1);
    FirstWords(2);
    FirstWords(3);
    FirstWords(4);
    FirstWords(5);
    FirstWords(6);
    FirstWords(7);
    FirstWords(8);
    FirstWords(9);
    FirstWords(10);
    FirstWords(11);
    FirstWords(12);
    FirstWords(13);
    FirstWords(14);
    FirstWords(15);
  }

  lemma Words1(b: seq<bv8>)
    requires b == Block()
    ensures WordIs(b, 16, 0x61626380) && WordIs(b, 17, 0x000f0000) && WordIs(b, 18, 0x7da86405)
    ensures WordIs(b, 19, 0x600003c6) && WordIs(b, 20, 0x3e9d7b78) && WordIs(b, 21, 0x0183fc00)
    ensures WordIs(b, 22, 0x12dcbfdb) && WordIs(b, 23, 0xe2e2c38e)
  {
    hide Schedule, Block;
    Words0(b);
    NextWord(b, 16);
    NextWord(b, 17);
    NextWord(b, 18);
    NextWord(b, 19);
    NextWord(b, 20);
    NextWord(b, 21);
    NextWord(b, 22);
    NextWord(b, 23);
  }

  lemma Words2(b: seq<bv8>)
    requires b == Block()
    ensures WordIs(b, 24, 0xc8215c1a) && WordIs(b, 25, 0xb73679a2) && WordIs(b, 26, 0xe5bc3909)
    ensures WordIs(b, 27, 0x32663c5b) && WordIs(b, 28, 0x9d209d67) && WordIs(b, 29, 0xec8726cb)
    ensures WordIs(b, 30, 0x702138a4) && WordIs(b, 31, 0xd3b7973b)
  {
    hide Schedule, Block;
    Words0(b);
    Words1(b);
    NextWord(b, 24);
    NextWord(b, 25);
    NextWord(b, 26);
    NextWord(b, 27);
    NextWord(b, 28);
    NextWord(b, 29);
    NextWord(b, 30);
    NextWord(b, 31);
  }

  lemma Words3(b: seq<bv8>)
    requires b == Block()
    ensures WordIs(b, 32, 0x93f5997f) && WordIs(b, 33, 0x3b68ba73) && WordIs(b, 34, 0xaff4ffc1)
    ensures WordIs(b, 35, 0xf10a5c62) && WordIs(b, 36, 0x0a8b3996) && WordIs(b, 37, 0x72af830a)
    ensures WordIs(b, 38, 0x9409e33e) && WordIs(b, 39, 0x24641522)
  {
    hide Schedule, Block;
    Words1(b);
    Words2(b);
    NextWord(b, 32);
    NextWord(b, 33);
    NextWord(b, 34);
    NextWord(b, 35);
    NextWord(b, 36);
    NextWord(b, 37);
    NextWord(b, 38);
    NextWord(b, 39);
  }

  lemma Words4(b: seq<bv8>)
    requires b == Block()
    ensures WordIs(b, 40, 0x9f47bf94) && WordIs(b, 41, 0xf0a64f5a) && WordIs(b, 42, 0x3e246a79)
    ensures WordIs(b, 43, 0x27333ba3) && WordIs(b, 44, 0x0c4763f2) && WordIs(b, 45, 0x840abf27)
    ensures WordIs(b, 46, 0x7a290d5d) && WordIs(b, 47, 0x065c43da)
  {
    hide Schedule, Block;
    Words2(b);
    Words3(b);
    NextWord(b, 40);
    NextWord(b, 41);
    NextWord(b, 42);
    NextWord(b, 43);
    NextWord(b, 44);
    NextWord(b, 45);
    NextWord(b, 46);
    NextWord(b, 47);
  }

  lemma Words5(b: seq<bv8>)
    requires b == Block()
    ensures WordIs(b, 48, 0xfb3e89cb) && WordIs(b, 49, 0xcc7617db) && WordIs(b, 50, 0xb9e66c34)
    ensures WordIs(b, 51, 0xa9993667) && WordIs(b, 52, 0x84badedd) && WordIs(b, 53, 0xc21462bc)
    ensures WordIs(b, 54, 0x1487472c) && WordIs(b, 55, 0xb20f7a99)
  {
    hide Schedule, Block;
    Words3(b);
    Words4(b);
    NextWord(b, 48);
    NextWord(b, 49);
    NextWord(b, 50);
    NextWord(b, 51);
    NextWord(b, 52);
    NextWord(b, 53);
    NextWord(b, 54);
    NextWord(b, 55);
  }

  lemma Words6(b: seq<bv8>)
    requires b == Block()
    ensures WordIs(b, 56, 0xef57b9cd) && WordIs(b, 57, 0xebe6b238) && WordIs(b, 58, 0x9fe3095e)
    ensures WordIs(b, 59, 0x78bc8d4b) && WordIs(b, 60, 0xa43fcf15) && WordIs(b, 61, 0x668b2ff8)
    ensures WordIs(b, 62, 0xeeaba2cc) && WordIs(b, 63, 0x12b1edeb)
  {
    hide Schedule, Block;
    Words4(b);
    Words5(b);
    NextWord(b, 56);
    NextWord(b, 57);
    NextWord(b, 58);
    NextWord(b, 59);
    NextWord(b, 60);
    NextWord(b, 61);
    NextWord(b, 62);
    NextWord(b, 63);
  }

  // ----- the rounds -----

  lemma NextState(b: seq<bv8>, n: nat)
    requires |b| == 64 && n < 64
    ensures Rounds(INITIAL, b, n + 1) == Round(Rounds(INITIAL, b, n), K(n), Schedule(b, n))
  {
  }

  ghost predicate StateIs(n: nat, v: Vars)
    requires n <= 64
  {
    Rounds(INITIAL, Block(), n) == v
  }

  lemma Rounds0()
    ensures StateIs(0, INITIAL)
  {
  }

  lemma Rounds4()
    ensures StateIs(4, Vars(0xd550f666, 0xc8c347a7, 0x5a6ad9ad, 0x5d6aebcd, 0x24e00850, 0xf92939eb, 0x78ce7989,
                            0xfa2a4622))
  {
    hide Schedule, Block, Rounds;
    Rounds0();
    Words0(Block());
    NextState(Block(), 0);
    NextState(Block(), 1);
    NextState(Block(), 2);
    NextState(Block(), 3);
  }

  lemma Rounds8()
    ensures StateIs(8, Vars(0x85a07b5f, 0xe5030380, 0x2b4209f5, 0x04409a6a, 0x0c657a79, 0x9b27a401, 0x714260ad,
                            0x43ada245))
  {
    hide Schedule, Block, Rounds;
    Rounds4();
    Words0(Block());
    NextState(Block(), 4);
    NextState(Block(), 5);
    NextState(Block(), 6);
    NextState(Block(), 7);
  }

  lemma Rounds12()
    ensures StateIs(12, Vars(0xf71fc5a9, 0x4798a3f4, 0x8c87346b, 0x8e04ecb9, 0x816fd6e9, 0x436b23e8, 0x1cc92596,
                             0x32ca2d8c))
  {
    hide Schedule, Block, Rounds;
    Rounds8();
    Words0(Block());
    NextState(Block(), 8);
    NextState(Block(), 9);
    NextState(Block(), 10);
    NextState(Block(), 11);
  }

  lemma Rounds16()
    ensures StateIs(16, Vars(0xb0fa238e, 0xc0645fde, 0xd932eb16, 0x87912990, 0x07590dcd, 0x0b92f20c, 0x745a48de,
                             0x1e578218))
  {
    hide Schedule, Block, Rounds;
    Rounds12();
    Words0(Block());
    NextState(Block(), 12);
    NextState(Block(), 13);
    NextState(Block(), 14);
    NextState(Block(), 15);
  }

  lemma Rounds20()
    ensures StateIs(20, Vars(0xe1f20c33, 0xfe777bbf, 0xc2fbd9d1, 0x21da9a9b, 0xb0638179, 0xcc899961, 0x846ee454,
                             0x8034229c))
  {
    hide Schedule, Block, Rounds;
    Rounds16();
    Words1(Block());
    NextState(Block(), 16);
    NextState(Block(), 17);
    NextState(Block(), 18);
    NextState(Block(), 19);
  }

  lemma Rounds24()
    ensures StateIs(24, Vars(0xc5d53d8d, 0xa7a3623f, 0xc2606d6d, 0x9dc68b63, 0xaa47c347, 0x49f5114a, 0xe1257970,
                             0x8ada8930))
  {
    hide Schedule, Block, Rounds;
    Rounds20();
    Words1(Block());
    NextState(Block(), 20);
    NextState(Block(), 21);
    NextState(Block(), 22);
    NextState(Block(), 23);
  }

  lemma Rounds28()
    ensures StateIs(28, Vars(0x77d37528, 0xb62ec4bc, 0xcde8037d, 0x1c2c2838, 0xedffbff8, 0xc74c6516, 0x14383d8e,
                             0x2823ef91))
  {
    hide Schedule, Block, Rounds;
    Rounds24();
    Words2(Block());
    NextState(Block(), 24);
    NextState(Block(), 25);
    NextState(Block(), 26);
    NextState(Block(), 27);
  }

  lemma Rounds32()
    ensures StateIs(32, Vars(0x73b33bf5, 0xea992a22, 0xa0060b30, 0x363482c9, 0xba591112, 0x0109ab3a, 0xade79437,
                             0x6112a3b7))
  {
    hide Schedule, Block, Rounds;
    Rounds28();
    Words2(Block());
    NextState(Block(), 28);
    NextState(Block(), 29);
    NextState(Block(), 30);
    NextState(Block(), 31);
  }

  lemma Rounds36()
    ensures StateIs(36, Vars(0x65a0cfe4, 0xa9a7738c, 0xfe604df5, 0x98e12507, 0xf4b002d6, 0x085f3833, 0x59249dd3,
                             0x9cd9f5f6))
  {
    hide Schedule, Block, Rounds;
    Rounds32();
    Words3(Block());
    NextState(Block(), 32);
    NextState(Block(), 33);
    NextState(Block(), 34);
    NextState(Block(), 35);
  }

  lemma Rounds40()
    ensures StateIs(40, Vars(0x79ea687a, 0x6dc57a8a, 0x34df1604, 0x41a65cb1, 0x1efbc0a0, 0xf0781bc8, 0xa507a53d,
                             0x0772a26b))
  {
    hide Schedule, Block, Rounds;
    Rounds36();
    Words3(Block());
    NextState(Block(), 36);
    NextState(Block(), 37);
    NextState(Block(), 38);
    NextState(Block(), 39);
  }

  lemma Rounds44()
    ensures StateIs(44, Vars(0x9d4baf93, 0x17aa0dfe, 0xdf46652f, 0xd6670766, 0xfda24c2e, 0xdecd4715, 0x838b2711,
                             0x26352d63))
  {
    hide Schedule, Block, Rounds;
    Rounds40();
    Words4(Block());
    NextState(Block(), 40);
    NextState(Block(), 41);
    NextState(Block(), 42);
    NextState(Block(), 43);
  }

  lemma Rounds48()
    ensures StateIs(48, Vars(0x4172328d, 0xa14c14b0, 0x72ab4b91, 0x26628815, 0xfecf0bc6, 0xd57b94a9, 0xb7755da1,
                             0xa80f11f0))
  {
    hide Schedule, Block, Rounds;
    Rounds44();
    Words4(Block());
    NextState(Block(), 44);
    NextState(Block(), 45);
    NextState(Block(), 46);
    NextState(Block(), 47);
  }

  lemma Rounds52()
    ensures StateIs(52, Vars(0x886e7a22, 0x7a0508a1, 0xf11bfaa8, 0x05757ceb, 0x49231c1e, 0x52f1ccf7, 0x6e5c390c,
                             0xbd714038))
  {
    hide Schedule, Block, Rounds;
    Rounds48();
    Words5(Block());
    NextState(Block(), 48);
    NextState(Block(), 49);
    NextState(Block(), 50);
    NextState(Block(), 51);
  }

  lemma Rounds56()
    ensures StateIs(56, Vars(0x38cc9913, 0x3ec45cdb, 0xf5702fdb, 0x101fd28f, 0x54cb266b, 0xe50e1b4f, 0x9f4787c3,
                             0x529e7d00))
  {
    hide Schedule, Block, Rounds;
    Rounds52();
    Words5(Block());
    NextState(Block(), 52);
    NextState(Block(), 53);
    NextState(Block(), 54);
    NextState(Block(), 55);
  }

  lemma Rounds60()
    ensures StateIs(60, Vars(0xb6ae8fff, 0xffb70472, 0xc062d46f, 0xfcd1887b, 0xb21bad3d, 0x6d83bfc6, 0x7e44008e,
                             0x9b5e906c))
  {
    hide Schedule, Block, Rounds;
    Rounds56();
    Words6(Block());
    NextState(Block(), 56);
    NextState(Block(), 57);
    NextState(Block(), 58);
    NextState(Block(), 59);
  }

  lemma Rounds64()
    ensures StateIs(64, Vars(0x506e3058, 0xd39a2165, 0x04d24d6c, 0xb85e2ce9, 0x5ef50f24, 0xfb121210, 0x948d25b6,
                             0x961f4894))
  {
    hide Schedule, Block, Rounds;
    Rounds60();
    Words6(Block());
    NextState(Block(), 60);
    NextState(Block(), 61);
    NextState(Block(), 62);
    NextState(Block(), 63);
  }

  /** The hash value of "abc" is ba7816bf 8f01cfea 414140de 5dae2223 b00361a3 96177a9c b410ff61 f20015ad. */
  lemma HashOfAbc()
    ensures Hash(Padded([0x61, 0x62, 0x63], 24)) == Vars(0xba7816bf, 0x8f01cfea, 0x414140de, 0x5dae2223, 0xb00361a3,
                                                         0x96177a9c, 0xb410ff61, 0xf20015ad)
  {
    PaddedAbc();
    Rounds64();
    OneBlock(Block());
    hide Rounds, Block, Schedule, Padded;
  }

  lemma OneBlock(b: seq<bv8>)
    requires |b| == 64
    ensures Hash(b) == Compress(INITIAL, b)
  {
    hide Compress;
    assert b[..0] == [] && b[0..] == b;
  }
}
