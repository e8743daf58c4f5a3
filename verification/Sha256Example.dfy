/** The one-block example that accompanies FIPS 180-4: the digest of "abc", eight rounds at a time. */
module Sha256Example {
  import opened Utf8
  import opened Sha256
  import opened Sha256Standard

  const ABC: seq<byte> := [97, 98, 99]

  const BLOCK: seq<byte> := ABC + [0x80] + Zeros(59) + [24]

  lemma LengthBytes()
    ensures BigEndian(24, 8) == Zeros(7) + [24]
  {
    assert BigEndian(0, 1) == Zeros(1);
    assert BigEndian(0, 2) == Zeros(2);
    assert BigEndian(0, 3) == Zeros(3);
    assert BigEndian(0, 4) == Zeros(4);
    assert BigEndian(0, 5) == Zeros(5);
    assert BigEndian(0, 6) == Zeros(6);
    assert BigEndian(0, 7) == Zeros(7);
  }

  lemma AbcPadded()
    ensures Padded(ABC) == BLOCK && |BLOCK| == 64
  {
    LengthBytes();
    assert ZeroCount(3) == 52;
    hide BigEndian;
    assert Zeros(52) + Zeros(7) == Zeros(59);
  }

  /** Four words of the schedule. */
  predicate Four(t: nat, w0: bv32, w1: bv32, w2: bv32, w3: bv32)
    requires t <= 60
  {
    && |BLOCK| == 64 && Schedule(BLOCK, t) == w0 && Schedule(BLOCK, t + 1) == w1
    && Schedule(BLOCK, t + 2) == w2 && Schedule(BLOCK, t + 3) == w3
  }

  predicate After(t: nat, r: Regs)
    requires t <= 64
  {
    |BLOCK| == 64 && Rounds(BLOCK, INITIAL, t) == r
  }

  /** One word more, with the values of the two sigmas. */
  lemma Expands(t: nat, w16: bv32, w15: bv32, w7: bv32, w2: bv32, s0: bv32, s1: bv32)
    requires |BLOCK| == 64 && 16 <= t < 64
    requires Schedule(BLOCK, t - 16) == w16 && Schedule(BLOCK, t - 15) == w15
    requires Schedule(BLOCK, t - 7) == w7 && Schedule(BLOCK, t - 2) == w2
    requires SmallSigma0(w15) == s0 && SmallSigma1(w2) == s1
    ensures Schedule(BLOCK, t) == Add(Add(Add(w16, s0), w7), s1)
  {
    hide SmallSigma0, SmallSigma1, Word, Add;
  }

  /** One round, with the values of the two sigmas, from `r` to a new first and a new fifth word. */
  lemma Turn(t: nat, r: Regs, k: bv32, w: bv32, s0: bv32, s1: bv32, a: bv32, e: bv32) returns (next: Regs)
    requires |BLOCK| == 64 && t < 64 && Rounds(BLOCK, INITIAL, t) == r && K[t] == k && Schedule(BLOCK, t) == w
    requires BigSigma0(r.a) == s0 && BigSigma1(r.e) == s1
    requires e == Add(r.d, Add(Add(Add(Add(r.h, s1), Ch(r.e, r.f, r.g)), k), w))
    requires a == Add(Add(Add(Add(Add(r.h, s1), Ch(r.e, r.f, r.g)), k), w), Add(s0, Maj(r.a, r.b, r.c)))
    ensures Rounds(BLOCK, INITIAL, t + 1) == next == Regs(a, r.a, r.b, r.c, e, r.e, r.f, r.g)
  {
    hide BigSigma0, BigSigma1, Ch, Maj, Add, Schedule;
    next := Regs(a, r.a, r.b, r.c, e, r.e, r.f, r.g);
  }

  lemma FirstWords()
    ensures Four(0, 0x61626380, 0, 0, 0) && Four(4, 0, 0, 0, 0) && Four(8, 0, 0, 0, 0) && Four(12, 0, 0, 0, 24)
  {
    AbcPadded();
    assert BLOCK[0] == 97 && BLOCK[1] == 98 && BLOCK[2] == 99 && BLOCK[3] == 0x80 && BLOCK[63] == 24;
    assert forall i :: 4 <= i < 63 ==> BLOCK[i] == 0;
    assert Word(97, 98, 99, 0x80) == 0x61626380 && Word(0, 0, 0, 0) == 0 && Word(0, 0, 0, 24) == 24;
  }

  lemma Words16()
    requires Four(0, 0x61626380, 0x00000000, 0x00000000, 0x00000000)
    requires Four(4, 0x00000000, 0x00000000, 0x00000000, 0x00000000)
    requires Four(8, 0x00000000, 0x00000000, 0x00000000, 0x00000000)
    requires Four(12, 0x00000000, 0x00000000, 0x00000000, 0x00000018)
    ensures Four(16, 0x61626380, 0x000f0000, 0x7da86405, 0x600003c6)
    ensures Four(20, 0x3e9d7b78, 0x0183fc00, 0x12dcbfdb, 0xe2e2c38e)
  {
    hide Schedule;
    Expands(16, 0x61626380, 0x00000000, 0x00000000, 0x00000000, 0x00000000, 0x00000000);
    Expands(17, 0x00000000, 0x00000000, 0x00000000, 0x00000018, 0x00000000, 0x000f0000);
    Expands(18, 0x00000000, 0x00000000, 0x00000000, 0x61626380, 0x00000000, 0x7da86405);
    Expands(19, 0x00000000, 0x00000000, 0x00000000, 0x000f0000, 0x00000000, 0x600003c6);
    Expands(20, 0x00000000, 0x00000000, 0x00000000, 0x7da86405, 0x00000000, 0x3e9d7b78);
    Expands(21, 0x00000000, 0x00000000, 0x00000000, 0x600003c6, 0x00000000, 0x0183fc00);
    Expands(22, 0x00000000, 0x00000000, 0x00000018, 0x3e9d7b78, 0x00000000, 0x12dcbfc3);
    Expands(23, 0x00000000, 0x00000000, 0x61626380, 0x0183fc00, 0x00000000, 0x8180600e);
  }

  lemma Words24()
    requires Four(8, 0x00000000, 0x00000000, 0x00000000, 0x00000000)
    requires Four(12, 0x00000000, 0x00000000, 0x00000000, 0x00000018)
    requires Four(16, 0x61626380, 0x000f0000, 0x7da86405, 0x600003c6)
    requires Four(20, 0x3e9d7b78, 0x0183fc00, 0x12dcbfdb, 0xe2e2c38e)
    ensures Four(24, 0xc8215c1a, 0xb73679a2, 0xe5bc3909, 0x32663c5b)
    ensures Four(28, 0x9d209d67, 0xec8726cb, 0x702138a4, 0xd3b7973b)
  {
    hide Schedule;
    Expands(24, 0x00000000, 0x00000000, 0x000f0000, 0x12dcbfdb, 0x00000000, 0xc8125c1a);
    Expands(25, 0x00000000, 0x00000000, 0x7da86405, 0xe2e2c38e, 0x00000000, 0x398e159d);
    Expands(26, 0x00000000, 0x00000000, 0x600003c6, 0xc8215c1a, 0x00000000, 0x85bc3543);
    Expands(27, 0x00000000, 0x00000000, 0x3e9d7b78, 0xb73679a2, 0x00000000, 0xf3c8c0e3);
    Expands(28, 0x00000000, 0x00000000, 0x0183fc00, 0xe5bc3909, 0x00000000, 0x9b9ca167);
    Expands(29, 0x00000000, 0x00000000, 0x12dcbfdb, 0x32663c5b, 0x00000000, 0xd9aa66f0);
    Expands(30, 0x00000000, 0x00000018, 0xe2e2c38e, 0x9d209d67, 0x30060003, 0x5d387513);
    Expands(31, 0x00000018, 0x61626380, 0xc8215c1a, 0xec8726cb, 0x940e90ef, 0x7787aa1a);
  }

  lemma Words32()
    requires Four(16, 0x61626380, 0x000f0000, 0x7da86405, 0x600003c6)
    requires Four(20, 0x3e9d7b78, 0x0183fc00, 0x12dcbfdb, 0xe2e2c38e)
    requires Four(24, 0xc8215c1a, 0xb73679a2, 0xe5bc3909, 0x32663c5b)
    requires Four(28, 0x9d209d67, 0xec8726cb, 0x702138a4, 0xd3b7973b)
    ensures Four(32, 0x93f5997f, 0x3b68ba73, 0xaff4ffc1, 0xf10a5c62)
    ensures Four(36, 0x0a8b3996, 0x72af830a, 0x9409e33e, 0x24641522)
  {
    hide Schedule;
    Expands(32, 0x61626380, 0x000f0000, 0xb73679a2, 0x702138a4, 0xc001fe03, 0xbb5abe5a);
    Expands(33, 0x000f0000, 0x7da86405, 0xe5bc3909, 0xd3b7973b, 0x1c4f0322, 0x394e7e48);
    Expands(34, 0x7da86405, 0x600003c6, 0x32663c5b, 0x93f5997f, 0x8031987f, 0x7fb4c6e2);
    Expands(35, 0x600003c6, 0x3e9d7b78, 0x9d209d67, 0x3b68ba73, 0xa9709a3e, 0x4a7920f7);
    Expands(36, 0x3e9d7b78, 0x0183fc00, 0xec8726cb, 0xaff4ffc1, 0xff337818, 0xe0331f3b);
    Expands(37, 0x0183fc00, 0x12dcbfdb, 0x702138a4, 0xf10a5c62, 0x9b88ea33, 0x65816433);
    Expands(38, 0x12dcbfdb, 0xe2e2c38e, 0xd3b7973b, 0x0a8b3996, 0xb17a254e, 0xfbfb66da);
    Expands(39, 0xe2e2c38e, 0xc8215c1a, 0x93f5997f, 0x72af830a, 0x7b92db33, 0x31f8dce2);
  }

  lemma Words40()
    requires Four(24, 0xc8215c1a, 0xb73679a2, 0xe5bc3909, 0x32663c5b)
    requires Four(28, 0x9d209d67, 0xec8726cb, 0x702138a4, 0xd3b7973b)
    requires Four(32, 0x93f5997f, 0x3b68ba73, 0xaff4ffc1, 0xf10a5c62)
    requires Four(36, 0x0a8b3996, 0x72af830a, 0x9409e33e, 0x24641522)
    ensures Four(40, 0x9f47bf94, 0xf0a64f5a, 0x3e246a79, 0x27333ba3)
    ensures Four(44, 0x0c4763f2, 0x840abf27, 0x7a290d5d, 0x065c43da)
  {
    hide Schedule;
    Expands(40, 0xc8215c1a, 0xb73679a2, 0x3b68ba73, 0x9409e33e, 0xcde00e0a, 0xcddd9afd);
    Expands(41, 0xb73679a2, 0xe5bc3909, 0xaff4ffc1, 0x24641522, 0x013e863c, 0x883c4fbb);
    Expands(42, 0xe5bc3909, 0x32663c5b, 0xf10a5c62, 0x9f47bf94, 0x3f3ec76a, 0x281f0da4);
    Expands(43, 0x32663c5b, 0x9d209d67, 0x0a8b3996, 0xf0a64f5a, 0xfbc7b5de, 0xee7a0fd4);
    Expands(44, 0x9d209d67, 0xec8726cb, 0x72af830a, 0x3e246a79, 0x43fb11b5, 0xb87c31cc);
    Expands(45, 0xec8726cb, 0x702138a4, 0x9409e33e, 0x27333ba3, 0x08cd796d, 0xfaac3bb1);
    Expands(46, 0x702138a4, 0xd3b7973b, 0x24641522, 0x0c4763f2, 0x881f6924, 0x5d845673);
    Expands(47, 0xd3b7973b, 0x93f5997f, 0x9f47bf94, 0x840abf27, 0x8b06bce0, 0x0856302b);
  }

  lemma Words48()
    requires Four(32, 0x93f5997f, 0x3b68ba73, 0xaff4ffc1, 0xf10a5c62)
    requires Four(36, 0x0a8b3996, 0x72af830a, 0x9409e33e, 0x24641522)
    requires Four(40, 0x9f47bf94, 0xf0a64f5a, 0x3e246a79, 0x27333ba3)
    requires Four(44, 0x0c4763f2, 0x840abf27, 0x7a290d5d, 0x065c43da)
    ensures Four(48, 0xfb3e89cb, 0xcc7617db, 0xb9e66c34, 0xa9993667)
    ensures Four(52, 0x84badedd, 0xc21462bc, 0x1487472c, 0xb20f7a99)
  {
    hide Schedule;
    Expands(48, 0x93f5997f, 0x3b68ba73, 0xf0a64f5a, 0x7a290d5d, 0xcf8708e0, 0xa71b9812);
    Expands(49, 0x3b68ba73, 0xaff4ffc1, 0x3e246a79, 0x065c43da, 0xa9511dfa, 0xa997d4f5);
    Expands(50, 0xaff4ffc1, 0xf10a5c62, 0x27333ba3, 0xfb3e89cb, 0x4cdbe376, 0x95e24d5a);
    Expands(51, 0xf10a5c62, 0x0a8b3996, 0x0c4763f2, 0xcc7617db, 0xe321f3e3, 0xc9258230);
    Expands(52, 0x0a8b3996, 0x72af830a, 0x840abf27, 0xb9e66c34, 0xfa7233cc, 0xfbb2b254);
    Expands(53, 0x72af830a, 0x9409e33e, 0x7a290d5d, 0xa9993667, 0x17668aa3, 0xbdd547b2);
    Expands(54, 0x9409e33e, 0x24641522, 0x065c43da, 0x84badedd, 0x458cc397, 0x34945c7d);
    Expands(55, 0x24641522, 0x9f47bf94, 0xfb3e89cb, 0xc21462bc, 0xd5335f5c, 0xbd397c50);
  }

  lemma Words56()
    requires Four(40, 0x9f47bf94, 0xf0a64f5a, 0x3e246a79, 0x27333ba3)
    requires Four(44, 0x0c4763f2, 0x840abf27, 0x7a290d5d, 0x065c43da)
    requires Four(48, 0xfb3e89cb, 0xcc7617db, 0xb9e66c34, 0xa9993667)
    requires Four(52, 0x84badedd, 0xc21462bc, 0x1487472c, 0xb20f7a99)
    ensures Four(56, 0xef57b9cd, 0xebe6b238, 0x9fe3095e, 0x78bc8d4b)
    ensures Four(60, 0xa43fcf15, 0x668b2ff8, 0xeeaba2cc, 0x12b1edeb)
  {
    hide Schedule;
    Expands(56, 0x9f47bf94, 0xf0a64f5a, 0xcc7617db, 0x1487472c, 0x3823395c, 0x4b76a902);
    Expands(57, 0xf0a64f5a, 0x3e246a79, 0xb9e66c34, 0xb20f7a99, 0xef268a12, 0x52336c98);
    Expands(58, 0x3e246a79, 0x27333ba3, 0xa9993667, 0xef57b9cd, 0x8c40c8cf, 0x2be49faf);
    Expands(59, 0x27333ba3, 0x0c4763f2, 0x84badedd, 0xebe6b238, 0x3d6ce1a8, 0x8f619123);
    Expands(60, 0x0c4763f2, 0x840abf27, 0xc21462bc, 0x9fe3095e, 0xf040a398, 0xe5a364cf);
    Expands(61, 0x840abf27, 0x7a290d5d, 0x1487472c, 0x78bc8d4b, 0xf6e62d3b, 0xd712fc6a);
    Expands(62, 0x7a290d5d, 0x065c43da, 0xb20f7a99, 0xa43fcf15, 0xa431b16b, 0x1e41696b);
    Expands(63, 0x065c43da, 0xfb3e89cb, 0xef57b9cd, 0x668b2ff8, 0x2ae352e5, 0xf21a9d5f);
  }

  lemma Row0OfK()
    ensures |K| == 64 && K[0] == 0x428a2f98 && K[1] == 0x71374491 && K[2] == 0xb5c0fbcf && K[3] == 0xe9b5dba5
    ensures K[4] == 0x3956c25b && K[5] == 0x59f111f1 && K[6] == 0x923f82a4 && K[7] == 0xab1c5ed5
  {
    At0(0);
    At0(1);
    At0(2);
    At0(3);
    At0(4);
    At0(5);
    At0(6);
    At0(7);
  }

  lemma Row8OfK()
    ensures |K| == 64 && K[8] == 0xd807aa98 && K[9] == 0x12835b01 && K[10] == 0x243185be && K[11] == 0x550c7dc3
    ensures K[12] == 0x72be5d74 && K[13] == 0x80deb1fe && K[14] == 0x9bdc06a7 && K[15] == 0xc19bf174
  {
    At8(8);
    At8(9);
    At8(10);
    At8(11);
    At8(12);
    At8(13);
    At8(14);
    At8(15);
  }

  lemma Row16OfK()
    ensures |K| == 64 && K[16] == 0xe49b69c1 && K[17] == 0xefbe4786 && K[18] == 0x0fc19dc6 && K[19] == 0x240ca1cc
    ensures K[20] == 0x2de92c6f && K[21] == 0x4a7484aa && K[22] == 0x5cb0a9dc && K[23] == 0x76f988da
  {
    At16(16);
    At16(17);
    At16(18);
    At16(19);
    At16(20);
    At16(21);
    At16(22);
    At16(23);
  }

  lemma Row24OfK()
    ensures |K| == 64 && K[24] == 0x983e5152 && K[25] == 0xa831c66d && K[26] == 0xb00327c8 && K[27] == 0xbf597fc7
    ensures K[28] == 0xc6e00bf3 && K[29] == 0xd5a79147 && K[30] == 0x06ca6351 && K[31] == 0x14292967
  {
    At24(24);
    At24(25);
    At24(26);
    At24(27);
    At24(28);
    At24(29);
    At24(30);
    At24(31);
  }

  lemma Row32OfK()
    ensures |K| == 64 && K[32] == 0x27b70a85 && K[33] == 0x2e1b2138 && K[34] == 0x4d2c6dfc && K[35] == 0x53380d13
    ensures K[36] == 0x650a7354 && K[37] == 0x766a0abb && K[38] == 0x81c2c92e && K[39] == 0x92722c85
  {
    At32(32);
    At32(33);
    At32(34);
    At32(35);
    At32(36);
    At32(37);
    At32(38);
    At32(39);
  }

  lemma Row40OfK()
    ensures |K| == 64 && K[40] == 0xa2bfe8a1 && K[41] == 0xa81a664b && K[42] == 0xc24b8b70 && K[43] == 0xc76c51a3
    ensures K[44] == 0xd192e819 && K[45] == 0xd6990624 && K[46] == 0xf40e3585 && K[47] == 0x106aa070
  {
    At40(40);
    At40(41);
    At40(42);
    At40(43);
    At40(44);
    At40(45);
    At40(46);
    At40(47);
  }

  lemma Row48OfK()
    ensures |K| == 64 && K[48] == 0x19a4c116 && K[49] == 0x1e376c08 && K[50] == 0x2748774c && K[51] == 0x34b0bcb5
    ensures K[52] == 0x391c0cb3 && K[53] == 0x4ed8aa4a && K[54] == 0x5b9cca4f && K[55] == 0x682e6ff3
  {
    At48(48);
    At48(49);
    At48(50);
    At48(51);
    At48(52);
    At48(53);
    At48(54);
    At48(55);
  }

  lemma Row56OfK()
    ensures |K| == 64 && K[56] == 0x748f82ee && K[57] == 0x78a5636f && K[58] == 0x84c87814 && K[59] == 0x8cc70208
    ensures K[60] == 0x90befffa && K[61] == 0xa4506ceb && K[62] == 0xbef9a3f7 && K[63] == 0xc67178f2
  {
    At56(56);
    At56(57);
    At56(58);
    At56(59);
    At56(60);
    At56(61);
    At56(62);
    At56(63);
  }

  lemma Rounds0()
    requires Four(0, 0x61626380, 0x00000000, 0x00000000, 0x00000000)
    requires Four(4, 0x00000000, 0x00000000, 0x00000000, 0x00000000)
    requires After(0,
      Regs(0x6a09e667, 0xbb67ae85, 0x3c6ef372, 0xa54ff53a, 0x510e527f, 0x9b05688c, 0x1f83d9ab, 0x5be0cd19))
    ensures After(8,
      Regs(0x85a07b5f, 0xe5030380, 0x2b4209f5, 0x04409a6a, 0x0c657a79, 0x9b27a401, 0x714260ad, 0x43ada245))
  {
    hide Rounds, Schedule;
    Row0OfK();
    var r :=
      Regs(0x6a09e667, 0xbb67ae85, 0x3c6ef372, 0xa54ff53a, 0x510e527f, 0x9b05688c, 0x1f83d9ab, 0x5be0cd19);
    r := Turn(0, r, 0x428a2f98, 0x61626380, 0xce20b47e, 0x3587272b, 0x5d6aebcd, 0xfa2a4622);
    r := Turn(1, r, 0x71374491, 0x00000000, 0xa29f64d1, 0x5a94fd2d, 0x5a6ad9ad, 0x78ce7989);
    r := Turn(2, r, 0xb5c0fbcf, 0x00000000, 0x3096d054, 0x73f0e495, 0xc8c347a7, 0xf92939eb);
    r := Turn(3, r, 0xe9b5dba5, 0x00000000, 0xc21008d0, 0x0607743c, 0xd550f666, 0x24e00850);
    r := Turn(4, r, 0x3956c25b, 0x00000000, 0x45bb0c4b, 0x3a933432, 0x04409a6a, 0x43ada245);
    r := Turn(5, r, 0x59f111f1, 0x00000000, 0x5029ac8f, 0x8b77e19c, 0x2b4209f5, 0x714260ad);
    r := Turn(6, r, 0x923f82a4, 0x00000000, 0x0d5e0cc0, 0x015b7776, 0xe5030380, 0x9b27a401);
    r := Turn(7, r, 0xab1c5ed5, 0x00000000, 0x2949eb6c, 0x158dfaa9, 0x85a07b5f, 0x0c657a79);
  }

  lemma Rounds8()
    requires Four(8, 0x00000000, 0x00000000, 0x00000000, 0x00000000)
    requires Four(12, 0x00000000, 0x00000000, 0x00000000, 0x00000018)
    requires After(8,
      Regs(0x85a07b5f, 0xe5030380, 0x2b4209f5, 0x04409a6a, 0x0c657a79, 0x9b27a401, 0x714260ad, 0x43ada245))
    ensures After(16,
      Regs(0xb0fa238e, 0xc0645fde, 0xd932eb16, 0x87912990, 0x07590dcd, 0x0b92f20c, 0x745a48de, 0x1e578218))
  {
    hide Rounds, Schedule;
    Row8OfK();
    var r :=
      Regs(0x85a07b5f, 0xe5030380, 0x2b4209f5, 0x04409a6a, 0x0c657a79, 0x9b27a401, 0x714260ad, 0x43ada245);
    r := Turn(8, r, 0xd807aa98, 0x00000000, 0xba794dc2, 0x99ad25c0, 0x8e04ecb9, 0x32ca2d8c);
    r := Turn(9, r, 0x12835b01, 0x00000000, 0x15ffad31, 0xe45bb7ea, 0x8c87346b, 0x1cc92596);
    r := Turn(10, r, 0x243185be, 0x00000000, 0x5cac0711, 0x8e2276bc, 0x4798a3f4, 0x436b23e8);
    r := Turn(11, r, 0x550c7dc3, 0x00000000, 0x6ccbc526, 0x699435ca, 0xf71fc5a9, 0x816fd6e9);
    r := Turn(12, r, 0x72be5d74, 0x00000000, 0x2f9eee48, 0xccdee661, 0x87912990, 0x1e578218);
    r := Turn(13, r, 0x80deb1fe, 0x00000000, 0x29c634f3, 0x08bb98f7, 0xd932eb16, 0x745a48de);
    r := Turn(14, r, 0x9bdc06a7, 0x00000000, 0x25562836, 0x4f3b8d50, 0xc0645fde, 0x0b92f20c);
    r := Turn(15, r, 0xc19bf174, 0x00000018, 0xdf906fd4, 0xb8d63f93, 0xb0fa238e, 0x07590dcd);
  }

  lemma Rounds16()
    requires Four(16, 0x61626380, 0x000f0000, 0x7da86405, 0x600003c6)
    requires Four(20, 0x3e9d7b78, 0x0183fc00, 0x12dcbfdb, 0xe2e2c38e)
    requires After(16,
      Regs(0xb0fa238e, 0xc0645fde, 0xd932eb16, 0x87912990, 0x07590dcd, 0x0b92f20c, 0x745a48de, 0x1e578218))
    ensures After(24,
      Regs(0xc5d53d8d, 0xa7a3623f, 0xc2606d6d, 0x9dc68b63, 0xaa47c347, 0x49f5114a, 0xe1257970, 0x8ada8930))
  {
    hide Rounds, Schedule;
    Row16OfK();
    var r :=
      Regs(0xb0fa238e, 0xc0645fde, 0xd932eb16, 0x87912990, 0x07590dcd, 0x0b92f20c, 0x745a48de, 0x1e578218);
    r := Turn(16, r, 0xe49b69c1, 0x61626380, 0x58c535f1, 0x213b6995, 0x21da9a9b, 0x8034229c);
    r := Turn(17, r, 0xefbe4786, 0x000f0000, 0x76c5c4f5, 0x3b81984e, 0xc2fbd9d1, 0x846ee454);
    r := Turn(18, r, 0x0fc19dc6, 0x7da86405, 0x5157a6a1, 0xeff31c0f, 0xfe777bbf, 0xcc899961);
    r := Turn(19, r, 0x240ca1cc, 0x600003c6, 0xff8cd2ad, 0xefc707b0, 0xe1f20c33, 0xb0638179);
    r := Turn(20, r, 0x2de92c6f, 0x3e9d7b78, 0x51d3431b, 0xf8373ead, 0x9dc68b63, 0x8ada8930);
    r := Turn(21, r, 0x4a7484aa, 0x0183fc00, 0xa640c29b, 0x897ea930, 0xc2606d6d, 0xe1257970);
    r := Turn(22, r, 0x5cb0a9dc, 0x12dcbfdb, 0x9a43bf51, 0x7f24093a, 0xa7a3623f, 0x49f5114a);
    r := Turn(23, r, 0x76f988da, 0xe2e2c38e, 0x759d1b0a, 0xfae64fc3, 0xc5d53d8d, 0xaa47c347);
  }

  lemma Rounds24()
    requires Four(24, 0xc8215c1a, 0xb73679a2, 0xe5bc3909, 0x32663c5b)
    requires Four(28, 0x9d209d67, 0xec8726cb, 0x702138a4, 0xd3b7973b)
    requires After(24,
      Regs(0xc5d53d8d, 0xa7a3623f, 0xc2606d6d, 0x9dc68b63, 0xaa47c347, 0x49f5114a, 0xe1257970, 0x8ada8930))
    ensures After(32,
      Regs(0x73b33bf5, 0xea992a22, 0xa0060b30, 0x363482c9, 0xba591112, 0x0109ab3a, 0xade79437, 0x6112a3b7))
  {
    hide Rounds, Schedule;
    Row24OfK();
    var r :=
      Regs(0xc5d53d8d, 0xa7a3623f, 0xc2606d6d, 0x9dc68b63, 0xaa47c347, 0x49f5114a, 0xe1257970, 0x8ada8930);
    r := Turn(24, r, 0x983e5152, 0xc8215c1a, 0xc9ed56dd, 0x55bdf420, 0x1c2c2838, 0x2823ef91);
    r := Turn(25, r, 0xa831c66d, 0xb73679a2, 0xf66b0b1f, 0xa7724357, 0xcde8037d, 0x14383d8e);
    r := Turn(26, r, 0xb00327c8, 0xe5bc3909, 0xc89998a8, 0x958ca0fb, 0xb62ec4bc, 0xc74c6516);
    r := Turn(27, r, 0xbf597fc7, 0x32663c5b, 0xb37cf281, 0x5ff7537b, 0x77d37528, 0xedffbff8);
    r := Turn(28, r, 0xc6e00bf3, 0x9d209d67, 0xf963c20e, 0xe375bd7e, 0x363482c9, 0x6112a3b7);
    r := Turn(29, r, 0xd5a79147, 0xec8726cb, 0x89cfb5ce, 0x2239b36a, 0xa0060b30, 0xade79437);
    r := Turn(30, r, 0x06ca6351, 0x702138a4, 0x69a8407c, 0xab883974, 0xea992a22, 0x0109ab3a);
    r := Turn(31, r, 0x14292967, 0xd3b7973b, 0x8f1995eb, 0x0b919a99, 0x73b33bf5, 0xba591112);
  }

  lemma Rounds32()
    requires Four(32, 0x93f5997f, 0x3b68ba73, 0xaff4ffc1, 0xf10a5c62)
    requires Four(36, 0x0a8b3996, 0x72af830a, 0x9409e33e, 0x24641522)
    requires After(32,
      Regs(0x73b33bf5, 0xea992a22, 0xa0060b30, 0x363482c9, 0xba591112, 0x0109ab3a, 0xade79437, 0x6112a3b7))
    ensures After(40,
      Regs(0x79ea687a, 0x6dc57a8a, 0x34df1604, 0x41a65cb1, 0x1efbc0a0, 0xf0781bc8, 0xa507a53d, 0x0772a26b))
  {
    hide Rounds, Schedule;
    Row32OfK();
    var r :=
      Regs(0x73b33bf5, 0xea992a22, 0xa0060b30, 0x363482c9, 0xba591112, 0x0109ab3a, 0xade79437, 0x6112a3b7);
    r := Turn(32, r, 0x27b70a85, 0x93f5997f, 0x4fa886aa, 0x4436a63b, 0x98e12507, 0x9cd9f5f6);
    r := Turn(33, r, 0x2e1b2138, 0x3b68ba73, 0x4a90902b, 0x085a07a7, 0xfe604df5, 0x59249dd3);
    r := Turn(34, r, 0x4d2c6dfc, 0xaff4ffc1, 0x91003786, 0x65415f48, 0xa9a7738c, 0x085f3833);
    r := Turn(35, r, 0x53380d13, 0xf10a5c62, 0x2bc2a37e, 0xe5dc6e83, 0x65a0cfe4, 0xf4b002d6);
    r := Turn(36, r, 0x650a7354, 0x0a8b3996, 0xe5748f69, 0x590d3d71, 0x41a65cb1, 0x0772a26b);
    r := Turn(37, r, 0x766a0abb, 0x72af830a, 0x2c915f18, 0x582c115e, 0x34df1604, 0xa507a53d);
    r := Turn(38, r, 0x81c2c92e, 0x9409e33e, 0xc14e73aa, 0xd2f220b2, 0x6dc57a8a, 0xf0781bc8);
    r := Turn(39, r, 0x92722c85, 0x24641522, 0x5ac8193e, 0x66d20b14, 0x79ea687a, 0x1efbc0a0);
  }

  lemma Rounds40()
    requires Four(40, 0x9f47bf94, 0xf0a64f5a, 0x3e246a79, 0x27333ba3)
    requires Four(44, 0x0c4763f2, 0x840abf27, 0x7a290d5d, 0x065c43da)
    requires After(40,
      Regs(0x79ea687a, 0x6dc57a8a, 0x34df1604, 0x41a65cb1, 0x1efbc0a0, 0xf0781bc8, 0xa507a53d, 0x0772a26b))
    ensures After(48,
      Regs(0x4172328d, 0xa14c14b0, 0x72ab4b91, 0x26628815, 0xfecf0bc6, 0xd57b94a9, 0xb7755da1, 0xa80f11f0))
  {
    hide Rounds, Schedule;
    Row40OfK();
    var r :=
      Regs(0x79ea687a, 0x6dc57a8a, 0x34df1604, 0x41a65cb1, 0x1efbc0a0, 0xf0781bc8, 0xa507a53d, 0x0772a26b);
    r := Turn(40, r, 0xa2bfe8a1, 0x9f47bf94, 0x7408bcaa, 0xe9986075, 0xd6670766, 0x26352d63);
    r := Turn(41, r, 0xa81a664b, 0xf0a64f5a, 0x12b2e9b8, 0x3a6aa383, 0xdf46652f, 0x838b2711);
    r := Turn(42, r, 0xc24b8b70, 0x3e246a79, 0xc73bdc05, 0x61add539, 0x17aa0dfe, 0xdecd4715);
    r := Turn(43, r, 0xc76c51a3, 0x27333ba3, 0x422dc671, 0xd363665b, 0x9d4baf93, 0xfda24c2e);
    r := Turn(44, r, 0xd192e819, 0x0c4763f2, 0xb5704fcc, 0xef0f2a07, 0x26628815, 0xa80f11f0);
    r := Turn(45, r, 0xd6990624, 0x840abf27, 0x8311c588, 0xfb3dc5f1, 0x72ab4b91, 0xb7755da1);
    r := Turn(46, r, 0xf40e3585, 0x7a290d5d, 0xad0f0274, 0x8845eb06, 0xa14c14b0, 0xd57b94a9);
    r := Turn(47, r, 0x106aa070, 0x065c43da, 0xbd84cdc9, 0x8fa515ca, 0x4172328d, 0xfecf0bc6);
  }

  lemma Rounds48()
    requires Four(48, 0xfb3e89cb, 0xcc7617db, 0xb9e66c34, 0xa9993667)
    requires Four(52, 0x84badedd, 0xc21462bc, 0x1487472c, 0xb20f7a99)
    requires After(48,
      Regs(0x4172328d, 0xa14c14b0, 0x72ab4b91, 0x26628815, 0xfecf0bc6, 0xd57b94a9, 0xb7755da1, 0xa80f11f0))
    ensures After(56,
      Regs(0x38cc9913, 0x3ec45cdb, 0xf5702fdb, 0x101fd28f, 0x54cb266b, 0xe50e1b4f, 0x9f4787c3, 0x529e7d00))
  {
    hide Rounds, Schedule;
    Row48OfK();
    var r :=
      Regs(0x4172328d, 0xa14c14b0, 0x72ab4b91, 0x26628815, 0xfecf0bc6, 0xd57b94a9, 0xb7755da1, 0xa80f11f0);
    r := Turn(48, r, 0x19a4c116, 0xfb3e89cb, 0x0cfcb237, 0x04a106b1, 0x05757ceb, 0xbd714038);
    r := Turn(49, r, 0x1e376c08, 0xcc7617db, 0xf3f6d884, 0x5d427776, 0xf11bfaa8, 0x6e5c390c);
    r := Turn(50, r, 0x2748774c, 0xb9e66c34, 0x86ebd5b1, 0x3e283d54, 0x7a0508a1, 0x52f1ccf7);
    r := Turn(51, r, 0x34b0bcb5, 0xa9993667, 0x0fa817e8, 0x3b47e2a3, 0x886e7a22, 0x49231c1e);
    r := Turn(52, r, 0x391c0cb3, 0x84badedd, 0xcae757da, 0x6b63a737, 0x101fd28f, 0x529e7d00);
    r := Turn(53, r, 0x4ed8aa4a, 0xc21462bc, 0x2f35481d, 0xee7eaa12, 0xf5702fdb, 0x9f4787c3);
    r := Turn(54, r, 0x5b9cca4f, 0x1487472c, 0x433ccfa2, 0x55cd1720, 0x3ec45cdb, 0xe50e1b4f);
    r := Turn(55, r, 0x682e6ff3, 0xb20f7a99, 0x381b8def, 0xd1653e5c, 0x38cc9913, 0x54cb266b);
  }

  lemma Rounds56()
    requires Four(56, 0xef57b9cd, 0xebe6b238, 0x9fe3095e, 0x78bc8d4b)
    requires Four(60, 0xa43fcf15, 0x668b2ff8, 0xeeaba2cc, 0x12b1edeb)
    requires After(56,
      Regs(0x38cc9913, 0x3ec45cdb, 0xf5702fdb, 0x101fd28f, 0x54cb266b, 0xe50e1b4f, 0x9f4787c3, 0x529e7d00))
    ensures After(64,
      Regs(0x506e3058, 0xd39a2165, 0x04d24d6c, 0xb85e2ce9, 0x5ef50f24, 0xfb121210, 0x948d25b6, 0x961f4894))
  {
    hide Rounds, Schedule;
    Row56OfK();
    var r :=
      Regs(0x38cc9913, 0x3ec45cdb, 0xf5702fdb, 0x101fd28f, 0x54cb266b, 0xe50e1b4f, 0x9f4787c3, 0x529e7d00);
    r := Turn(56, r, 0x748f82ee, 0xef57b9cd, 0x34ceacc3, 0x05aa8057, 0xfcd1887b, 0x9b5e906c);
    r := Turn(57, r, 0x78a5636f, 0xebe6b238, 0xfaca6b61, 0x10b627de, 0xc062d46f, 0x7e44008e);
    r := Turn(58, r, 0x84c87814, 0x9fe3095e, 0xd837090c, 0x0a369fbd, 0xffb70472, 0x6d83bfc6);
    r := Turn(59, r, 0x8cc70208, 0x78bc8d4b, 0x406bf75a, 0x20a45dbe, 0xb6ae8fff, 0xb21bad3d);
    r := Turn(60, r, 0x90befffa, 0xa43fcf15, 0x2869e851, 0x5ca8b318, 0xb85e2ce9, 0x961f4894);
    r := Turn(61, r, 0xa4506ceb, 0x668b2ff8, 0x71e9ef2a, 0x4f6ef480, 0x04d24d6c, 0x948d25b6);
    r := Turn(62, r, 0xbef9a3f7, 0xeeaba2cc, 0x236105da, 0x2a127e78, 0xd39a2165, 0xfb121210);
    r := Turn(63, r, 0xc67178f2, 0x12b1edeb, 0x174d83c6, 0x88fa2277, 0x506e3058, 0x5ef50f24);
  }

  lemma AllRounds()
    ensures After(64,
      Regs(0x506e3058, 0xd39a2165, 0x04d24d6c, 0xb85e2ce9, 0x5ef50f24, 0xfb121210, 0x948d25b6, 0x961f4894))
  {
    FirstWords();
    assert After(0, INITIAL);
    hide Four, After;
    Words16();
    Words24();
    Words32();
    Words40();
    Words48();
    Words56();
    Rounds0();
    Rounds8();
    Rounds16();
    Rounds24();
    Rounds32();
    Rounds40();
    Rounds48();
    Rounds56();
  }

  /** The digest of "abc", as FIPS 180-4 gives it. */
  lemma AbcDigest()
    ensures |Padded(ABC)| % 64 == 0
    ensures Hashed(Padded(ABC)) ==
      Regs(0xba7816bf, 0x8f01cfea, 0x414140de, 0x5dae2223, 0xb00361a3, 0x96177a9c, 0xb410ff61, 0xf20015ad)
  {
    AbcPadded();
    AllRounds();
    hide Rounds;
    assert BLOCK[..0] == [] && BLOCK[0..] == BLOCK;
  }
}
