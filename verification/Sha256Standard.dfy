/** What FIPS 180-4 says of the functions and constants of SHA-256, and of the order of blocks. */
module Sha256Standard {
  import opened Utf8
  import opened Sha256

  // ----- the functions of section 4.1.2, bit by bit

  /** What a word has at the places of `m`, which is any set of the 32; with one place in it, a bit. */
  function At(x: bv32, m: bv32): bv32 { x & m }

  /** Ch takes its second argument where the first has ones, and its third where it has zeros. */
  lemma ChooseAtOnes(x: bv32, y: bv32, z: bv32, m: bv32)
    requires At(x, m) == m
    ensures At(Ch(x, y, z), m) == At(y, m)
  {
  }

  lemma ChooseAtZeros(x: bv32, y: bv32, z: bv32, m: bv32)
    requires At(x, m) == 0
    ensures At(Ch(x, y, z), m) == At(z, m)
  {
  }

  /** Maj is what two of the three agree on. */
  lemma MajorityPlaces(x: bv32, y: bv32, z: bv32, m: bv32)
    ensures At(x, m) == At(y, m) ==> At(Maj(x, y, z), m) == At(x, m)
    ensures At(x, m) == At(z, m) ==> At(Maj(x, y, z), m) == At(x, m)
    ensures At(y, m) == At(z, m) ==> At(Maj(x, y, z), m) == At(y, m)
  {
    if At(x, m) == At(y, m) { FirstTwoAgree(x, y, z, m); }
    if At(x, m) == At(z, m) { OthersAgree(x, z, y, m); }
    if At(y, m) == At(z, m) { LastTwoAgree(x, y, z, m); }
    hide Maj;
  }

  lemma FirstTwoAgree(x: bv32, y: bv32, z: bv32, m: bv32)
    requires At(x, m) == At(y, m)
    ensures At(Maj(x, y, z), m) == At(x, m)
  {
  }

  lemma OthersAgree(x: bv32, z: bv32, y: bv32, m: bv32)
    requires At(x, m) == At(z, m)
    ensures At(Maj(x, y, z), m) == At(x, m)
  {
  }

  lemma LastTwoAgree(x: bv32, y: bv32, z: bv32, m: bv32)
    requires At(y, m) == At(z, m)
    ensures At(Maj(x, y, z), m) == At(y, m)
  {
  }

  /** The rotations that the functions use are rotations. */
  lemma Rotations(x: bv32)
    ensures RotateRight(x, 2) == x.RotateRight(2) && RotateRight(x, 6) == x.RotateRight(6)
    ensures RotateRight(x, 7) == x.RotateRight(7) && RotateRight(x, 11) == x.RotateRight(11)
    ensures RotateRight(x, 13) == x.RotateRight(13) && RotateRight(x, 17) == x.RotateRight(17)
    ensures RotateRight(x, 18) == x.RotateRight(18) && RotateRight(x, 19) == x.RotateRight(19)
    ensures RotateRight(x, 22) == x.RotateRight(22) && RotateRight(x, 25) == x.RotateRight(25)
  {
  }

  /** What a shift has at some places is what was so many places higher, and zeros come in at the top. */
  lemma ShiftedPlaces(x: bv32, m: bv32)
    ensures At(ShiftRight(x, 3), m) << 3 == x & (m << 3) && ShiftRight(x, 3) & 0xE0000000 == 0
    ensures At(ShiftRight(x, 10), m) << 10 == x & (m << 10) && ShiftRight(x, 10) & 0xFFC00000 == 0
  {
  }

  /** Xor has a one where an odd number of the three do. */
  lemma XorPlaces(x: bv32, y: bv32, z: bv32, m: bv32)
    ensures At(Xor(x, y, z), m) == Xor(At(x, m), At(y, m), At(z, m))
  {
  }

  lemma XorOdd(x: bv32, y: bv32, z: bv32)
    ensures Xor(x, 0, 0) == x && Xor(x, x, z) == z && Xor(x, y, y) == x && Xor(x, y, x) == y
  {
  }

  lemma BigSigma0Places(x: bv32, m: bv32)
    ensures At(BigSigma0(x), m) == Xor(At(x.RotateRight(2), m), At(x.RotateRight(13), m), At(x.RotateRight(22), m))
  {
    Rotations(x);
    hide RotateRight, ShiftRight, Xor, At;
    XorPlaces(RotateRight(x, 2), RotateRight(x, 13), RotateRight(x, 22), m);
  }

  lemma BigSigma1Places(x: bv32, m: bv32)
    ensures At(BigSigma1(x), m) == Xor(At(x.RotateRight(6), m), At(x.RotateRight(11), m), At(x.RotateRight(25), m))
  {
    Rotations(x);
    hide RotateRight, ShiftRight, Xor, At;
    XorPlaces(RotateRight(x, 6), RotateRight(x, 11), RotateRight(x, 25), m);
  }

  lemma SmallSigma0Places(x: bv32, m: bv32)
    ensures At(SmallSigma0(x), m) == Xor(At(x.RotateRight(7), m), At(x.RotateRight(18), m), At(ShiftRight(x, 3), m))
  {
    Rotations(x);
    hide RotateRight, ShiftRight, Xor, At;
    XorPlaces(RotateRight(x, 7), RotateRight(x, 18), ShiftRight(x, 3), m);
  }

  lemma SmallSigma1Places(x: bv32, m: bv32)
    ensures At(SmallSigma1(x), m) == Xor(At(x.RotateRight(17), m), At(x.RotateRight(19), m), At(ShiftRight(x, 10), m))
  {
    Rotations(x);
    hide RotateRight, ShiftRight, Xor, At;
    XorPlaces(RotateRight(x, 17), RotateRight(x, 19), ShiftRight(x, 10), m);
  }

  // ----- the primes

  predicate IsProduct(n: nat, a: nat, b: nat) {
    a >= 2 && b >= 2 && a * b == n
  }

  ghost predicate IsPrime(n: nat) {
    n >= 2 && forall a: nat, b: nat :: !IsProduct(n, a, b)
  }

  /** No prime up to 17 divides the number, except itself. */
  predicate Trial(n: nat) {
    && (n == 2 || n % 2 != 0) && (n == 3 || n % 3 != 0) && (n == 5 || n % 5 != 0) && (n == 7 || n % 7 != 0)
    && (n == 11 || n % 11 != 0) && (n == 13 || n % 13 != 0) && (n == 17 || n % 17 != 0)
  }

  lemma SmallFactor(n: nat, a: nat, b: nat)
    requires IsProduct(n, a, b) && a <= 18
    ensures !Trial(n)
  {
    if a % 2 == 0 {
      Twice(n, a / 2, b);
    } else if a % 3 == 0 {
      Thrice(n, a / 3, b);
    } else {
      Times(n, a, b);
    }
  }

  lemma Times(n: nat, a: nat, b: nat)
    requires n == a * b && b >= 2 && a in {5, 7, 11, 13, 17}
    ensures !Trial(n)
  {
    if a == 5 {
      FiveTimes(n, b);
    } else if a == 7 {
      SevenTimes(n, b);
    } else {
      MoreTimes(n, a, b);
    }
  }

  lemma FiveTimes(n: nat, b: nat)
    requires n == 5 * b && b >= 2
    ensures !Trial(n)
  {
    assert n % 5 == 0 && n != 5;
  }

  lemma SevenTimes(n: nat, b: nat)
    requires n == 7 * b && b >= 2
    ensures !Trial(n)
  {
    assert n % 7 == 0 && n != 7;
  }

  lemma MoreTimes(n: nat, a: nat, b: nat)
    requires n == a * b && b >= 2 && a in {11, 13, 17}
    ensures !Trial(n)
  {
    if a == 11 {
      assert n == 11 * b && n % 11 == 0;
    } else if a == 13 {
      assert n == 13 * b && n % 13 == 0;
    } else {
      assert n == 17 * b && n % 17 == 0;
    }
  }

  lemma Twice(n: nat, h: nat, b: nat)
    requires n == (2 * h) * b && h >= 1 && b >= 2
    ensures n % 2 == 0 && n > 2
  {
    var m := h * b;
    assert n == 2 * m && m >= 2;
  }

  lemma Thrice(n: nat, h: nat, b: nat)
    requires n == (3 * h) * b && h >= 1 && b >= 2
    ensures n % 3 == 0 && n > 3
  {
    var m := h * b;
    assert n == 3 * m && m >= 2;
  }

  /** Below 19 squared, trial division by the primes up to 17 is enough. */
  lemma TrialIff(n: nat)
    requires 2 <= n < 361
    ensures IsPrime(n) <==> Trial(n)
  {
    if IsPrime(n) {
      assert !IsProduct(n, 2, n / 2) && !IsProduct(n, 3, n / 3) && !IsProduct(n, 5, n / 5) && !IsProduct(n, 7, n / 7);
      assert !IsProduct(n, 11, n / 11) && !IsProduct(n, 13, n / 13) && !IsProduct(n, 17, n / 17);
    } else {
      var a: nat, b: nat :| IsProduct(n, a, b);
      if a <= 18 {
        SmallFactor(n, a, b);
      } else {
        assert b <= 18 by { assert b > 18 ==> a * b >= 19 * 19; }
        assert IsProduct(n, b, a);
        SmallFactor(n, b, a);
      }
    }
  }

  /** No number after `p` and before `q` passes the trial. */
  predicate Gap(p: nat, q: nat)
    decreases q - p
  {
    p + 1 >= q || (!Trial(p + 1) && Gap(p + 1, q))
  }

  lemma {:induction false} InGap(p: nat, q: nat, m: nat)
    requires Gap(p, q) && p < m < q
    ensures !Trial(m)
    decreases q - p
  {
    if m > p + 1 { InGap(p + 1, q, m); }
  }

  /** `q` is the next number after `p` that passes the trial. */
  predicate Next(p: nat, q: nat) {
    2 <= p < q < 361 && Trial(q) && Gap(p, q)
  }

  const PRIMES: seq<nat> := P0 + P8 + P16 + P24 + P32 + P40 + P48 + P56

  const P0: seq<nat> := [2, 3, 5, 7, 11, 13, 17, 19]
  const P8: seq<nat> := [23, 29, 31, 37, 41, 43, 47, 53]
  const P16: seq<nat> := [59, 61, 67, 71, 73, 79, 83, 89]
  const P24: seq<nat> := [97, 101, 103, 107, 109, 113, 127, 131]
  const P32: seq<nat> := [137, 139, 149, 151, 157, 163, 167, 173]
  const P40: seq<nat> := [179, 181, 191, 193, 197, 199, 211, 223]
  const P48: seq<nat> := [227, 229, 233, 239, 241, 251, 257, 263]
  const P56: seq<nat> := [269, 271, 277, 281, 283, 293, 307, 311]

  lemma Row0()
    ensures Next(2, 3) && Next(3, 5) && Next(5, 7) && Next(7, 11)
    ensures Next(11, 13) && Next(13, 17) && Next(17, 19) && Next(19, 23)
  {
  }

  lemma Row8()
    ensures Next(23, 29) && Next(29, 31) && Next(31, 37) && Next(37, 41)
    ensures Next(41, 43) && Next(43, 47) && Next(47, 53) && Next(53, 59)
  {
  }

  lemma Row16()
    ensures Next(59, 61) && Next(61, 67) && Next(67, 71) && Next(71, 73)
    ensures Next(73, 79) && Next(79, 83) && Next(83, 89) && Next(89, 97)
  {
  }

  lemma Row24()
    ensures Next(97, 101) && Next(101, 103) && Next(103, 107) && Next(107, 109)
    ensures Next(109, 113) && Next(113, 127) && Next(127, 131) && Next(131, 137)
  {
  }

  lemma Row32()
    ensures Next(137, 139) && Next(139, 149) && Next(149, 151) && Next(151, 157)
    ensures Next(157, 163) && Next(163, 167) && Next(167, 173) && Next(173, 179)
  {
  }

  lemma Row40()
    ensures Next(179, 181) && Next(181, 191) && Next(191, 193) && Next(193, 197)
    ensures Next(197, 199) && Next(199, 211) && Next(211, 223) && Next(223, 227)
  {
  }

  lemma Row48()
    ensures Next(227, 229) && Next(229, 233) && Next(233, 239) && Next(239, 241)
    ensures Next(241, 251) && Next(251, 257) && Next(257, 263) && Next(263, 269)
  {
  }

  lemma Row56()
    ensures Next(269, 271) && Next(271, 277) && Next(277, 281) && Next(281, 283)
    ensures Next(283, 293) && Next(293, 307) && Next(307, 311)
  {
  }

  /** The table is the first 64 primes: it starts with 2, and each entry is the next prime after the one before. */
  lemma FirstPrimes(i: nat)
    requires i < 63
    ensures |PRIMES| == 64 && PRIMES[0] == 2 && IsPrime(2) && IsPrime(PRIMES[i + 1]) && PRIMES[i] < PRIMES[i + 1]
    ensures forall m :: PRIMES[i] < m < PRIMES[i + 1] ==> !IsPrime(m)
  {
    TrialIff(2);
    assert Next(PRIMES[i], PRIMES[i + 1]) by { Consecutive(i); }
    TrialIff(PRIMES[i + 1]);
    forall m | PRIMES[i] < m < PRIMES[i + 1] ensures !IsPrime(m) {
      TrialIff(m);
      InGap(PRIMES[i], PRIMES[i + 1], m);
    }
  }

  lemma Consecutive(i: nat)
    requires i < 63
    ensures Next(PRIMES[i], PRIMES[i + 1])
  {
    hide Next;
    Row0();
    Row8();
    Row16();
    Row24();
    Row32();
    Row40();
    Row48();
    Row56();
  }

  // ----- the constants of sections 4.2.2 and 5.3.3

  function WholeCubeRoot(p: nat): nat {
    if p < 8 then 1 else if p < 27 then 2 else if p < 64 then 3 else if p < 125 then 4 else if p < 216 then 5 else 6
  }

  /** `k` are the first 32 bits of the fraction of the cube root of `p`. */
  predicate CubeRootBits(p: nat, k: bv32) {
    var n := WholeCubeRoot(p) * 0x1_0000_0000 + (k as nat);
    n * n * n <= p * 0x1_0000_0000_0000_0000_0000_0000 < (n + 1) * (n + 1) * (n + 1)
  }

  function WholeSquareRoot(p: nat): nat {
    if p < 4 then 1 else if p < 9 then 2 else if p < 16 then 3 else 4
  }

  predicate SquareRootBits(p: nat, h: bv32) {
    var n := WholeSquareRoot(p) * 0x1_0000_0000 + (h as nat);
    n * n <= p * 0x1_0000_0000_0000_0000 < (n + 1) * (n + 1)
  }

  /** The initial hash value: the square roots of the first eight primes. */
  lemma InitialFromPrimes()
    ensures SquareRootBits(2, INITIAL.a) && SquareRootBits(3, INITIAL.b) && SquareRootBits(5, INITIAL.c)
    ensures SquareRootBits(7, INITIAL.d) && SquareRootBits(11, INITIAL.e) && SquareRootBits(13, INITIAL.f)
    ensures SquareRootBits(17, INITIAL.g) && SquareRootBits(19, INITIAL.h)
  {
  }

  lemma Cubes0()
    ensures CubeRootBits(2, K0[0]) && CubeRootBits(3, K0[1]) && CubeRootBits(5, K0[2])
    ensures CubeRootBits(7, K0[3]) && CubeRootBits(11, K0[4]) && CubeRootBits(13, K0[5])
    ensures CubeRootBits(17, K0[6]) && CubeRootBits(19, K0[7])
  {
  }

  lemma Cubes8()
    ensures CubeRootBits(23, K8[0]) && CubeRootBits(29, K8[1]) && CubeRootBits(31, K8[2])
    ensures CubeRootBits(37, K8[3]) && CubeRootBits(41, K8[4]) && CubeRootBits(43, K8[5])
    ensures CubeRootBits(47, K8[6]) && CubeRootBits(53, K8[7])
  {
  }

  lemma Cubes16()
    ensures CubeRootBits(59, K16[0]) && CubeRootBits(61, K16[1]) && CubeRootBits(67, K16[2])
    ensures CubeRootBits(71, K16[3]) && CubeRootBits(73, K16[4]) && CubeRootBits(79, K16[5])
    ensures CubeRootBits(83, K16[6]) && CubeRootBits(89, K16[7])
  {
  }

  lemma Cubes24()
    ensures CubeRootBits(97, K24[0]) && CubeRootBits(101, K24[1]) && CubeRootBits(103, K24[2])
    ensures CubeRootBits(107, K24[3]) && CubeRootBits(109, K24[4]) && CubeRootBits(113, K24[5])
    ensures CubeRootBits(127, K24[6]) && CubeRootBits(131, K24[7])
  {
  }

  lemma Cubes32()
    ensures CubeRootBits(137, K32[0]) && CubeRootBits(139, K32[1]) && CubeRootBits(149, K32[2])
    ensures CubeRootBits(151, K32[3]) && CubeRootBits(157, K32[4]) && CubeRootBits(163, K32[5])
    ensures CubeRootBits(167, K32[6]) && CubeRootBits(173, K32[7])
  {
  }

  lemma Cubes40()
    ensures CubeRootBits(179, K40[0]) && CubeRootBits(181, K40[1]) && CubeRootBits(191, K40[2])
    ensures CubeRootBits(193, K40[3]) && CubeRootBits(197, K40[4]) && CubeRootBits(199, K40[5])
    ensures CubeRootBits(211, K40[6]) && CubeRootBits(223, K40[7])
  {
  }

  lemma Cubes48()
    ensures CubeRootBits(227, K48[0]) && CubeRootBits(229, K48[1]) && CubeRootBits(233, K48[2])
    ensures CubeRootBits(239, K48[3]) && CubeRootBits(241, K48[4]) && CubeRootBits(251, K48[5])
    ensures CubeRootBits(257, K48[6]) && CubeRootBits(263, K48[7])
  {
  }

  lemma Cubes56()
    ensures CubeRootBits(269, K56[0]) && CubeRootBits(271, K56[1]) && CubeRootBits(277, K56[2])
    ensures CubeRootBits(281, K56[3]) && CubeRootBits(283, K56[4]) && CubeRootBits(293, K56[5])
    ensures CubeRootBits(307, K56[6]) && CubeRootBits(311, K56[7])
  {
  }

  predicate RowFits(primes: seq<nat>, constants: seq<bv32>) {
    |primes| == |constants| == 8 && forall j :: 0 <= j < 8 ==> CubeRootBits(primes[j], constants[j])
  }

  lemma RowsFit()
    ensures RowFits(P0, K0) && RowFits(P8, K8) && RowFits(P16, K16) && RowFits(P24, K24)
    ensures RowFits(P32, K32) && RowFits(P40, K40) && RowFits(P48, K48) && RowFits(P56, K56)
  {
    hide CubeRootBits;
    Cubes0();
    Cubes8();
    Cubes16();
    Cubes24();
    Cubes32();
    Cubes40();
    Cubes48();
    Cubes56();
  }

  lemma At0(i: nat)
    requires 0 <= i < 8
    ensures |K| == 64 == |PRIMES| && K[i] == K0[i - 0] && PRIMES[i] == P0[i - 0]
  {
  }

  lemma At8(i: nat)
    requires 8 <= i < 16
    ensures |K| == 64 == |PRIMES| && K[i] == K8[i - 8] && PRIMES[i] == P8[i - 8]
  {
  }

  lemma At16(i: nat)
    requires 16 <= i < 24
    ensures |K| == 64 == |PRIMES| && K[i] == K16[i - 16] && PRIMES[i] == P16[i - 16]
  {
  }

  lemma At24(i: nat)
    requires 24 <= i < 32
    ensures |K| == 64 == |PRIMES| && K[i] == K24[i - 24] && PRIMES[i] == P24[i - 24]
  {
  }

  lemma At32(i: nat)
    requires 32 <= i < 40
    ensures |K| == 64 == |PRIMES| && K[i] == K32[i - 32] && PRIMES[i] == P32[i - 32]
  {
  }

  lemma At40(i: nat)
    requires 40 <= i < 48
    ensures |K| == 64 == |PRIMES| && K[i] == K40[i - 40] && PRIMES[i] == P40[i - 40]
  {
  }

  lemma At48(i: nat)
    requires 48 <= i < 56
    ensures |K| == 64 == |PRIMES| && K[i] == K48[i - 48] && PRIMES[i] == P48[i - 48]
  {
  }

  lemma At56(i: nat)
    requires 56 <= i < 64
    ensures |K| == 64 == |PRIMES| && K[i] == K56[i - 56] && PRIMES[i] == P56[i - 56]
  {
  }

  /** The round constants: the cube roots of the first 64 primes. */
  lemma ConstantsFromPrimes(i: nat)
    requires i < 64
    ensures |K| == 64 == |PRIMES| && CubeRootBits(PRIMES[i], K[i])
  {
    RowsFit();
    hide CubeRootBits;
    if i < 8 {
      At0(i);
    } else if i < 16 {
      At8(i);
    } else if i < 24 {
      At16(i);
    } else if i < 32 {
      At24(i);
    } else if i < 40 {
      At32(i);
    } else if i < 48 {
      At40(i);
    } else if i < 56 {
      At48(i);
    } else {
      At56(i);
    }
  }

  // ----- the order of blocks, section 6.2.2

  function Compressed(state: Regs, block: seq<byte>): Regs
    requires |block| == 64
  {
    var r := Rounds(block, state, 64);
    Regs(Add(r.a, state.a), Add(r.b, state.b), Add(r.c, state.c), Add(r.d, state.d),
         Add(r.e, state.e), Add(r.f, state.f), Add(r.g, state.g), Add(r.h, state.h))
  }

  /** Blocks from the first to the last, each starting from what the one before left. */
  function Continued(state: Regs, blocks: seq<byte>): Regs
    requires |blocks| % 64 == 0
    decreases |blocks|
  {
    if blocks == [] then state else Continued(Compressed(state, blocks[..64]), blocks[64..])
  }

  lemma SumIsCompressed(state: Regs, block: seq<byte>)
    requires |block| == 64
    ensures Sum(state, Rounds(block, state, 64)) == Compressed(state, block)
  {
    hide Rounds;
  }

  lemma {:induction false} ContinuedSnoc(state: Regs, blocks: seq<byte>, last: seq<byte>)
    requires |blocks| % 64 == 0 && |last| == 64
    ensures Continued(state, blocks + last) == Compressed(Continued(state, blocks), last)
    decreases |blocks|
  {
    hide Compressed;
    if blocks == [] {
      assert blocks + last == last && last[..64] == last && last[64..] == [];
    } else {
      assert (blocks + last)[..64] == blocks[..64] && (blocks + last)[64..] == blocks[64..] + last;
      ContinuedSnoc(Compressed(state, blocks[..64]), blocks[64..], last);
    }
  }

  lemma LastBlockHashed(front: seq<byte>, last: seq<byte>)
    requires |front| % 64 == 0 && |last| == 64
    ensures |front + last| % 64 == 0 && Hashed(front + last) == Compressed(Hashed(front), last)
  {
    hide Compressed, Rounds, Sum;
    assert (front + last)[..|front|] == front && (front + last)[|front|..] == last;
    SumIsCompressed(Hashed(front), last);
  }

  lemma {:induction false} HashedInOrder(padded: seq<byte>)
    requires |padded| % 64 == 0
    ensures Hashed(padded) == Continued(INITIAL, padded)
  {
    hide Compressed;
    if padded != [] {
      var n := |padded| - 64;
      assert |padded[..n]| % 64 == 0 && padded[..n] + padded[n..] == padded;
      HashedInOrder(padded[..n]);
      hide Hashed, Continued;
      LastBlockHashed(padded[..n], padded[n..]);
      ContinuedSnoc(INITIAL, padded[..n], padded[n..]);
    }
  }
}
