/** The worker's SHA-256 (FIPS 180-4), which binds an approval to a plan. */
module Sha256 {
  import opened Utf8

  const TWO64 := 0x1_0000_0000_0000_0000
  const TWO61 := 0x2000_0000_0000_0000

  // ----- padding, section 5.1.1

  function Zeros(n: nat): seq<byte> {
    seq(n, _ => 0)
  }

  function Power256(n: nat): nat {
    if n == 0 then 1 else 256 * Power256(n - 1)
  }

  /** `value >> (8 * n)` */
  function Shifted(value: nat, n: nat): nat {
    if n == 0 then value else Shifted(value, n - 1) / 256
  }

  /** The last `n` bytes of a number, most significant first. */
  function BigEndian(value: nat, n: nat): (s: seq<byte>)
    ensures |s| == n
  {
    if n == 0 then [] else BigEndian(value / 256, n - 1) + [value % 256]
  }

  function Number(s: seq<byte>): nat {
    if s == [] then 0 else 256 * Number(s[..|s| - 1]) + s[|s| - 1]
  }

  lemma {:induction false} NumberOfBigEndian(value: nat, n: nat)
    requires value < Power256(n)
    ensures Number(BigEndian(value, n)) == value
  {
    if n > 0 {
      var front := BigEndian(value / 256, n - 1);
      assert BigEndian(value, n) == front + [value % 256] && value / 256 < Power256(n - 1);
      hide BigEndian, Power256;
      NumberOfBigEndian(value / 256, n - 1);
      assert (front + [value % 256])[..n - 1] == front;
    }
  }

  /** How many zero bytes follow the marker: the fewest that make the length right. */
  function ZeroCount(length: nat): (k: nat)
    ensures k < 64 && (length + 1 + k) % 64 == 56
  {
    (119 - length % 64) % 64
  }

  function Padded(message: seq<byte>): seq<byte> {
    message + [0x80] + Zeros(ZeroCount(|message|)) + BigEndian(8 * |message| % TWO64, 8)
  }

  lemma PaddedLength(message: seq<byte>)
    ensures |Padded(message)| % 64 == 0
  {
    hide BigEndian, Zeros, ZeroCount;
    var k := ZeroCount(|message|);
    ZerosLength(k);
    assert |Padded(message)| == |message| + 1 + k + 8;
  }

  method PadMessage(input: seq<byte>) returns (bytes: seq<byte>)
    ensures bytes == Padded(input) && |bytes| % 64 == 0
  {
    hide BigEndian, Zeros, ZeroCount;
    PaddedLength(input);
    var bitLength := |input| * 8 % TWO64;
    bytes := AddZeros(input + [0x80], |input|);
    bytes := AddLength(bytes, bitLength);
  }

  lemma ZerosLength(n: nat)
    ensures |Zeros(n)| == n
  {
  }

  method AddZeros(start: seq<byte>, length: nat) returns (bytes: seq<byte>)
    requires |start| == length + 1
    ensures bytes == start + Zeros(ZeroCount(length))
  {
    hide ZeroCount;
    bytes := start;
    ghost var k := 0;
    while |bytes| % 64 != 56
      invariant 0 <= k <= ZeroCount(length) && bytes == start + Zeros(k)
      decreases ZeroCount(length) - k
    {
      SmallerCount(length, k);
      bytes := bytes + [0];
      assert Zeros(k + 1) == Zeros(k) + [0];
      k := k + 1;
    }
    SmallerCount(length, k);
  }

  method AddLength(start: seq<byte>, bitLength: nat) returns (bytes: seq<byte>)
    ensures bytes == start + BigEndian(bitLength, 8)
  {
    bytes := start;
    var i := 8;
    while i > 0
      invariant 0 <= i <= 8 && bytes == start + BigEndian(Shifted(bitLength, i), 8 - i)
      decreases i
    {
      i := i - 1;
      bytes := bytes + [Shifted(bitLength, i) % 256];
    }
    assert Shifted(bitLength, 0) == bitLength;
  }

  lemma SmallerCount(length: nat, k: nat)
    requires k <= ZeroCount(length)
    ensures (length + 1 + k) % 64 == 56 <==> k == ZeroCount(length)
  {
  }

  /** Reads the message back out of its padding. */
  function Unpadded(padded: seq<byte>): seq<byte> {
    var n := |padded|;
    var length := if n >= 8 then Number(padded[n - 8..]) / 8 else 0;
    if length <= n then padded[..length] else []
  }

  /** Padding loses nothing, for every message short enough for its length to be written in 64 bits. */
  lemma PaddingInverts(message: seq<byte>)
    requires |message| < TWO61
    ensures Unpadded(Padded(message)) == message
  {
    hide BigEndian, Number;
    var bits, padded := 8 * |message|, Padded(message);
    EightBytes();
    NumberOfBigEndian(bits, 8);
    assert padded[|padded| - 8..] == BigEndian(bits, 8);
    assert padded[..|message|] == message;
  }

  lemma EightBytes()
    ensures Power256(8) == TWO64
  {
    assert Power256(1) == 0x100 && Power256(2) == 0x1_0000 && Power256(3) == 0x100_0000 && Power256(4) == 0x1_0000_0000;
    assert Power256(5) == 0x100_0000_0000 && Power256(6) == 0x1_0000_0000_0000 && Power256(7) == 0x100_0000_0000_0000;
  }

  lemma PaddingInjective(a: seq<byte>, b: seq<byte>)
    requires |a| < TWO61 && |b| < TWO61 && Padded(a) == Padded(b)
    ensures a == b
  {
    PaddingInverts(a);
    PaddingInverts(b);
  }

  // ----- the hash computation, section 6.2.2

  // The constants of section 4.2.2, eight in a row.
  const K0: seq<bv32> :=
    [0x428a2f98, 0x71374491, 0xb5c0fbcf, 0xe9b5dba5, 0x3956c25b, 0x59f111f1, 0x923f82a4, 0xab1c5ed5]
  const K8: seq<bv32> :=
    [0xd807aa98, 0x12835b01, 0x243185be, 0x550c7dc3, 0x72be5d74, 0x80deb1fe, 0x9bdc06a7, 0xc19bf174]
  const K16: seq<bv32> :=
    [0xe49b69c1, 0xefbe4786, 0x0fc19dc6, 0x240ca1cc, 0x2de92c6f, 0x4a7484aa, 0x5cb0a9dc, 0x76f988da]
  const K24: seq<bv32> :=
    [0x983e5152, 0xa831c66d, 0xb00327c8, 0xbf597fc7, 0xc6e00bf3, 0xd5a79147, 0x06ca6351, 0x14292967]
  const K32: seq<bv32> :=
    [0x27b70a85, 0x2e1b2138, 0x4d2c6dfc, 0x53380d13, 0x650a7354, 0x766a0abb, 0x81c2c92e, 0x92722c85]
  const K40: seq<bv32> :=
    [0xa2bfe8a1, 0xa81a664b, 0xc24b8b70, 0xc76c51a3, 0xd192e819, 0xd6990624, 0xf40e3585, 0x106aa070]
  const K48: seq<bv32> :=
    [0x19a4c116, 0x1e376c08, 0x2748774c, 0x34b0bcb5, 0x391c0cb3, 0x4ed8aa4a, 0x5b9cca4f, 0x682e6ff3]
  const K56: seq<bv32> :=
    [0x748f82ee, 0x78a5636f, 0x84c87814, 0x8cc70208, 0x90befffa, 0xa4506ceb, 0xbef9a3f7, 0xc67178f2]

  const K := K0 + K8 + K16 + K24 + K32 + K40 + K48 + K56

  /** The eight working variables, and the eight words of an intermediate hash value. */
  datatype Regs = Regs(a: bv32, b: bv32, c: bv32, d: bv32, e: bv32, f: bv32, g: bv32, h: bv32)

  const INITIAL := Regs(0x6a09e667, 0xbb67ae85, 0x3c6ef372, 0xa54ff53a, 0x510e527f, 0x9b05688c, 0x1f83d9ab, 0x5be0cd19)

  function RotateRight(value: bv32, shift: bv32): bv32
    requires 0 < shift < 32
  {
    (value >> shift) | (value << (32 - shift))
  }

  function ShiftRight(value: bv32, shift: bv32): bv32
    requires shift < 32
  {
    value >> shift
  }

  // The functions of section 4.1.2.
  function Ch(x: bv32, y: bv32, z: bv32): bv32 { (x & y) ^ ((!x) & z) }
  function Maj(x: bv32, y: bv32, z: bv32): bv32 { (x & y) ^ (x & z) ^ (y & z) }
  function Xor(x: bv32, y: bv32, z: bv32): bv32 { x ^ y ^ z }
  function BigSigma0(x: bv32): bv32 { Xor(RotateRight(x, 2), RotateRight(x, 13), RotateRight(x, 22)) }
  function BigSigma1(x: bv32): bv32 { Xor(RotateRight(x, 6), RotateRight(x, 11), RotateRight(x, 25)) }
  function SmallSigma0(x: bv32): bv32 { Xor(RotateRight(x, 7), RotateRight(x, 18), ShiftRight(x, 3)) }
  function SmallSigma1(x: bv32): bv32 { Xor(RotateRight(x, 17), RotateRight(x, 19), ShiftRight(x, 10)) }

  /** Addition modulo 2^32. */
  function Add(x: bv32, y: bv32): bv32 { x + y }

  function Word(b0: byte, b1: byte, b2: byte, b3: byte): bv32 {
    ((b0 as bv32) << 24) | ((b1 as bv32) << 16) | ((b2 as bv32) << 8) | (b3 as bv32)
  }

  /** The message schedule W of one block. */
  function Schedule(block: seq<byte>, t: nat): bv32
    requires |block| == 64 && t < 64
  {
    if t < 16 then Word(block[4 * t], block[4 * t + 1], block[4 * t + 2], block[4 * t + 3])
    else
      Add(Add(Add(Schedule(block, t - 16), SmallSigma0(Schedule(block, t - 15))), Schedule(block, t - 7)),
          SmallSigma1(Schedule(block, t - 2)))
  }

  function Round(r: Regs, k: bv32, w: bv32): Regs {
    var t1 := Add(Add(Add(Add(r.h, BigSigma1(r.e)), Ch(r.e, r.f, r.g)), k), w);
    var t2 := Add(BigSigma0(r.a), Maj(r.a, r.b, r.c));
    Regs(Add(t1, t2), r.a, r.b, r.c, Add(r.d, t1), r.e, r.f, r.g)
  }

  /** The working variables after `t` rounds. */
  function Rounds(block: seq<byte>, start: Regs, t: nat): Regs
    requires |block| == 64 && t <= 64
  {
    if t == 0 then start else Round(Rounds(block, start, t - 1), K[t - 1], Schedule(block, t - 1))
  }

  function Sum(x: Regs, y: Regs): Regs {
    Regs(Add(x.a, y.a), Add(x.b, y.b), Add(x.c, y.c), Add(x.d, y.d),
         Add(x.e, y.e), Add(x.f, y.f), Add(x.g, y.g), Add(x.h, y.h))
  }

  /** The intermediate hash value after all blocks. */
  function Hashed(padded: seq<byte>): Regs
    requires |padded| % 64 == 0
  {
    if padded == [] then INITIAL
    else
      var n := |padded| - 64;
      var before := Hashed(padded[..n]);
      Sum(before, Rounds(padded[n..], before, 64))
  }

  /** The two filling loops of one block; `w` is the array reused from block to block. */
  method FillSchedule(padded: seq<byte>, block: nat, w: array<bv32>)
    requires block + 64 <= |padded| && w.Length == 64
    modifies w
    ensures forall t :: 0 <= t < 64 ==> w[t] == Schedule(padded[block..block + 64], t)
  {
    hide SmallSigma0, SmallSigma1, Add, Word;
    ghost var bytes := padded[block..block + 64];
    var i := 0;
    while i < 16
      invariant 0 <= i <= 16 && forall t :: 0 <= t < i ==> w[t] == Schedule(bytes, t)
    {
      var offset := block + i * 4;
      w[i] := Word(padded[offset], padded[offset + 1], padded[offset + 2], padded[offset + 3]);
      i := i + 1;
    }
    while i < 64
      invariant 16 <= i <= 64 && forall t :: 0 <= t < i ==> w[t] == Schedule(bytes, t)
    {
      var s0 := SmallSigma0(w[i - 15]);
      var s1 := SmallSigma1(w[i - 2]);
      w[i] := Add(Add(Add(w[i - 16], s0), w[i - 7]), s1);
      i := i + 1;
    }
  }

  method RunRounds(ghost block: seq<byte>, w: array<bv32>, state: Regs) returns (r: Regs)
    requires |block| == 64 && w.Length == 64 && forall t :: 0 <= t < 64 ==> w[t] == Schedule(block, t)
    ensures r == Rounds(block, state, 64)
  {
    hide BigSigma0, BigSigma1, Ch, Maj, Schedule, Add;
    var a, b, c, d, e, f, g, h := state.a, state.b, state.c, state.d, state.e, state.f, state.g, state.h;
    var i := 0;
    while i < 64
      invariant 0 <= i <= 64 && Regs(a, b, c, d, e, f, g, h) == Rounds(block, state, i)
    {
      var temp1 := Add(Add(Add(Add(h, BigSigma1(e)), Ch(e, f, g)), K[i]), w[i]);
      var temp2 := Add(BigSigma0(a), Maj(a, b, c));
      h := g;
      g := f;
      f := e;
      e := Add(d, temp1);
      d := c;
      c := b;
      b := a;
      a := Add(temp1, temp2);
      i := i + 1;
    }
    r := Regs(a, b, c, d, e, f, g, h);
  }

  method ProcessBlocks(padded: seq<byte>) returns (state: Regs)
    requires |padded| % 64 == 0
    ensures state == Hashed(padded)
  {
    hide Rounds, Schedule, Sum;
    state := INITIAL;
    var w := new bv32[64];
    var block := 0;
    while block < |padded|
      invariant 0 <= block <= |padded| && block % 64 == 0 && state == Hashed(padded[..block])
    {
      FillSchedule(padded, block, w);
      var r := RunRounds(padded[block..block + 64], w, state);
      ghost var done := padded[..block + 64];
      assert done[..block] == padded[..block] && done[block..] == padded[block..block + 64];
      state := Sum(state, r);
      block := block + 64;
    }
    assert padded[..block] == padded;
  }

  // ----- the hexadecimal digest

  const DIGITS := "0123456789abcdef"

  /** std::hex with a width and zero fill. */
  function Hex(value: nat, width: nat): (s: string)
    ensures |s| == width
  {
    if width == 0 then "" else Hex(value / 16, width - 1) + [DIGITS[value % 16]]
  }

  function DigitValue(c: char): nat {
    if '0' <= c <= '9' then (c - '0') as nat else if 'a' <= c <= 'f' then (c - 'a') as nat + 10 else 0
  }

  function HexValue(s: string): nat {
    if s == "" then 0 else 16 * HexValue(s[..|s| - 1]) + DigitValue(s[|s| - 1])
  }

  function Power16(n: nat): nat {
    if n == 0 then 1 else 16 * Power16(n - 1)
  }

  lemma DigitRoundTrip(d: nat)
    requires d < 16
    ensures DigitValue(DIGITS[d]) == d
  {
  }

  lemma {:induction false} HexRoundTrip(value: nat, width: nat)
    requires value < Power16(width)
    ensures HexValue(Hex(value, width)) == value
  {
    if width > 0 {
      var s := Hex(value, width);
      assert s[..width - 1] == Hex(value / 16, width - 1);
      HexRoundTrip(value / 16, width - 1);
      DigitRoundTrip(value % 16);
    }
  }

  function Words(r: Regs): seq<nat> {
    [r.a as nat, r.b as nat, r.c as nat, r.d as nat, r.e as nat, r.f as nat, r.g as nat, r.h as nat]
  }

  function HexWords(words: seq<nat>): string {
    if words == [] then "" else HexWords(words[..|words| - 1]) + Hex(words[|words| - 1], 8)
  }

  method Sha256Hex(input: seq<byte>) returns (out: string)
    ensures |Padded(input)| % 64 == 0 && out == HexWords(Words(Hashed(Padded(input))))
  {
    hide Hashed, Padded, Hex;
    var padded := PadMessage(input);
    var digest := ProcessBlocks(padded);
    var words := Words(digest);
    out := "";
    var i := 0;
    while i < |words|
      invariant 0 <= i <= |words| && out == HexWords(words[..i])
    {
      assert words[..i + 1][..i] == words[..i];
      out := out + Hex(words[i], 8);
      i := i + 1;
    }
    assert words[..i] == words;
  }

  lemma EightDigits()
    ensures Power16(8) == 0x1_0000_0000
  {
    assert Power16(2) == 0x100 && Power16(4) == 0x1_0000 && Power16(6) == 0x100_0000;
  }

  lemma WordsFit(r: Regs)
    ensures |Words(r)| == 8 && forall i :: 0 <= i < 8 ==> Words(r)[i] < 0x1_0000_0000
  {
  }

  /** The digest has eight digits a word, and the words can be read back from it. */
  lemma {:induction false} DigestDecodes(words: seq<nat>, i: nat)
    requires i < |words| && forall k :: 0 <= k < |words| ==> words[k] < 0x1_0000_0000
    ensures |HexWords(words)| == 8 * |words|
    ensures HexValue(HexWords(words)[8 * i..8 * i + 8]) == words[i]
  {
    hide Hex, HexValue;
    var n := |words| - 1;
    var init := words[..n];
    if n > 0 { DigestDecodes(init, if i < n then i else 0); }
    var front, last := HexWords(init), Hex(words[n], 8);
    assert HexWords(words) == front + last && |front| == 8 * n;
    if i < n {
      assert (front + last)[8 * i..8 * i + 8] == front[8 * i..8 * i + 8];
    } else {
      assert (front + last)[8 * n..8 * n + 8] == last;
      EightDigits();
      HexRoundTrip(words[n], 8);
    }
  }

  /** The digest is written in lower-case hexadecimal, 64 digits for eight words. */
  lemma {:induction false} DigestIsHex(words: seq<nat>)
    ensures |HexWords(words)| == 8 * |words| && forall i :: 0 <= i < |HexWords(words)| ==> HexWords(words)[i] in DIGITS
  {
    if words != [] {
      var n := |words| - 1;
      DigestIsHex(words[..n]);
      HexIsDigits(words[n], 8);
    }
  }

  lemma {:induction false} HexIsDigits(value: nat, width: nat)
    ensures forall i :: 0 <= i < width ==> Hex(value, width)[i] in DIGITS
  {
    if width > 0 { HexIsDigits(value / 16, width - 1); }
  }

  /** Equal digests mean equal hash values, word by word. */
  lemma DigestGivesWords(a: Regs, b: Regs)
    requires HexWords(Words(a)) == HexWords(Words(b))
    ensures Words(a) == Words(b)
  {
    hide HexWords, HexValue;
    WordsFit(a);
    WordsFit(b);
    forall i | 0 <= i < 8 ensures Words(a)[i] == Words(b)[i] {
      DigestDecodes(Words(a), i);
      DigestDecodes(Words(b), i);
    }
  }
}
