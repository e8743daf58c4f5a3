/** UTF-8 text as bytes, and the two places where the router cuts it. */
module Utf8 {

  type byte = x: int | 0 <= x < 256

  predicate Tail(b: byte) { 0x80 <= b <= 0xBF }

  /** The length of the character that starts `s`, by the grammar of section 4 of RFC 3629; 0 if
      none does. */
  function CharLen(s: seq<byte>): nat {
    if |s| >= 1 && s[0] <= 0x7F then 1
    else if |s| >= 2 && 0xC2 <= s[0] <= 0xDF && Tail(s[1]) then 2
    else if |s| >= 3 && ThreeByteStart(s[0], s[1]) && Tail(s[2]) then 3
    else if |s| >= 4 && FourByteStart(s[0], s[1]) && Tail(s[2]) && Tail(s[3]) then 4
    else 0
  }

  predicate ThreeByteStart(a: byte, b: byte) {
    || (a == 0xE0 && 0xA0 <= b <= 0xBF)
    || (0xE1 <= a <= 0xEC && Tail(b))
    || (a == 0xED && 0x80 <= b <= 0x9F)
    || (0xEE <= a <= 0xEF && Tail(b))
  }

  predicate FourByteStart(a: byte, b: byte) {
    || (a == 0xF0 && 0x90 <= b <= 0xBF)
    || (0xF1 <= a <= 0xF3 && Tail(b))
    || (a == 0xF4 && 0x80 <= b <= 0x8F)
  }

  predicate WellFormed(s: seq<byte>) {
    s == [] || (CharLen(s) > 0 && WellFormed(s[CharLen(s)..]))
  }

  /** str::is_char_boundary */
  predicate Boundary(s: seq<byte>, i: nat) {
    i == 0 || i == |s| || (i < |s| && !Tail(s[i]))
  }

  function Concat(pieces: seq<seq<byte>>): seq<byte> {
    if pieces == [] then [] else Concat(pieces[..|pieces| - 1]) + pieces[|pieces| - 1]
  }

  lemma {:induction false} ConcatFront(pieces: seq<seq<byte>>)
    requires pieces != []
    ensures Concat(pieces) == pieces[0] + Concat(pieces[1..])
  {
    if |pieces| > 1 {
      var init := pieces[..|pieces| - 1];
      ConcatFront(init);
      assert pieces[1..][..|pieces| - 2] == init[1..];
    }
  }

  /** Well-formed texts join to a well-formed text. */
  lemma {:induction false} JoinedWellFormed(a: seq<byte>, b: seq<byte>)
    requires WellFormed(a) && WellFormed(b)
    ensures WellFormed(a + b)
  {
    if a == [] {
      assert a + b == b;
    } else {
      var n := CharLen(a);
      assert CharLen(a + b) == n && (a + b)[n..] == a[n..] + b;
      JoinedWellFormed(a[n..], b);
    }
  }

  lemma {:induction false} AsciiWellFormed(s: seq<byte>)
    requires forall i :: 0 <= i < |s| ==> s[i] <= 0x7F
    ensures WellFormed(s)
  {
    if s != [] { AsciiWellFormed(s[1..]); }
  }

  lemma InsideChar(s: seq<byte>, i: nat)
    requires 0 < i < CharLen(s)
    ensures i < |s| && Tail(s[i])
  {
  }

  /** The bytes of the first character decide its length. */
  lemma CharLenOfPrefix(s: seq<byte>, i: nat)
    requires CharLen(s) <= i <= |s|
    ensures CharLen(s[..i]) == CharLen(s)
  {
  }

  lemma FirstCharFits(s: seq<byte>)
    requires WellFormed(s) && s != []
    ensures 1 <= CharLen(s) <= 4 && CharLen(s) <= |s| && WellFormed(s[CharLen(s)..])
  {
  }

  lemma PastFirstChar(s: seq<byte>, i: nat)
    requires WellFormed(s) && 0 < i <= |s| && Boundary(s, i)
    ensures 0 < CharLen(s) <= i && WellFormed(s[CharLen(s)..]) && Boundary(s[CharLen(s)..], i - CharLen(s))
  {
    hide CharLen, WellFormed;
    FirstCharFits(s);
    if i < CharLen(s) { InsideChar(s, i); }
  }

  lemma CutTwice(s: seq<byte>, n: nat, i: nat)
    requires n <= i <= |s|
    ensures s[..i][n..] == s[n..][..i - n] && s[n..][i - n..] == s[i..]
  {
  }

  lemma CharThenRest(s: seq<byte>)
    requires CharLen(s) > 0 && WellFormed(s[CharLen(s)..])
    ensures WellFormed(s)
  {
  }

  /** Cutting well-formed text at a boundary leaves two well-formed texts. */
  lemma {:induction false} CutAtBoundary(s: seq<byte>, i: nat)
    requires WellFormed(s) && i <= |s| && Boundary(s, i)
    ensures WellFormed(s[..i]) && WellFormed(s[i..])
  {
    if i == 0 {
      assert s[..0] == [] && s[0..] == s;
    } else {
      hide CharLen, WellFormed;
      var n := CharLen(s);
      PastFirstChar(s, i);
      hide Boundary;
      CutAtBoundary(s[n..], i - n);
      CutTwice(s, n, i);
      CharLenOfPrefix(s, i);
      CharThenRest(s[..i]);
    }
  }

  lemma WellFormedStarts(s: seq<byte>)
    requires WellFormed(s) && s != []
    ensures !Tail(s[0])
  {
  }

  /** The first character after a boundary ends at the next boundary. */
  lemma NextBoundary(s: seq<byte>, start: nat, k: nat)
    requires WellFormed(s) && start < |s| && Boundary(s, start) && start < k <= |s|
    ensures 1 <= CharLen(s[start..]) <= 4 && start + CharLen(s[start..]) <= |s|
    ensures k < start + CharLen(s[start..]) ==> !Boundary(s, k)
    ensures k == start + CharLen(s[start..]) ==> Boundary(s, k)
  {
    hide CharLen, WellFormed;
    CutAtBoundary(s, start);
    var t := s[start..];
    var n := CharLen(t);
    FirstCharFits(t);
    if k < start + n { InsideChar(t, k - start); }
    if k == start + n && k < |s| { WellFormedStarts(t[n..]); }
  }

  /** Every character of `s` is at most `maximum` bytes long. */
  ghost predicate CharsFit(s: seq<byte>, maximum: nat) {
    forall i: nat :: i < |s| && Boundary(s, i) ==> CharLen(s[i..]) <= maximum
  }

  lemma FourBytesSuffice(s: seq<byte>, maximum: nat)
    requires maximum >= 4
    ensures CharsFit(s, maximum)
  {
  }

  /** The inner scan of both cuts: the last boundary in start..limit. */
  method ScanBack(value: seq<byte>, start: nat, limit: nat) returns (end: nat)
    requires start <= limit <= |value| && Boundary(value, start)
    ensures start <= end <= limit && Boundary(value, end)
    ensures forall k :: end < k <= limit ==> !Boundary(value, k)
  {
    end := limit;
    while end > start && !Boundary(value, end)
      invariant start <= end <= limit
      invariant forall k :: end < k <= limit ==> !Boundary(value, k)
    {
      end := end - 1;
    }
  }

  /** From a boundary, the scan comes back without progress exactly when the character there is
      longer than `maximum`; `split_bounded` would then push empty pieces forever. */
  lemma ScanStallsIff(value: seq<byte>, start: nat, maximum: nat, limit: nat, end: nat)
    requires WellFormed(value) && start < |value| && Boundary(value, start)
    requires limit == if start + maximum <= |value| then start + maximum else |value|
    requires start <= end <= limit && Boundary(value, end) && forall k :: end < k <= limit ==> !Boundary(value, k)
    ensures end == start <==> CharLen(value[start..]) > maximum
  {
    var n := CharLen(value[start..]);
    NextBoundary(value, start, |value|);
    NextBoundary(value, start, start + n);
    if start < end { NextBoundary(value, start, end); }
  }

  /** A cut loses fewer than four bytes below the limit. */
  lemma ScanIsClose(value: seq<byte>, limit: nat, end: nat)
    requires WellFormed(value) && end <= limit <= |value| && Boundary(value, end)
    requires forall k :: end < k <= limit ==> !Boundary(value, k)
    ensures limit < end + 4
  {
    if end < |value| {
      NextBoundary(value, end, |value|);
      NextBoundary(value, end, end + CharLen(value[end..]));
    }
  }

  lemma ScanAdvances(value: seq<byte>, start: nat, maximum: nat, limit: nat, end: nat)
    requires WellFormed(value) && CharsFit(value, maximum) && start < |value| && Boundary(value, start)
    requires limit == if start + maximum <= |value| then start + maximum else |value|
    requires start <= end <= limit && Boundary(value, end) && forall k :: end < k <= limit ==> !Boundary(value, k)
    ensures start < end && (limit == |value| ==> end == |value|)
  {
    ScanStallsIff(value, start, maximum, limit, end);
    assert Boundary(value, |value|);
  }

  lemma Ends(value: seq<byte>)
    ensures Boundary(value, 0) && Boundary(value, |value|)
  {
  }

  ghost predicate PieceFits(piece: seq<byte>, maximum: nat) {
    WellFormed(piece) && |piece| <= maximum
  }

  /** Terminates and cuts `value` into well-formed pieces of at most `maximum` bytes, every one but
      the last within four bytes of it. */
  method SplitBounded(value: seq<byte>, maximum: nat) returns (pieces: seq<seq<byte>>)
    requires WellFormed(value) && CharsFit(value, maximum)
    ensures Concat(pieces) == value
    ensures forall i :: 0 <= i < |pieces| ==> PieceFits(pieces[i], maximum)
    ensures forall i :: 0 <= i < |pieces| - 1 ==> |pieces[i]| + 4 > maximum
  {
    hide WellFormed, CharLen, CharsFit, Boundary;
    if |value| <= maximum {
      pieces := [value];
      assert pieces[..0] == [];
      return;
    }
    Ends(value);
    pieces := [];
    var start := 0;
    while start < |value|
      invariant start <= |value| && Boundary(value, start) && Concat(pieces) == value[..start]
      invariant forall i :: 0 <= i < |pieces| ==> PieceFits(pieces[i], maximum)
      invariant forall i :: 0 <= i < |pieces| - 1 ==> |pieces[i]| + 4 > maximum
      invariant start < |value| && pieces != [] ==> |pieces[|pieces| - 1]| + 4 > maximum
      decreases |value| - start
    {
      var limit := if start + maximum <= |value| then start + maximum else |value|;
      var end := ScanBack(value, start, limit);
      ScanAdvances(value, start, maximum, limit, end);
      ScanIsClose(value, limit, end);
      PieceWellFormed(value, start, end);
      assert value[..start] + value[start..end] == value[..end];
      ghost var before := pieces;
      pieces := pieces + [value[start..end]];
      assert pieces[..|pieces| - 1] == before;
      start := end;
    }
    assert value[..start] == value;
  }

  lemma PieceWellFormed(value: seq<byte>, start: nat, end: nat)
    requires WellFormed(value) && start <= end <= |value| && Boundary(value, start) && Boundary(value, end)
    ensures WellFormed(value[start..end])
  {
    CutAtBoundary(value, end);
    assert value[..end][start..] == value[start..end];
    CutAtBoundary(value[..end], start);
  }

  /** A longest well-formed beginning of `value` within `maximum` bytes. */
  ghost predicate IsCut(value: seq<byte>, maximum: nat, cut: seq<byte>) {
    && cut <= value && |cut| <= maximum && WellFormed(cut)
    && (|value| <= maximum ==> cut == value)
    && (|value| > maximum ==> |cut| + 4 > maximum)
    && forall longer :: cut < longer <= value && |longer| <= maximum ==> !WellFormed(longer)
  }

  lemma PrefixBoundary(value: seq<byte>, k: nat)
    requires WellFormed(value) && k <= |value| && WellFormed(value[..k])
    ensures Boundary(value, k)
    decreases |value|
  {
    if 0 < k < |value| {
      var n := CharLen(value[..k]);
      assert n == CharLen(value);
      assert value[..k][n..] == value[n..][..k - n];
      PrefixBoundary(value[n..], k - n);
      if k == n { assert value[n..][0] == value[n] && WellFormed(value[n..]); }
    }
  }

  method TruncateUtf8(value: seq<byte>, maximum: nat) returns (cut: seq<byte>, truncated: bool)
    requires WellFormed(value)
    ensures IsCut(value, maximum, cut) && truncated == (|value| > maximum)
  {
    if |value| <= maximum {
      return value, false;
    }
    var end := ScanBack(value, 0, maximum);
    ScanIsClose(value, maximum, end);
    CutAtBoundary(value, end);
    cut, truncated := value[..end], true;
    forall longer | cut < longer <= value && |longer| <= maximum ensures !WellFormed(longer) {
      assert longer == value[..|longer|];
      if WellFormed(longer) { PrefixBoundary(value, |longer|); }
    }
  }

  /** The cut is determined by the text and the limit. */
  lemma CutUnique(value: seq<byte>, maximum: nat, a: seq<byte>, b: seq<byte>)
    requires IsCut(value, maximum, a) && IsCut(value, maximum, b)
    ensures a == b
  {
    assert !(a < b) && !(b < a);
    assert a == value[..|a|] && b == value[..|b|];
  }

  // ----- what well-formed means, section 3 of RFC 3629

  /** A Unicode scalar value: a code point that is no surrogate. */
  predicate Scalar(c: int) {
    0 <= c <= 0x10FFFF && !(0xD800 <= c <= 0xDFFF)
  }

  function Encoded(c: int): seq<byte>
    requires Scalar(c)
  {
    if c < 0x80 then [c]
    else if c < 0x800 then [0xC0 + c / 64, 0x80 + c % 64]
    else if c < 0x10000 then [0xE0 + c / 4096, 0x80 + c / 64 % 64, 0x80 + c % 64]
    else [0xF0 + c / 262144, 0x80 + c / 4096 % 64, 0x80 + c / 64 % 64, 0x80 + c % 64]
  }

  function Decoded(s: seq<byte>): int
    requires CharLen(s) > 0
  {
    match CharLen(s)
    case 1 => Value(0, 0, 0, s[0])
    case 2 => Value(0, 0, s[0] - 0xC0, s[1] - 0x80)
    case 3 => Value(0, s[0] - 0xE0, s[1] - 0x80, s[2] - 0x80)
    case _ => Value(s[0] - 0xF0, s[1] - 0x80, s[2] - 0x80, s[3] - 0x80)
  }

  function Value(a: int, b: int, c: int, d: int): int {
    262144 * a + 4096 * b + 64 * c + d
  }

  lemma EncodedIsChar(c: int, rest: seq<byte>)
    requires Scalar(c)
    ensures CharLen(Encoded(c) + rest) == |Encoded(c)| && (Encoded(c) + rest)[|Encoded(c)|..] == rest
  {
    var s := Encoded(c) + rest;
    if c >= 0x10000 {
      FourFits(c);
      assert s[0] == 0xF0 + c / 262144 && s[1] == 0x80 + c / 4096 % 64 && Tail(s[2]) && Tail(s[3]);
    } else if c >= 0x800 {
      ThreeFits(c);
      assert s[0] == 0xE0 + c / 4096 && s[1] == 0x80 + c / 64 % 64 && Tail(s[2]);
    } else if c >= 0x80 {
      assert s[0] == 0xC0 + c / 64 && Tail(s[1]);
    }
  }

  lemma ThreeFits(c: int)
    requires 0x800 <= c < 0x10000 && Scalar(c)
    ensures ThreeByteStart(0xE0 + c / 4096, 0x80 + c / 64 % 64)
  {
    var a, b := c / 4096, c / 64 % 64;
    assert c / 64 == 64 * a + b;
  }

  lemma FourFits(c: int)
    requires 0x10000 <= c <= 0x10FFFF
    ensures FourByteStart(0xF0 + c / 262144, 0x80 + c / 4096 % 64)
  {
    var a, b := c / 262144, c / 4096 % 64;
    assert c / 4096 == 64 * a + b;
  }

  /** The parts of a number, six bits each, can be read back from it. */
  lemma Parts(a: int, b: int, c: int, d: int)
    requires 0 <= a && 0 <= b < 64 && 0 <= c < 64 && 0 <= d < 64
    ensures var v := Value(a, b, c, d);
      v % 64 == d && v / 64 % 64 == c && v / 4096 % 64 == b && v / 262144 == a && v / 4096 == 64 * a + b
      && v / 64 == 4096 * a + 64 * b + c
  {
    var v := Value(a, b, c, d);
    assert v / 64 == 4096 * a + 64 * b + c && v % 64 == d;
    assert v / 4096 == 64 * a + b by { assert v == 4096 * (64 * a + b) + (64 * c + d); }
    assert v / 262144 == a by { assert v == 262144 * a + (4096 * b + 64 * c + d); }
  }

  lemma DecodedIsScalar(s: seq<byte>)
    requires CharLen(s) > 0
    ensures CharLen(s) <= |s| && Scalar(Decoded(s)) && Encoded(Decoded(s)) == s[..CharLen(s)]
  {
    var n := CharLen(s);
    if n == 1 {
      assert s[..1] == [s[0]];
    } else if n == 2 {
      TwoDecode(s[0], s[1]);
      assert s[..2] == [s[0], s[1]];
    } else if n == 3 {
      ThreeDecode(s[0], s[1], s[2]);
      assert s[..3] == [s[0], s[1], s[2]];
    } else {
      FourDecode(s[0], s[1], s[2], s[3]);
      assert s[..4] == [s[0], s[1], s[2], s[3]];
    }
  }

  lemma TwoDecode(a: byte, b: byte)
    requires 0xC2 <= a <= 0xDF && Tail(b)
    ensures var v := Value(0, 0, a - 0xC0, b - 0x80); Scalar(v) && Encoded(v) == [a, b]
  {
    Parts(0, 0, a - 0xC0, b - 0x80);
  }

  lemma ThreeDecode(a: byte, b: byte, c: byte)
    requires ThreeByteStart(a, b) && Tail(c)
    ensures var v := Value(0, a - 0xE0, b - 0x80, c - 0x80); Scalar(v) && Encoded(v) == [a, b, c]
  {
    Parts(0, a - 0xE0, b - 0x80, c - 0x80);
  }

  lemma FourDecode(a: byte, b: byte, c: byte, d: byte)
    requires FourByteStart(a, b) && Tail(c) && Tail(d)
    ensures var v := Value(a - 0xF0, b - 0x80, c - 0x80, d - 0x80); Scalar(v) && Encoded(v) == [a, b, c, d]
  {
    Parts(a - 0xF0, b - 0x80, c - 0x80, d - 0x80);
  }

  predicate AllScalars(codes: seq<int>) {
    forall i :: 0 <= i < |codes| ==> Scalar(codes[i])
  }

  function EncodedAll(codes: seq<int>): seq<byte>
    requires AllScalars(codes)
  {
    if codes == [] then [] else Encoded(codes[0]) + EncodedAll(codes[1..])
  }

  lemma {:induction false} EncodedIsWellFormed(codes: seq<int>)
    requires AllScalars(codes)
    ensures WellFormed(EncodedAll(codes))
  {
    if codes != [] {
      EncodedIsWellFormed(codes[1..]);
      EncodedIsChar(codes[0], EncodedAll(codes[1..]));
      hide CharLen;
      assert |Encoded(codes[0])| > 0;
    }
  }

  lemma {:induction false} WellFormedIsEncoded(s: seq<byte>) returns (codes: seq<int>)
    requires WellFormed(s)
    ensures AllScalars(codes) && EncodedAll(codes) == s
    decreases |s|
  {
    if s == [] {
      codes := [];
    } else {
      DecodedIsScalar(s);
      var n := CharLen(s);
      var rest := WellFormedIsEncoded(s[n..]);
      codes := [Decoded(s)] + rest;
      assert codes[1..] == rest && s == s[..n] + s[n..];
    }
  }

  /** Well-formed text is exactly the encodings of sequences of Unicode scalar values. */
  lemma WellFormedIff(s: seq<byte>)
    ensures WellFormed(s) <==> exists codes :: AllScalars(codes) && EncodedAll(codes) == s
  {
    if WellFormed(s) {
      var codes := WellFormedIsEncoded(s);
    }
    if codes :| AllScalars(codes) && EncodedAll(codes) == s { EncodedIsWellFormed(codes); }
  }
}
