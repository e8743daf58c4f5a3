/** The chunked coding of section 7.1 of RFC 9112, as a sender may write it, and what the reader makes
    of it. */
module HttpFraming {
  import opened Results
  import opened Utf8
  import opened JsonLines
  import opened HttpBody
  import Sse

  type Body = Result<(seq<byte>, seq<byte>), BodyError>

  // ----- the size line

  /** An ASCII byte that is not whitespace stops the trim. */
  lemma {:induction false} TrimStops(s: seq<byte>, i: nat)
    requires i < |s| && s[i] <= 0x7F && !(9 <= s[i] <= 13) && s[i] != 32
    ensures i < |TrimEnd(s)|
    decreases |s|
  {
    var n := EndSpaceLen(s);
    if n > 0 {
      EndSpaceBytes(s, i);
      hide EndSpaceLen;
      TrimStops(s[..|s| - n], i);
    }
  }

  lemma EndSpaceBytes(s: seq<byte>, i: nat)
    requires i < |s|
    ensures |s| - EndSpaceLen(s) <= i ==> s[i] > 0x7F || 9 <= s[i] <= 13 || s[i] == 32
  {
  }

  predicate AllSpace(s: seq<byte>) {
    forall i :: 0 <= i < |s| ==> 9 <= s[i] <= 13 || s[i] == 32
  }

  lemma {:induction false} TrimDropsSpace(a: seq<byte>, spaces: seq<byte>)
    requires AllSpace(spaces)
    ensures TrimEnd(a + spaces) == TrimEnd(a)
    decreases |spaces|
  {
    if spaces == [] {
      assert a + spaces == a;
    } else {
      var s, init := a + spaces, spaces[..|spaces| - 1];
      EndsInSpace(s);
      hide EndSpaceLen;
      assert s[..|s| - 1] == a + init;
      TrimDropsSpace(a, init);
    }
  }

  lemma EndsInSpace(s: seq<byte>)
    requires s != [] && (9 <= s[|s| - 1] <= 13 || s[|s| - 1] == 32)
    ensures EndSpaceLen(s) == 1
  {
  }

  predicate IsExtension(s: seq<byte>) {
    s == [] || s[0] == SEMICOLON
  }

  lemma FirstIndex(s: seq<byte>, b: byte, n: nat)
    requires n <= |s| && b !in s[..n] && (n < |s| ==> s[n] == b)
    ensures IndexOf(s, b) == n
  {
    assert IndexOf(s, b) <= |s|;
  }

  lemma HexIsPlain(digits: seq<byte>)
    requires AllHex(digits)
    ensures SEMICOLON !in digits && LF !in digits
    ensures forall i :: 0 <= i < |digits| ==> digits[i] <= 0x7F && !(9 <= digits[i] <= 13) && digits[i] != 32
  {
    assert forall i :: 0 <= i < |digits| ==> HexDigit(digits[i]).Some?;
  }

  lemma SizeTextPlain(digits: seq<byte>, spaces: seq<byte>)
    requires digits != [] && AllHex(digits) && AllSpace(spaces)
    ensures SizeText(digits + spaces) == digits
  {
    hide AllHex, AllSpace, TrimEnd, IndexOf;
    var line := digits + spaces;
    HexIsPlain(digits);
    assert line[0] == digits[0] && SpaceLen(line) == 0;
    TrimDropsSpace(digits, spaces);
    TrimStops(digits, |digits| - 1);
    assert TrimEnd(line) == digits && digits[..|digits|] == digits;
    FirstIndex(digits, SEMICOLON, |digits|);
  }

  lemma SizeTextExtended(start: seq<byte>, tail: seq<byte>)
    requires start != [] && SpaceLen(start[..1]) == 0 && start[0] <= 0x7F && SEMICOLON !in start
    ensures SizeText(start + [SEMICOLON] + tail) == start
  {
    hide TrimEnd, IndexOf;
    var line := start + [SEMICOLON] + tail;
    assert line[0] == start[0] && SpaceLen(line) == 0;
    assert line[|start|] == SEMICOLON && line[..|start|] == start;
    TrimStops(line, |start|);
    var trimmed := TrimEnd(line);
    assert trimmed[..|start|] == start && trimmed[|start|] == SEMICOLON;
    FirstIndex(trimmed, SEMICOLON, |start|);
  }

  /** The text before the first semicolon, with trailing whitespace dropped only at the end of the line. */
  lemma SizeTextOf(digits: seq<byte>, blanks: seq<byte>, extension: seq<byte>, spaces: seq<byte>)
    requires digits != [] && AllHex(digits) && AllSpace(blanks) && IsExtension(extension) && AllSpace(spaces)
    ensures SizeText(digits + blanks + extension + spaces) == if extension == [] then digits else digits + blanks
  {
    hide SizeText, AllHex;
    var line := digits + blanks + extension + spaces;
    HexIsPlain(digits);
    if extension == [] {
      assert line == digits + (blanks + spaces);
      SizeTextPlain(digits, blanks + spaces);
    } else {
      var start := digits + blanks;
      assert start[0] == digits[0] && start[..1][0] == start[0];
      assert line == start + [SEMICOLON] + (extension[1..] + spaces);
      SizeTextExtended(start, extension[1..] + spaces);
    }
  }

  /** What the size text of a header parses to. */
  lemma SizeRead(digits: seq<byte>, blanks: seq<byte>, extension: seq<byte>, spaces: seq<byte>)
    requires digits != [] && AllHex(digits) && AllSpace(blanks) && IsExtension(extension) && AllSpace(spaces)
    requires HexNumber(digits) <= USIZE_MAX
    ensures ParseSize(SizeText(digits + blanks + extension + spaces)) ==
      if blanks == [] || extension == [] then Some(HexNumber(digits)) else None
  {
    hide SizeText;
    SizeTextOf(digits, blanks, extension, spaces);
    HexIsPlain(digits);
    assert HexDigit(digits[0]).Some?;
    if blanks == [] {
      assert digits + blanks == digits;
    } else {
      var start := digits + blanks;
      assert start[0] == digits[0] && HexDigit(start[|digits|]).None?;
    }
  }

  /** One chunk as a sender may write it: any case and any leading zeros, whitespace, an extension. */
  datatype Framing = Framing(digits: seq<byte>, blanks: seq<byte>, extension: seq<byte>, data: seq<byte>) {
    function Header(): seq<byte> { digits + blanks + extension + CRLF }

    /** The size line says how long the data is. */
    predicate Sent() {
      && digits != [] && AllHex(digits) && HexNumber(digits) == |data| <= Sse.MAX_SSE_EVENT_BYTES
      && AllSpace(blanks) && LF !in blanks && IsExtension(extension) && LF !in extension
    }

    /** The size lines this reader takes. */
    predicate Readable() {
      (blanks == [] || extension == []) && |Header()| <= MAX_SIZE_LINE && WellFormed(extension)
    }

    predicate Valid() { Sent() && data != [] && Readable() }

    function Encode(): seq<byte> { Header() + data + CRLF }
  }

  lemma FirstLine(line: seq<byte>, rest: seq<byte>)
    requires LF !in line
    ensures LineEnd(line + [LF] + rest) == |line| + 1
  {
    var s := line + [LF] + rest;
    assert s[|line|] == LF && s[..|line|] == line;
    FirstIndex(s, LF, |line|);
  }

  lemma HeaderLine(f: Framing, rest: seq<byte>)
    requires f.Sent()
    ensures var s := f.Header() + rest; var n := LineEnd(s);
      n == |f.Header()| > 0 && s[..n] == f.Header() && s[n..] == rest
  {
    var line := f.digits + f.blanks + f.extension + [CR];
    HexIsPlain(f.digits);
    assert f.Header() + rest == line + [LF] + rest;
    FirstLine(line, rest);
  }

  lemma SpacesAreAscii(spaces: seq<byte>)
    requires AllSpace(spaces)
    ensures WellFormed(spaces)
  {
    AsciiWellFormed(spaces);
  }

  /** A size line is text exactly when its extension is. */
  lemma HeaderIsTextIff(f: Framing)
    requires f.Sent()
    ensures WellFormed(f.Header()) <==> WellFormed(f.extension)
  {
    hide WellFormed;
    var front, tail := f.digits + f.blanks, f.extension + CRLF;
    HexIsPlain(f.digits);
    AsciiWellFormed(f.digits);
    SpacesAreAscii(f.blanks);
    AsciiWellFormed(CRLF);
    JoinedWellFormed(f.digits, f.blanks);
    assert f.Header() == front + tail;
    if WellFormed(f.extension) {
      JoinedWellFormed(f.extension, CRLF);
      JoinedWellFormed(front, tail);
    }
    if WellFormed(f.Header()) {
      assert f.Header()[|front|] == tail[0] && !Tail(tail[0]);
      CutAtBoundary(f.Header(), |front|);
      assert f.Header()[|front|..] == tail && tail[|f.extension|] == CR;
      CutAtBoundary(tail, |f.extension|);
      assert tail[..|f.extension|] == f.extension;
    }
  }

  /** What the reader makes of a size line. */
  lemma HeaderRead(f: Framing)
    requires f.Sent()
    ensures ParseSize(SizeText(f.Header())) ==
      if f.blanks == [] || f.extension == [] then Some(|f.data|) else None
  {
    hide ParseSize, SizeText;
    SizeRead(f.digits, f.blanks, f.extension, CRLF);
  }

  /** Section 7.1 of RFC 9112 has a recipient take whitespace before a chunk extension, any bytes from 0x80
      in it, and a line of any reasonable length. This reader takes a chunk exactly when there is no such
      whitespace, the extension is UTF-8, and the line has at most 128 bytes; and then it is decoded. */
  lemma ChunkAcceptedIff(f: Framing, rest: seq<byte>)
    requires f.Sent() && f.data != []
    ensures NextChunk(f.Encode() + rest) ==
      if !WellFormed(f.extension) then Broken(NotText)
      else if !f.Readable() then Broken(BadSize)
      else Data(f.data, rest)
  {
    hide LineEnd, WellFormed, ParseSize, SizeText;
    var tail := f.data + CRLF + rest;
    assert f.Encode() + rest == f.Header() + tail;
    HeaderLine(f, tail);
    HeaderIsTextIff(f);
    HeaderRead(f);
    assert tail[..|f.data|] == f.data && tail[|f.data|..|f.data| + 2] == CRLF && tail[|f.data| + 2..] == rest;
  }

  lemma ChunkDecoded(f: Framing, rest: seq<byte>)
    requires f.Valid()
    ensures NextChunk(f.Encode() + rest) == Data(f.data, rest)
  {
    hide NextChunk, WellFormed;
    ChunkAcceptedIff(f, rest);
  }

  /** A byte from 0x80 alone, which the grammar calls obs-text, in an extension. */
  lemma ObsTextRefused(b: byte, rest: seq<byte>)
    ensures var f := Framing([49], [], [SEMICOLON, 0xFF], [b]);
      f.Sent() && NextChunk(f.Encode() + rest) == Broken(NotText)
  {
    var f := Framing([49], [], [SEMICOLON, 0xFF], [b]);
    assert HexNumber([49]) == 1 by { assert [49][..0] == []; }
    assert !WellFormed(f.extension) by { assert f.extension[1..] == [0xFF]; }
    ChunkAcceptedIff(f, rest);
  }

  /** A space before an extension. */
  lemma BlankRefused(b: byte, rest: seq<byte>)
    ensures var f := Framing([49], [32], [SEMICOLON], [b]);
      f.Sent() && NextChunk(f.Encode() + rest) == Broken(BadSize)
  {
    var f := Framing([49], [32], [SEMICOLON], [b]);
    assert HexNumber([49]) == 1 by { assert [49][..0] == []; }
    AsciiWellFormed([SEMICOLON]);
    ChunkAcceptedIff(f, rest);
  }

  /** A line of 129 bytes or more. */
  lemma LongLineRefused(f: Framing, rest: seq<byte>)
    requires f.Sent() && f.data != [] && WellFormed(f.extension) && |f.Header()| > MAX_SIZE_LINE
    ensures NextChunk(f.Encode() + rest) == Broken(BadSize)
  {
    hide NextChunk, WellFormed;
    ChunkAcceptedIff(f, rest);
  }

  // ----- whole bodies

  function EncodeAll(chunks: seq<Framing>): seq<byte> {
    if chunks == [] then [] else chunks[0].Encode() + EncodeAll(chunks[1..])
  }

  function Payload(chunks: seq<Framing>): seq<seq<byte>> {
    seq(|chunks|, i requires 0 <= i < |chunks| => chunks[i].data)
  }

  predicate AllSent(chunks: seq<Framing>) {
    forall i :: 0 <= i < |chunks| ==> chunks[i].Sent() && chunks[i].data != []
  }

  predicate AllReadable(chunks: seq<Framing>) {
    forall i :: 0 <= i < |chunks| ==> chunks[i].Readable()
  }

  predicate AllValid(chunks: seq<Framing>) {
    forall i :: 0 <= i < |chunks| ==> chunks[i].Valid()
  }

  /** The stream means the same body with `front` put before it. */
  ghost predicate Prepends(front: seq<byte>, rest: Body, whole: Body) {
    match rest
    case Err(error) => whole == Err(error)
    case Ok((more, after)) => whole == Ok((front + more, after))
  }

  lemma ChunkPrepends(f: Framing, rest: seq<byte>)
    requires f.Valid()
    ensures Prepends(f.data, ChunkedBody(rest), ChunkedBody(f.Encode() + rest))
  {
    hide NextChunk;
    ChunkDecoded(f, rest);
  }

  /** However the payload is cut into chunks and however their headers are written, the body of the
      stream is the payload, followed by whatever the rest of the stream decodes to. */
  lemma {:induction false} PayloadDecoded(chunks: seq<Framing>, rest: seq<byte>)
    requires AllValid(chunks)
    ensures Prepends(Concat(Payload(chunks)), ChunkedBody(rest), ChunkedBody(EncodeAll(chunks) + rest))
    decreases |chunks|
  {
    hide NextChunk, ChunkedBody, Framing.Encode, Framing.Valid, Framing.Sent, Framing.Readable;
    if chunks == [] {
      assert [] + rest == rest;
      assert ChunkedBody(rest).Ok? ==> [] + ChunkedBody(rest).value.0 == ChunkedBody(rest).value.0;
    } else {
      hide Prepends;
      var front, tail := chunks[0].data, EncodeAll(chunks[1..]) + rest;
      assert EncodeAll(chunks) + rest == chunks[0].Encode() + tail;
      ChunkPrepends(chunks[0], tail);
      PayloadDecoded(chunks[1..], rest);
      ConcatFront(Payload(chunks));
      assert Payload(chunks)[1..] == Payload(chunks[1..]);
      var more := Concat(Payload(chunks[1..]));
      PrependsBoth(front, more, ChunkedBody(rest), ChunkedBody(tail), ChunkedBody(EncodeAll(chunks) + rest));
    }
  }

  lemma PrependsBoth(front: seq<byte>, more: seq<byte>, rest: Body, tail: Body, whole: Body)
    requires Prepends(more, rest, tail) && Prepends(front, tail, whole)
    ensures Prepends(front + more, rest, whole)
  {
    if rest.Ok? { assert front + (more + rest.value.0) == (front + more) + rest.value.0; }
  }

  /** A chunk that is not taken ends the body in an error, whatever comes before and after. */
  lemma {:induction false} UnreadableRefused(chunks: seq<Framing>, rest: seq<byte>)
    requires AllSent(chunks) && !AllReadable(chunks)
    ensures ChunkedBody(EncodeAll(chunks) + rest).Err?
    decreases |chunks|
  {
    hide NextChunk, ChunkedBody, Framing.Encode, Framing.Valid, Framing.Readable, WellFormed;
    var tail := EncodeAll(chunks[1..]) + rest;
    assert EncodeAll(chunks) + rest == chunks[0].Encode() + tail;
    if chunks[0].Readable() {
      assert !AllReadable(chunks[1..]) by {
        var i :| 0 <= i < |chunks| && !chunks[i].Readable();
        assert chunks[1..][i - 1] == chunks[i];
      }
      UnreadableRefused(chunks[1..], rest);
      assert chunks[0].Valid() by { SentAndReadable(chunks[0]); }
      ChunkPrepends(chunks[0], tail);
    } else {
      BrokenBody(chunks[0], tail);
    }
  }

  lemma SentAndReadable(f: Framing)
    ensures f.Valid() <==> f.Sent() && f.data != [] && f.Readable()
  {
  }

  lemma BrokenBody(f: Framing, rest: seq<byte>)
    requires f.Sent() && f.data != [] && !f.Readable()
    ensures ChunkedBody(f.Encode() + rest).Err?
  {
    hide NextChunk;
    ChunkAcceptedIff(f, rest);
  }

  /** A trailer line; the line that ends the section is blank. */
  predicate IsTrailer(line: seq<byte>) {
    line != [] && line != [CR] && LF !in line
  }

  function Trailers(lines: seq<seq<byte>>): seq<byte> {
    if lines == [] then CRLF else lines[0] + [LF] + Trailers(lines[1..])
  }

  predicate AllTrailers(lines: seq<seq<byte>>) {
    forall i :: 0 <= i < |lines| ==> IsTrailer(lines[i])
  }

  predicate AllText(lines: seq<seq<byte>>) {
    forall i :: 0 <= i < |lines| ==> WellFormed(lines[i])
  }

  lemma LineIsTextIff(line: seq<byte>)
    requires LF !in line
    ensures WellFormed(line + [LF]) <==> WellFormed(line)
  {
    AsciiWellFormed([LF]);
    var s := line + [LF];
    if WellFormed(line) { JoinedWellFormed(line, [LF]); }
    if WellFormed(s) {
      assert s[|line|] == LF;
      CutAtBoundary(s, |line|);
      assert s[..|line|] == line;
    }
  }

  /** A trailer section is skipped exactly when all its lines are UTF-8. */
  lemma {:induction false} TrailersSkippedIff(lines: seq<seq<byte>>, rest: seq<byte>)
    requires AllTrailers(lines)
    ensures AfterTrailers(Trailers(lines) + rest) == if AllText(lines) then Some(rest) else None
    decreases |lines|
  {
    hide IndexOf, LineEnd, WellFormed;
    var s := Trailers(lines) + rest;
    if lines == [] {
      assert s == [CR] + [LF] + rest;
      FirstLine([CR], rest);
      AsciiWellFormed(CRLF);
      assert s[..2] == CRLF && s[2..] == rest;
    } else {
      var line, tail := lines[0], Trailers(lines[1..]) + rest;
      assert IsTrailer(line) && s == line + [LF] + tail;
      FirstLine(line, tail);
      var n := |line| + 1;
      assert s[..n] == line + [LF] && s[n..] == tail;
      LineIsTextIff(line);
      assert !BlankEnd(line + [LF]) by { assert (line + [LF])[..|line|] == line && CRLF[..1] == [CR]; }
      assert AllText(lines) <==> WellFormed(line) && AllText(lines[1..]) by { TextFront(lines); }
      TrailersSkippedIff(lines[1..], rest);
    }
  }

  lemma TextFront(lines: seq<seq<byte>>)
    requires lines != []
    ensures AllText(lines) <==> WellFormed(lines[0]) && AllText(lines[1..])
  {
    hide WellFormed;
    if WellFormed(lines[0]) && AllText(lines[1..]) {
      forall i | 0 <= i < |lines| ensures WellFormed(lines[i]) { assert i > 0 ==> lines[i] == lines[1..][i - 1]; }
    }
  }

  /** The end of a body: its last size line, of size zero, and its trailers. */
  lemma LastAcceptedIff(last: Framing, trailers: seq<seq<byte>>, rest: seq<byte>)
    requires last.Sent() && last.data == [] && AllTrailers(trailers)
    ensures ChunkedBody(last.Header() + (Trailers(trailers) + rest)) == Ok(([], rest)) <==>
      last.Readable() && AllText(trailers)
    ensures !(last.Readable() && AllText(trailers)) ==> ChunkedBody(last.Header() + (Trailers(trailers) + rest)).Err?
  {
    hide LineEnd, WellFormed, ParseSize, SizeText, AfterTrailers;
    HeaderLine(last, Trailers(trailers) + rest);
    HeaderIsTextIff(last);
    HeaderRead(last);
    TrailersSkippedIff(trailers, rest);
  }

  /** Of all chunked encodings of all payloads, with any extensions and trailers, exactly those are
      accepted whose size lines are all readable and whose trailers are all UTF-8; they decode to the
      payload, and the reader stops where the body does. */
  lemma BodyRecoveredIff(chunks: seq<Framing>, last: Framing, trailers: seq<seq<byte>>, rest: seq<byte>)
    requires AllSent(chunks) && last.Sent() && last.data == [] && AllTrailers(trailers)
    ensures var body := ChunkedBody(EncodeAll(chunks) + (last.Header() + (Trailers(trailers) + rest)));
      if AllReadable(chunks) && last.Readable() && AllText(trailers) then body == Ok((Concat(Payload(chunks)), rest))
      else body.Err?
  {
    hide ChunkedBody, Framing.Sent, Framing.Readable, AllText, Payload;
    var end := last.Header() + (Trailers(trailers) + rest);
    LastAcceptedIff(last, trailers, rest);
    if AllReadable(chunks) {
      assert AllValid(chunks) by { SentAndReadableAll(chunks); }
      PayloadDecoded(chunks, end);
      assert Concat(Payload(chunks)) + [] == Concat(Payload(chunks));
    } else {
      UnreadableRefused(chunks, end);
    }
  }

  lemma SentAndReadableAll(chunks: seq<Framing>)
    requires AllSent(chunks) && AllReadable(chunks)
    ensures AllValid(chunks)
  {
  }

  /** One byte from 0x80 in a trailer refuses a body that is complete. */
  lemma ObsTrailerRefused(chunks: seq<Framing>, rest: seq<byte>)
    requires AllValid(chunks)
    ensures var last := Framing([48], [], [], []);
      && last.Sent() && last.Readable() && IsTrailer([0xE9])
      && ChunkedBody(EncodeAll(chunks) + (last.Header() + (Trailers([[0xE9]]) + rest))).Err?
  {
    var last := Framing([48], [], [], []);
    assert HexNumber([48]) == 0 by { assert [48][..0] == []; }
    assert !WellFormed([0xE9]) && WellFormed([]);
    assert !AllText([[0xE9]]) by { assert [[0xE9]][0] == [0xE9]; }
    BodyRecoveredIff(chunks, last, [[0xE9]], rest);
  }

  // ----- a stream cut short

  predicate AllZero(s: seq<byte>) {
    forall i :: 0 <= i < |s| ==> s[i] == 48
  }

  lemma {:induction false} ZeroIff(digits: seq<byte>)
    requires AllHex(digits)
    ensures HexNumber(digits) == 0 <==> AllZero(digits)
  {
    if digits != [] {
      var init := digits[..|digits| - 1];
      ZeroIff(init);
      assert HexDigit(digits[|digits| - 1]).Some?;
    }
  }

  lemma {:induction false} PrefixIsSmaller(digits: seq<byte>, k: nat)
    requires AllHex(digits) && k <= |digits|
    ensures AllHex(digits[..k]) && HexNumber(digits[..k]) <= HexNumber(digits)
  {
    if k < |digits| {
      var init := digits[..|digits| - 1];
      assert init[..k] == digits[..k];
      PrefixIsSmaller(init, k);
    } else {
      assert digits[..k] == digits;
    }
  }

  lemma NoLineEnd(s: seq<byte>)
    requires LF !in s
    ensures LineEnd(s) == |s|
  {
    assert s[..|s|] == s;
    FirstIndex(s, LF, |s|);
  }

  lemma CutInDigits(f: Framing, k: nat)
    requires f.Valid() && 0 < k <= |f.digits|
    ensures NextChunk(f.digits[..k]) == if AllZero(f.digits[..k]) then Last([]) else Broken(Closed)
  {
    hide LineEnd, IndexOf, SizeText, WellFormed;
    var s := f.digits[..k];
    PrefixIsSmaller(f.digits, k);
    ZeroIff(s);
    HexIsPlain(s);
    AsciiWellFormed(s);
    NoLineEnd(s);
    assert s + [] == s && s[..k] == s && s[k..] == [];
    SizeTextPlain(s, []);
    assert HexDigit(s[0]).Some? && ParseSize(s) == Some(HexNumber(s));
    AsciiWellFormed([]);
    assert AfterTrailers([]) == Some([]) by { NoLineEnd([]); }
  }

  lemma CutInHeader(f: Framing, k: nat)
    requires f.Valid() && |f.digits| < k < |f.Header()|
    ensures NextChunk(f.Header()[..k]).Broken?
  {
    hide LineEnd, IndexOf, SizeText, WellFormed, ParseSize;
    var s, d, b := f.Header()[..k], |f.digits|, |f.digits| + |f.blanks|;
    HexIsPlain(f.digits);
    assert s == (f.digits + f.blanks + f.extension + [CR])[..k];
    NoLineEnd(s);
    assert s[..k] == s && s[k..] == [];
    if k <= b {
      assert s == f.digits + f.blanks[..k - d] + [] + [];
      SizeRead(f.digits, f.blanks[..k - d], [], []);
    } else if k <= b + |f.extension| {
      assert s == f.digits + f.blanks + f.extension[..k - b] + [];
      SizeRead(f.digits, f.blanks, f.extension[..k - b], []);
    } else {
      assert s == f.digits + f.blanks + f.extension + [CR];
      SizeRead(f.digits, f.blanks, f.extension, [CR]);
    }
  }

  lemma CutAfterHeader(f: Framing, k: nat)
    requires f.Valid() && |f.Header()| <= k < |f.Encode()|
    ensures NextChunk(f.Encode()[..k]) == Broken(Closed)
  {
    hide LineEnd, SizeText, WellFormed, ParseSize;
    var rest := (f.data + CRLF)[..k - |f.Header()|];
    assert f.Encode()[..k] == f.Header() + rest;
    HeaderLine(f, rest);
    HeaderIsTextIff(f);
    HeaderRead(f);
  }

  /** A stream cut inside a chunk is refused, except when the cut leaves nothing of the size but
      leading zeros: then what came before passes for the whole body. */
  lemma CutRefusedIff(chunks: seq<Framing>, f: Framing, k: nat)
    requires AllValid(chunks) && f.Valid() && k < |f.Encode()|
    ensures ChunkedBody(EncodeAll(chunks) + f.Encode()[..k]).Err? <==>
      k == 0 || k > |f.digits| || !AllZero(f.digits[..k])
    ensures 0 < k <= |f.digits| && AllZero(f.digits[..k]) ==>
      ChunkedBody(EncodeAll(chunks) + f.Encode()[..k]) == Ok((Concat(Payload(chunks)), []))
  {
    hide LineEnd, SizeText, WellFormed, ParseSize, Concat, Payload, EncodeAll;
    var s := f.Encode()[..k];
    PayloadDecoded(chunks, s);
    if k == 0 {
      assert LineEnd(s) == 0;
      assert NextChunk(s).Broken?;
    } else if k <= |f.digits| {
      assert s == f.digits[..k];
      CutInDigits(f, k);
      assert Concat(Payload(chunks)) + [] == Concat(Payload(chunks));
    } else if k < |f.Header()| {
      assert s == f.Header()[..k];
      CutInHeader(f, k);
    } else {
      CutAfterHeader(f, k);
    }
  }

  /** Such a cut exists: a size written 0A, cut after its first digit. */
  lemma CutCanPass(data: seq<byte>)
    requires |data| == 10
    ensures var f := Framing([48, 65], [], [], data); f.Valid() && ChunkedBody(f.Encode()[..1]) == Ok(([], []))
  {
    var f := Framing([48, 65], [], [], data);
    assert f.digits[..1] == [48] && f.digits[..1][..0] == [];
    assert HexNumber([48]) == 0;
    assert HexNumber(f.digits) == 10;
    assert EncodeAll([]) + f.Encode()[..1] == f.Encode()[..1];
    CutRefusedIff([], f, 1);
    assert Payload([]) == [];
  }
}
