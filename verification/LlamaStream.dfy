/** Reading one streamed answer of the local inference server: body framing, events and tool calls
    together. */
module LlamaStream {
  import opened Results
  import opened Utf8
  import opened Sse
  import HttpBody
  import HttpFraming
  import ToolCalls

  datatype End = Ended | LimitPassed | BodyFailed(error: HttpBody.BodyError)

  function ModeOf(chunked: bool, contentLength: Option<nat>): HttpBody.Mode {
    if chunked then HttpBody.Chunked
    else if contentLength.Some? then HttpBody.Length(contentLength.value)
    else HttpBody.UntilEof
  }

  // ----- the pieces a body comes in

  function ChunkPieces(s: seq<byte>): seq<seq<byte>>
    decreases |s|
  {
    HttpBody.ChunkShrinks(s);
    match HttpBody.NextChunk(s)
    case Data(bytes, rest) => [bytes] + ChunkPieces(rest)
    case _ => []
  }

  function LengthPieces(n: nat, s: seq<byte>): seq<seq<byte>>
    decreases n
  {
    var piece := if n < HttpBody.READ_SIZE then n else HttpBody.READ_SIZE;
    if n == 0 || |s| < piece then [] else [s[..piece]] + LengthPieces(n - piece, s[piece..])
  }

  predicate Readable(pieces: seq<seq<byte>>) {
    forall i :: 0 <= i < |pieces| ==> 0 < |pieces[i]| <= HttpBody.READ_SIZE
  }

  /** What a reader hands over until the body ends or breaks: its chunks, blocks of a given length, or what
      the transport happens to have ready. */
  predicate ArePieces(mode: HttpBody.Mode, s: seq<byte>, pieces: seq<seq<byte>>) {
    match mode
    case Chunked => pieces == ChunkPieces(s)
    case Length(n) => pieces == LengthPieces(n, s)
    case UntilEof => Concat(pieces) == s && Readable(pieces)
    case Done => pieces == []
  }

  lemma MorePieces(
    mode: HttpBody.Mode, s: seq<byte>, chunk: seq<byte>, after: HttpBody.Mode, rest: seq<byte>, more: seq<seq<byte>>)
    requires HttpBody.Hands(mode, s, Ok(Some(chunk)), after, rest) && ArePieces(after, rest, more)
    ensures ArePieces(mode, s, [chunk] + more)
  {
    hide HttpBody.NextChunk;
    var pieces := [chunk] + more;
    assert pieces[0] == chunk && pieces[1..] == more;
    ConcatFront(pieces);
  }

  lemma NoPieces(
    mode: HttpBody.Mode, s: seq<byte>, r: Result<Option<seq<byte>>, HttpBody.BodyError>, after: HttpBody.Mode,
    rest: seq<byte>)
    requires HttpBody.Hands(mode, s, r, after, rest) && (r.Err? || r == Ok(None))
    ensures ArePieces(mode, s, [])
  {
    hide HttpBody.NextChunk;
  }

  /** One way the rest of a body can come in. */
  function SomePieces(mode: HttpBody.Mode, s: seq<byte>): seq<seq<byte>> {
    match mode
    case Chunked => ChunkPieces(s)
    case Length(n) => LengthPieces(n, s)
    case UntilEof => Single(s)
    case Done => []
  }

  function Single(s: seq<byte>): seq<seq<byte>> {
    if s == [] then [] else Single(s[..|s| - 1]) + [[s[|s| - 1]]]
  }

  lemma {:induction false} SingleJoins(s: seq<byte>)
    ensures Concat(Single(s)) == s && Readable(Single(s))
  {
    if s != [] {
      var init, last := s[..|s| - 1], [s[|s| - 1]];
      SingleJoins(init);
      assert (Single(init) + [last])[..|Single(init)|] == Single(init);
      assert init + last == s;
    }
  }

  lemma SomeArePieces(mode: HttpBody.Mode, s: seq<byte>)
    ensures ArePieces(mode, s, SomePieces(mode, s))
  {
    SingleJoins(s);
  }

  /** The pieces of a whole body join to it. */
  lemma {:induction false} PiecesJoin(mode: HttpBody.Mode, s: seq<byte>, pieces: seq<seq<byte>>)
    requires ArePieces(mode, s, pieces) && HttpBody.BodyOf(mode, s).Ok?
    ensures Concat(pieces) == HttpBody.BodyOf(mode, s).value.0
    decreases |s|
  {
    hide HttpBody.NextChunk;
    HttpBody.ChunkShrinks(s);
    match mode {
      case Chunked =>
        if HttpBody.NextChunk(s).Data? {
          PiecesJoin(mode, HttpBody.NextChunk(s).rest, pieces[1..]);
          ConcatFront(pieces);
        }
      case Length(n) =>
        if n > 0 {
          var piece := if n < HttpBody.READ_SIZE then n else HttpBody.READ_SIZE;
          PiecesJoin(HttpBody.Length(n - piece), s[piece..], pieces[1..]);
          ConcatFront(pieces);
          assert s[..piece] + s[piece..][..n - piece] == s[..n];
        }
      case _ =>
    }
  }

  // ----- the loop

  /** After some chunks: whatever comes from here on completes the pieces and the body. */
  ghost predicate Leads(
    mode: HttpBody.Mode, s: seq<byte>, chunks: seq<seq<byte>>, after: HttpBody.Mode, rest: seq<byte>)
  {
    && (forall more :: LeadsWith(mode, s, chunks, after, rest, more))
    && var left := HttpBody.BodyOf(after, rest);
    HttpBody.BodyOf(mode, s) == if left.Err? then left else Ok((Concat(chunks) + left.value.0, left.value.1))
  }

  ghost predicate LeadsWith(
    mode: HttpBody.Mode, s: seq<byte>, chunks: seq<seq<byte>>, after: HttpBody.Mode, rest: seq<byte>,
    more: seq<seq<byte>>)
  {
    ArePieces(after, rest, more) ==> ArePieces(mode, s, chunks + more)
  }

  lemma LeadsStart(mode: HttpBody.Mode, s: seq<byte>)
    ensures Leads(mode, s, [], mode, s)
  {
    hide ArePieces, HttpBody.BodyOf;
    forall more ensures LeadsWith(mode, s, [], mode, s, more) { assert [] + more == more; }
    var left := HttpBody.BodyOf(mode, s);
    if left.Ok? { assert [] + left.value.0 == left.value.0; }
  }

  lemma LeadsOn(
    mode: HttpBody.Mode, s: seq<byte>, chunks: seq<seq<byte>>, now: HttpBody.Mode, at: seq<byte>, chunk: seq<byte>,
    after: HttpBody.Mode, rest: seq<byte>)
    requires Leads(mode, s, chunks, now, at) && HttpBody.Hands(now, at, Ok(Some(chunk)), after, rest)
    ensures Leads(mode, s, chunks + [chunk], after, rest) && |rest| < |at|
  {
    hide ArePieces, HttpBody.BodyOf, HttpBody.Hands;
    HttpBody.HandedOver(now, at, Ok(Some(chunk)), after, rest);
    forall more ensures LeadsWith(mode, s, chunks + [chunk], after, rest, more) {
      if ArePieces(after, rest, more) {
        MorePieces(now, at, chunk, after, rest, more);
        assert LeadsWith(mode, s, chunks, now, at, [chunk] + more);
        assert chunks + ([chunk] + more) == (chunks + [chunk]) + more;
      }
    }
    assert (chunks + [chunk])[..|chunks|] == chunks;
    var left := HttpBody.BodyOf(after, rest);
    if left.Ok? { assert Concat(chunks) + (chunk + left.value.0) == (Concat(chunks) + chunk) + left.value.0; }
  }

  lemma LeadsTo(
    mode: HttpBody.Mode, s: seq<byte>, chunks: seq<seq<byte>>, after: HttpBody.Mode, rest: seq<byte>,
    more: seq<seq<byte>>)
    requires Leads(mode, s, chunks, after, rest) && ArePieces(after, rest, more)
    ensures ArePieces(mode, s, chunks + more)
  {
    hide ArePieces, HttpBody.BodyOf;
    assert LeadsWith(mode, s, chunks, after, rest, more);
  }

  lemma LeadsToEnd(
    mode: HttpBody.Mode, s: seq<byte>, chunks: seq<seq<byte>>, now: HttpBody.Mode, at: seq<byte>,
    r: Result<Option<seq<byte>>, HttpBody.BodyError>, after: HttpBody.Mode, rest: seq<byte>)
    requires Leads(mode, s, chunks, now, at) && HttpBody.Hands(now, at, r, after, rest) && (r.Err? || r == Ok(None))
    ensures ArePieces(mode, s, chunks)
    ensures if r.Err? then HttpBody.BodyOf(mode, s) == Err(r.error) else HttpBody.BodyOf(mode, s).Ok?
  {
    hide ArePieces, HttpBody.BodyOf, HttpBody.Hands;
    HttpBody.HandedOver(now, at, r, after, rest);
    NoPieces(now, at, r, after, rest);
    LeadsTo(mode, s, chunks, now, at, []);
    assert chunks + [] == chunks;
  }

  /** The events of the chunks so far, none of which ended the stream, and what is buffered. */
  ghost predicate InStep(stop: seq<byte> -> bool, chunks: seq<seq<byte>>, events: seq<seq<byte>>, buffered: seq<byte>) {
    Drain(Concat(chunks)) == (events, buffered) && !Stops(stop, events) && FitsBuffer(stop, [], chunks)
  }

  lemma StartsInStep(stop: seq<byte> -> bool)
    ensures InStep(stop, [], [], [])
  {
    Unterminated(stop, []);
  }

  /** One more chunk: how the limit, the events and the buffer go on. */
  lemma TakesChunk(
    stop: seq<byte> -> bool, chunks: seq<seq<byte>>, events: seq<seq<byte>>, buffered: seq<byte>, chunk: seq<byte>)
    requires InStep(stop, chunks, events, buffered)
    ensures FitsBuffer(stop, [], chunks + [chunk]) <==> |buffered + chunk| <= MAX_SSE_EVENT_BYTES
    ensures Drain(Concat(chunks + [chunk])) == (events + Drain(buffered + chunk).0, Drain(buffered + chunk).1)
    ensures Stops(stop, events + Drain(buffered + chunk).0) <==> Stops(stop, Drain(buffered + chunk).0)
    ensures UpTo(stop, events + Drain(buffered + chunk).0) == events + UpTo(stop, Drain(buffered + chunk).0)
  {
    hide Drain, Stops, UpTo;
    DrainLeavesNoCut([]);
    Unterminated(stop, []);
    assert [] + Concat(chunks) == Concat(chunks);
    FitsAppend(stop, [], chunks, [chunk]);
    assert [chunk][1..] == [];
    assert (chunks + [chunk])[..|chunks|] == chunks;
    DrainSplit(Concat(chunks), chunk);
    StopsAppend(stop, events, Drain(buffered + chunk).0);
    UpToAppend(stop, events, Drain(buffered + chunk).0);
  }

  /** How reading ends, given the pieces and whether the body is whole: the limit first, then an event that
      ends the stream, then the end of the body. */
  ghost function EndOf(stop: seq<byte> -> bool, pieces: seq<seq<byte>>, body: HttpFraming.Body): End {
    if !FitsBuffer(stop, [], pieces) then LimitPassed
    else if body.Ok? || Stops(stop, Drain(Concat(pieces)).0) then Ended
    else BodyFailed(body.error)
  }

  /** Too much buffered: nothing that comes later helps. */
  lemma StaysFull(
    stop: seq<byte> -> bool, chunks: seq<seq<byte>>, events: seq<seq<byte>>, buffered: seq<byte>, chunk: seq<byte>,
    more: seq<seq<byte>>)
    requires InStep(stop, chunks, events, buffered) && |buffered + chunk| > MAX_SSE_EVENT_BYTES
    ensures !FitsBuffer(stop, [], (chunks + [chunk]) + more)
  {
    hide Drain, Stops;
    Continues(stop, chunks, events, buffered, [chunk] + more);
    assert (chunks + [chunk]) + more == chunks + ([chunk] + more);
  }

  lemma Continues(
    stop: seq<byte> -> bool, chunks: seq<seq<byte>>, events: seq<seq<byte>>, buffered: seq<byte>,
    rest: seq<seq<byte>>)
    requires InStep(stop, chunks, events, buffered)
    ensures FitsBuffer(stop, [], chunks + rest) <==> FitsBuffer(stop, buffered, rest)
  {
    hide Drain, Stops, FitsBuffer;
    Unterminated(stop, []);
    DrainLeavesNoCut([]);
    assert [] + Concat(chunks) == Concat(chunks);
    FitsAppend(stop, [], chunks, rest);
  }

  /** Stopped: what comes later changes nothing. */
  lemma StaysStopped(
    stop: seq<byte> -> bool, chunks: seq<seq<byte>>, events: seq<seq<byte>>, buffered: seq<byte>, chunk: seq<byte>,
    more: seq<seq<byte>>)
    requires InStep(stop, chunks, events, buffered) && |buffered + chunk| <= MAX_SSE_EVENT_BYTES
    requires Stops(stop, Drain(Concat(chunks + [chunk])).0)
    ensures var pieces := (chunks + [chunk]) + more;
      && FitsBuffer(stop, [], pieces) && Stops(stop, Drain(Concat(pieces)).0)
      && Meaning(stop, Concat(pieces)) == UpTo(stop, Drain(Concat(chunks + [chunk])).0)
  {
    hide Drain, Stops, UpTo, Meaning;
    Continues(stop, chunks, events, buffered, [chunk] + more);
    assert (chunks + [chunk]) + more == chunks + ([chunk] + more);
    TakesChunk(stop, chunks, events, buffered, chunk);
    ConcatParts(chunks + [chunk], more);
    MeaningAfter(stop, Concat(chunks + [chunk]), Concat(more));
    DrainSplit(Concat(chunks + [chunk]), Concat(more));
    StopsAppend(stop, Drain(Concat(chunks + [chunk])).0,
      Drain(Drain(Concat(chunks + [chunk])).1 + Concat(more)).0);
  }

  lemma {:induction false} ConcatParts(a: seq<seq<byte>>, b: seq<seq<byte>>)
    ensures Concat(a + b) == Concat(a) + Concat(b)
  {
    if b == [] {
      assert a + b == a;
    } else {
      ConcatParts(a, b[..|b| - 1]);
      assert (a + b)[..|a + b| - 1] == a + b[..|b| - 1];
    }
  }

  /** read_sse: the pieces the body reader hands over go into the buffer, and complete events out of it.
      The pieces are those of the stream in its mode; they decide how reading ends; and the events are
      those of the bytes, wherever they were divided. An event that ends the stream may come before the
      end of the body, and then the rest of the body does not matter. */
  method ReadSse(reader: HttpBody.Connection, chunked: bool, contentLength: Option<nat>, stop: seq<byte> -> bool)
    returns (events: seq<seq<byte>>, end: End, ghost pieces: seq<seq<byte>>)
    modifies reader
    ensures ArePieces(ModeOf(chunked, contentLength), old(reader.rest), pieces)
    ensures end == EndOf(stop, pieces, HttpBody.BodyOf(ModeOf(chunked, contentLength), old(reader.rest)))
    ensures end == Ended ==> events == Meaning(stop, Concat(pieces))
  {
    hide Drain, Stops, UpTo, FirstCut, FitsBuffer, InStep, Meaning, HttpBody.BodyOf, HttpBody.Hands, Leads, ArePieces,
      SomePieces;
    var body := new HttpBody.BodyReader(chunked, contentLength);
    var buffer := new EventBuffer();
    ghost var mode, stream, chunks := body.mode, reader.rest, [];
    events := [];
    StartsInStep(stop);
    LeadsStart(mode, stream);
    while true
      invariant fresh(body) && fresh(buffer)
      invariant Leads(mode, stream, chunks, body.mode, reader.rest)
      invariant InStep(stop, chunks, events, buffer.data)
      decreases |reader.rest|
    {
      ghost var now, at, before, buffered := body.mode, reader.rest, events, buffer.data;
      var chunk := body.Next(reader);
      if chunk.Err? || chunk.value.None? {
        LeadsToEnd(mode, stream, chunks, now, at, chunk, body.mode, reader.rest);
        Complete(stop, chunks, events, buffer.data);
        if chunk.Err? { return [], BodyFailed(chunk.error), chunks; }
        if buffer.data != [] { events := events + [buffer.data]; }
        return events, Ended, chunks;
      }
      LeadsOn(mode, stream, chunks, now, at, chunk.value.value, body.mode, reader.rest);
      var fits, stopped;
      events, fits, stopped := TakeChunk(buffer, events, stop, chunk.value.value, chunks);
      ghost var more := SomePieces(body.mode, reader.rest);
      if !fits || stopped {
        SomeArePieces(body.mode, reader.rest);
        LeadsTo(mode, stream, chunks + [chunk.value.value], body.mode, reader.rest, more);
        pieces := (chunks + [chunk.value.value]) + more;
        if !fits {
          StaysFull(stop, chunks, before, buffered, chunk.value.value, more);
          return [], LimitPassed, pieces;
        }
        StaysStopped(stop, chunks, before, buffered, chunk.value.value, more);
        return events, Ended, pieces;
      }
      chunks := chunks + [chunk.value.value];
    }
  }

  /** A whole body that fits the buffer is read to its end, however it comes in. */
  lemma SmallBodyEnds(
    stop: seq<byte> -> bool, mode: HttpBody.Mode, s: seq<byte>, pieces: seq<seq<byte>>)
    requires ArePieces(mode, s, pieces) && HttpBody.BodyOf(mode, s).Ok?
    requires |HttpBody.BodyOf(mode, s).value.0| <= MAX_SSE_EVENT_BYTES
    ensures EndOf(stop, pieces, HttpBody.BodyOf(mode, s)) == Ended
  {
    hide ArePieces, HttpBody.BodyOf, FitsBuffer;
    PiecesJoin(mode, s, pieces);
    SmallFits(stop, [], pieces);
  }

  lemma {:induction false} SmallFits(stop: seq<byte> -> bool, buffered: seq<byte>, pieces: seq<seq<byte>>)
    requires |buffered| + |Concat(pieces)| <= MAX_SSE_EVENT_BYTES
    ensures FitsBuffer(stop, buffered, pieces)
    decreases |pieces|
  {
    hide Drain, Stops;
    if pieces != [] {
      ConcatFront(pieces);
      DrainShrinks(buffered + pieces[0]);
      SmallFits(stop, Drain(buffered + pieces[0]).1, pieces[1..]);
    }
  }

  lemma {:induction false} DrainShrinks(s: seq<byte>)
    ensures |Drain(s).1| <= |s|
    decreases |s|
  {
    hide FirstCut;
    CutInside(s);
    var cut := FirstCut(s);
    if cut.Some? { DrainShrinks(s[cut.value.position + cut.value.separator..]); }
  }

  /** One turn of the loop: extend the buffer, test the limit, take the complete events. */
  method TakeChunk(
    buffer: EventBuffer, events: seq<seq<byte>>, stop: seq<byte> -> bool, chunk: seq<byte>,
    ghost chunks: seq<seq<byte>>)
    returns (after: seq<seq<byte>>, fits: bool, stopped: bool)
    requires InStep(stop, chunks, events, buffer.data)
    modifies buffer
    ensures fits <==> |old(buffer.data) + chunk| <= MAX_SSE_EVENT_BYTES
    ensures fits ==>
      && stopped == Stops(stop, Drain(Concat(chunks + [chunk])).0)
      && after == UpTo(stop, Drain(Concat(chunks + [chunk])).0)
      && (!stopped ==> InStep(stop, chunks + [chunk], after, buffer.data))
  {
    hide Drain, Stops, UpTo, FirstCut, FitsBuffer;
    TakesChunk(stop, chunks, events, buffer.data, chunk);
    buffer.Extend(chunk);
    fits := |buffer.data| <= MAX_SSE_EVENT_BYTES;
    if !fits { return [], false, false; }
    var taken;
    taken, stopped := TakeAll(stop, buffer);
    after := events + taken;
  }

  lemma Complete(stop: seq<byte> -> bool, chunks: seq<seq<byte>>, events: seq<seq<byte>>, buffered: seq<byte>)
    requires InStep(stop, chunks, events, buffered)
    ensures Meaning(stop, Concat(chunks)) == if buffered == [] then events else events + [buffered]
    ensures FitsBuffer(stop, [], chunks) && !Stops(stop, Drain(Concat(chunks)).0)
  {
    hide Drain, Stops;
  }

  /** The pieces of an encoding are its chunks. */
  lemma {:induction false} EncodedPieces(framings: seq<HttpFraming.Framing>, rest: seq<byte>)
    requires HttpFraming.AllValid(framings)
    ensures ChunkPieces(HttpFraming.EncodeAll(framings) + rest) == HttpFraming.Payload(framings) + ChunkPieces(rest)
  {
    hide HttpBody.NextChunk;
    if framings == [] {
      assert HttpFraming.EncodeAll(framings) + rest == rest;
    } else {
      var f, tail := framings[0], HttpFraming.EncodeAll(framings[1..]) + rest;
      assert HttpFraming.EncodeAll(framings) + rest == f.Encode() + tail;
      HttpFraming.ChunkDecoded(f, tail);
      EncodedPieces(framings[1..], rest);
      assert HttpFraming.Payload(framings) == [f.data] + HttpFraming.Payload(framings[1..]);
    }
  }

  /** End to end: every acceptable chunked encoding of a payload, chunk by chunk, is read until the buffer
      is full or the payload ends, and gives the events of the payload. */
  method ReadEncoded(
    framings: seq<HttpFraming.Framing>, last: HttpFraming.Framing, trailers: seq<seq<byte>>, stop: seq<byte> -> bool)
    returns (events: seq<seq<byte>>, end: End)
    requires HttpFraming.AllSent(framings) && HttpFraming.AllReadable(framings)
    requires last.Sent() && last.data == [] && last.Readable()
    requires HttpFraming.AllTrailers(trailers) && HttpFraming.AllText(trailers)
    ensures end == if FitsBuffer(stop, [], HttpFraming.Payload(framings)) then Ended else LimitPassed
    ensures end == Ended ==> events == Meaning(stop, Concat(HttpFraming.Payload(framings)))
  {
    hide Meaning, HttpFraming.AllSent, HttpFraming.AllReadable, HttpFraming.AllTrailers, HttpFraming.AllText,
      HttpFraming.EncodeAll, HttpFraming.Trailers, HttpFraming.Payload, HttpBody.ChunkedBody, FitsBuffer, ChunkPieces;
    var tail := last.Header() + (HttpFraming.Trailers(trailers) + []);
    var stream := HttpFraming.EncodeAll(framings) + tail;
    HttpFraming.BodyRecoveredIff(framings, last, trailers, []);
    EncodedBody(framings, last, trailers, tail);
    var reader := new HttpBody.Connection(stream);
    ghost var pieces;
    events, end, pieces := ReadSse(reader, true, None, stop);
  }

  lemma EncodedBody(
    framings: seq<HttpFraming.Framing>, last: HttpFraming.Framing, trailers: seq<seq<byte>>, tail: seq<byte>)
    requires HttpFraming.AllSent(framings) && HttpFraming.AllReadable(framings)
    requires last.Sent() && last.data == [] && last.Readable()
    requires HttpFraming.AllTrailers(trailers) && HttpFraming.AllText(trailers)
    requires tail == last.Header() + (HttpFraming.Trailers(trailers) + [])
    ensures ChunkPieces(HttpFraming.EncodeAll(framings) + tail) == HttpFraming.Payload(framings)
  {
    hide HttpBody.NextChunk, HttpFraming.Trailers, HttpFraming.AllTrailers, HttpFraming.AllText, HttpFraming.Payload,
      HttpFraming.EncodeAll;
    HttpFraming.SentAndReadableAll(framings);
    EncodedPieces(framings, tail);
    HttpFraming.LastAcceptedIff(last, trailers, []);
    assert HttpBody.NextChunk(tail).Last? by { EmptyBodyIsLast(tail); }
  }

  lemma EmptyBodyIsLast(s: seq<byte>)
    requires HttpBody.ChunkedBody(s).Ok? && HttpBody.ChunkedBody(s).value.0 == []
    ensures HttpBody.NextChunk(s).Last?
  {
    hide HttpBody.NextChunk;
    HttpBody.ChunkShrinks(s);
  }

  // ----- the tool calls of an answer

  function Fragments(parse: seq<byte> -> seq<ToolCalls.Fragment>, events: seq<seq<byte>>): seq<ToolCalls.Fragment> {
    if events == [] then [] else Fragments(parse, events[..|events| - 1]) + parse(events[|events| - 1])
  }

  /** The calls of an answer depend on the bytes of the body alone, not on where they were divided. */
  method ReadToolCalls(
    reader: HttpBody.Connection, chunked: bool, contentLength: Option<nat>, stop: seq<byte> -> bool,
    parse: seq<byte> -> seq<ToolCalls.Fragment>)
    returns (parts: map<nat, ToolCalls.Call>, end: End, ghost pieces: seq<seq<byte>>)
    modifies reader
    ensures ArePieces(ModeOf(chunked, contentLength), old(reader.rest), pieces)
    ensures end == EndOf(stop, pieces, HttpBody.BodyOf(ModeOf(chunked, contentLength), old(reader.rest)))
    ensures end == Ended ==> ToolCalls.Assembles(parts, Fragments(parse, Meaning(stop, Concat(pieces))))
  {
    hide Meaning, HttpBody.BodyOf, ToolCalls.Assembles, FitsBuffer, ArePieces;
    var events;
    events, end, pieces := ReadSse(reader, chunked, contentLength, stop);
    var table := new ToolCalls.Table();
    var i := 0;
    while i < |events|
      invariant 0 <= i <= |events| && fresh(table)
      invariant ToolCalls.Assembles(table.parts, Fragments(parse, events[..i]))
    {
      assert events[..i + 1][..i] == events[..i];
      table.Absorb(parse(events[i]), Fragments(parse, events[..i]));
      i := i + 1;
    }
    assert events[..i] == events;
    parts := table.parts;
  }
}
