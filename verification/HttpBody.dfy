/** Reading an HTTP/1.1 response body: chunked, of a given length, or up to the end of the stream. */
module HttpBody {
  import opened Results
  import opened Utf8
  import opened JsonLines
  import Sse

  const USIZE_MAX := 0xFFFF_FFFF_FFFF_FFFF
  const MAX_SIZE_LINE := 128
  const READ_SIZE := 8192
  const SEMICOLON: byte := 59
  const CRLF: seq<byte> := [CR, LF]

  datatype BodyError = Closed | NotText | BadSize | ChunkTooLarge | Malformed | BodyTooLarge

  // ----- the size line

  /** The length of the whitespace character that starts `s`, in the sense of str::trim; 0 if none. */
  function SpaceLen(s: seq<byte>): (n: nat)
    ensures n <= |s| && n <= 3
  {
    if |s| >= 1 && (9 <= s[0] <= 13 || s[0] == 32) then 1
    else if |s| >= 2 && s[0] == 0xC2 && (s[1] == 0x85 || s[1] == 0xA0) then 2
    else if |s| >= 3 && WideSpace(s[0], s[1], s[2]) then 3
    else 0
  }

  predicate WideSpace(a: byte, b: byte, c: byte) {
    || (a == 0xE1 && b == 0x9A && c == 0x80)
    || (a == 0xE2 && b == 0x80 && (0x80 <= c <= 0x8A || c == 0xA8 || c == 0xA9 || c == 0xAF))
    || (a == 0xE2 && b == 0x81 && c == 0x9F)
    || (a == 0xE3 && b == 0x80 && c == 0x80)
  }

  /** And of the one that ends it. */
  function EndSpaceLen(s: seq<byte>): (n: nat)
    ensures n <= |s|
  {
    var n := |s|;
    if n >= 1 && SpaceLen([s[n - 1]]) == 1 then 1
    else if n >= 2 && SpaceLen([s[n - 2], s[n - 1]]) == 2 then 2
    else if n >= 3 && SpaceLen([s[n - 3], s[n - 2], s[n - 1]]) == 3 then 3
    else 0
  }

  function TrimStart(s: seq<byte>): seq<byte> {
    if SpaceLen(s) == 0 then s else TrimStart(s[SpaceLen(s)..])
  }

  function TrimEnd(s: seq<byte>): (r: seq<byte>)
    ensures r <= s
  {
    if EndSpaceLen(s) == 0 then s else TrimEnd(s[..|s| - EndSpaceLen(s)])
  }

  function SizeText(line: seq<byte>): seq<byte> {
    var trimmed := TrimEnd(TrimStart(line));
    trimmed[..IndexOf(trimmed, SEMICOLON)]
  }

  function HexDigit(b: byte): Option<nat> {
    if 48 <= b <= 57 then Some(b - 48)
    else if 65 <= b <= 70 then Some(b - 55)
    else if 97 <= b <= 102 then Some(b - 87)
    else None
  }

  predicate AllHex(s: seq<byte>) {
    forall i :: 0 <= i < |s| ==> HexDigit(s[i]).Some?
  }

  function HexNumber(s: seq<byte>): nat
    requires AllHex(s)
  {
    if s == [] then 0 else 16 * HexNumber(s[..|s| - 1]) + HexDigit(s[|s| - 1]).value
  }

  /** usize::from_str_radix(text, 16), which also takes a leading plus sign. */
  function ParseSize(text: seq<byte>): Option<nat> {
    var digits := if text != [] && text[0] == 43 then text[1..] else text;
    if digits == [] || !AllHex(digits) || HexNumber(digits) > USIZE_MAX then None else Some(HexNumber(digits))
  }

  // ----- what the stream means

  /** Where the line that starts `s` ends: after its LF, or at the end of the stream. */
  function LineEnd(s: seq<byte>): (n: nat)
    ensures n <= |s| && (n == 0 <==> s == [])
  {
    var i := IndexOf(s, LF);
    if i < |s| then i + 1 else i
  }

  predicate BlankEnd(line: seq<byte>) {
    line == [] || line == CRLF || line == [LF]
  }

  /** What follows the trailer section; a stream may end inside it. */
  function AfterTrailers(s: seq<byte>): Option<seq<byte>>
    decreases |s|
  {
    var n := LineEnd(s);
    if !WellFormed(s[..n]) then None
    else if BlankEnd(s[..n]) then Some(s[n..])
    else AfterTrailers(s[n..])
  }

  datatype Step = Data(bytes: seq<byte>, rest: seq<byte>) | Last(rest: seq<byte>) | Broken(error: BodyError)

  /** The chunk that starts `s`. */
  function NextChunk(s: seq<byte>): Step {
    var n := LineEnd(s);
    var line, rest := s[..n], s[n..];
    if !WellFormed(line) then Broken(NotText)
    else if n == 0 then Broken(Closed)
    else if n > MAX_SIZE_LINE then Broken(BadSize)
    else
      match ParseSize(SizeText(line))
      case None => Broken(BadSize)
      case Some(size) =>
        if size == 0 then
          match AfterTrailers(rest)
          case None => Broken(NotText)
          case Some(after) => Last(after)
        else if size > Sse.MAX_SSE_EVENT_BYTES then Broken(ChunkTooLarge)
        else if |rest| < size + 2 then Broken(Closed)
        else if rest[size..size + 2] != CRLF then Broken(Malformed)
        else Data(rest[..size], rest[size + 2..])
  }

  lemma ChunkShrinks(s: seq<byte>)
    ensures NextChunk(s).Data? ==> |NextChunk(s).rest| < |s| && NextChunk(s).bytes != []
  {
  }

  /** The body of a chunked stream and what follows it. */
  function ChunkedBody(s: seq<byte>): Result<(seq<byte>, seq<byte>), BodyError>
    decreases |s|
  {
    ChunkShrinks(s);
    match NextChunk(s)
    case Broken(error) => Err(error)
    case Last(rest) => Ok(([], rest))
    case Data(bytes, rest) =>
      match ChunkedBody(rest)
      case Err(error) => Err(error)
      case Ok((more, after)) => Ok((bytes + more, after))
  }

  datatype Mode = Chunked | Length(remaining: nat) | UntilEof | Done

  function BodyOf(mode: Mode, s: seq<byte>): Result<(seq<byte>, seq<byte>), BodyError> {
    match mode
    case Chunked => ChunkedBody(s)
    case Length(n) => if |s| < n then Err(Closed) else Ok((s[..n], s[n..]))
    case UntilEof => Ok((s, []))
    case Done => Ok(([], s))
  }

  // ----- the reader

  /** The buffered half of a connection: everything the peer still sends, then end of stream. */
  class Connection {
    var rest: seq<byte>

    constructor (stream: seq<byte>)
      ensures rest == stream
    {
      rest := stream;
    }

    method ReadLine() returns (r: Result<seq<byte>, BodyError>)
      modifies this
      ensures var n := LineEnd(old(rest)); var line := old(rest)[..n];
        && rest == old(rest)[n..]
        && r == if WellFormed(line) then Ok(line) else Err(NotText)
    {
      var n := LineEnd(rest);
      var line := rest[..n];
      rest := rest[n..];
      r := if WellFormed(line) then Ok(line) else Err(NotText);
    }

    method ReadExact(n: nat) returns (r: Result<seq<byte>, BodyError>)
      modifies this
      ensures if n <= |old(rest)| then r == Ok(old(rest)[..n]) && rest == old(rest)[n..] else r == Err(Closed)
    {
      if n > |rest| { return Err(Closed); }
      r := Ok(rest[..n]);
      rest := rest[n..];
    }

    /** As many bytes as the transport has ready, at least one before the end of the stream. */
    method Read(limit: nat) returns (bytes: seq<byte>)
      requires limit > 0
      modifies this
      ensures |bytes| <= limit && (bytes == [] <==> old(rest) == []) && old(rest) == bytes + rest
    {
      if rest == [] { return []; }
      var n :| 1 <= n <= |rest| && n <= limit;
      bytes := rest[..n];
      rest := rest[n..];
    }
  }

  /** What one call of `next` does to a stream in a given mode, for the pieces it hands over. */
  ghost predicate Hands(
    mode: Mode, s: seq<byte>, r: Result<Option<seq<byte>>, BodyError>, after: Mode, rest: seq<byte>)
  {
    match mode
    case Chunked =>
      (match NextChunk(s)
       case Broken(error) => r == Err(error) && after == mode
       case Last(left) => r == Ok(None) && after == Done && rest == left
       case Data(bytes, left) => r == Ok(Some(bytes)) && after == mode && rest == left)
    case Length(n) =>
      var piece := if n < READ_SIZE then n else READ_SIZE;
      if n == 0 then r == Ok(None) && after == Done && rest == s
      else if |s| < piece then r == Err(Closed) && after == mode
      else r == Ok(Some(s[..piece])) && after == Length(n - piece) && rest == s[piece..]
    case UntilEof =>
      if s == [] then r == Ok(None) && after == Done && rest == s
      else
        && r.Ok? && r.value.Some? && 0 < |r.value.value| <= READ_SIZE
        && s == r.value.value + rest && after == mode
    case Done => r == Ok(None) && after == Done && rest == s
  }

  class BodyReader {
    var mode: Mode

    constructor (chunked: bool, contentLength: Option<nat>)
      ensures mode == if chunked then Chunked else if contentLength.Some? then Length(contentLength.value) else UntilEof
    {
      mode := if chunked then Chunked else if contentLength.Some? then Length(contentLength.value) else UntilEof;
    }

    method Next(reader: Connection) returns (r: Result<Option<seq<byte>>, BodyError>)
      modifies this, reader
      ensures Hands(old(mode), old(reader.rest), r, mode, reader.rest)
    {
      match mode {
        case Chunked =>
          r := NextChunked(reader);
        case Length(remaining) =>
          if remaining == 0 { mode := Done; return Ok(None); }
          var amount := if remaining < READ_SIZE then remaining else READ_SIZE;
          var bytes := reader.ReadExact(amount);
          if bytes.Err? { return Err(bytes.error); }
          mode := Length(remaining - amount);
          r := Ok(Some(bytes.value));
        case UntilEof =>
          var bytes := reader.Read(READ_SIZE);
          if bytes == [] { mode := Done; return Ok(None); }
          r := Ok(Some(bytes));
        case Done =>
          r := Ok(None);
      }
    }

    method NextChunked(reader: Connection) returns (r: Result<Option<seq<byte>>, BodyError>)
      requires mode == Chunked
      modifies this, reader
      ensures Hands(Chunked, old(reader.rest), r, mode, reader.rest)
    {
      hide WellFormed, SizeText, ParseSize, LineEnd, AfterTrailers;
      var read := reader.ReadLine();
      if read.Err? { return Err(read.error); }
      var line := read.value;
      if line == [] { return Err(Closed); }
      if |line| > MAX_SIZE_LINE { return Err(BadSize); }
      var parsed := ParseSize(SizeText(line));
      if parsed.None? { return Err(BadSize); }
      var size := parsed.value;
      if size == 0 {
        var skipped := SkipTrailers(reader);
        if skipped.Err? { return Err(skipped.error); }
        mode := Done;
        return Ok(None);
      }
      if size > Sse.MAX_SSE_EVENT_BYTES { return Err(ChunkTooLarge); }
      ghost var rest := reader.rest;
      var bytes := reader.ReadExact(size);
      if bytes.Err? { return Err(bytes.error); }
      var crlf := reader.ReadExact(2);
      if crlf.Err? { return Err(crlf.error); }
      assert rest[size..][..2] == rest[size..size + 2] && rest[size..][2..] == rest[size + 2..];
      if crlf.value != CRLF { return Err(Malformed); }
      r := Ok(Some(bytes.value));
    }
  }

  method SkipTrailers(reader: Connection) returns (r: Result<(), BodyError>)
    modifies reader
    ensures match AfterTrailers(old(reader.rest))
            case None => r == Err(NotText)
            case Some(after) => r == Ok(()) && reader.rest == after
  {
    while true
      invariant AfterTrailers(reader.rest) == AfterTrailers(old(reader.rest))
      decreases |reader.rest|
    {
      var line := reader.ReadLine();
      if line.Err? { return Err(line.error); }
      if BlankEnd(line.value) { return Ok(()); }
    }
  }

  /** read_body_bounded: exactly the body the stream means, when it fits. */
  method ReadBodyBounded(reader: Connection, chunked: bool, contentLength: Option<nat>, maximum: nat)
    returns (r: Result<seq<byte>, BodyError>)
    modifies reader
    ensures var mode :=
      if chunked then Chunked else if contentLength.Some? then Length(contentLength.value) else UntilEof;
      var body := BodyOf(mode, old(reader.rest));
      && (r.Ok? <==> body.Ok? && |body.value.0| <= maximum)
      && (r.Ok? ==> r.value == body.value.0 && reader.rest == body.value.1)
  {
    hide BodyOf, Hands;
    var body := new BodyReader(chunked, contentLength);
    ghost var whole := BodyOf(body.mode, reader.rest);
    var output := [];
    assert whole.Ok? ==> [] + whole.value.0 == whole.value.0;
    while true
      invariant fresh(body) && |output| <= maximum
      invariant var left := BodyOf(body.mode, reader.rest);
        && (left.Ok? <==> whole.Ok?)
        && (whole.Ok? ==> whole.value == (output + left.value.0, left.value.1))
      decreases |reader.rest|
    {
      ghost var mode, rest := body.mode, reader.rest;
      var chunk := body.Next(reader);
      HandedOver(mode, rest, chunk, body.mode, reader.rest);
      if chunk.Err? { return Err(chunk.error); }
      if chunk.value.None? {
        assert output + [] == output;
        return Ok(output);
      }
      if |output| + |chunk.value.value| > maximum { return Err(BodyTooLarge); }
      ghost var left := BodyOf(body.mode, reader.rest);
      assert left.Ok? ==> output + (chunk.value.value + left.value.0) == (output + chunk.value.value) + left.value.0;
      output := output + chunk.value.value;
    }
  }

  lemma FrontThenRest(s: seq<byte>, piece: nat, n: nat)
    requires piece <= n <= |s|
    ensures s[piece..][n - piece..] == s[n..] && s[..piece] + s[piece..][..n - piece] == s[..n]
  {
  }

  /** A piece handed over is the front of the body, and the rest of the body is still to come. */
  lemma HandedOver(mode: Mode, s: seq<byte>, r: Result<Option<seq<byte>>, BodyError>, after: Mode, rest: seq<byte>)
    requires Hands(mode, s, r, after, rest)
    ensures r.Err? ==> BodyOf(mode, s) == Err(r.error)
    ensures r == Ok(None) ==> BodyOf(mode, s) == Ok(([], rest)) && after == Done
    ensures r.Ok? && r.value.Some? ==>
      && |rest| < |s|
      && var left := BodyOf(after, rest);
      BodyOf(mode, s) == if left.Err? then left else Ok((r.value.value + left.value.0, left.value.1))
  {
    hide NextChunk;
    ChunkShrinks(s);
    if mode.Length? && r.Ok? && r.value.Some? && mode.remaining <= |s| {
      FrontThenRest(s, |r.value.value|, mode.remaining);
    }
  }
}
