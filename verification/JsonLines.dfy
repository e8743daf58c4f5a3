/** Reading newline-terminated frames from a buffered stream. */
module JsonLines {
  import opened Results
  import opened Utf8

  const MAX_FRAME_BYTES := 1024 * 1024
  const LF: byte := 10
  const CR: byte := 13

  datatype FrameError = TooLarge | Unterminated

  /** A buffered reader: `rest` is everything the stream still has to give, and how much of it is
      available at any moment is up to the transport. */
  class BufferedReader {
    var rest: seq<byte>

    constructor (stream: seq<byte>)
      ensures rest == stream
    {
      rest := stream;
    }

    /** Empty only at the end of the stream. */
    method FillBuf() returns (available: seq<byte>)
      ensures available <= rest && (available == [] <==> rest == [])
    {
      if rest == [] { return []; }
      var n :| 1 <= n <= |rest|;
      available := rest[..n];
    }

    method Consume(n: nat)
      requires n <= |rest|
      modifies this
      ensures rest == old(rest)[n..]
    {
      rest := rest[n..];
    }
  }

  // ----- what the stream means

  /** The index of the first `b`, or the length of `s`. */
  function IndexOf(s: seq<byte>, b: byte): (i: nat)
    ensures i <= |s| && b !in s[..i] && (i < |s| ==> s[i] == b)
  {
    if s == [] || s[0] == b then 0
    else
      var j := IndexOf(s[1..], b);
      assert s[..1 + j] == [s[0]] + s[1..][..j];
      1 + j
  }

  function WithoutCr(line: seq<byte>): seq<byte> {
    if line != [] && line[|line| - 1] == CR then line[..|line| - 1] else line
  }

  datatype Frame = End | Content(bytes: seq<byte>, rest: seq<byte>) | Fault(error: FrameError)

  /** The next non-blank line of `s`, or why there is none. Says nothing about buffers. */
  function NextFrame(s: seq<byte>, limit: nat): Frame
    decreases |s|
  {
    if s == [] then End
    else
      var n := IndexOf(s, LF);
      if n == |s| then Fault(if |s| > limit then TooLarge else Unterminated)
      else if n + 1 > limit then Fault(TooLarge)
      else
        var content := WithoutCr(s[..n]);
        if content == [] then NextFrame(s[n + 1..], limit) else Content(content, s[n + 1..])
  }

  // ----- the reading loop

  lemma {:induction false} IndexAcross(a: seq<byte>, b: seq<byte>)
    requires LF !in a
    ensures IndexOf(a + b, LF) == |a| + IndexOf(b, LF)
  {
    if a == [] {
      assert a + b == b;
    } else {
      assert (a + b)[1..] == a[1..] + b;
      IndexAcross(a[1..], b);
    }
  }

  lemma FirstIsLf(rest: seq<byte>)
    ensures IndexOf([LF] + rest, LF) == 0
  {
  }

  lemma BlankLine(output: seq<byte>, rest: seq<byte>, limit: nat)
    requires LF !in output && |output| + 1 <= limit && WithoutCr(output) == []
    ensures NextFrame(output + [LF] + rest, limit) == NextFrame(rest, limit)
  {
    hide IndexOf;
    var s := output + [LF] + rest;
    IndexAcross(output, [LF] + rest);
    FirstIsLf(rest);
    assert s == output + ([LF] + rest);
    assert s[..|output|] == output && s[|output| + 1..] == rest;
  }

  lemma FullLine(output: seq<byte>, rest: seq<byte>, limit: nat)
    requires LF !in output && |output| + 1 <= limit && WithoutCr(output) != []
    ensures NextFrame(output + [LF] + rest, limit) == Content(WithoutCr(output), rest)
  {
    hide IndexOf;
    var s := output + [LF] + rest;
    IndexAcross(output, [LF] + rest);
    FirstIsLf(rest);
    assert s == output + ([LF] + rest);
    assert s[..|output|] == output && s[|output| + 1..] == rest;
  }

  lemma LongLine(output: seq<byte>, rest: seq<byte>, take: nat, limit: nat)
    requires LF !in output && 0 < take <= |rest| && LF !in rest[..take - 1] && |output| + take > limit
    ensures NextFrame(output + rest, limit) == Fault(TooLarge)
  {
    IndexAcross(output, rest);
    assert IndexOf(rest, LF) >= take - 1;
  }

  lemma EndOfStream(output: seq<byte>, limit: nat)
    requires LF !in output && |output| <= limit
    ensures NextFrame(output, limit) == if output == [] then End else Fault(Unterminated)
  {
    IndexAcross(output, []);
    assert output + [] == output;
  }

  /** How much of the available bytes one turn takes. */
  function Taken(available: seq<byte>): (take: nat)
    requires available != []
    ensures 0 < take <= |available| && LF !in available[..take - 1]
    ensures available[take - 1] != LF ==> LF !in available[..take]
  {
    var i := IndexOf(available, LF);
    if i < |available| then i + 1
    else
      assert available[..i] == available && LF !in available;
      |available|
  }

  /** Moving the taken bytes from the stream to the output loses nothing. */
  lemma BytesMove(output: seq<byte>, rest: seq<byte>, available: seq<byte>, take: nat)
    requires LF !in output && available <= rest && 0 < take <= |available| && LF !in available[..take - 1]
    ensures output + available[..take] + rest[take..] == output + rest && LF !in rest[..take - 1]
    ensures available[take - 1] == LF ==>
      var line := (output + available[..take])[..|output| + take - 1];
      LF !in line && output + rest == line + [LF] + rest[take..]
  {
    assert rest[..take - 1] == available[..take - 1];
    assert rest == available[..take] + rest[take..];
    if available[take - 1] == LF {
      var line := (output + available[..take])[..|output| + take - 1];
      assert line == output + available[..take - 1];
      assert available[..take] == available[..take - 1] + [LF];
    }
  }

  function Written(frames: seq<seq<byte>>): seq<byte> {
    if frames == [] then [] else frames[0] + [LF] + Written(frames[1..])
  }

  lemma {:induction false} WrittenMore(lines: seq<seq<byte>>, line: seq<byte>)
    ensures Written(lines + [line]) == Written(lines) + (line + [LF])
  {
    if lines == [] {
      assert [line][1..] == [];
    } else {
      assert (lines + [line])[1..] == lines[1..] + [line];
      WrittenMore(lines[1..], line);
    }
  }

  /** How far a reader has come that has skipped blank lines and holds the beginning of another line. */
  ghost predicate Partly(stream: seq<byte>, skipped: seq<seq<byte>>, output: seq<byte>, rest: seq<byte>, limit: nat) {
    && stream == Written(skipped) + output + rest && LF !in output && |output| <= limit
    && forall i :: 0 <= i < |skipped| ==> WithoutCr(skipped[i]) == [] && LF !in skipped[i]
  }

  lemma PartlyTakes(
    stream: seq<byte>, skipped: seq<seq<byte>>, output: seq<byte>, rest: seq<byte>, taken: seq<byte>, limit: nat)
    requires Partly(stream, skipped, output, rest, limit)
    requires taken <= rest && LF !in taken && |output| + |taken| <= limit
    ensures Partly(stream, skipped, output + taken, rest[|taken|..], limit)
  {
    hide Written;
    assert rest == taken + rest[|taken|..];
  }

  lemma PartlySkips(
    stream: seq<byte>, skipped: seq<seq<byte>>, output: seq<byte>, rest: seq<byte>, taken: seq<byte>, line: seq<byte>,
    limit: nat)
    requires Partly(stream, skipped, output, rest, limit)
    requires taken <= rest && output + taken == line + [LF] && LF !in line && WithoutCr(line) == []
    ensures Partly(stream, skipped + [line], [], rest[|taken|..], limit)
  {
    hide Written;
    WrittenMore(skipped, line);
    var left := rest[|taken|..];
    assert rest == taken + left;
    assert Written(skipped) + output + (taken + left) == Written(skipped) + (output + taken) + left;
    assert Written(skipped + [line]) + [] + left == Written(skipped) + (line + [LF]) + left;
  }

  /** `read_frame`: whatever pieces the buffer arrives in, the outcome is the one the bytes and the
      limit determine, and success consumes exactly through the frame's newline. A refusal leaves the
      stream inside the refused line, or at its end when that line is unterminated. */
  method ReadFrame(reader: BufferedReader, maximum: nat) returns (r: Result<Option<seq<byte>>, FrameError>)
    modifies reader
    ensures var limit := if maximum < MAX_FRAME_BYTES then maximum else MAX_FRAME_BYTES;
      match NextFrame(old(reader.rest), limit)
      case End => r == Ok(None) && reader.rest == []
      case Content(bytes, rest) => r == Ok(Some(bytes)) && reader.rest == rest
      case Fault(error) =>
        && r == Err(error) && (error == Unterminated ==> reader.rest == [])
        && exists skipped, output :: Partly(old(reader.rest), skipped, output, reader.rest, limit)
  {
    hide NextFrame, IndexOf, Taken;
    var limit := if maximum < MAX_FRAME_BYTES then maximum else MAX_FRAME_BYTES;
    var output: seq<byte> := [];
    assert output + reader.rest == reader.rest;
    ghost var skipped: seq<seq<byte>> := [];
    assert Partly(reader.rest, skipped, output, reader.rest, limit);
    hide Partly;
    while true
      invariant LF !in output && |output| <= limit
      invariant NextFrame(output + reader.rest, limit) == NextFrame(old(reader.rest), limit)
      invariant Partly(old(reader.rest), skipped, output, reader.rest, limit)
      decreases |reader.rest|
    {
      var available := reader.FillBuf();
      if available == [] {
        assert output + reader.rest == output;
        EndOfStream(output, limit);
        return if output == [] then Ok(None) else Err(Unterminated);
      }
      ghost var before, rest := output, reader.rest;
      var take := Taken(available);
      BytesMove(output, rest, available, take);
      if |output| + take > limit {
        LongLine(output, rest, take, limit);
        return Err(TooLarge);
      }
      output := output + available[..take];
      var complete := available[take - 1] == LF;
      reader.Consume(take);
      if complete {
        output := output[..|output| - 1];
        ghost var line := output;
        if output != [] && output[|output| - 1] == CR {
          output := output[..|output| - 1];
        }
        if output == [] {
          assert before + available[..take] == line + [LF];
          PartlySkips(old(reader.rest), skipped, before, rest, available[..take], line, limit);
          skipped := skipped + [line];
          BlankLine(line, reader.rest, limit);
          assert output + reader.rest == reader.rest;
          continue;
        }
        FullLine(line, reader.rest, limit);
        return Ok(Some(output));
      }
      PartlyTakes(old(reader.rest), skipped, before, rest, available[..take], limit);
    }
  }

  // ----- writing and reading back

  /** Frames a reader with this limit gives back as they were. */
  predicate Writable(frame: seq<byte>, limit: nat) {
    frame != [] && LF !in frame && frame[|frame| - 1] != CR && |frame| + 1 <= limit
  }

  lemma {:induction false} FrameShape(s: seq<byte>, limit: nat)
    ensures NextFrame(s, limit).Content? ==>
      NextFrame(s, limit).bytes != [] && LF !in NextFrame(s, limit).bytes && |NextFrame(s, limit).rest| < |s|
    decreases |s|
  {
    if s != [] {
      var n := IndexOf(s, LF);
      if n < |s| && n + 1 <= limit && WithoutCr(s[..n]) == [] { FrameShape(s[n + 1..], limit); }
    }
  }

  /** A frame followed by a newline is read back whole exactly when it is not empty, holds no
      newline, does not end with a carriage return, and fits the limit with its newline. */
  lemma ReadBackIff(frame: seq<byte>, rest: seq<byte>, limit: nat)
    ensures NextFrame(frame + [LF] + rest, limit) == Content(frame, rest) <==> Writable(frame, limit)
  {
    var s := frame + [LF] + rest;
    FrameShape(s, limit);
    if Writable(frame, limit) {
      FullLine(frame, rest, limit);
    } else if frame != [] && LF !in frame {
      IndexAcross(frame, [LF] + rest);
      assert s == frame + ([LF] + rest) && s[..|frame|] == frame && s[|frame| + 1..] == rest;
      if |frame| + 1 <= limit && WithoutCr(frame) == [] {
        BlankLine(frame, rest, limit);
        FrameShape(rest, limit);
      }
    }
  }

  function ReadBack(s: seq<byte>, limit: nat): seq<seq<byte>>
    decreases |s|
  {
    FrameShape(s, limit);
    var f := NextFrame(s, limit);
    if f.Content? then [f.bytes] + ReadBack(f.rest, limit) else []
  }

  /** Every sequence of writable frames is recovered. */
  lemma {:induction false} FramesRecovered(frames: seq<seq<byte>>, limit: nat)
    requires forall i :: 0 <= i < |frames| ==> Writable(frames[i], limit)
    ensures ReadBack(Written(frames), limit) == frames
  {
    if frames != [] {
      ReadBackIff(frames[0], Written(frames[1..]), limit);
      FramesRecovered(frames[1..], limit);
    }
  }
}
