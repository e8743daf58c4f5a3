/** One round of the agent loop: a provider task, a channel, and the loop that forwards what it sends. */
module AgentRound {
  import opened Results
  import opened Utf8
  import Streaming
  import Chat

  const CHANNEL_CAPACITY := 64

  datatype Chunk = ProgressChunk(starting: bool) | TextChunk(content: Streaming.Text)
  datatype Phase = Forwarding | Draining | Finished | Failed | Aborted

  /** `sent` is all the provider ever sent, `queue` what is still in the channel, `forwarded` what the
      client was sent. `ended` says that the provider's task is over, and whether it succeeded. */
  datatype Round = Round(
    sent: seq<Chunk>, queue: seq<Chunk>, forwarded: seq<Chunk>, ended: Option<bool>, phase: Phase)

  const START := Round([], [], [], None, Forwarding)

  /** The steps of the two tasks. `Receive` and `Join` are the branches of the select; `TryReceive` is
      the drain after it. */
  datatype Step = Send(chunk: Chunk) | End(ok: bool) | Receive | Join | TryReceive | Cancel

  function Next(s: Round, step: Step): Round {
    match step
    case Send(chunk) =>
      if s.ended.None? && |s.queue| < CHANNEL_CAPACITY then s.(sent := s.sent + [chunk], queue := s.queue + [chunk])
      else s
    case End(ok) => if s.ended.None? then s.(ended := Some(ok)) else s
    case Receive =>
      if s.phase == Forwarding && s.queue != [] then
        s.(queue := s.queue[1..], forwarded := s.forwarded + [s.queue[0]])
      else s
    case Join =>
      if s.phase == Forwarding && s.ended.Some? then s.(phase := if s.ended.value then Draining else Failed) else s
    case TryReceive =>
      if s.phase != Draining then s
      else if s.queue == [] then s.(phase := Finished)
      else
        s.(queue := s.queue[1..], forwarded := s.forwarded + if s.queue[0].TextChunk? then [s.queue[0]] else [])
    case Cancel => if s.phase == Forwarding then s.(phase := Aborted) else s
  }

  function Run(steps: seq<Step>): Round {
    if steps == [] then START else Next(Run(steps[..|steps| - 1]), steps[|steps| - 1])
  }

  predicate Over(s: Round) {
    s.phase == Finished || s.phase == Failed || s.phase == Aborted
  }

  function Texts(chunks: seq<Chunk>): seq<Chunk> {
    if chunks == [] then []
    else
      var last := chunks[|chunks| - 1];
      Texts(chunks[..|chunks| - 1]) + if last.TextChunk? then [last] else []
  }

  function Details(chunks: seq<Chunk>): seq<Chunk> {
    if chunks == [] then []
    else
      var last := chunks[|chunks| - 1];
      Details(chunks[..|chunks| - 1]) + if last.ProgressChunk? then [last] else []
  }

  lemma {:induction false} TextsAppend(a: seq<Chunk>, b: seq<Chunk>)
    ensures Texts(a + b) == Texts(a) + Texts(b) && Details(a + b) == Details(a) + Details(b)
  {
    if b == [] {
      assert a + b == a;
    } else {
      var init := b[..|b| - 1];
      assert (a + b)[..|a + b| - 1] == a + init;
      TextsAppend(a, init);
    }
  }

  /** No text is lost, repeated or reordered: what was sent is what was forwarded and then what is in
      the channel. Progress is forwarded in order too, until the task has been joined. */
  ghost predicate Inv(s: Round) {
    && Texts(s.sent) == Texts(s.forwarded) + Texts(s.queue)
    && Details(s.forwarded) <= Details(s.sent)
    && (s.phase == Forwarding ==> s.sent == s.forwarded + s.queue)
    && (s.phase == Draining || s.phase == Finished ==> s.ended == Some(true))
    && (s.phase == Finished ==> s.queue == [])
    && |s.queue| <= CHANNEL_CAPACITY
  }

  lemma SendKeeps(s: Round, chunk: Chunk)
    requires Inv(s)
    ensures Inv(Next(s, Send(chunk)))
  {
    hide Texts, Details;
    TextsAppend(s.sent, [chunk]);
    TextsAppend(s.queue, [chunk]);
    assert (Texts(s.forwarded) + Texts(s.queue)) + Texts([chunk]) ==
      Texts(s.forwarded) + (Texts(s.queue) + Texts([chunk]));
    assert (s.forwarded + s.queue) + [chunk] == s.forwarded + (s.queue + [chunk]);
  }

  lemma TakeKeeps(s: Round, step: Step)
    requires Inv(s) && (step.Receive? || step.TryReceive?)
    ensures Inv(Next(s, step))
  {
    hide Texts, Details;
    if s.queue != [] {
      var head, rest := s.queue[0], s.queue[1..];
      assert s.queue == [head] + rest;
      TextsAppend([head], rest);
      TextsAppend(s.forwarded, [head]);
      TextsOne(head);
      assert Texts(s.forwarded) + (Texts([head]) + Texts(rest)) == (Texts(s.forwarded) + Texts([head])) + Texts(rest);
      assert s.forwarded + ([head] + rest) == (s.forwarded + [head]) + rest;
      if step.Receive? && s.phase == Forwarding { TextsAppend(s.forwarded + [head], rest); }
      assert s.forwarded + [] == s.forwarded && Texts(s.forwarded) + [] == Texts(s.forwarded);
      assert Details(s.forwarded) + [] == Details(s.forwarded);
    }
  }

  lemma TextsOne(chunk: Chunk)
    ensures Texts([chunk]) == if chunk.TextChunk? then [chunk] else []
    ensures Details([chunk]) == if chunk.TextChunk? then [] else [chunk]
  {
    assert [chunk][..0] == [];
  }

  lemma {:induction false} RunKeeps(steps: seq<Step>)
    ensures Inv(Run(steps))
  {
    if steps != [] {
      var init, last := steps[..|steps| - 1], steps[|steps| - 1];
      RunKeeps(init);
      match last {
        case Send(chunk) => SendKeeps(Run(init), chunk);
        case Receive => TakeKeeps(Run(init), last);
        case TryReceive => TakeKeeps(Run(init), last);
        case _ =>
      }
    }
  }

  /** However the tasks interleave: when a round finishes, the client has been sent exactly the text
      the provider sent, in its order; before that, and after a failure, a beginning of it. */
  lemma ForwardsText(steps: seq<Step>)
    ensures var s := Run(steps);
      && Texts(s.forwarded) <= Texts(s.sent) && Details(s.forwarded) <= Details(s.sent)
      && (s.phase == Finished ==> Texts(s.forwarded) == Texts(s.sent) && s.ended == Some(true))
  {
    RunKeeps(steps);
    var s := Run(steps);
    assert s.phase == Finished ==> Texts(s.forwarded) + [] == Texts(s.forwarded);
  }

  /** A finished round can have dropped progress: a chunk still in the channel when the task is joined. */
  lemma LateProgressDropped(starting: bool)
    ensures var s := Run([Send(ProgressChunk(starting)), End(true), Join, TryReceive, TryReceive]);
      s.phase == Finished && s.sent == [ProgressChunk(starting)] && s.forwarded == []
  {
    var chunk := ProgressChunk(starting);
    var steps := [Send(chunk), End(true), Join, TryReceive, TryReceive];
    assert steps[..4] == [Send(chunk), End(true), Join, TryReceive];
    assert steps[..4][..3] == [Send(chunk), End(true), Join];
    assert steps[..4][..3][..2] == [Send(chunk), End(true)];
    assert steps[..4][..3][..2][..1] == [Send(chunk)];
    assert steps[..4][..3][..2][..1][..0] == [];
    assert Run(steps[..4][..3][..2][..1]) == Round([chunk], [chunk], [], None, Forwarding);
    assert Run(steps[..4][..3][..2]) == Round([chunk], [chunk], [], Some(true), Forwarding);
    assert Run(steps[..4][..3]) == Round([chunk], [chunk], [], Some(true), Draining);
    assert Run(steps[..4]) == Round([chunk], [], [], Some(true), Draining);
  }

  // ----- a round as events of the answer

  function TextOf(chunks: seq<Chunk>): seq<byte> {
    if chunks == [] then []
    else
      var last := chunks[|chunks| - 1];
      TextOf(chunks[..|chunks| - 1]) + if last.TextChunk? then last.content else []
  }

  function EventsOf(chunks: seq<Chunk>): seq<Streaming.Event> {
    seq(|chunks|, i requires 0 <= i < |chunks| =>
      match chunks[i]
      case ProgressChunk(starting) => Streaming.Progress(starting)
      case TextChunk(content) => Streaming.Delta(content))
  }

  /** The events of a round speak its text. */
  lemma {:induction false} EventsSpeak(chunks: seq<Chunk>)
    ensures Chat.Spoken(EventsOf(chunks)) == TextOf(chunks)
    ensures forall i :: 0 <= i < |EventsOf(chunks)| ==> Chat.LoopEvent(EventsOf(chunks)[i])
  {
    if chunks != [] {
      var init := chunks[..|chunks| - 1];
      EventsSpeak(init);
      assert EventsOf(chunks)[..|chunks| - 1] == EventsOf(init);
    }
  }

  lemma {:induction false} TextOfTexts(chunks: seq<Chunk>)
    ensures TextOf(Texts(chunks)) == TextOf(chunks)
  {
    if chunks != [] {
      var init, last := chunks[..|chunks| - 1], chunks[|chunks| - 1];
      TextOfTexts(init);
      if last.TextChunk? {
        assert (Texts(init) + [last])[..|Texts(init)|] == Texts(init);
      } else {
        assert Texts(init) + [] == Texts(init) && TextOf(init) + [] == TextOf(init);
      }
    }
  }

  lemma {:induction false} TextOfPrefix(a: seq<Chunk>, b: seq<Chunk>)
    requires a <= b
    ensures TextOf(a) <= TextOf(b)
  {
    if |a| < |b| {
      TextOfPrefix(a, b[..|b| - 1]);
    } else {
      assert a == b;
    }
  }

  /** In bytes: the client has the beginning of what the provider said, and all of it at the end. */
  lemma RoundText(steps: seq<Step>)
    ensures var s := Run(steps);
      TextOf(s.forwarded) <= TextOf(s.sent) && (s.phase == Finished ==> TextOf(s.forwarded) == TextOf(s.sent))
  {
    hide Run, Texts, TextOf, Details;
    var s := Run(steps);
    ForwardsText(steps);
    TextOfTexts(s.forwarded);
    TextOfTexts(s.sent);
    TextOfPrefix(Texts(s.forwarded), Texts(s.sent));
  }
}
