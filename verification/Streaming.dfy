/** How the router turns the events of one request into the frames of one stream. */
module Streaming {
  import opened Results
  import opened Utf8

  const DELTA_BYTES := 8192
  const RESULT_BYTES := 262144
  const U64_MAX := 0xFFFF_FFFF_FFFF_FFFF
  const U32_MAX := 0xFFFF_FFFF

  type Text = s: seq<byte> | WellFormed(s) witness []

  datatype Status =
    | Received | Queued | AwaitingConsent | RunningLocal | RunningRemote | FallbackToLocal
    | Completed | Failed | CancelRequested | Cancelled

  predicate ValidTransition(from: Status, to: Status) {
    match from
    case Received => to == Queued || to == AwaitingConsent
    case Queued => to == RunningLocal || to == RunningRemote || to == CancelRequested
    case AwaitingConsent => to == RunningRemote || to == CancelRequested
    case RunningRemote => to == FallbackToLocal || to == Completed || to == Failed || to == CancelRequested
    case FallbackToLocal => to == RunningLocal
    case RunningLocal => to == Completed || to == Failed || to == CancelRequested
    case CancelRequested => to == Status.Cancelled
    case _ => false
  }

  datatype ProviderCode = Timeout | Network | CircuitOpen | UnsupportedCapability | OtherCode(tag: nat)
  datatype Failure = PrivacyDenied | CancelledFailure | ProviderFailure(code: ProviderCode)
  datatype Code =
    | InvalidRequest | PolicyDenied | ProviderUnavailable | TimedOut | CancelledCode | Internal | ValidationFailed
    | OtherError(tag: nat)

  /** What the router reports while it works on a request. Provider texts arrive as valid UTF-8. */
  datatype Event =
    | Accepted
    | StateTransition(from: Status, to: Status)
    | Progress(starting: bool)
    | AnswerStarted(provider: string, fallback: Option<Failure>)
    | Delta(content: Text)
    | ToolResult(known: bool)
    | ActionProposal(known: bool)
    | AnswerFinished(incomplete: bool)
    | Control(response: Text)
    | CancelledEvent
    | Error(code: Code)
    | Done

  datatype Payload =
    | Transition(from: Status, to: Status)
    | ProviderStatus(provider: string)
    | OutputDelta(delta: seq<byte>, cumulativeBytes: nat)
    | ToolProgress(completed: bool)
    | Terminal(final: Status)

  datatype Frame =
    | EventFrame(sequence: nat, status: Status, payload: Payload)
    | ResultFrame(final: Status, content: Option<seq<byte>>, truncated: bool, error: Option<Code>)
    | ErrorFrame(code: Code)

  /** The fields of the stream state, and the frames sent so far. */
  datatype View = View(
    sequence: nat, cumulative: nat, answer: seq<byte>, control: Option<Text>, error: Option<Code>,
    cancelled: bool, completed: bool, status: Status, provider: string, frames: seq<Frame>)

  const FRESH := View(0, 0, [], None, None, false, false, Received, "local", [])

  function Saturated(n: nat, limit: nat): nat {
    if n <= limit then n else limit
  }

  function Sent(v: View, status: Status, payload: Payload): View {
    var sequence := Saturated(v.sequence + 1, U64_MAX);
    v.(sequence := sequence, frames := v.frames + [EventFrame(sequence, status, payload)])
  }

  function SentDelta(v: View, delta: seq<byte>): View {
    var total := v.cumulative + |delta|;
    Sent(v.(cumulative := total), v.status, OutputDelta(delta, Saturated(total, U32_MAX)))
  }

  function SentDeltas(v: View, pieces: seq<seq<byte>>): View {
    if pieces == [] then v else SentDelta(SentDeltas(v, pieces[..|pieces| - 1]), pieces[|pieces| - 1])
  }

  ghost predicate IsSplit(content: seq<byte>, pieces: seq<seq<byte>>) {
    Concat(pieces) == content && forall i :: 0 <= i < |pieces| ==> PieceFits(pieces[i], DELTA_BYTES)
  }

  function FinalStatus(v: View): Status {
    if v.cancelled then Status.Cancelled else if v.error.Some? || !v.completed then Failed else Completed
  }

  /** The text of a completed result, before it is cut to size. */
  function ResultText(v: View): seq<byte> {
    if v.control.Some? then v.control.value else v.answer
  }

  ghost predicate IsResult(v: View, frame: Frame) {
    && frame.ResultFrame? && frame.final == FinalStatus(v)
    && (if frame.final == Completed then
          && frame.content.Some? && IsCut(ResultText(v), RESULT_BYTES, frame.content.value)
          && frame.truncated == (|ResultText(v)| > RESULT_BYTES) && frame.error == None
        else frame.content == None && !frame.truncated && frame.error == v.error)
  }

  /** What `handle` does with one event. */
  ghost predicate Handles(before: View, event: Event, r: Option<Code>, after: View) {
    match event
    case Accepted => r.None? && after == before
    case StateTransition(from, to) =>
      if ValidTransition(from, to) then r.None? && after == Sent(before.(status := to), to, Transition(from, to))
      else r == Some(Internal) && after == before
    case Progress(_) => r.None? && after == Sent(before, before.status, ProviderStatus(before.provider))
    case AnswerStarted(provider, fallback) =>
      var status := if provider == "local" then RunningLocal else RunningRemote;
      var answer := if fallback.Some? then [] else before.answer;
      r.None? && after ==
        Sent(before.(status := status, provider := provider, answer := answer), status, ProviderStatus(provider))
    case Delta(content) =>
      && r.None?
      && exists pieces ::
        IsSplit(content, pieces) && after == SentDeltas(before.(answer := before.answer + content), pieces)
    case ToolResult(known) =>
      r.None? && after == if known then Sent(before, before.status, ToolProgress(true)) else before
    case ActionProposal(known) =>
      r.None? && after == if known then Sent(before, before.status, ToolProgress(false)) else before
    case AnswerFinished(incomplete) => r.None? && after == before.(completed := before.completed || !incomplete)
    case Control(response) => r.None? && after == before.(control := Some(response), completed := true)
    case CancelledEvent => r.None? && after == before.(cancelled := true)
    case Error(code) =>
      r.None? && after ==
        before.(cancelled := code == CancelledCode, error := Some(code), frames := before.frames + [ErrorFrame(code)])
    case Done =>
      var sent := Sent(before, FinalStatus(before), Terminal(FinalStatus(before)));
      if FinalStatus(before) == Failed && before.error.None? then r == Some(ValidationFailed) && after == sent
      else r.None? && exists frame :: IsResult(before, frame) && after == sent.(frames := sent.frames + [frame])
  }

  class StreamState {
    var sequence: nat
    var cumulative: nat
    var answer: seq<byte>
    var control: Option<Text>
    var error: Option<Code>
    var cancelled: bool
    var completed: bool
    var status: Status
    var provider: string
    var frames: seq<Frame>

    ghost function Seen(): View
      reads this
    {
      View(sequence, cumulative, answer, control, error, cancelled, completed, status, provider, frames)
    }

    constructor ()
      ensures Seen() == FRESH
    {
      sequence, cumulative, answer, control, error := 0, 0, [], None, None;
      cancelled, completed, status, provider, frames := false, false, Received, "local", [];
    }

    method SendEvent(status: Status, payload: Payload)
      modifies this
      ensures Seen() == Sent(old(Seen()), status, payload)
    {
      sequence := Saturated(sequence + 1, U64_MAX);
      frames := frames + [EventFrame(sequence, status, payload)];
    }

    method SendDeltas(content: Text)
      modifies this
      ensures exists pieces :: IsSplit(content, pieces) && Seen() == SentDeltas(old(Seen()), pieces)
    {
      hide WellFormed, CharLen, Boundary, PieceFits;
      FourBytesSuffice(content, DELTA_BYTES);
      var pieces := SplitBounded(content, DELTA_BYTES);
      var i := 0;
      while i < |pieces|
        invariant 0 <= i <= |pieces| && Seen() == SentDeltas(old(Seen()), pieces[..i])
      {
        assert pieces[..i + 1][..i] == pieces[..i];
        cumulative := cumulative + |pieces[i]|;
        SendEvent(status, OutputDelta(pieces[i], Saturated(cumulative, U32_MAX)));
        i := i + 1;
      }
      assert pieces[..i] == pieces;
    }

    method Finish(final: Status) returns (r: Result<Frame, Code>)
      requires WellFormed(answer) && final == FinalStatus(Seen())
      ensures if final == Failed && error.None? then r == Err(ValidationFailed) else r.Ok? && IsResult(Seen(), r.value)
    {
      if final == Completed {
        var content, truncated := TruncateUtf8(if control.Some? then control.value else answer, RESULT_BYTES);
        return Ok(ResultFrame(final, Some(content), truncated, None));
      }
      if final == Failed && error.None? { return Err(ValidationFailed); }
      r := Ok(ResultFrame(final, None, false, error));
    }

    method TakeDelta(content: Text)
      requires WellFormed(answer)
      modifies this
      ensures WellFormed(answer)
      ensures Handles(old(Seen()), Delta(content), None, Seen())
    {
      hide WellFormed, IsSplit;
      JoinedWellFormed(answer, content);
      answer := answer + content;
      ghost var start := Seen();
      SendDeltas(content);
      ghost var pieces :| IsSplit(content, pieces) && Seen() == SentDeltas(start, pieces);
      DeltasKeep(start, pieces);
    }

    method Handle(event: Event) returns (r: Option<Code>)
      requires WellFormed(answer)
      modifies this
      ensures WellFormed(answer)
      ensures Handles(old(Seen()), event, r, Seen())
    {
      hide WellFormed, IsSplit, IsResult;
      r := None;
      match event {
        case Accepted =>
        case StateTransition(from, to) =>
          if !ValidTransition(from, to) { return Some(Internal); }
          status := to;
          SendEvent(to, Transition(from, to));
        case Progress(_) =>
          SendEvent(status, ProviderStatus(provider));
        case AnswerStarted(id, fallback) =>
          if fallback.Some? { answer := []; AsciiWellFormed([]); }
          status := if id == "local" then RunningLocal else RunningRemote;
          provider := id;
          SendEvent(status, ProviderStatus(id));
        case Delta(content) =>
          TakeDelta(content);
        case ToolResult(known) =>
          if known { SendEvent(status, ToolProgress(true)); }
        case ActionProposal(known) =>
          if known { SendEvent(status, ToolProgress(false)); }
        case AnswerFinished(incomplete) =>
          if !incomplete { completed := true; }
        case Control(response) =>
          control := Some(response);
          completed := true;
        case CancelledEvent =>
          cancelled := true;
        case Error(code) =>
          cancelled := code == CancelledCode;
          error := Some(code);
          frames := frames + [ErrorFrame(code)];
        case Done =>
          r := Close();
      }
    }

    method Close() returns (r: Option<Code>)
      requires WellFormed(answer)
      modifies this
      ensures WellFormed(answer)
      ensures Handles(old(Seen()), Done, r, Seen())
    {
      hide WellFormed, IsCut;
      var final := if cancelled then Status.Cancelled else if error.Some? || !completed then Failed else Completed;
      SendEvent(final, Terminal(final));
      var result := Finish(final);
      if result.Err? { return Some(result.error); }
      ghost var sent := Seen();
      assert IsResult(old(Seen()), result.value);
      frames := frames + [result.value];
      r := None;
    }
  }

  lemma {:induction false} DeltasKeep(v: View, pieces: seq<seq<byte>>)
    ensures var after := SentDeltas(v, pieces);
      after == v.(sequence := after.sequence, cumulative := after.cumulative, frames := after.frames)
  {
    if pieces != [] { DeltasKeep(v, pieces[..|pieces| - 1]); }
  }

  // ----- whole streams

  /** `v` is a state the events lead to, every one of them handled without error. */
  ghost predicate Streams(events: seq<Event>, v: View) {
    if events == [] then v == FRESH
    else
      var init, last := events[..|events| - 1], events[|events| - 1];
      exists mid :: Streams(init, mid) && Handles(mid, last, None, v)
  }

  /** What a list of events adds up to, without frames or state. */
  datatype Summary = Summary(
    answer: seq<byte>, output: seq<byte>, control: Option<Text>, error: Option<Code>, cancelled: bool, completed: bool)

  const NOTHING := Summary([], [], None, None, false, false)

  function Summarize(s: Summary, events: seq<Event>): Summary {
    if events == [] then s else Added(Summarize(s, events[..|events| - 1]), events[|events| - 1])
  }

  function Added(s: Summary, event: Event): Summary {
    match event
    case AnswerStarted(_, fallback) => if fallback.Some? then s.(answer := []) else s
    case Delta(content) => s.(answer := s.answer + content, output := s.output + content)
    case AnswerFinished(incomplete) => s.(completed := s.completed || !incomplete)
    case Control(response) => s.(control := Some(response), completed := true)
    case CancelledEvent => s.(cancelled := true)
    case Error(code) => s.(cancelled := code == CancelledCode, error := Some(code))
    case _ => s
  }

  /** The stream may be closed: it was cancelled, failed with an error, or completed. */
  predicate Closable(s: Summary) {
    s.cancelled || s.error.Some? || s.completed
  }

  /** Only legal transitions, and never an end that is not one of the three. */
  predicate Safe(s: Summary, events: seq<Event>) {
    events == [] ||
    (var init, last := events[..|events| - 1], events[|events| - 1];
     && Safe(s, init)
     && (last.StateTransition? ==> ValidTransition(last.from, last.to))
     && (last.Done? ==> Closable(Summarize(s, init))))
  }

  lemma {:induction false} InTwoParts(s: Summary, a: seq<Event>, b: seq<Event>)
    ensures Summarize(s, a + b) == Summarize(Summarize(s, a), b)
    ensures Safe(s, a + b) <==> Safe(s, a) && Safe(Summarize(s, a), b)
  {
    if b == [] {
      assert a + b == a;
    } else {
      var init, last := b[..|b| - 1], b[|b| - 1];
      assert (a + b)[..|a + b| - 1] == a + init;
      InTwoParts(s, a, init);
    }
  }

  function EventCount(frames: seq<Frame>): nat {
    if frames == [] then 0
    else EventCount(frames[..|frames| - 1]) + if frames[|frames| - 1].EventFrame? then 1 else 0
  }

  predicate IsDelta(frame: Frame) {
    frame.EventFrame? && frame.payload.OutputDelta?
  }

  function Output(frames: seq<Frame>): seq<byte> {
    if frames == [] then []
    else
      var last := frames[|frames| - 1];
      Output(frames[..|frames| - 1]) + if IsDelta(last) then last.payload.delta else []
  }

  /** Event frames are numbered 1, 2, 3 and so on, and every delta fits its frame, is well-formed text
      and carries the number of bytes output so far. */
  predicate Numbered(frames: seq<Frame>) {
    frames == [] ||
    (var last := frames[|frames| - 1];
     && Numbered(frames[..|frames| - 1])
     && (last.EventFrame? ==> last.sequence == Saturated(EventCount(frames), U64_MAX))
     && (IsDelta(last) ==>
           && |last.payload.delta| <= DELTA_BYTES && WellFormed(last.payload.delta)
           && last.payload.cumulativeBytes == Saturated(|Output(frames)|, U32_MAX)))
  }

  predicate EndsStream(frame: Frame) {
    frame.ResultFrame? || (frame.EventFrame? && frame.payload.Terminal?)
  }

  predicate Open(frames: seq<Frame>) {
    forall i :: 0 <= i < |frames| ==> !EndsStream(frames[i])
  }

  /** The state agrees with the frames it has sent. */
  ghost predicate Sound(v: View) {
    && Numbered(v.frames)
    && v.sequence == Saturated(EventCount(v.frames), U64_MAX)
    && v.cumulative == |Output(v.frames)|
  }

  ghost predicate Agrees(v: View, s: Summary) {
    && v.answer == s.answer && v.control == s.control && v.error == s.error
    && v.cancelled == s.cancelled && v.completed == s.completed && Output(v.frames) == s.output
  }

  lemma FramesAppend(frames: seq<Frame>, frame: Frame)
    ensures EventCount(frames + [frame]) == EventCount(frames) + if frame.EventFrame? then 1 else 0
    ensures Output(frames + [frame]) == Output(frames) + if IsDelta(frame) then frame.payload.delta else []
  {
    assert (frames + [frame])[..|frames|] == frames;
  }

  lemma SentSound(v: View, status: Status, payload: Payload)
    requires Sound(v) && !payload.OutputDelta?
    ensures Sound(Sent(v, status, payload)) && Output(Sent(v, status, payload).frames) == Output(v.frames)
  {
    var sent := Sent(v, status, payload);
    FramesAppend(v.frames, sent.frames[|v.frames|]);
    assert sent.frames[..|v.frames|] == v.frames;
  }

  lemma SentDeltaSound(v: View, delta: seq<byte>)
    requires Sound(v) && PieceFits(delta, DELTA_BYTES)
    ensures Sound(SentDelta(v, delta)) && Output(SentDelta(v, delta).frames) == Output(v.frames) + delta
  {
    hide WellFormed;
    var sent := SentDelta(v, delta);
    FramesAppend(v.frames, sent.frames[|v.frames|]);
    assert sent.frames[..|v.frames|] == v.frames;
  }

  lemma {:induction false} SentDeltasSound(v: View, pieces: seq<seq<byte>>)
    requires Sound(v) && forall i :: 0 <= i < |pieces| ==> PieceFits(pieces[i], DELTA_BYTES)
    ensures Sound(SentDeltas(v, pieces)) && Output(SentDeltas(v, pieces).frames) == Output(v.frames) + Concat(pieces)
  {
    hide PieceFits, Sound, SentDelta, Output;
    if pieces != [] {
      var init, last := pieces[..|pieces| - 1], pieces[|pieces| - 1];
      SentDeltasSound(v, init);
      SentDeltaSound(SentDeltas(v, init), last);
    }
  }

  lemma {:induction false} DeltasOpen(v: View, pieces: seq<seq<byte>>)
    ensures Open(v.frames) ==> Open(SentDeltas(v, pieces).frames)
  {
    if pieces != [] { DeltasOpen(v, pieces[..|pieces| - 1]); }
  }

  lemma HandleAgrees(before: View, s: Summary, event: Event, r: Option<Code>, after: View)
    requires Handles(before, event, r, after) && Sound(before) && Agrees(before, s)
    ensures r.None? <==>
      (event.StateTransition? ==> ValidTransition(event.from, event.to)) && (event.Done? ==> Closable(s))
    ensures r.None? ==> Sound(after) && Agrees(after, Added(s, event))
    ensures r.None? && !event.Done? && Open(before.frames) ==> Open(after.frames)
  {
    hide IsResult, WellFormed, Output, EventCount, Numbered;
    match event {
      case Delta(content) =>
        var start := before.(answer := before.answer + content);
        var pieces :| IsSplit(content, pieces) && after == SentDeltas(start, pieces);
        SentDeltasSound(start, pieces);
        DeltasOpen(start, pieces);
        DeltasKeep(start, pieces);
      case Error(code) =>
        ErrorSound(before, code);
      case Done =>
        SentSound(before, FinalStatus(before), Terminal(FinalStatus(before)));
        if r.None? { ResultSound(before, after); }
      case StateTransition(from, to) =>
        SentSound(before.(status := to), to, Transition(from, to));
      case AnswerStarted(provider, fallback) =>
        var status := if provider == "local" then RunningLocal else RunningRemote;
        var answer := if fallback.Some? then [] else before.answer;
        SentSound(before.(status := status, provider := provider, answer := answer), status, ProviderStatus(provider));
      case Progress(_) =>
        SentSound(before, before.status, ProviderStatus(before.provider));
      case ToolResult(_) =>
        SentSound(before, before.status, ToolProgress(true));
      case ActionProposal(_) =>
        SentSound(before, before.status, ToolProgress(false));
      case _ =>
    }
  }

  lemma ErrorSound(v: View, code: Code)
    requires Sound(v)
    ensures var after :=
      v.(cancelled := code == CancelledCode, error := Some(code), frames := v.frames + [ErrorFrame(code)]);
      Sound(after) && Output(after.frames) == Output(v.frames)
  {
    FramesAppend(v.frames, ErrorFrame(code));
    assert (v.frames + [ErrorFrame(code)])[..|v.frames|] == v.frames;
  }

  lemma ResultSound(before: View, after: View)
    requires Handles(before, Done, None, after) && Sound(before)
    ensures Sound(after) && Output(after.frames) == Output(before.frames)
  {
    hide IsCut, Numbered, EventCount, Output;
    var sent := Sent(before, FinalStatus(before), Terminal(FinalStatus(before)));
    SentSound(before, FinalStatus(before), Terminal(FinalStatus(before)));
    var frame :| IsResult(before, frame) && after == sent.(frames := sent.frames + [frame]);
    FramesAppend(sent.frames, frame);
    NumberedAppend(sent.frames, frame);
  }

  lemma NumberedAppend(frames: seq<Frame>, frame: Frame)
    requires Numbered(frames) && !frame.EventFrame?
    ensures Numbered(frames + [frame])
  {
    assert (frames + [frame])[..|frames|] == frames;
  }

  lemma {:induction false} StreamAgrees(events: seq<Event>, v: View)
    requires Streams(events, v)
    ensures Sound(v) && Agrees(v, Summarize(NOTHING, events)) && Safe(NOTHING, events)
    ensures (forall i :: 0 <= i < |events| ==> !events[i].Done?) ==> Open(v.frames)
  {
    hide Handles, Sound, Added;
    if events == [] {
      assert Sound(FRESH) by { FreshSound(); }
    } else {
      var init, last := events[..|events| - 1], events[|events| - 1];
      var mid :| Streams(init, mid) && Handles(mid, last, None, v);
      StreamAgrees(init, mid);
      HandleAgrees(mid, Summarize(NOTHING, init), last, None, v);
    }
  }

  lemma FreshSound()
    ensures Sound(FRESH)
  {
  }

  /** The end of every stream: exactly one terminal event and one result, in that order and nowhere
      else, saying what the events before them add up to. */
  lemma StreamEnds(events: seq<Event>, v: View)
    requires Streams(events + [Done], v) && forall i :: 0 <= i < |events| ==> !events[i].Done?
    ensures |v.frames| >= 2 && Open(v.frames[..|v.frames| - 2]) && Numbered(v.frames)
    ensures Output(v.frames) == Summarize(NOTHING, events).output
    ensures var s := Summarize(NOTHING, events);
      var terminal, result := v.frames[|v.frames| - 2], v.frames[|v.frames| - 1];
      && terminal.EventFrame? && terminal.payload == Terminal(terminal.status)
      && result.ResultFrame? && result.final == terminal.status
      && Reports(s, result)
  {
    hide Handles, Sound, Numbered, EventCount, Output, Reports;
    assert (events + [Done])[..|events|] == events;
    var mid :| Streams(events, mid) && Handles(mid, Done, None, v);
    StreamAgrees(events, mid);
    HandleAgrees(mid, Summarize(NOTHING, events), Done, None, v);
    Closing(mid, Summarize(NOTHING, events), v);
    assert Sound(v) ==> Numbered(v.frames) by { SoundNumbered(v); }
  }

  lemma SoundNumbered(v: View)
    ensures Sound(v) ==> Numbered(v.frames)
  {
  }

  lemma Closing(v: View, s: Summary, after: View)
    requires Handles(v, Done, None, after) && Agrees(v, s)
    ensures |after.frames| == |v.frames| + 2 && after.frames[..|v.frames|] == v.frames
    ensures var terminal, result := after.frames[|v.frames|], after.frames[|v.frames| + 1];
      && terminal.EventFrame? && terminal.payload == Terminal(terminal.status)
      && result.ResultFrame? && result.final == terminal.status
      && Reports(s, result)
  {
    hide IsCut, Output;
    var sent := Sent(v, FinalStatus(v), Terminal(FinalStatus(v)));
    var frame :| IsResult(v, frame) && after == sent.(frames := sent.frames + [frame]);
  }

  /** A result frame says what the events before the end add up to. */
  ghost predicate Reports(s: Summary, result: Frame) {
    && result.ResultFrame?
    && (result.final == Status.Cancelled <==> s.cancelled)
    && (result.final == Failed <==> !s.cancelled && s.error.Some?)
    && (result.final == Completed <==> !s.cancelled && s.error.None?)
    && (result.final == Completed ==>
          var text := if s.control.Some? then s.control.value else s.answer;
          && result.content.Some? && IsCut(text, RESULT_BYTES, result.content.value)
          && result.truncated == (|text| > RESULT_BYTES) && result.error == None)
    && (result.final != Completed ==> result.content == None && !result.truncated && result.error == s.error)
  }

  /** One more event handled. */
  lemma StreamNext(events: seq<Event>, i: nat, before: View, r: Option<Code>, after: View)
    requires i < |events| && Streams(events[..i], before) && Handles(before, events[i], r, after)
    ensures r.None? <==> Safe(NOTHING, events[..i + 1])
    ensures r.None? ==> Streams(events[..i + 1], after)
  {
    hide Handles, Sound, Agrees, Added;
    var init, next := events[..i], events[..i + 1];
    assert next[..|next| - 1] == init && next[|next| - 1] == events[i];
    StreamAgrees(init, before);
    HandleAgrees(before, Summarize(NOTHING, init), events[i], r, after);
  }

  /** The loop of `process_request` over the events of one request. It stops early, on an error frame,
      exactly when the events are not safe. */
  method Serve(events: seq<Event>) returns (frames: seq<Frame>, ok: bool, ghost v: View)
    ensures ok <==> Safe(NOTHING, events)
    ensures ok ==> Streams(events, v) && frames == v.frames
  {
    var state := new StreamState();
    var i := 0;
    v := state.Seen();
    while i < |events|
      invariant 0 <= i <= |events| && fresh(state) && WellFormed(state.answer)
      invariant v == state.Seen() && Streams(events[..i], v)
      invariant Safe(NOTHING, events[..i])
    {
      hide *;
      ghost var before := v;
      var handled := state.Handle(events[i]);
      v := state.Seen();
      StreamNext(events, i, before, handled, v);
      if handled.Some? {
        SafePrefix(events, i + 1);
        return state.frames + [ErrorFrame(handled.value)], false, v;
      }
      i := i + 1;
    }
    assert events[..i] == events;
    return state.frames, true, v;
  }

  lemma {:induction false} SafePrefix(events: seq<Event>, n: nat)
    requires n <= |events|
    ensures Safe(NOTHING, events) ==> Safe(NOTHING, events[..n])
  {
    if n < |events| {
      SafePrefix(events[..|events| - 1], n);
      assert events[..|events| - 1][..n] == events[..n];
    } else {
      assert events[..n] == events;
    }
  }

  // ----- what the client is told besides the text

  /** The frames about transitions, providers and tools, each with the status it carries. */
  function Notices(frames: seq<Frame>): seq<(Status, Payload)> {
    if frames == [] then []
    else
      var last := frames[|frames| - 1];
      Notices(frames[..|frames| - 1])
      + if last.EventFrame? && !last.payload.OutputDelta? && !last.payload.Terminal? then [(last.status, last.payload)]
        else []
  }

  /** Where a request is, who answers it, and what the client has been told of that. */
  datatype Showing = Showing(status: Status, provider: string, notices: seq<(Status, Payload)>)

  function Shows(events: seq<Event>): Showing {
    if events == [] then Showing(Received, "local", [])
    else
      var s, last := Shows(events[..|events| - 1]), events[|events| - 1];
      match last
      case StateTransition(from, to) => s.(status := to, notices := s.notices + [(to, Transition(from, to))])
      case AnswerStarted(provider, _) =>
        var status := if provider == "local" then RunningLocal else RunningRemote;
        Showing(status, provider, s.notices + [(status, ProviderStatus(provider))])
      case Progress(_) => s.(notices := s.notices + [(s.status, ProviderStatus(s.provider))])
      case ToolResult(true) => s.(notices := s.notices + [(s.status, ToolProgress(true))])
      case ActionProposal(true) => s.(notices := s.notices + [(s.status, ToolProgress(false))])
      case _ => s
  }

  lemma NoticeSent(v: View, status: Status, payload: Payload)
    ensures Notices(Sent(v, status, payload).frames) ==
      Notices(v.frames) + if payload.OutputDelta? || payload.Terminal? then [] else [(status, payload)]
  {
    var frames := Sent(v, status, payload).frames;
    assert frames[..|frames| - 1] == v.frames;
  }

  lemma {:induction false} DeltasAreNoNotices(v: View, pieces: seq<seq<byte>>)
    ensures var after := SentDeltas(v, pieces);
      Notices(after.frames) == Notices(v.frames) && after.status == v.status && after.provider == v.provider
  {
    if pieces != [] {
      var before := SentDeltas(v, pieces[..|pieces| - 1]);
      DeltasAreNoNotices(v, pieces[..|pieces| - 1]);
      var delta := pieces[|pieces| - 1];
      var total := before.cumulative + |delta|;
      NoticeSent(before.(cumulative := total), before.status, OutputDelta(delta, Saturated(total, U32_MAX)));
    }
  }

  lemma ErrorIsNoNotice(frames: seq<Frame>, code: Code)
    ensures Notices(frames + [ErrorFrame(code)]) == Notices(frames)
  {
    assert (frames + [ErrorFrame(code)])[..|frames|] == frames;
  }

  ghost predicate ShowsAs(v: View, s: Showing) {
    v.status == s.status && v.provider == s.provider && Notices(v.frames) == s.notices
  }

  lemma HandledShows(before: View, event: Event, after: View, events: seq<Event>)
    requires Handles(before, event, None, after) && ShowsAs(before, Shows(events)) && !event.Done?
    ensures ShowsAs(after, Shows(events + [event]))
  {
    hide Notices, IsSplit;
    assert (events + [event])[..|events|] == events;
    match event {
      case StateTransition(from, to) => NoticeSent(before.(status := to), to, Transition(from, to));
      case Progress(_) => NoticeSent(before, before.status, ProviderStatus(before.provider));
      case AnswerStarted(provider, fallback) =>
        var status := if provider == "local" then RunningLocal else RunningRemote;
        var answer := if fallback.Some? then [] else before.answer;
        NoticeSent(before.(status := status, provider := provider, answer := answer), status, ProviderStatus(provider));
      case Delta(content) =>
        var pieces :| IsSplit(content, pieces)
          && after == SentDeltas(before.(answer := before.answer + content), pieces);
        DeltasAreNoNotices(before.(answer := before.answer + content), pieces);
      case ToolResult(known) => NoticeSent(before, before.status, ToolProgress(true));
      case ActionProposal(known) => NoticeSent(before, before.status, ToolProgress(false));
      case Error(code) => ErrorIsNoNotice(before.frames, code);
      case _ =>
    }
  }

  /** Whatever the events: the client is told of every transition, of every provider that starts or makes progress
      by its name, and of every known tool, in order, and each time with the status the request then has. */
  lemma {:induction false} StreamShows(events: seq<Event>, v: View)
    requires Streams(events, v) && forall i :: 0 <= i < |events| ==> !events[i].Done?
    ensures ShowsAs(v, Shows(events))
  {
    hide Handles, ShowsAs;
    if events == [] {
      assert ShowsAs(FRESH, Shows([])) by { FreshShows(); }
    } else {
      var init, last := events[..|events| - 1], events[|events| - 1];
      var mid :| Streams(init, mid) && Handles(mid, last, None, v);
      StreamShows(init, mid);
      HandledShows(mid, last, v, init);
      assert init + [last] == events;
    }
  }

  lemma FreshShows()
    ensures ShowsAs(FRESH, Shows([]))
  {
  }
}
