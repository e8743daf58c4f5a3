/** Extracting server-sent events from a byte stream that arrives in arbitrary pieces. */
module Sse {
  import opened Results
  import opened Utf8

  const MAX_SSE_EVENT_BYTES := 1024 * 1024
  const LFLF: seq<byte> := [10, 10]
  const CRLFCRLF: seq<byte> := [13, 10, 13, 10]

  /** The first position of `pattern` in `s`. */
  function Position(s: seq<byte>, pattern: seq<byte>): Option<nat> {
    if |s| < |pattern| then None
    else if s[..|pattern|] == pattern then Some(0)
    else if s == [] then None
    else
      var rest := Position(s[1..], pattern);
      if rest.Some? then Some(rest.value + 1) else None
  }

  predicate Occurs(s: seq<byte>, pattern: seq<byte>, i: nat) {
    i + |pattern| <= |s| && s[i..i + |pattern|] == pattern
  }

  lemma {:induction false} PositionIsFirst(s: seq<byte>, pattern: seq<byte>)
    requires pattern != []
    ensures match Position(s, pattern)
            case Some(p) => Occurs(s, pattern, p) && forall i: nat :: i < p ==> !Occurs(s, pattern, i)
            case None => forall i: nat :: !Occurs(s, pattern, i)
  {
    if |s| >= |pattern| && s[..|pattern|] != pattern {
      PositionIsFirst(s[1..], pattern);
      forall i: nat ensures i > 0 ==> (Occurs(s, pattern, i) <==> Occurs(s[1..], pattern, i - 1)) {
        if i > 0 && i + |pattern| <= |s| { assert s[1..][i - 1..i - 1 + |pattern|] == s[i..i + |pattern|]; }
      }
    } else if |s| >= |pattern| {
      assert s[0..|pattern|] == s[..|pattern|];
    }
  }

  datatype Cut = Cut(position: nat, separator: nat)

  /** Where `take_sse_event` cuts: the earlier of the two separators, the shorter one on a tie. */
  function FirstCut(s: seq<byte>): Option<Cut> {
    match (Position(s, LFLF), Position(s, CRLFCRLF))
    case (Some(left), Some(right)) => if left <= right then Some(Cut(left, 2)) else Some(Cut(right, 4))
    case (Some(left), None) => Some(Cut(left, 2))
    case (None, Some(right)) => Some(Cut(right, 4))
    case (None, None) => None
  }

  lemma CutInside(s: seq<byte>)
    ensures FirstCut(s).Some? ==>
      FirstCut(s).value.position + FirstCut(s).value.separator <= |s| && FirstCut(s).value.separator > 0
  {
    PositionIsFirst(s, LFLF);
    PositionIsFirst(s, CRLFCRLF);
  }

  /** All complete events of `s`, and what is left after the last one. */
  function Drain(s: seq<byte>): (seq<seq<byte>>, seq<byte>)
    decreases |s|
  {
    CutInside(s);
    match FirstCut(s)
    case None => ([], s)
    case Some(cut) =>
      var (events, leftover) := Drain(s[cut.position + cut.separator..]);
      ([s[..cut.position]] + events, leftover)
  }

  class EventBuffer {
    var data: seq<byte>

    constructor ()
      ensures data == []
    {
      data := [];
    }

    method Extend(chunk: seq<byte>)
      modifies this
      ensures data == old(data) + chunk
    {
      data := data + chunk;
    }

    /** take_sse_event */
    method Take() returns (event: Option<seq<byte>>)
      modifies this
      ensures match FirstCut(old(data))
              case None => event.None? && data == old(data)
              case Some(cut) =>
                && cut.position + cut.separator <= |old(data)|
                && event == Some(old(data)[..cut.position]) && data == old(data)[cut.position + cut.separator..]
    {
      CutInside(data);
      var lf := Position(data, LFLF);
      var crlf := Position(data, CRLFCRLF);
      var position, separator: nat;
      if lf.Some? && crlf.Some? && lf.value <= crlf.value {
        position, separator := lf.value, 2;
      } else if lf.Some? && crlf.Some? {
        position, separator := crlf.value, 4;
      } else if lf.Some? {
        position, separator := lf.value, 2;
      } else if crlf.Some? {
        position, separator := crlf.value, 4;
      } else {
        return None;
      }
      event := Some(data[..position]);
      data := data[position + separator..];
    }
  }

  // ----- more bytes never move a cut

  lemma OccursLonger(a: seq<byte>, b: seq<byte>, pattern: seq<byte>, i: nat)
    requires i + |pattern| <= |a|
    ensures Occurs(a + b, pattern, i) <==> Occurs(a, pattern, i)
  {
    assert (a + b)[i..i + |pattern|] == a[i..i + |pattern|];
  }

  lemma PositionLonger(a: seq<byte>, b: seq<byte>, pattern: seq<byte>)
    requires pattern != []
    ensures Position(a, pattern).Some? ==> Position(a + b, pattern) == Position(a, pattern)
    ensures Position(a, pattern).None? && Position(a + b, pattern).Some? ==>
      Position(a + b, pattern).value + |pattern| > |a|
  {
    PositionIsFirst(a, pattern);
    PositionIsFirst(a + b, pattern);
    var later := Position(a + b, pattern);
    if Position(a, pattern).Some? {
      OccursLonger(a, b, pattern, Position(a, pattern).value);
      if later.value < Position(a, pattern).value { OccursLonger(a, b, pattern, later.value); }
    } else if later.Some? && later.value + |pattern| <= |a| {
      OccursLonger(a, b, pattern, later.value);
    }
  }

  /** The separators cannot straddle: one that ends past `a` does not start before a line pair in it. */
  lemma NoStraddle(a: seq<byte>, b: seq<byte>, p: nat, q: nat)
    requires Occurs(a, LFLF, p) && q < p && q + 4 > |a|
    ensures !Occurs(a + b, CRLFCRLF, q)
  {
    assert p == q + 1 && a[p..p + 2][1] == 10 && (a + b)[q + 2] == 10;
    if q + 4 <= |a + b| { assert (a + b)[q..q + 4][2] == 10 != CRLFCRLF[2]; }
  }

  /** A cut found in the first bytes stays the first cut however the stream goes on. */
  lemma CutStays(a: seq<byte>, b: seq<byte>)
    requires FirstCut(a).Some?
    ensures FirstCut(a + b) == FirstCut(a)
  {
    PositionLonger(a, b, LFLF);
    PositionLonger(a, b, CRLFCRLF);
    PositionIsFirst(a, LFLF);
    PositionIsFirst(a, CRLFCRLF);
    PositionIsFirst(a + b, CRLFCRLF);
    var lf, late := Position(a, LFLF), Position(a + b, CRLFCRLF);
    if lf.Some? && late.Some? && late.value < lf.value && late.value + 4 > |a| {
      NoStraddle(a, b, lf.value, late.value);
    }
  }

  /** Draining what has arrived, and then the leftover with what arrives next, is draining it all. */
  lemma {:induction false} DrainSplit(a: seq<byte>, b: seq<byte>)
    ensures var (first, left) := Drain(a); var (more, rest) := Drain(left + b);
      Drain(a + b) == (first + more, rest)
    decreases |a|
  {
    hide FirstCut;
    CutInside(a);
    if FirstCut(a).Some? {
      var cut := FirstCut(a).value;
      var n := cut.position + cut.separator;
      CutStays(a, b);
      assert (a + b)[n..] == a[n..] + b && (a + b)[..cut.position] == a[..cut.position];
      DrainSplit(a[n..], b);
      var (first, left) := Drain(a[n..]);
      var (more, rest) := Drain(left + b);
      assert [a[..cut.position]] + (first + more) == ([a[..cut.position]] + first) + more;
    } else {
      assert [] + Drain(a + b).0 == Drain(a + b).0;
    }
  }

  lemma DrainLeavesNoCut(s: seq<byte>)
    ensures FirstCut(Drain(s).1).None? && |Drain(s).1| <= |s| && (FirstCut(s).Some? ==> |Drain(s).1| < |s|)
    decreases |s|
  {
    CutInside(s);
    if FirstCut(s).Some? {
      DrainLeavesNoCut(s[FirstCut(s).value.position + FirstCut(s).value.separator..]);
    }
  }

  // ----- draining undoes framing, and nothing else

  predicate IsSeparator(separator: seq<byte>) {
    separator == LFLF || separator == CRLFCRLF
  }

  /** `event` can be sent before `separator` and be cut there. */
  predicate Separates(event: seq<byte>, separator: seq<byte>) {
    IsSeparator(separator) && FirstCut(event + separator) == Some(Cut(|event|, |separator|))
  }

  predicate Framable(events: seq<seq<byte>>, separators: seq<seq<byte>>) {
    |events| == |separators| && forall i :: 0 <= i < |events| ==> Separates(events[i], separators[i])
  }

  function Framed(events: seq<seq<byte>>, separators: seq<seq<byte>>): seq<byte>
    requires |events| == |separators|
  {
    if events == [] then [] else events[0] + separators[0] + Framed(events[1..], separators[1..])
  }

  /** The separators `Drain` removes. */
  function Separators(s: seq<byte>): seq<seq<byte>>
    decreases |s|
  {
    CutInside(s);
    match FirstCut(s)
    case None => []
    case Some(cut) =>
      var n := cut.position + cut.separator;
      [s[cut.position..n]] + Separators(s[n..])
  }

  lemma {:induction false} FramedIsRecovered(events: seq<seq<byte>>, separators: seq<seq<byte>>, tail: seq<byte>)
    requires Framable(events, separators) && FirstCut(tail).None?
    ensures Drain(Framed(events, separators) + tail) == (events, tail)
    decreases |events|
  {
    if events == [] {
      assert [] + tail == tail;
    } else {
      var head, rest := events[0] + separators[0], Framed(events[1..], separators[1..]) + tail;
      assert Framed(events, separators) + tail == head + rest;
      assert Separates(events[0], separators[0]);
      CutStays(head, rest);
      assert (head + rest)[|head|..] == rest && (head + rest)[..|events[0]|] == events[0];
      FramedIsRecovered(events[1..], separators[1..], tail);
      assert [events[0]] + events[1..] == events;
    }
  }

  lemma CutSeparates(s: seq<byte>)
    requires FirstCut(s).Some?
    ensures var cut := FirstCut(s).value;
      && cut.position + cut.separator <= |s|
      && Separates(s[..cut.position], s[cut.position..cut.position + cut.separator])
  {
    CutInside(s);
    var cut := FirstCut(s).value;
    var n := cut.position + cut.separator;
    var head := s[..cut.position] + s[cut.position..n];
    assert head == s[..n] && s == head + s[n..];
    PositionIsFirst(s, LFLF);
    PositionIsFirst(s, CRLFCRLF);
    PositionIsFirst(head, LFLF);
    PositionIsFirst(head, CRLFCRLF);
    OccursLonger(head, s[n..], if cut.separator == 2 then LFLF else CRLFCRLF, cut.position);
    assert FirstCut(head).Some?;
    CutStays(head, s[n..]);
  }

  /** Every stream is the framing of the events and leftover that draining reads from it. */
  lemma {:induction false} DrainedIsFramed(s: seq<byte>)
    ensures Framable(Drain(s).0, Separators(s))
    ensures s == Framed(Drain(s).0, Separators(s)) + Drain(s).1
    decreases |s|
  {
    hide FirstCut, Separates;
    CutInside(s);
    if FirstCut(s).Some? {
      var cut := FirstCut(s).value;
      var n := cut.position + cut.separator;
      CutSeparates(s);
      DrainedIsFramed(s[n..]);
      var (events, separators) := (Drain(s).0, Separators(s));
      assert events[1..] == Drain(s[n..]).0 && separators[1..] == Separators(s[n..]);
      assert s == s[..cut.position] + s[cut.position..n] + s[n..];
    }
  }

  predicate Lf(s: seq<byte>, i: nat) {
    i + 2 <= |s| && s[i] == 10 && s[i + 1] == 10
  }

  predicate Crlf(s: seq<byte>, i: nat) {
    i + 4 <= |s| && s[i] == 13 && s[i + 1] == 10 && s[i + 2] == 13 && s[i + 3] == 10
  }

  lemma OccursBytes(s: seq<byte>, i: nat)
    ensures Occurs(s, LFLF, i) <==> Lf(s, i)
    ensures Occurs(s, CRLFCRLF, i) <==> Crlf(s, i)
  {
    if i + 2 <= |s| { assert s[i..i + 2] == [s[i], s[i + 1]]; }
    if i + 4 <= |s| { assert s[i..i + 4] == [s[i], s[i + 1], s[i + 2], s[i + 3]]; }
  }

  /** The cut is at the first separator of either style. */
  lemma CutIsFirst(s: seq<byte>)
    ensures match FirstCut(s)
            case None => forall i: nat :: !Lf(s, i) && !Crlf(s, i)
            case Some(cut) =>
              && (if cut.separator == 2 then Lf(s, cut.position) else cut.separator == 4 && Crlf(s, cut.position))
              && forall i: nat :: i < cut.position ==> !Lf(s, i) && !Crlf(s, i)
  {
    hide Lf, Crlf, Occurs, Position;
    PositionIsFirst(s, LFLF);
    PositionIsFirst(s, CRLFCRLF);
    forall i: nat
      ensures Occurs(s, LFLF, i) <==> Lf(s, i)
      ensures Occurs(s, CRLFCRLF, i) <==> Crlf(s, i)
    {
      OccursBytes(s, i);
    }
  }

  predicate EndsWith(s: seq<byte>, suffix: seq<byte>) {
    |suffix| <= |s| && s[|s| - |suffix|..] == suffix
  }

  /** Nothing before position `n` is a separator. */
  ghost predicate NoneBefore(s: seq<byte>, n: nat) {
    forall i: nat :: i < n ==> !Lf(s, i) && !Crlf(s, i)
  }

  lemma SeparatesIff(e: seq<byte>, separator: seq<byte>)
    requires IsSeparator(separator)
    ensures Separates(e, separator) <==> NoneBefore(e + separator, |e|)
    ensures FirstCut(e).None? <==> NoneBefore(e, |e|)
  {
    hide FirstCut;
    var s := e + separator;
    CutIsFirst(e);
    CutIsFirst(s);
    assert if separator == LFLF then Lf(s, |e|) else Crlf(s, |e|);
    assert FirstCut(e).Some? ==> FirstCut(e).value.position < |e|;
  }

  lemma LfAcross(e: seq<byte>, i: nat)
    requires i < |e|
    ensures Lf(e + LFLF, i) <==> Lf(e, i) || (i == |e| - 1 && e[i] == 10)
    ensures Crlf(e + LFLF, i) <==> Crlf(e, i) || (i == |e| - 3 && e[i] == 13 && e[i + 1] == 10 && e[i + 2] == 13)
  {
  }

  lemma CrlfAcross(e: seq<byte>, i: nat)
    requires i < |e|
    ensures Lf(e + CRLFCRLF, i) <==> Lf(e, i)
    ensures Crlf(e + CRLFCRLF, i) <==> Crlf(e, i) || (i == |e| - 2 && e[i] == 13 && e[i + 1] == 10)
  {
  }

  lemma EndsWithAt(s: seq<byte>, suffix: seq<byte>)
    requires |suffix| <= |s|
    ensures EndsWith(s, suffix) <==> forall i :: 0 <= i < |suffix| ==> s[|s| - |suffix| + i] == suffix[i]
  {
    var tail := s[|s| - |suffix|..];
    assert forall i :: 0 <= i < |suffix| ==> tail[i] == s[|s| - |suffix| + i];
    if forall i :: 0 <= i < |suffix| ==> s[|s| - |suffix| + i] == suffix[i] { assert tail == suffix; }
  }

  lemma EndsInLf(e: seq<byte>)
    ensures EndsWith(e, [10]) <==> |e| >= 1 && e[|e| - 1] == 10
  {
    if |e| >= 1 {
      EndsWithAt(e, [10]);
      hide EndsWith;
      assert [10][0] == 10;
    }
  }

  lemma EndsInCrlf(e: seq<byte>)
    ensures EndsWith(e, [13, 10]) <==> |e| >= 2 && e[|e| - 2] == 13 && e[|e| - 1] == 10
  {
    var end: seq<byte> := [13, 10];
    if |e| >= 2 {
      EndsWithAt(e, end);
      hide EndsWith;
      assert end[0] == 13 && end[1] == 10;
    }
  }

  lemma EndsInCrlfCr(e: seq<byte>)
    ensures EndsWith(e, [13, 10, 13]) <==> |e| >= 3 && e[|e| - 3] == 13 && e[|e| - 2] == 10 && e[|e| - 1] == 13
  {
    var end: seq<byte> := [13, 10, 13];
    if |e| >= 3 {
      EndsWithAt(e, end);
      hide EndsWith;
      assert end[0] == 13 && end[1] == 10 && end[2] == 13;
    }
  }

  /** Exactly which events survive a blank line in LF style. */
  lemma SeparatesLfIff(e: seq<byte>)
    ensures Separates(e, LFLF) <==> FirstCut(e).None? && !EndsWith(e, [10]) && !EndsWith(e, [13, 10, 13])
  {
    hide FirstCut, Lf, Crlf, EndsWith, Separates;
    SeparatesIff(e, LFLF);
    EndsInLf(e);
    EndsInCrlfCr(e);
    var s, n := e + LFLF, |e|;
    forall i: nat | i < n { LfAcross(e, i); }
    if n >= 1 { LfAcross(e, n - 1); }
    if n >= 3 { LfAcross(e, n - 3); }
  }

  /** And which survive one in CRLF style. */
  lemma SeparatesCrlfIff(e: seq<byte>)
    ensures Separates(e, CRLFCRLF) <==> FirstCut(e).None? && !EndsWith(e, [13, 10])
  {
    hide FirstCut, Lf, Crlf, EndsWith, Separates;
    SeparatesIff(e, CRLFCRLF);
    EndsInCrlf(e);
    var s, n := e + CRLFCRLF, |e|;
    forall i: nat | i < n { CrlfAcross(e, i); }
    if n >= 2 { CrlfAcross(e, n - 2); }
  }

  // ----- the reading loop

  /** The events up to and including the first that ends the stream. */
  function UpTo(stop: seq<byte> -> bool, events: seq<seq<byte>>): seq<seq<byte>> {
    if events == [] then []
    else if stop(events[0]) then [events[0]]
    else [events[0]] + UpTo(stop, events[1..])
  }

  predicate Stops(stop: seq<byte> -> bool, events: seq<seq<byte>>) {
    exists i :: 0 <= i < |events| && stop(events[i])
  }

  lemma {:induction false} UpToAppend(stop: seq<byte> -> bool, a: seq<seq<byte>>, b: seq<seq<byte>>)
    ensures UpTo(stop, a + b) == if Stops(stop, a) then UpTo(stop, a) else a + UpTo(stop, b)
  {
    if a == [] {
      assert a + b == b;
    } else {
      assert (a + b)[1..] == a[1..] + b;
      UpToAppend(stop, a[1..], b);
      if stop(a[0]) {
      } else if Stops(stop, a[1..]) {
        var i :| 0 <= i < |a| - 1 && stop(a[1..][i]);
        assert stop(a[i + 1]);
      } else {
        forall i | 0 <= i < |a| ensures !stop(a[i]) { assert i > 0 ==> a[i] == a[1..][i - 1]; }
        assert [a[0]] + (a[1..] + UpTo(stop, b)) == a + UpTo(stop, b);
      }
    }
  }

  /** What the stream means, chunk boundaries forgotten: every event up to the one that ends it, or
      all of them and the unterminated remainder. */
  function Meaning(stop: seq<byte> -> bool, payload: seq<byte>): seq<seq<byte>> {
    var (events, leftover) := Drain(payload);
    if Stops(stop, events) then UpTo(stop, events)
    else if leftover == [] then events
    else events + [leftover]
  }

  /** The inner loop of `read_sse`: take events until none is left or one ends the stream. */
  method TakeAll(stop: seq<byte> -> bool, buffer: EventBuffer) returns (events: seq<seq<byte>>, stopped: bool)
    modifies buffer
    ensures stopped == Stops(stop, Drain(old(buffer.data)).0)
    ensures events == UpTo(stop, Drain(old(buffer.data)).0)
    ensures !stopped ==> events == Drain(old(buffer.data)).0 && buffer.data == Drain(old(buffer.data)).1
  {
    events := [];
    ghost var all := Drain(buffer.data).0;
    while true
      invariant all == events + Drain(buffer.data).0 && Drain(buffer.data).1 == Drain(old(buffer.data)).1
      invariant !Stops(stop, events)
      decreases |buffer.data|
    {
      CutInside(buffer.data);
      ghost var before, taken, drained := buffer.data, events, Drain(buffer.data).0;
      var event := buffer.Take();
      if event.None? {
        UpToAppend(stop, events, []);
        assert events + [] == events;
        return events, false;
      }
      events := events + [event.value];
      assert drained == [event.value] + Drain(buffer.data).0;
      assert all == events + Drain(buffer.data).0;
      if stop(event.value) {
        UpToAppend(stop, taken, drained);
        assert all[|taken|] == event.value;
        return events, true;
      }
    }
  }

  /** No chunk overfills the buffer before the stream has ended. */
  ghost predicate FitsBuffer(stop: seq<byte> -> bool, buffered: seq<byte>, chunks: seq<seq<byte>>)
    decreases |chunks|
  {
    chunks == [] ||
    (var (events, left) := Drain(buffered + chunks[0]);
     && |buffered + chunks[0]| <= MAX_SSE_EVENT_BYTES
     && (Stops(stop, events) || FitsBuffer(stop, left, chunks[1..])))
  }

  lemma StopsAppend(stop: seq<byte> -> bool, a: seq<seq<byte>>, b: seq<seq<byte>>)
    ensures Stops(stop, a + b) <==> Stops(stop, a) || Stops(stop, b)
  {
    if i :| 0 <= i < |a| && stop(a[i]) { assert stop((a + b)[i]); }
    if i :| 0 <= i < |b| && stop(b[i]) { assert stop((a + b)[|a| + i]); }
  }

  /** The meaning of a stream after its first chunk: nothing more if that chunk ended it. */
  lemma MeaningAfter(stop: seq<byte> -> bool, chunk: seq<byte>, rest: seq<byte>)
    ensures var (events, left) := Drain(chunk);
      Meaning(stop, chunk + rest) ==
      if Stops(stop, events) then UpTo(stop, events) else events + Meaning(stop, left + rest)
  {
    hide Drain, Stops, UpTo;
    var (events, left) := Drain(chunk);
    var (more, final) := Drain(left + rest);
    DrainSplit(chunk, rest);
    UpToAppend(stop, events, more);
    StopsAppend(stop, events, more);
    assert events + (more + [final]) == (events + more) + [final];
  }

  lemma Unterminated(stop: seq<byte> -> bool, s: seq<byte>)
    ensures Drain([]) == ([], [])
    ensures FirstCut(s).None? ==> Meaning(stop, s) == if s == [] then [] else [s]
  {
  }

  /** The buffer limit is on bytes held, not on one event: the same payload that passes in two chunks
      is refused in one. */
  lemma LimitDependsOnSplit(stop: seq<byte> -> bool, s: seq<byte>, b: byte)
    requires |s| == MAX_SSE_EVENT_BYTES && FirstCut(s).Some?
    ensures Concat([s, [b]]) == Concat([s + [b]])
    ensures FitsBuffer(stop, [], [s, [b]]) && !FitsBuffer(stop, [], [s + [b]])
  {
    var chunks := [s, [b]];
    assert [] + s == s && [] + (s + [b]) == s + [b];
    assert chunks[1..] == [[b]] && [[b]][1..] == [] && [s + [b]][1..] == [];
    ConcatFront(chunks);
    ConcatFront([[b]]);
    ConcatFront([s + [b]]);
    DrainLeavesNoCut(s);
    assert FitsBuffer(stop, Drain(s).1, [[b]]);
  }

  /** Chunks handed over so far and the rest of them: the limit depends on the rest only through what is
      still buffered. */
  lemma {:induction false} FitsAppend(
    stop: seq<byte> -> bool, buffered: seq<byte>, chunks: seq<seq<byte>>, rest: seq<seq<byte>>)
    requires FitsBuffer(stop, buffered, chunks) && FirstCut(buffered).None?
    requires !Stops(stop, Drain(buffered + Concat(chunks)).0)
    ensures FitsBuffer(stop, buffered, chunks + rest) <==> FitsBuffer(stop, Drain(buffered + Concat(chunks)).1, rest)
    decreases |chunks|
  {
    hide Drain, Stops, FirstCut;
    if chunks == [] {
      assert chunks + rest == rest && buffered + [] == buffered;
      Undrained(buffered);
    } else {
      var (events, left) := Drain(buffered + chunks[0]);
      var tail := Concat(chunks[1..]);
      ConcatFront(chunks);
      assert (chunks + rest)[1..] == chunks[1..] + rest;
      assert buffered + (chunks[0] + tail) == (buffered + chunks[0]) + tail;
      DrainSplit(buffered + chunks[0], tail);
      StopsAppend(stop, events, Drain(left + tail).0);
      DrainLeavesNoCut(buffered + chunks[0]);
      FitsAppend(stop, left, chunks[1..], rest);
    }
  }

  lemma Undrained(s: seq<byte>)
    requires FirstCut(s).None?
    ensures Drain(s) == ([], s)
  {
  }
}
