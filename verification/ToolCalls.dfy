/** Putting streamed tool calls back together from their fragments. */
module ToolCalls {
  import opened Results
  import opened Utf8

  const MAX_ARGUMENT_BYTES := 64 * 1024

  /** One element of a delta's `tool_calls`; an absent index counts as 0. */
  datatype Fragment = Fragment(index: nat, id: Option<seq<byte>>, name: Option<seq<byte>>, arguments: Option<seq<byte>>)
  datatype Call = Call(id: seq<byte>, name: seq<byte>, arguments: seq<byte>)
  datatype CallError = InvalidCall | MalformedArguments

  function Text(part: Option<seq<byte>>): seq<byte> {
    if part.Some? then part.value else []
  }

  // ----- what a stream of fragments means

  /** The fragments of one call, in the order they arrived. */
  function Of(index: nat, fragments: seq<Fragment>): seq<Fragment> {
    if fragments == [] then []
    else
      var init, last := fragments[..|fragments| - 1], fragments[|fragments| - 1];
      if last.index == index then Of(index, init) + [last] else Of(index, init)
  }

  function Texts(fragments: seq<Fragment>, part: Fragment -> Option<seq<byte>>): seq<seq<byte>> {
    seq(|fragments|, i requires 0 <= i < |fragments| => Text(part(fragments[i])))
  }

  /** Each field of a call is the concatenation of what its fragments carry. */
  function Spelled(fragments: seq<Fragment>): Call {
    Call(Concat(Texts(fragments, (f: Fragment) => f.id)),
         Concat(Texts(fragments, (f: Fragment) => f.name)),
         Concat(Texts(fragments, (f: Fragment) => f.arguments)))
  }

  ghost predicate Assembles(parts: map<nat, Call>, fragments: seq<Fragment>) {
    forall index: nat ::
      && (index in parts <==> Of(index, fragments) != [])
      && (index in parts ==> parts[index] == Spelled(Of(index, fragments)))
  }

  lemma TextsAppend(fragments: seq<Fragment>, f: Fragment, part: Fragment -> Option<seq<byte>>)
    ensures Concat(Texts(fragments + [f], part)) == Concat(Texts(fragments, part)) + Text(part(f))
  {
    var texts := Texts(fragments + [f], part);
    assert texts[..|texts| - 1] == Texts(fragments, part);
  }

  lemma SpelledAppend(fragments: seq<Fragment>, f: Fragment)
    ensures var before := Spelled(fragments);
      Spelled(fragments + [f]) ==
        Call(before.id + Text(f.id), before.name + Text(f.name), before.arguments + Text(f.arguments))
  {
    TextsAppend(fragments, f, (f: Fragment) => f.id);
    TextsAppend(fragments, f, (f: Fragment) => f.name);
    TextsAppend(fragments, f, (f: Fragment) => f.arguments);
  }

  /** A fragment that carries a whole call spells it. */
  lemma WholeCall(index: nat, call: Call)
    ensures Spelled([Fragment(index, Some(call.id), Some(call.name), Some(call.arguments))]) == call
  {
    hide Spelled;
    var f := Fragment(index, Some(call.id), Some(call.name), Some(call.arguments));
    NothingSpelled();
    SpelledAppend([], f);
    assert [] + [f] == [f];
  }

  lemma OfAppend(index: nat, fragments: seq<Fragment>, f: Fragment)
    ensures Of(index, fragments + [f]) == if f.index == index then Of(index, fragments) + [f] else Of(index, fragments)
  {
    assert (fragments + [f])[..|fragments|] == fragments;
  }

  lemma NothingSpelled()
    ensures Spelled([]) == Call([], [], [])
  {
  }

  /** The calls being put together while the events of one answer are processed. */
  class Table {
    var parts: map<nat, Call>

    constructor ()
      ensures parts == map[] && Assembles(parts, [])
    {
      parts := map[];
    }

    /** The loop over one delta's `tool_calls`. */
    method Absorb(calls: seq<Fragment>, ghost seen: seq<Fragment>)
      requires Assembles(parts, seen)
      modifies this
      ensures Assembles(parts, seen + calls)
    {
      hide Spelled, Of;
      var i := 0;
      assert seen + calls[..0] == seen;
      while i < |calls|
        invariant 0 <= i <= |calls|
        invariant Assembles(parts, seen + calls[..i])
      {
        assert seen + calls[..i + 1] == (seen + calls[..i]) + [calls[i]];
        AddOne(calls[i], seen + calls[..i]);
        i := i + 1;
      }
      assert calls[..i] == calls;
    }

    method AddOne(call: Fragment, ghost seen: seq<Fragment>)
      requires Assembles(parts, seen)
      modifies this
      ensures Assembles(parts, seen + [call])
    {
      hide Spelled, Of;
      forall index: nat { OfAppend(index, seen, call); }
      SpelledAppend(Of(call.index, seen), call);
      NothingSpelled();
      var entry := if call.index in parts then parts[call.index] else Call([], [], []);
      if call.id.Some? { entry := entry.(id := entry.id + call.id.value); }
      if call.name.Some? { entry := entry.(name := entry.name + call.name.value); }
      if call.arguments.Some? { entry := entry.(arguments := entry.arguments + call.arguments.value); }
      assert entry == Spelled(Of(call.index, seen + [call]));
      parts := parts[call.index := entry];
    }
  }

  // ----- only the order within each call matters

  ghost predicate SameCalls(a: seq<Fragment>, b: seq<Fragment>) {
    forall index: nat :: Of(index, a) == Of(index, b)
  }

  /** However the fragments of different calls interleave, and however they are dealt out over
      events, the table is the same. */
  lemma InterleavingForgotten(p: map<nat, Call>, a: seq<Fragment>, q: map<nat, Call>, b: seq<Fragment>)
    requires Assembles(p, a) && Assembles(q, b) && SameCalls(a, b)
    ensures p == q
  {
    assert forall index: nat :: Of(index, a) == Of(index, b);
    assert p.Keys == q.Keys;
  }

  // ----- handing the calls over

  predicate Accepted(isJson: seq<byte> -> bool, call: Call) {
    call.id != [] && call.name != [] && |call.arguments| <= MAX_ARGUMENT_BYTES && isJson(call.arguments)
  }

  function ErrorOf(call: Call): CallError {
    if call.id == [] || call.name == [] || |call.arguments| > MAX_ARGUMENT_BYTES then InvalidCall
    else MalformedArguments
  }

  predicate Increasing(keys: seq<nat>) {
    forall i, j :: 0 <= i < j < |keys| ==> keys[i] < keys[j]
  }

  /** All the keys of the table, in increasing order. */
  ghost predicate InOrder(keys: seq<nat>, parts: map<nat, Call>) {
    Increasing(keys) && forall k: nat :: k in keys <==> k in parts
  }

  function Members(keys: seq<nat>): set<nat> {
    set k | k in keys
  }

  lemma WithoutLast(keys: seq<nat>)
    requires Increasing(keys) && keys != []
    ensures var init, last := keys[..|keys| - 1], keys[|keys| - 1];
      && Increasing(init) && Members(init) == Members(keys) - {last}
      && last in Members(keys) && forall k :: k in Members(keys) ==> k <= last
  {
    var init, last := keys[..|keys| - 1], keys[|keys| - 1];
    assert keys == init + [last];
  }

  lemma {:induction false} OneOrder(a: seq<nat>, b: seq<nat>)
    requires Increasing(a) && Increasing(b) && Members(a) == Members(b)
    ensures a == b
    decreases |a|
  {
    assert a != [] ==> a[0] in Members(a);
    assert b != [] ==> b[0] in Members(b);
    if a != [] && b != [] {
      hide Members, Increasing;
      var m, n := |a| - 1, |b| - 1;
      WithoutLast(a);
      WithoutLast(b);
      assert a[m] == b[n];
      OneOrder(a[..m], b[..n]);
      assert a == a[..m] + [a[m]] && b == b[..n] + [b[n]];
    }
  }

  method Least(keys: set<nat>) returns (k: nat)
    requires keys != {}
    ensures k in keys && forall other :: other in keys ==> k <= other
  {
    k :| k in keys;
    var left := keys - {k};
    while left != {}
      invariant k in keys && left <= keys && forall other :: other in keys && other !in left ==> k <= other
      decreases left
    {
      var next :| next in left;
      if next < k { k := next; }
      left := left - {next};
    }
  }

  ghost predicate FirstRefused(isJson: seq<byte> -> bool, parts: map<nat, Call>, k: nat)
    requires k in parts
  {
    !Accepted(isJson, parts[k]) && forall j: nat :: j in parts && j < k ==> Accepted(isJson, parts[j])
  }

  /** finish_tool_calls: the calls in index order, or the error of the first that is not acceptable. */
  method Finish(isJson: seq<byte> -> bool, parts: map<nat, Call>)
    returns (r: Result<seq<Call>, CallError>, ghost keys: seq<nat>)
    ensures r.Ok? ==> InOrder(keys, parts) && r.value == seq(|keys|, i requires 0 <= i < |keys| => parts[keys[i]])
    ensures r.Ok? <==> forall k :: k in parts ==> Accepted(isJson, parts[k])
    ensures r.Err? ==> exists k :: k in parts && FirstRefused(isJson, parts, k) && r.error == ErrorOf(parts[k])
  {
    var left := parts.Keys;
    var calls := [];
    keys := [];
    while left != {}
      invariant left <= parts.Keys
      invariant Increasing(keys)
      invariant forall k: nat :: k in keys <==> k in parts.Keys - left
      invariant forall i, k :: 0 <= i < |keys| && k in left ==> keys[i] < k
      invariant |calls| == |keys| && forall i :: 0 <= i < |keys| ==>
        keys[i] in parts && calls[i] == parts[keys[i]] && Accepted(isJson, calls[i])
      decreases left
    {
      var k := Least(left);
      var call := parts[k];
      if call.id == [] || call.name == [] || |call.arguments| > MAX_ARGUMENT_BYTES {
        EarlierAccepted(isJson, parts, keys, left, k);
        return Err(InvalidCall), keys;
      }
      if !isJson(call.arguments) {
        EarlierAccepted(isJson, parts, keys, left, k);
        return Err(MalformedArguments), keys;
      }
      calls := calls + [call];
      keys := keys + [k];
      left := left - {k};
    }
    r := Ok(calls);
  }

  lemma EarlierAccepted(isJson: seq<byte> -> bool, parts: map<nat, Call>, keys: seq<nat>, left: set<nat>, k: nat)
    requires k in left && left <= parts.Keys
    requires forall j: nat :: j in keys <==> j in parts.Keys - left
    requires forall i :: 0 <= i < |keys| ==> keys[i] in parts && Accepted(isJson, parts[keys[i]])
    requires forall other :: other in left ==> k <= other
    ensures forall j: nat :: j in parts && j < k ==> Accepted(isJson, parts[j])
  {
    forall j: nat | j in parts && j < k ensures Accepted(isJson, parts[j]) { assert j in keys; }
  }

  /** However whole calls are cut into fragments and interleaved, under whatever indices, the calls come
      back, in the order of the indices. */
  lemma CallsRecovered(
    indices: seq<nat>, calls: seq<Call>, fragments: seq<Fragment>, parts: map<nat, Call>, keys: seq<nat>)
    requires Assembles(parts, fragments) && InOrder(keys, parts)
    requires |indices| == |calls| && Increasing(indices)
    requires forall i: nat :: Of(i, fragments) != [] <==> i in indices
    requires forall i :: 0 <= i < |calls| ==> Spelled(Of(indices[i], fragments)) == calls[i]
    ensures seq(|keys|, i requires 0 <= i < |keys| => parts[keys[i]]) == calls
  {
    hide Spelled, Of;
    assert Members(keys) == Members(indices) by {
      assert forall k: nat :: k in keys <==> k in indices;
    }
    OneOrder(keys, indices);
  }
}
