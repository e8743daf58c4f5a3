/** The circuit breakers that keep a failing remote provider out of the routes. */
module Breaker {
  import opened Results

  const U32_MAX := 0xFFFF_FFFF

  datatype CircuitState = CircuitState(failures: nat, openUntil: Option<nat>)

  /** The calls a breaker has had, with the times at which it looked at the clock. */
  datatype Op = Asked(provider: string, now: nat) | Succeeded(provider: string) | FailedAt(provider: string, now: nat)

  // ----- what the history means

  /** Failures since the provider's record was last cleared, and the time of the last of them. */
  datatype Record = Record(failures: nat, last: nat)

  const CLEAN := Record(0, 0)

  predicate Tripped(record: Record, threshold: nat) {
    record.failures >= 1 && record.failures >= threshold
  }

  predicate Blocked(record: Record, threshold: nat, cooldown: nat, now: nat) {
    Tripped(record, threshold) && now < record.last + cooldown
  }

  /** A success clears the record; so does a question that finds the cooldown over. */
  function After(record: Record, op: Op, threshold: nat, cooldown: nat): Record {
    match op
    case FailedAt(_, now) => Record(record.failures + 1, now)
    case Succeeded(_) => CLEAN
    case Asked(_, now) =>
      if Tripped(record, threshold) && !Blocked(record, threshold, cooldown, now) then CLEAN else record
  }

  function RecordOf(history: seq<Op>, provider: string, threshold: nat, cooldown: nat): Record {
    if history == [] then CLEAN
    else
      var before, op := RecordOf(history[..|history| - 1], provider, threshold, cooldown), history[|history| - 1];
      if op.provider == provider then After(before, op, threshold, cooldown) else before
  }

  // ----- the breakers

  ghost predicate Matches(state: Option<CircuitState>, record: Record, threshold: nat, cooldown: nat) {
    match state
    case None => record.failures == 0
    case Some(s) =>
      && s.failures == (if record.failures <= U32_MAX then record.failures else U32_MAX)
      && s.openUntil == if Tripped(record, threshold) then Some(record.last + cooldown) else None
  }

  function Lookup(states: map<string, CircuitState>, provider: string): Option<CircuitState> {
    if provider in states then Some(states[provider]) else None
  }

  class CircuitBreakers {
    var states: map<string, CircuitState>
    const threshold: nat
    const cooldown: nat

    /** The table holds what the history says of every provider. */
    ghost predicate Holds(history: seq<Op>)
      reads this
    {
      && threshold <= U32_MAX
      && forall p: string :: Matches(Lookup(states, p), RecordOf(history, p, threshold, cooldown), threshold, cooldown)
    }

    constructor (threshold: nat, cooldown: nat)
      requires threshold <= U32_MAX
      ensures this.threshold == threshold && this.cooldown == cooldown && Holds([])
    {
      this.threshold, this.cooldown, states := threshold, cooldown, map[];
    }

    method Allow(provider: string, now: nat, ghost history: seq<Op>) returns (allowed: bool)
      requires Holds(history)
      modifies this
      ensures Holds(history + [Asked(provider, now)])
      ensures allowed <==> !Blocked(RecordOf(history, provider, threshold, cooldown), threshold, cooldown, now)
    {
      RecordAppend(history, Asked(provider, now), threshold, cooldown);
      assert Matches(Lookup(states, provider), RecordOf(history, provider, threshold, cooldown), threshold, cooldown);
      if provider !in states { return true; }
      var state := states[provider];
      if state.openUntil.Some? {
        if now < state.openUntil.value { return false; }
        states := states[provider := CircuitState(0, None)];
      }
      allowed := true;
    }

    method Success(provider: string, ghost history: seq<Op>)
      requires Holds(history)
      modifies this
      ensures Holds(history + [Succeeded(provider)])
    {
      RecordAppend(history, Succeeded(provider), threshold, cooldown);
      states := states - {provider};
    }

    method Failure(provider: string, now: nat, ghost history: seq<Op>)
      requires Holds(history)
      modifies this
      ensures Holds(history + [FailedAt(provider, now)])
    {
      RecordAppend(history, FailedAt(provider, now), threshold, cooldown);
      assert Matches(Lookup(states, provider), RecordOf(history, provider, threshold, cooldown), threshold, cooldown);
      var state := if provider in states then states[provider] else CircuitState(0, None);
      var failures := if state.failures < U32_MAX then state.failures + 1 else U32_MAX;
      state := state.(failures := failures);
      if state.failures >= threshold { state := state.(openUntil := Some(now + cooldown)); }
      states := states[provider := state];
    }
  }

  lemma RecordAppend(history: seq<Op>, op: Op, threshold: nat, cooldown: nat)
    ensures forall p: string ::
      var before := RecordOf(history, p, threshold, cooldown);
      RecordOf(history + [op], p, threshold, cooldown) ==
        if op.provider == p then After(before, op, threshold, cooldown) else before
  {
    assert (history + [op])[..|history|] == history;
  }

  // ----- what that means for a provider

  function OpsOf(history: seq<Op>, provider: string): seq<Op> {
    if history == [] then []
    else
      var op := history[|history| - 1];
      OpsOf(history[..|history| - 1], provider) + if op.provider == provider then [op] else []
  }

  /** Providers do not affect each other. */
  lemma {:induction false} OnlyItsOwn(history: seq<Op>, provider: string, threshold: nat, cooldown: nat)
    ensures RecordOf(history, provider, threshold, cooldown) ==
      RecordOf(OpsOf(history, provider), provider, threshold, cooldown)
  {
    if history != [] {
      var init, op := history[..|history| - 1], history[|history| - 1];
      OnlyItsOwn(init, provider, threshold, cooldown);
      var own := OpsOf(init, provider);
      if op.provider == provider {
        assert (own + [op])[..|own|] == own;
      } else {
        assert own + [] == own;
      }
    }
  }

  function FailuresSince(history: seq<Op>, provider: string): nat {
    if history == [] then 0
    else
      var op, before := history[|history| - 1], FailuresSince(history[..|history| - 1], provider);
      if op.provider != provider || op.Asked? then before
      else if op.Succeeded? then 0
      else before + 1
  }

  /** A provider is never kept out with fewer than the threshold of failures since its last success. */
  lemma {:induction false} NotBlockedEarly(history: seq<Op>, provider: string, threshold: nat, cooldown: nat, now: nat)
    ensures RecordOf(history, provider, threshold, cooldown).failures <= FailuresSince(history, provider)
    ensures Blocked(RecordOf(history, provider, threshold, cooldown), threshold, cooldown, now) ==>
      FailuresSince(history, provider) >= 1 && FailuresSince(history, provider) >= threshold
  {
    if history != [] { NotBlockedEarly(history[..|history| - 1], provider, threshold, cooldown, now); }
  }

  function FailuresIn(ops: seq<Op>, provider: string): nat {
    if ops == [] then 0
    else
      var op := ops[|ops| - 1];
      FailuresIn(ops[..|ops| - 1], provider) + if op.FailedAt? && op.provider == provider then 1 else 0
  }

  /** When the provider last failed in `ops`. */
  function LastFailure(ops: seq<Op>, provider: string): nat
    requires FailuresIn(ops, provider) > 0
  {
    var op := ops[|ops| - 1];
    if op.FailedAt? && op.provider == provider then op.now else LastFailure(ops[..|ops| - 1], provider)
  }

  /** The operation leaves the provider's record standing: it is another provider's, a failure, or a
      question that does not find the cooldown over. */
  predicate Keeps(record: Record, op: Op, provider: string, threshold: nat, cooldown: nat) {
    op.provider == provider ==>
      op.FailedAt? || (op.Asked? && (Tripped(record, threshold) ==> Blocked(record, threshold, cooldown, op.now)))
  }

  ghost predicate NeverClears(history: seq<Op>, run: seq<Op>, provider: string, threshold: nat, cooldown: nat) {
    forall k :: 0 <= k < |run| ==>
      Keeps(RecordOf(history + run[..k], provider, threshold, cooldown), run[k], provider, threshold, cooldown)
  }

  lemma NeverClearsBefore(history: seq<Op>, run: seq<Op>, provider: string, threshold: nat, cooldown: nat)
    requires NeverClears(history, run, provider, threshold, cooldown) && run != []
    ensures NeverClears(history, run[..|run| - 1], provider, threshold, cooldown)
  {
    hide Keeps, RecordOf;
    var init := run[..|run| - 1];
    forall k | 0 <= k < |init|
      ensures Keeps(
        RecordOf(history + init[..k], provider, threshold, cooldown), init[k], provider, threshold, cooldown)
    {
      assert init[..k] == run[..k] && init[k] == run[k];
    }
  }

  /** Failures add up over any run that does not clear the record, whatever else happens in it. */
  lemma {:induction false} RunCounts(history: seq<Op>, run: seq<Op>, provider: string, threshold: nat, cooldown: nat)
    requires NeverClears(history, run, provider, threshold, cooldown)
    ensures var before, after := RecordOf(history, provider, threshold, cooldown),
                                 RecordOf(history + run, provider, threshold, cooldown);
      && after.failures == before.failures + FailuresIn(run, provider)
      && after.last == if FailuresIn(run, provider) > 0 then LastFailure(run, provider) else before.last
  {
    if run == [] {
      assert history + run == history;
    } else {
      var n := |run| - 1;
      var init, op := run[..n], run[n];
      NeverClearsBefore(history, run, provider, threshold, cooldown);
      RunCounts(history, init, provider, threshold, cooldown);
      assert (history + run)[..|history + run| - 1] == history + init;
      assert Keeps(RecordOf(history + run[..n], provider, threshold, cooldown), run[n], provider, threshold, cooldown);
    }
  }

  /** As many failures as the threshold, in a run that does not clear the record, keep the provider out
      for exactly the cooldown after the last of them, whatever came before. */
  lemma BlockedAfterRun(history: seq<Op>, run: seq<Op>, provider: string, threshold: nat, cooldown: nat, now: nat)
    requires NeverClears(history, run, provider, threshold, cooldown)
    requires FailuresIn(run, provider) >= 1 && FailuresIn(run, provider) >= threshold
    ensures Blocked(RecordOf(history + run, provider, threshold, cooldown), threshold, cooldown, now) <==>
      now < LastFailure(run, provider) + cooldown
  {
    RunCounts(history, run, provider, threshold, cooldown);
  }

  /** The way chat uses a breaker: a question before every attempt, and no success. From a clean record
      such a run does not clear it while every question comes before the threshold is reached. */
  lemma {:induction false} AttemptsNeverClear(
    history: seq<Op>, run: seq<Op>, provider: string, threshold: nat, cooldown: nat)
    requires RecordOf(history, provider, threshold, cooldown).failures == 0
    requires forall k :: 0 <= k < |run| && run[k].provider == provider ==>
      run[k].FailedAt?
        || (run[k].Asked? && (FailuresIn(run[..k], provider) < threshold || FailuresIn(run[..k], provider) == 0))
    ensures NeverClears(history, run, provider, threshold, cooldown)
  {
    if run != [] {
      var n := |run| - 1;
      var init := run[..n];
      forall k | 0 <= k < n && init[k].provider == provider
        ensures init[k].FailedAt?
             || (init[k].Asked?
               && (FailuresIn(init[..k], provider) < threshold || FailuresIn(init[..k], provider) == 0))
      {
        assert init[..k] == run[..k] && init[k] == run[k];
      }
      AttemptsNeverClear(history, init, provider, threshold, cooldown);
      RunCounts(history, init, provider, threshold, cooldown);
      assert Keeps(RecordOf(history + init, provider, threshold, cooldown), run[n], provider, threshold, cooldown);
      NeverClearsMore(history, run, provider, threshold, cooldown);
    }
  }

  lemma NeverClearsMore(history: seq<Op>, run: seq<Op>, provider: string, threshold: nat, cooldown: nat)
    requires run != [] && NeverClears(history, run[..|run| - 1], provider, threshold, cooldown)
    requires Keeps(RecordOf(history + run[..|run| - 1], provider, threshold, cooldown), run[|run| - 1],
                   provider, threshold, cooldown)
    ensures NeverClears(history, run, provider, threshold, cooldown)
  {
    hide Keeps, RecordOf;
    var n := |run| - 1;
    var init := run[..n];
    forall k | 0 <= k < |run|
      ensures Keeps(RecordOf(history + run[..k], provider, threshold, cooldown), run[k], provider, threshold, cooldown)
    {
      if k < n {
        assert init[..k] == run[..k] && init[k] == run[k];
        assert Keeps(
          RecordOf(history + init[..k], provider, threshold, cooldown), init[k], provider, threshold, cooldown);
      }
    }
  }

  // ----- the same, by positions in the history

  /** The provider's failures after position `k`. */
  function FailedSince(history: seq<Op>, provider: string, k: int): set<int> {
    set i | 0 <= i < |history| && k < i && history[i].FailedAt? && history[i].provider == provider
  }

  predicate IsLatest(s: set<int>, i: int) {
    i in s && forall j :: j in s ==> j <= i
  }

  /** As many failures as the threshold, and at least one, after position `k`. */
  predicate Enough(history: seq<Op>, provider: string, k: int, threshold: nat) {
    |FailedSince(history, provider, k)| >= 1 && |FailedSince(history, provider, k)| >= threshold
  }

  /** The latest failure after position `k` is less than the cooldown ago. */
  ghost predicate Recent(history: seq<Op>, provider: string, k: int, cooldown: nat, now: nat) {
    exists i :: 0 <= i < |history| && IsLatest(FailedSince(history, provider, k), i) && history[i].FailedAt?
      && now < history[i].now + cooldown
  }

  /** Where the provider last got a clean record: at a success, or at a question that came after enough failures
      since the reset before, when the cooldown after the latest of them was over; -1 if never. */
  ghost function LastReset(history: seq<Op>, provider: string, threshold: nat, cooldown: nat): int {
    if history == [] then -1
    else
      var n := |history| - 1;
      var before, op := LastReset(history[..n], provider, threshold, cooldown), history[n];
      if op.provider == provider
        && (op.Succeeded?
            || (op.Asked? && Enough(history[..n], provider, before, threshold)
                && !Recent(history[..n], provider, before, cooldown, op.now)))
      then n else before
  }

  /** The record counts the failures since the last reset, and has the time of the latest. */
  ghost predicate Counts(history: seq<Op>, provider: string, k: int, record: Record) {
    && record.failures == |FailedSince(history, provider, k)|
    && (record.failures > 0 ==> exists i :: LatestAt(history, provider, k, record.last, i))
  }

  ghost predicate LatestAt(history: seq<Op>, provider: string, k: int, now: nat, i: int) {
    && 0 <= i < |history| && IsLatest(FailedSince(history, provider, k), i)
    && history[i].FailedAt? && history[i].now == now
  }

  lemma OneMore(history: seq<Op>, op: Op, provider: string, k: int)
    requires k < |history|
    ensures FailedSince(history + [op], provider, k) ==
      FailedSince(history, provider, k) + if op.FailedAt? && op.provider == provider then {|history|} else {}
  {
    var all := history + [op];
    assert forall i :: 0 <= i < |history| ==> all[i] == history[i];
  }

  lemma RecentIff(history: seq<Op>, provider: string, k: int, record: Record, cooldown: nat, now: nat)
    requires Counts(history, provider, k, record) && record.failures > 0
    ensures Recent(history, provider, k, cooldown, now) <==> now < record.last + cooldown
  {
    var i :| LatestAt(history, provider, k, record.last, i);
    assert forall j :: IsLatest(FailedSince(history, provider, k), j) ==> j == i;
  }

  lemma {:induction false} RecordCounts(history: seq<Op>, provider: string, threshold: nat, cooldown: nat)
    ensures -1 <= LastReset(history, provider, threshold, cooldown) < |history|
    ensures Counts(history, provider, LastReset(history, provider, threshold, cooldown),
                   RecordOf(history, provider, threshold, cooldown))
  {
    if history == [] {
      assert FailedSince(history, provider, -1) == {};
    } else {
      var n := |history| - 1;
      var init, op := history[..n], history[n];
      RecordCounts(init, provider, threshold, cooldown);
      assert history == init + [op];
      var k, record := LastReset(init, provider, threshold, cooldown), RecordOf(init, provider, threshold, cooldown);
      if record.failures > 0 && op.Asked? { RecentIff(init, provider, k, record, cooldown, op.now); }
      OneOpCounts(init, op, provider, k, record, threshold, cooldown);
    }
  }

  lemma OneOpCounts(
    history: seq<Op>, op: Op, provider: string, k: int, record: Record, threshold: nat, cooldown: nat)
    requires Counts(history, provider, k, record) && -1 <= k < |history|
    ensures var cleared := op.provider == provider
        && (op.Succeeded? || (op.Asked? && Tripped(record, threshold)
                              && !Blocked(record, threshold, cooldown, op.now)));
      Counts(history + [op], provider, if cleared then |history| else k,
             if op.provider == provider then After(record, op, threshold, cooldown) else record)
  {
    var all := history + [op];
    OneMore(history, op, provider, k);
    assert FailedSince(all, provider, |history|) == {};
    if op.provider == provider && op.FailedAt? {
      assert LatestAt(all, provider, k, op.now, |history|);
    } else if record.failures > 0 {
      var i :| LatestAt(history, provider, k, record.last, i);
      assert LatestAt(all, provider, k, record.last, i);
    }
  }

  /** A provider is kept out exactly when enough failures follow its last reset and the latest of them is less than
      the cooldown ago. */
  lemma BlockedIff(history: seq<Op>, provider: string, threshold: nat, cooldown: nat, now: nat)
    ensures var k := LastReset(history, provider, threshold, cooldown);
      Blocked(RecordOf(history, provider, threshold, cooldown), threshold, cooldown, now) <==>
      Enough(history, provider, k, threshold) && Recent(history, provider, k, cooldown, now)
  {
    var k := LastReset(history, provider, threshold, cooldown);
    var record := RecordOf(history, provider, threshold, cooldown);
    RecordCounts(history, provider, threshold, cooldown);
    if record.failures > 0 { RecentIff(history, provider, k, record, cooldown, now); }
  }

  /** A question that finds the cooldown over gives a second chance: a single failure after it does not keep the
      provider out, unless one is enough. */
  lemma SecondChance(
    history: seq<Op>, provider: string, threshold: nat, cooldown: nat, asked: nat, failed: nat, now: nat)
    requires threshold >= 2 && Tripped(RecordOf(history, provider, threshold, cooldown), threshold)
    requires asked >= RecordOf(history, provider, threshold, cooldown).last + cooldown
    ensures var after := history + [Asked(provider, asked), FailedAt(provider, failed)];
      !Blocked(RecordOf(after, provider, threshold, cooldown), threshold, cooldown, now)
  {
    var one := history + [Asked(provider, asked)];
    RecordAppend(history, Asked(provider, asked), threshold, cooldown);
    RecordAppend(one, FailedAt(provider, failed), threshold, cooldown);
    assert one + [FailedAt(provider, failed)] == history + [Asked(provider, asked), FailedAt(provider, failed)];
  }
}
