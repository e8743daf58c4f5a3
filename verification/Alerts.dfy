/** Threshold alerts with hysteresis over samples of the machine's health. */
module Alerts {
  /** `required` samples in a row at or above `activateAt` raise the alert, as many at or below
      `clearBelow` resolve it, and a change of `delta` is reported in between. */
  datatype Rule = Rule(activateAt: real, clearBelow: real, required: nat, delta: real)

  datatype Sample = Sample(value: real, now: nat)

  datatype Condition = Condition(
    active: bool, above: nat, below: nat, firstSeen: nat, lastSeen: nat, lastEmitted: real)

  datatype Record = Record(id: string, active: bool, value: real, firstSeen: nat, lastSeen: nat)

  function Distance(x: real, y: real): real {
    if x >= y then x - y else y - x
  }

  // ----- one condition, as a function of its samples

  function NewCondition(s: Sample): Condition {
    Condition(false, 0, 0, s.now, s.now, s.value)
  }

  /** What a sample does to a condition, and whether it is reported. */
  function Stepped(c: Condition, rule: Rule, s: Sample): (Condition, bool) {
    if c.active then
      var low := s.value <= rule.clearBelow;
      var d := c.(below := if low then c.below + 1 else 0);
      if d.below >= rule.required then
        (d.(active := false, above := 0, lastSeen := s.now, lastEmitted := s.value), true)
      else if !low && Distance(s.value, c.lastEmitted) >= rule.delta then
        (d.(lastEmitted := s.value, lastSeen := s.now), true)
      else (d, false)
    else if s.value >= rule.activateAt then
      var d := c.(above := c.above + 1);
      if d.above >= rule.required then
        (d.(active := true, below := 0, firstSeen := s.now, lastSeen := s.now, lastEmitted := s.value), true)
      else (d, false)
    else (c.(above := 0), false)
  }

  function Before(samples: seq<Sample>, rule: Rule): Condition
    requires samples != []
    decreases |samples|, 0
  {
    if |samples| == 1 then NewCondition(samples[0]) else After(samples[..|samples| - 1], rule)
  }

  function After(samples: seq<Sample>, rule: Rule): Condition
    requires samples != []
    decreases |samples|, 1
  {
    Stepped(Before(samples, rule), rule, samples[|samples| - 1]).0
  }

  function RecordOf(id: string, c: Condition): Record {
    Record(id, c.active, c.lastEmitted, c.firstSeen, c.lastSeen)
  }

  /** The records the samples of one condition produce. */
  function Reported(id: string, samples: seq<Sample>, rule: Rule): seq<Record> {
    if samples == [] then []
    else
      var (c, reported) := Stepped(Before(samples, rule), rule, samples[|samples| - 1]);
      Reported(id, samples[..|samples| - 1], rule) + if reported then [RecordOf(id, c)] else []
  }

  // ----- the engine

  function TakeLast(records: seq<Record>, n: nat): seq<Record> {
    if |records| <= n then records else records[|records| - n..]
  }

  /** What the engine was given and what it reported: the samples of every condition, and all records
      in order. */
  datatype Past = Past(samples: map<string, seq<Sample>>, records: seq<Record>)

  function SamplesOf(past: Past, id: string): seq<Sample> {
    if id in past.samples then past.samples[id] else []
  }

  function Extended(past: Past, id: string, s: Sample, rule: Rule): Past {
    var samples := SamplesOf(past, id) + [s];
    var (c, reported) := Stepped(Before(samples, rule), rule, s);
    Past(past.samples[id := samples], past.records + if reported then [RecordOf(id, c)] else [])
  }

  /** The branches of one evaluation. */
  method Observe(before: Condition, rule: Rule, value: real, now: nat) returns (state: Condition, reported: bool)
    ensures (state, reported) == Stepped(before, rule, Sample(value, now))
  {
    state, reported := before, false;
    if state.active {
      var low := value <= rule.clearBelow;
      state := state.(below := if low then state.below + 1 else 0);
      if state.below >= rule.required {
        state := state.(active := false, above := 0, lastSeen := now, lastEmitted := value);
        reported := true;
      } else if !low && Distance(value, state.lastEmitted) >= rule.delta {
        state := state.(lastEmitted := value, lastSeen := now);
        reported := true;
      }
    } else if value >= rule.activateAt {
      state := state.(above := state.above + 1);
      if state.above >= rule.required {
        state := state.(active := true, below := 0, firstSeen := now, lastSeen := now, lastEmitted := value);
        reported := true;
      }
    } else {
      state := state.(above := 0);
    }
  }

  function RecordsFor(records: seq<Record>, id: string): seq<Record> {
    if records == [] then []
    else
      var last := records[|records| - 1];
      RecordsFor(records[..|records| - 1], id) + if last.id == id then [last] else []
  }

  /** The records of a condition are those its own samples produce. */
  ghost predicate Told(past: Past, rules: string -> Rule) {
    forall id: string :: RecordsFor(past.records, id) == Reported(id, SamplesOf(past, id), rules(id))
  }

  lemma ExtendedTells(past: Past, id: string, s: Sample, rules: string -> Rule)
    requires Told(past, rules)
    ensures Told(Extended(past, id, s, rules(id)), rules)
  {
    hide Stepped;
    var rule, samples := rules(id), SamplesOf(past, id) + [s];
    var (c, reported) := Stepped(Before(samples, rule), rule, s);
    var records := past.records + if reported then [RecordOf(id, c)] else [];
    assert samples[..|samples| - 1] == SamplesOf(past, id);
    forall other: string
      ensures RecordsFor(records, other) == Reported(other, SamplesOf(Extended(past, id, s, rule), other), rules(other))
    {
      if reported { assert records[..|past.records|] == past.records; } else { assert records == past.records; }
    }
  }

  class AlertEngine {
    var states: map<string, Condition>
    var log: seq<Record>
    const maxLogEntries: nat

    /** The engine is where the samples lead, and its log is the end of all that was reported. */
    ghost predicate Holds(past: Past, rules: string -> Rule)
      reads this
    {
      && states.Keys == past.samples.Keys
      && (forall id :: id in states ==> past.samples[id] != [] && states[id] == After(past.samples[id], rules(id)))
      && log == TakeLast(past.records, maxLogEntries) && Told(past, rules)
    }

    constructor (maxLogEntries: nat)
      ensures this.maxLogEntries == maxLogEntries && forall rules: string -> Rule :: Holds(Past(map[], []), rules)
    {
      this.maxLogEntries, states, log := maxLogEntries, map[], [];
    }

    method PushRecord(record: Record, ghost all: seq<Record>)
      requires log == TakeLast(all, maxLogEntries)
      modifies this
      ensures log == TakeLast(all + [record], maxLogEntries) && states == old(states)
    {
      if maxLogEntries == 0 { return; }
      if |log| >= maxLogEntries { log := log[1..]; }
      log := log + [record];
    }

    method EvalNumeric(id: string, value: real, rule: Rule, now: nat, ghost past: Past, ghost rules: string -> Rule)
      requires Holds(past, rules) && rules(id) == rule
      modifies this
      ensures Holds(Extended(past, id, Sample(value, now), rule), rules)
    {
      hide TakeLast, Stepped, Told;
      ExtendedTells(past, id, Sample(value, now), rules);
      ghost var samples := SamplesOf(past, id) + [Sample(value, now)];
      assert |samples| > 1 ==> samples[..|samples| - 1] == past.samples[id];
      var before := if id in states then states[id] else Condition(false, 0, 0, now, now, value);
      assert before == Before(samples, rule);
      var state, reported := Observe(before, rule, value, now);
      assert state == After(samples, rule);
      states := states[id := state];
      assert past.records + [] == past.records;
      if reported { PushRecord(RecordOf(id, state), past.records); }
    }
  }

  // ----- what the reports mean

  predicate High(rule: Rule, s: Sample) { s.value >= rule.activateAt }
  predicate Low(rule: Rule, s: Sample) { s.value <= rule.clearBelow }

  /** The length of the run of samples, at the end, that satisfy `p`. */
  function Run(samples: seq<Sample>, p: Sample -> bool): nat {
    if samples == [] || !p(samples[|samples| - 1]) then 0 else Run(samples[..|samples| - 1], p) + 1
  }

  predicate Active(samples: seq<Sample>, rule: Rule) {
    samples != [] && After(samples, rule).active
  }

  /** How many samples came before the alert was last raised or resolved, that one included. */
  function LastFlip(samples: seq<Sample>, rule: Rule): (n: nat)
    ensures n <= |samples|
  {
    if samples == [] then 0
    else if Active(samples, rule) != Active(samples[..|samples| - 1], rule) then |samples|
    else LastFlip(samples[..|samples| - 1], rule)
  }

  lemma BeforeIsActive(samples: seq<Sample>, rule: Rule)
    requires samples != []
    ensures Before(samples, rule).active == Active(samples[..|samples| - 1], rule)
  {
  }

  /** The counters are the runs since the last change. */
  ghost predicate Counts(samples: seq<Sample>, rule: Rule) {
    samples != [] ==>
      var c, recent := After(samples, rule), samples[LastFlip(samples, rule)..];
      && (c.active ==> c.below == Run(recent, s => Low(rule, s)) < rule.required)
      && (!c.active ==> c.above == Run(recent, s => High(rule, s)) < rule.required)
  }

  lemma RunAppend(samples: seq<Sample>, s: Sample, p: Sample -> bool)
    ensures Run(samples + [s], p) == if p(s) then Run(samples, p) + 1 else 0
  {
    assert (samples + [s])[..|samples|] == samples;
  }

  lemma {:induction false} CountsHold(samples: seq<Sample>, rule: Rule)
    requires rule.required >= 1
    ensures Counts(samples, rule)
  {
    if samples != [] {
      var n := |samples| - 1;
      var init, last := samples[..n], samples[n];
      CountsHold(init, rule);
      var flip := LastFlip(init, rule);
      var recent := init[flip..];
      assert samples[flip..] == recent + [last];
      RunAppend(recent, last, s => Low(rule, s));
      RunAppend(recent, last, s => High(rule, s));
      BeforeIsActive(samples, rule);
      assert samples[|samples|..] == [];
    }
  }

  /** The alert changes with a sample exactly when that sample completes a run of the required length,
      counted from the last change: of high samples to raise it, of low ones to resolve it. */
  lemma FlipsIff(samples: seq<Sample>, rule: Rule)
    requires rule.required >= 1 && samples != []
    ensures var init := samples[..|samples| - 1]; var recent := samples[LastFlip(init, rule)..];
      && (!Active(init, rule) ==> (Active(samples, rule) <==> Run(recent, s => High(rule, s)) >= rule.required))
      && (Active(init, rule) ==> (!Active(samples, rule) <==> Run(recent, s => Low(rule, s)) >= rule.required))
  {
    var n := |samples| - 1;
    var init, last := samples[..n], samples[n];
    CountsHold(init, rule);
    var recent := init[LastFlip(init, rule)..];
    assert samples[LastFlip(init, rule)..] == recent + [last];
    RunAppend(recent, last, s => Low(rule, s));
    RunAppend(recent, last, s => High(rule, s));
    BeforeIsActive(samples, rule);
    if init == [] { assert recent == []; }
  }

  /** The records of a condition end as it is, and two that resolve it are never next to each other. */
  lemma {:induction false} ReportsAlternate(id: string, samples: seq<Sample>, rule: Rule)
    ensures var r := Reported(id, samples, rule);
      && (r == [] ==> !Active(samples, rule))
      && (r != [] ==> r[0].active && r[|r| - 1].active == Active(samples, rule))
      && (forall i :: 0 < i < |r| && !r[i].active ==> r[i - 1].active)
  {
    if samples != [] {
      var init := samples[..|samples| - 1];
      ReportsAlternate(id, init, rule);
      BeforeIsActive(samples, rule);
    }
  }

  /** While the alert is up, the value last reported is within `delta` of every sample that is not low. */
  lemma {:induction false} ReportIsClose(id: string, samples: seq<Sample>, rule: Rule)
    requires rule.delta > 0.0 && Active(samples, rule)
    ensures var r := Reported(id, samples, rule);
      && r != [] && r[|r| - 1].value == After(samples, rule).lastEmitted
      && (!Low(rule, samples[|samples| - 1]) ==> Distance(samples[|samples| - 1].value, r[|r| - 1].value) < rule.delta)
  {
    var init := samples[..|samples| - 1];
    BeforeIsActive(samples, rule);
    if Active(init, rule) { ReportIsClose(id, init, rule); }
  }

  /** While an alert is up, the last record has the value the condition remembers and the time it was raised. */
  lemma {:induction false} LastRecord(id: string, samples: seq<Sample>, rule: Rule)
    requires Active(samples, rule)
    ensures var r := Reported(id, samples, rule); var c := After(samples, rule);
      r != [] && r[|r| - 1].value == c.lastEmitted && r[|r| - 1].firstSeen == c.firstSeen
  {
    var init := samples[..|samples| - 1];
    BeforeIsActive(samples, rule);
    if Active(init, rule) { LastRecord(id, init, rule); }
  }

  /** The record a sample makes: as the alert is after it, with its value and time, and with the time the alert was
      raised, which is now or what the record before says. */
  predicate Tells(record: Record, id: string, before: seq<Record>, raised: bool, active: bool, last: Sample) {
    && record.id == id && record.active == active && record.value == last.value && record.lastSeen == last.now
    && (if raised then record.firstSeen == last.now
        else before != [] && record.firstSeen == before[|before| - 1].firstSeen)
  }

  /** A sample is reported exactly when it raises or resolves the alert, or is not low and differs by the delta or
      more from the value last reported of an alert that stays up. */
  lemma ReportedIff(id: string, samples: seq<Sample>, rule: Rule)
    requires samples != []
    ensures var n := |samples| - 1; var init, last := samples[..n], samples[n];
      var before, after := Reported(id, init, rule), Reported(id, samples, rule);
      var was, active := Active(init, rule), Active(samples, rule);
      && (was ==> before != [])
      && (if was != active || (active && !Low(rule, last)
                               && Distance(last.value, before[|before| - 1].value) >= rule.delta)
          then |after| == |before| + 1 && after[..|before|] == before
               && Tells(after[|before|], id, before, !was, active, last)
          else after == before)
  {
    var n := |samples| - 1;
    var init := samples[..n];
    BeforeIsActive(samples, rule);
    if Active(init, rule) { LastRecord(id, init, rule); }
    assert Reported(id, init, rule) + [] == Reported(id, init, rule);
  }
}
