/** Every event of a plan is what steps of the run did, in order. */
module ApprovalTrace {
  import opened Results
  import opened Approval
  import AptPlan

  /** `wanted` are some of the actions, in order. */
  ghost predicate Among(wanted: seq<Action>, actions: seq<Action>) {
    wanted == [] ||
    (actions != [] &&
     (var n, m := |actions| - 1, |wanted| - 1;
      Among(wanted, actions[..n]) || (actions[n] == wanted[m] && Among(wanted[..m], actions[..n]))))
  }

  lemma AmongMore(wanted: seq<Action>, actions: seq<Action>, a: Action)
    requires Among(wanted, actions)
    ensures Among(wanted, actions + [a]) && Among(wanted + [a], actions + [a])
  {
    assert (actions + [a])[..|actions|] == actions && (wanted + [a])[..|wanted|] == wanted;
  }

  lemma {:induction false} AmongFewer(wanted: seq<Action>, more: seq<Action>, actions: seq<Action>)
    requires Among(wanted + more, actions)
    ensures Among(wanted, actions)
    decreases |more| + |actions|
  {
    if more == [] {
      assert wanted + more == wanted;
    } else {
      var n, m := |actions| - 1, |more| - 1;
      assert (wanted + more)[..|wanted + more| - 1] == wanted + more[..m];
      if Among(wanted + more, actions[..n]) {
        AmongFewer(wanted, more, actions[..n]);
      } else {
        AmongFewer(wanted, more[..m], actions[..n]);
      }
    }
  }

  /** The steps that make an event: who asked, what was seen and when, what polkit and libapt said. */
  function StepsOf(e: Event): seq<Action> {
    match e
    case PlanStored(id, plan) =>
      [StartPrepare(plan.caller, plan.operation), See(plan.state), Identify(plan.caller), StorePlan(plan.issuedAt, id)]
    case PlanConsumed(id, who, digest, at) => [StartApply(who, id, digest), Tick(at)]
    case CheckedBefore(_, _, seen, at) => [See(seen), Tick(at)]
    case ActionGranted(_, _) => [Authorize(true)]
    case CheckedAfter(_, who, seen, at) => [Identify(who), See(seen), Tick(at)]
    case Executed(_, RanSystemctl(_, _, seen), _, at) => [See(seen), Tick(at)]
    case Executed(_, Signalled(_, seen), _, at) => [See(seen), Tick(at)]
    case Executed(_, Committed(cache, plan, _), checked, at) => [Tick(checked), Resolve(cache, plan, at)]
    case Executed(_, Refreshed(manifest, sources), checked, at) =>
      [ReadSources(manifest), Tick(checked), ReadMainList(sources, at)]
  }

  function StepsOfAll(h: seq<Event>): seq<Action> {
    if h == [] then [] else StepsOfAll(h[..|h| - 1]) + StepsOf(h[|h| - 1])
  }

  /** The plan a stage is about, and the steps taken since the plan's last event. */
  function Subject(stage: Stage): Option<string> {
    if stage.ApplyLocked? then Some(stage.planId)
    else if Holding(stage).Some? then Some(Holding(stage).value.id)
    else None
  }

  function Since(stage: Stage): seq<Action> {
    match stage
    case PrepareLocked(caller, op) => [StartPrepare(caller, op)]
    case PrepareSeen(caller, op, state) => [StartPrepare(caller, op), See(state)]
    case PrepareConfirmed(caller, op, state) => [StartPrepare(caller, op), See(state), Identify(caller)]
    case ApplyLocked(caller, id, digest) => [StartApply(caller, id, digest)]
    case SeenBefore(_, _, before) => [See(before)]
    case Reidentified(current, _) => [Identify(current)]
    case SeenAfter(current, _, after) => [Identify(current), See(after)]
    case Rechecked(_, seen) => [See(seen)]
    case WorkerApproved(_, _, at) => [Tick(at)]
    case WorkerResolved(_, _, _, at) => [Tick(at)]
    case WorkerSources(_, _, manifest) => [ReadSources(manifest)]
    case WorkerLocked(_, manifest, at) => [ReadSources(manifest), Tick(at)]
    case _ => []
  }

  function BehindStage(s: System): seq<Action> {
    if Subject(s.stage).Some? then StepsOfAll(History(s.log, Subject(s.stage).value)) else []
  }

  ghost predicate Traced(actions: seq<Action>, s: System) {
    && (forall id :: Among(StepsOfAll(History(s.log, id)), actions))
    && Among(BehindStage(s) + Since(s.stage), actions)
  }

  ghost predicate Follows(after: seq<Action>, before: seq<Action>, a: Action) {
    after == before + [a] || after == before || after == []
  }

  /** A step that logs nothing: it adds itself to the steps since the last event, or forgets some. */
  ghost predicate MovesOn(s: System, a: Action, t: System) {
    && t.log == s.log
    && (|| t.stage == s.stage
        || t.stage.Idle?
        || (Subject(t.stage) == Subject(s.stage) && Follows(Since(t.stage), Since(s.stage), a))
        || (s.stage.Idle? && Since(t.stage) == [a]))
  }

  /** A step that logs an event: the event is made of the steps since the last one and this step. */
  ghost predicate Logs(s: System, a: Action, t: System, e: Event) {
    && t.log == s.log + [e] && StepsOf(e) == Since(s.stage) + [a]
    && (Subject(s.stage) == Some(e.id) || (Subject(s.stage).None? && History(s.log, e.id) == []))
    && (t.stage.Idle? || (Subject(t.stage) == Some(e.id) && Since(t.stage) == []))
  }

  ghost predicate Moves(s: System, a: Action, t: System) {
    MovesOn(s, a, t) || exists e :: Logs(s, a, t, e)
  }

  lemma StorePlanMoves(d: Digests, s: System, now: nat, nonce: string)
    requires Inv(d, s)
    ensures Moves(s, StorePlan(now, nonce), OnStorePlan(d, s, now, nonce))
  {
    hide Valid, ActionId, Observable, WithinLimits, History, FollowsScript, WellFormed, StorePrepare, StageFits,
      StoreFits, HeldFits;
    if s.stage.PrepareConfirmed? && nonce !in s.issued {
      var PrepareConfirmed(caller, op, state) := s.stage;
      PreparedPlans(d, s.plans, caller, op, state, now, nonce);
      var t := OnStorePlan(d, s, now, nonce);
      if t.log != s.log {
        assert Logs(s, StorePlan(now, nonce), t, PlanStored(nonce, NewPlan(d, caller, op, state, now, nonce)));
      }
    }
  }

  lemma ConsumeMoves(d: Digests, s: System, now: nat)
    requires Inv(d, s) && s.stage.ApplyLocked?
    ensures Moves(s, Tick(now), OnConsume(s, now))
  {
    hide WellFormed, WithinLimits, History, FollowsScript, StoreConsume, InLifetime, HeldFits, StageFits;
    var ApplyLocked(caller, id, digest) := s.stage;
    ConsumedPlan(s.plans, id, digest, caller, now);
    var t := OnConsume(s, now);
    if t.log != s.log { assert Logs(s, Tick(now), t, PlanConsumed(id, caller, digest, now)); }
  }

  lemma CheckMoves(d: Digests, s: System, now: nat)
    requires s.stage.SeenBefore? || s.stage.SeenAfter?
    ensures Moves(s, Tick(now), OnCheck(d, s, now))
  {
    hide Revalidate, History;
    var t := OnCheck(d, s, now);
    if t.log != s.log {
      var e := if s.stage.SeenBefore? then CheckedBefore(s.stage.plan.id, s.stage.caller, s.stage.before, now)
        else CheckedAfter(s.stage.plan.id, s.stage.current, s.stage.after, now);
      assert Logs(s, Tick(now), t, e);
    }
  }

  lemma LastCheckMoves(s: System, now: nat)
    requires s.stage.Rechecked?
    ensures Moves(s, Tick(now), OnLastCheck(s, now))
  {
    hide History;
    var t := OnLastCheck(s, now);
    if t.log != s.log { assert Logs(s, Tick(now), t, t.log[|s.log|]); }
  }

  lemma TickMoves(d: Digests, s: System, now: nat)
    requires Inv(d, s)
    ensures Moves(s, Tick(now), OnTick(d, s, now))
  {
    hide Inv;
    if s.stage.ApplyLocked? {
      ConsumeMoves(d, s, now);
    } else if s.stage.SeenBefore? || s.stage.SeenAfter? {
      CheckMoves(d, s, now);
    } else if s.stage.Rechecked? {
      LastCheckMoves(s, now);
    } else {
      WorkerTicks(d, s, now);
    }
  }

  lemma WorkerTicks(d: Digests, s: System, now: nat)
    requires !s.stage.ApplyLocked? && !s.stage.SeenBefore? && !s.stage.SeenAfter? && !s.stage.Rechecked?
    ensures MovesOn(s, Tick(now), OnTick(d, s, now))
  {
    hide History, AptRequest, OnConsume, OnCheck, OnLastCheck;
    if s.stage.WorkerSources? {
      assert [ReadSources(s.stage.manifest)] + [Tick(now)] == [ReadSources(s.stage.manifest), Tick(now)];
    }
    assert [] + [Tick(now)] == [Tick(now)];
  }

  lemma AuthorizeMoves(s: System, granted: bool)
    ensures Moves(s, Authorize(granted), OnAuthorize(s, granted))
  {
    hide History;
    var t := OnAuthorize(s, granted);
    if s.stage.AwaitingGrant? && granted {
      assert [] + [Authorize(granted)] == [Authorize(true)];
      assert Logs(s, Authorize(granted), t, ActionGranted(s.stage.plan.id, s.stage.plan.actionId));
    }
  }

  lemma ResolveMoves(d: Digests, s: System, cache: AptPlan.DepCache, plan: AptPlan.Plan, now: nat)
    ensures Moves(s, Resolve(cache, plan, now), OnResolve(d, s, cache, plan, now))
  {
    hide History, AptPlan.IsPlanOf, WorkerName, Requested, PassesGuards;
    var t, a := OnResolve(d, s, cache, plan, now), Resolve(cache, plan, now);
    if s.stage.WorkerResolved? && t.log != s.log {
      assert [Tick(s.stage.at)] + [a] == [Tick(s.stage.at), a];
      assert Logs(s, a, t, Executed(s.stage.plan.id, Committed(cache, plan, s.stage.first), s.stage.at, now));
    }
  }

  lemma ReadsMove(s: System, manifest: seq<string>, sources: seq<string>, now: nat)
    ensures Moves(s, ReadSources(manifest), OnReadSources(s, manifest))
    ensures Moves(s, ReadMainList(sources, now), OnReadMainList(s, sources, now))
  {
    hide History;
    assert [] + [ReadSources(manifest)] == [ReadSources(manifest)];
    if s.stage.WorkerLocked? {
      var WorkerLocked(plan, digested, at) := s.stage;
      var t, a := OnReadMainList(s, sources, now), ReadMainList(sources, now);
      assert [ReadSources(digested), Tick(at)] + [a] == [ReadSources(digested), Tick(at), a];
      assert Logs(s, a, t, Executed(plan.id, Refreshed(digested, sources), at, now));
    }
  }

  lemma SeesMove(d: Digests, s: System, seen: Snapshot, caller: Caller)
    ensures MovesOn(s, See(seen), OnSee(d, s, seen)) && MovesOn(s, Identify(caller), OnIdentify(s, caller))
  {
    hide History, Observable;
    assert [] + [See(seen)] == [See(seen)] && [] + [Identify(caller)] == [Identify(caller)];
    if s.stage.PrepareLocked? {
      var first := StartPrepare(s.stage.caller, s.stage.operation);
      assert [first] + [See(seen)] == [first, See(seen)];
    }
    if s.stage.PrepareSeen? {
      var first := StartPrepare(s.stage.caller, s.stage.operation);
      assert [first, See(s.stage.state)] + [Identify(caller)] == [first, See(s.stage.state), Identify(caller)];
    }
    if s.stage.Reidentified? {
      assert [Identify(s.stage.current)] + [See(seen)] == [Identify(s.stage.current), See(seen)];
    }
  }

  lemma NextMoves(d: Digests, s: System, a: Action)
    requires Inv(d, s)
    ensures Moves(s, a, Next(d, s, a))
  {
    hide Inv, MovesOn, Logs, OnSee, OnIdentify, OnStorePlan, OnTick, OnAuthorize, OnResolve, OnReadSources,
      OnReadMainList;
    match a
    case StorePlan(now, nonce) => StorePlanMoves(d, s, now, nonce);
    case Tick(now) => TickMoves(d, s, now);
    case Resolve(cache, plan, now) => ResolveMoves(d, s, cache, plan, now);
    case ReadSources(manifest) => ReadsMove(s, manifest, [], 0);
    case ReadMainList(sources, now) => ReadsMove(s, [], sources, now);
    case Authorize(granted) => AuthorizeMoves(s, granted);
    case See(seen) => SeesMove(d, s, seen, Caller("", 0, 0, 0, ""));
    case Identify(caller) => SeesMove(d, s, ServiceState(""), caller);
    case _ => StartsMove(d, s, a);
  }

  lemma StartsMove(d: Digests, s: System, a: Action)
    requires a.StartPrepare? || a.StartApply? || a.Abandon?
    ensures MovesOn(s, a, Next(d, s, a))
  {
    hide History, Valid;
  }

  lemma MovesOnTraced(actions: seq<Action>, s: System, a: Action, t: System)
    requires Traced(actions, s) && MovesOn(s, a, t)
    ensures Traced(actions + [a], t)
  {
    hide History, Among, StepsOfAll, Since;
    forall id ensures Among(StepsOfAll(History(t.log, id)), actions + [a]) {
      AmongMore(StepsOfAll(History(s.log, id)), actions, a);
    }
    var behind, since := BehindStage(s), Since(s.stage);
    AmongMore(behind + since, actions, a);
    assert (behind + since) + [a] == behind + (since + [a]);
    AmongFewer(behind, since, actions + [a]);
    assert behind + [] == behind;
    if s.stage.Idle? && Since(t.stage) == [a] {
      assert Among([], actions) by { NoneAmong(actions); }
      AmongMore(BehindStage(t), actions, a);
    }
    if t.stage.Idle? { IdleSince(t, actions + [a]); }
  }

  lemma IdleSince(t: System, actions: seq<Action>)
    requires t.stage.Idle?
    ensures Among(BehindStage(t) + Since(t.stage), actions)
  {
  }

  lemma NoneAmong(actions: seq<Action>)
    ensures Among([], actions)
  {
  }

  lemma LogsTraced(actions: seq<Action>, s: System, a: Action, t: System, e: Event)
    requires Traced(actions, s) && Logs(s, a, t, e)
    ensures Traced(actions + [a], t)
  {
    hide History, Among, Since, StepsOf;
    var since, h := Since(s.stage), History(s.log, e.id);
    HistoriesSnoc(s.log, e);
    assert (h + [e])[..|h|] == h;
    assert StepsOfAll(h + [e]) == StepsOfAll(h) + (since + [a]);
    AmongMore(BehindStage(s) + since, actions, a);
    assert (BehindStage(s) + since) + [a] == StepsOfAll(h) + (since + [a]);
    forall id ensures Among(StepsOfAll(History(t.log, id)), actions + [a]) {
      if id != e.id { AmongMore(StepsOfAll(History(s.log, id)), actions, a); }
    }
    if t.stage.Idle? { IdleSince(t, actions + [a]); }
    assert BehindStage(t) + [] == BehindStage(t);
  }

  /** Over every run and for every plan: its events, one after the other, are what steps of the run did, in that
      order: its caller asked for its operation, its state was seen, its caller presented its digest, polkit
      granted the action, the caller and the state were seen again, and what was carried out is what the last
      steps saw or resolved. */
  lemma {:induction false} PlanRetraced(d: Digests, actions: seq<Action>, id: string)
    ensures Among(StepsOfAll(History(Run(d, actions).log, id)), actions)
  {
    hide Traced, History, Among;
    RunTraced(d, actions);
    assert Among(StepsOfAll(History(Run(d, actions).log, id)), actions) by { TracedAt(actions, Run(d, actions), id); }
  }

  lemma TracedAt(actions: seq<Action>, s: System, id: string)
    requires Traced(actions, s)
    ensures Among(StepsOfAll(History(s.log, id)), actions)
  {
    hide History, Among, StepsOfAll;
  }

  lemma {:induction false} RunTraced(d: Digests, actions: seq<Action>)
    ensures Traced(actions, Run(d, actions))
  {
    if actions == [] {
    } else {
      hide Traced, Inv, Next, Logs, MovesOn;
      var n := |actions| - 1;
      var init, a := actions[..n], actions[n];
      var s, t := Run(d, init), Run(d, actions);
      RunTraced(d, init);
      RunKeeps(d, init);
      NextMoves(d, s, a);
      assert actions == init + [a];
      if e :| Logs(s, a, t, e) {
        LogsTraced(init, s, a, t, e);
      } else {
        MovesOnTraced(init, s, a, t);
      }
    }
  }
}
