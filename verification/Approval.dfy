/** The Prepare/Apply protocol of the privileged broker, run to the end inside the APT worker.

    One request at a time holds the broker's operation lock. Everything it learns from outside (who
    the caller is, what the host looks like, what time it is, what polkit says, what libapt resolves)
    is carried by the step that learns it, so any answer may differ from the previous one.

    Two things are assumed of the outside. A stored plan gets an identifier never used before (the
    broker draws 256 random bits). Digests are arbitrary functions: the theorems never assume they
    are collision-free, they exhibit the collision instead. */
module Approval {
  import opened Results
  import AptPlan

  const PLAN_LIFETIME_SECONDS := 120
  const MAX_PLANS := 256
  const MAX_PLANS_PER_NAME := 8
  const U64_MAX := 0xFFFF_FFFF_FFFF_FFFF
  const I32_MAX := 0x7FFF_FFFF

  // ----- requests and plans

  datatype ServiceAction = Start | Stop | Restart | Enable

  datatype Operation =
    | Service(action: ServiceAction, unit: string)
    | ProcessKill(pid: nat)
    | AptInstall(packages: seq<string>)
    | AptRemove(packages: seq<string>)
    | AptUpdate
    | AptUpgrade

  datatype Caller = Caller(uniqueName: string, uid: nat, pid: nat, processStart: nat, session: string)

  datatype ProcessState = ProcessState(pid: nat, startTicks: nat, uid: nat, name: string)

  datatype WorkerPlan = Transaction(plan: AptPlan.Plan) | Update(manifest: seq<string>)

  /** What the broker remembers of the host: unit properties and file digests, a process, or the
      worker's plan with the worker's own digest of it. */
  datatype Snapshot =
    | ServiceState(facts: string)
    | Process(process: ProcessState)
    | Apt(worker: WorkerPlan, digest: string)

  datatype CanonicalPlan = CanonicalPlan(
    id: string, caller: Caller, actionId: string, operation: Operation, argumentDigest: string,
    state: Snapshot, issuedAt: nat, expiresAt: nat)

  datatype Prepared = Prepared(plan: CanonicalPlan, digest: string)

  type Store = map<string, Prepared>

  /** The digest functions. */
  datatype Digests =
    Digests(plan: CanonicalPlan -> string, operation: Operation -> string, worker: WorkerPlan -> string)

  predicate Alphanumeric(c: char) { '0' <= c <= '9' || 'a' <= c <= 'z' || 'A' <= c <= 'Z' }

  predicate ValidUnit(unit: string) {
    && 8 < |unit| <= 255 && unit[|unit| - 8..] == ".service"
    && Alphanumeric(unit[0])
    && (forall i :: 0 <= i < |unit| - 8 ==> Alphanumeric(unit[i]) || unit[i] in "_.-")
    && (forall i :: 0 <= i < |unit| - 1 ==> !(unit[i] == '.' && unit[i + 1] == '.'))
  }

  predicate ValidPackage(package: string) {
    && 2 <= |package| <= 128
    && ('a' <= package[0] <= 'z' || '0' <= package[0] <= '9')
    && (forall c :: c in package ==> 'a' <= c <= 'z' || '0' <= c <= '9' || c in "+.-")
  }

  predicate ValidPackages(packages: seq<string>) {
    && 1 <= |packages| <= 64
    && (forall i :: 0 <= i < |packages| ==> ValidPackage(packages[i]))
    && (forall i, j :: 0 <= i < j < |packages| ==> packages[i] != packages[j])
  }

  predicate Valid(op: Operation) {
    match op
    case Service(_, unit) => ValidUnit(unit)
    case ProcessKill(pid) => 1 < pid <= I32_MAX
    case AptInstall(packages) => ValidPackages(packages)
    case AptRemove(packages) => ValidPackages(packages)
    case AptUpdate => true
    case AptUpgrade => true
  }

  function ActionId(op: Operation): string {
    match op
    case Service(Start, _) => "org.sentia.system.service-start"
    case Service(Stop, _) => "org.sentia.system.service-stop"
    case Service(Restart, _) => "org.sentia.system.service-restart"
    case Service(Enable, _) => "org.sentia.system.service-enable"
    case ProcessKill(_) => "org.sentia.system.process-terminate"
    case AptInstall(_) => "org.sentia.system.package-install"
    case AptRemove(_) => "org.sentia.system.package-remove"
    case AptUpdate => "org.sentia.system.package-update"
    case AptUpgrade => "org.sentia.system.package-upgrade"
  }

  /** The same thing is asked for, though perhaps of another unit, process or package. */
  predicate SameKind(a: Operation, b: Operation) {
    match a
    case Service(action, _) => b.Service? && b.action == action
    case ProcessKill(_) => b.ProcessKill?
    case AptInstall(_) => b.AptInstall?
    case AptRemove(_) => b.AptRemove?
    case AptUpdate => b.AptUpdate?
    case AptUpgrade => b.AptUpgrade?
  }

  /** A grant for one kind of operation is for no other. */
  lemma ActionsSeparate(a: Operation, b: Operation)
    ensures ActionId(a) == ActionId(b) <==> SameKind(a, b)
  {
    var x, y := ActionId(a), ActionId(b);
    var n := |"org.sentia.system."|;
    assert n == 18;
    if !SameKind(a, b) {
      assert |x| != |y| || x[n] != y[n] || x[n + 8] != y[n + 8] || x[n + 9] != y[n + 9] || x[n + 10] != y[n + 10];
    }
  }

  /** And the worker is told which kind it is. */
  lemma WorkerNamesSeparate(a: Operation, b: Operation)
    requires !Direct(a) && !Direct(b)
    ensures WorkerName(a) == WorkerName(b) <==> SameKind(a, b)
  {
    var x, y := WorkerName(a), WorkerName(b);
    if !SameKind(a, b) { assert |x| != |y| || x[4] != y[4] || x[6] != y[6]; }
  }

  function WorkerName(op: Operation): string {
    match op
    case AptInstall(_) => "apt_install"
    case AptRemove(_) => "apt_remove"
    case AptUpdate => "apt_update"
    case AptUpgrade => "apt_upgrade"
    case _ => ""
  }

  function Requested(op: Operation): seq<string> {
    match op
    case AptInstall(packages) => packages
    case AptRemove(packages) => packages
    case _ => []
  }

  /** The operations the broker carries out itself, without the worker. */
  predicate Direct(op: Operation) { op.Service? || op.ProcessKill? }

  predicate IsTransaction(op: Operation) { op.AptInstall? || op.AptRemove? || op.AptUpgrade? }

  predicate IsSha256(text: string) {
    |text| == 64 && forall c :: c in text ==> '0' <= c <= '9' || 'a' <= c <= 'f'
  }

  predicate InLifetime(plan: CanonicalPlan, now: nat) { plan.issuedAt <= now < plan.expiresAt }

  // ----- the plan store

  function Unexpired(plans: Store, now: nat): Store {
    map id | id in plans && now < plans[id].plan.expiresAt :: plans[id]
  }

  function OwnedBy(plans: Store, name: string): set<string> {
    set id | id in plans && plans[id].plan.caller.uniqueName == name
  }

  function NewPlan(d: Digests, caller: Caller, op: Operation, state: Snapshot, now: nat, nonce: string): CanonicalPlan {
    CanonicalPlan(nonce, caller, ActionId(op), op, d.operation(op), state, now, now + PLAN_LIFETIME_SECONDS)
  }

  function StorePrepare(
    d: Digests, plans: Store, caller: Caller, op: Operation, state: Snapshot, now: nat, nonce: string)
    : (Store, Result<Prepared, string>)
  {
    if !Valid(op) then (plans, Err("invalid_operation"))
    else
      var kept := Unexpired(plans, now);
      if |kept| >= MAX_PLANS || |OwnedBy(kept, caller.uniqueName)| >= MAX_PLANS_PER_NAME then
        (kept, Err("too_many_pending_plans"))
      else if now + PLAN_LIFETIME_SECONDS > U64_MAX then (kept, Err("invalid_time"))
      else
        var plan := NewPlan(d, caller, op, state, now, nonce);
        var prepared := Prepared(plan, d.plan(plan));
        (kept[nonce := prepared], Ok(prepared))
  }

  function StoreConsume(plans: Store, id: string, digest: string, caller: Caller, now: nat)
    : (Store, Result<CanonicalPlan, string>)
  {
    if |id| != 64 || |digest| != 64 then (plans, Err("invalid_plan_reference"))
    else if id !in plans then (plans, Err("unknown_or_used_plan"))
    else if plans[id].plan.caller != caller then (plans, Err("caller_changed"))
    else if !InLifetime(plans[id].plan, now) then (plans - {id}, Err("plan_expired"))
    else if plans[id].digest != digest then (plans - {id}, Err("plan_digest_changed"))
    else (plans - {id}, Ok(plans[id].plan))
  }

  function Revalidate(d: Digests, plan: CanonicalPlan, caller: Caller, state: Snapshot, now: nat): Result<(), string> {
    if plan.caller != caller then Err("caller_changed")
    else if !InLifetime(plan, now) then Err("plan_expired")
    else if plan.state != state then Err("state_changed_prepare_again")
    else if plan.actionId != ActionId(plan.operation) || plan.argumentDigest != d.operation(plan.operation) then
      Err("plan_changed")
    else if !Valid(plan.operation) then Err("invalid_operation")
    else Ok(())
  }

  /** At most 256 plans in all and 8 for one bus name. */
  ghost predicate WithinLimits(plans: Store) {
    |plans| <= MAX_PLANS && forall name :: |OwnedBy(plans, name)| <= MAX_PLANS_PER_NAME
  }

  lemma FewerStayWithin(plans: Store, fewer: Store)
    requires WithinLimits(plans) && fewer.Keys <= plans.Keys
    requires forall id :: id in fewer ==> fewer[id] == plans[id]
    ensures WithinLimits(fewer)
  {
    SubsetSize(fewer.Keys, plans.Keys);
    forall name ensures |OwnedBy(fewer, name)| <= MAX_PLANS_PER_NAME {
      SubsetSize(OwnedBy(fewer, name), OwnedBy(plans, name));
    }
  }

  lemma SubsetSize<T>(a: set<T>, b: set<T>)
    requires a <= b
    ensures |a| <= |b|
  {
    assert b == a + (b - a);
  }

  lemma OwnersAfter(plans: Store, id: string, prepared: Prepared, name: string)
    requires |OwnedBy(plans, name)| <= MAX_PLANS_PER_NAME
    requires name == prepared.plan.caller.uniqueName ==> |OwnedBy(plans, name)| < MAX_PLANS_PER_NAME
    ensures |OwnedBy(plans[id := prepared], name)| <= MAX_PLANS_PER_NAME
  {
    var before, after := OwnedBy(plans, name), OwnedBy(plans[id := prepared], name);
    if name == prepared.plan.caller.uniqueName {
      assert after == before + {id};
    } else {
      SubsetSize(after, before);
    }
  }

  lemma OneMoreStaysWithin(plans: Store, id: string, prepared: Prepared)
    requires WithinLimits(plans) && |plans| < MAX_PLANS
    requires |OwnedBy(plans, prepared.plan.caller.uniqueName)| < MAX_PLANS_PER_NAME
    ensures WithinLimits(plans[id := prepared])
  {
    var after := plans[id := prepared];
    assert after.Keys == plans.Keys + {id};
    assert |after| <= MAX_PLANS;
    hide OwnedBy;
    forall name ensures |OwnedBy(after, name)| <= MAX_PLANS_PER_NAME {
      OwnersAfter(plans, id, prepared, name);
    }
  }

  lemma PrepareKeepsLimits(
    d: Digests, plans: Store, caller: Caller, op: Operation, state: Snapshot, now: nat, nonce: string)
    requires WithinLimits(plans)
    ensures WithinLimits(StorePrepare(d, plans, caller, op, state, now, nonce).0)
  {
    hide Valid, ActionId, OwnedBy;
    FewerStayWithin(plans, Unexpired(plans, now));
    var result := StorePrepare(d, plans, caller, op, state, now, nonce).1;
    if result.Ok? { OneMoreStaysWithin(Unexpired(plans, now), nonce, result.value); }
  }

  /** The plans not yet expired, and those of them that are a bus name's. */
  function Left(plans: Store, now: nat): set<string> {
    set id | id in plans && now < plans[id].plan.expiresAt
  }

  function LeftFor(plans: Store, now: nat, name: string): set<string> {
    set id | id in plans && now < plans[id].plan.expiresAt && plans[id].plan.caller.uniqueName == name
  }

  lemma Swept(plans: Store, now: nat, name: string)
    ensures Unexpired(plans, now).Keys == Left(plans, now) && |Unexpired(plans, now)| == |Left(plans, now)|
    ensures OwnedBy(Unexpired(plans, now), name) == LeftFor(plans, now, name)
  {
    var kept := Unexpired(plans, now);
    assert kept.Keys == Left(plans, now);
    assert |kept| == |kept.Keys|;
  }

  /** Preparing a valid request sweeps exactly the expired plans, and is refused exactly when too many are left in
      all or for the caller's name, or the time is too large. */
  lemma PrepareSweeps(d: Digests, plans: Store, caller: Caller, op: Operation, state: Snapshot, now: nat, nonce: string)
    requires Valid(op)
    ensures var (after, result) := StorePrepare(d, plans, caller, op, state, now, nonce);
      && (forall id :: id in Left(plans, now) && (id != nonce || result.Err?) ==> id in after && after[id] == plans[id])
      && after.Keys == (if result.Ok? then Left(plans, now) + {nonce} else Left(plans, now))
      && (result.Err? <==>
          || |Left(plans, now)| >= 256 || |LeftFor(plans, now, caller.uniqueName)| >= 8
          || now + 120 >= 0x1_0000_0000_0000_0000)
  {
    hide Valid, ActionId, NewPlan, OwnedBy, LeftFor;
    Swept(plans, now, caller.uniqueName);
  }

  class PlanStore {
    var plans: Store

    constructor ()
      ensures plans == map[] && WithinLimits(plans)
    {
      plans := map[];
    }

    /** `nonce` is the hexadecimal text of 32 random bytes, or nothing if the kernel has none. */
    method Prepare(d: Digests, caller: Caller, op: Operation, state: Snapshot, now: nat, nonce: Option<string>)
      returns (r: Result<Prepared, string>)
      requires WithinLimits(plans)
      modifies this
      ensures WithinLimits(plans)
      ensures nonce.Some? ==> (plans, r) == StorePrepare(d, old(plans), caller, op, state, now, nonce.value)
      ensures nonce.None? ==> r.Err? && forall id :: id in plans ==> id in old(plans) && plans[id] == old(plans)[id]
    {
      hide Valid, ActionId, OwnedBy, WithinLimits;
      FewerStayWithin(plans, Unexpired(plans, now));
      if nonce.Some? { PrepareKeepsLimits(d, plans, caller, op, state, now, nonce.value); }
      if !Valid(op) { return Err("invalid_operation"); }
      plans := map id | id in plans && now < plans[id].plan.expiresAt :: plans[id];
      if |plans| >= MAX_PLANS || |OwnedBy(plans, caller.uniqueName)| >= MAX_PLANS_PER_NAME {
        return Err("too_many_pending_plans");
      }
      if nonce.None? { return Err("entropy_unavailable"); }
      if now + PLAN_LIFETIME_SECONDS > U64_MAX { return Err("invalid_time"); }
      var plan := NewPlan(d, caller, op, state, now, nonce.value);
      var prepared := Prepared(plan, d.plan(plan));
      plans := plans[plan.id := prepared];
      r := Ok(prepared);
    }

    method Consume(id: string, digest: string, caller: Caller, now: nat) returns (r: Result<CanonicalPlan, string>)
      requires WithinLimits(plans)
      modifies this
      ensures WithinLimits(plans)
      ensures (plans, r) == StoreConsume(old(plans), id, digest, caller, now)
    {
      FewerStayWithin(plans, plans - {id});
      if |id| != 64 || |digest| != 64 { return Err("invalid_plan_reference"); }
      if id !in plans { return Err("unknown_or_used_plan"); }
      var prepared := plans[id];
      if prepared.plan.caller != caller { return Err("caller_changed"); }
      plans := plans - {id};
      if now < prepared.plan.issuedAt || now >= prepared.plan.expiresAt { return Err("plan_expired"); }
      if prepared.digest != digest { return Err("plan_digest_changed"); }
      r := Ok(prepared.plan);
    }
  }

  // ----- the worker's request

  datatype WorkerApproval = WorkerApproval(
    planDigest: string, authorizationId: string, expiresAt: nat,
    allowSourceChange: bool, allowEssentialRemoval: bool, allowHeldChange: bool)

  function AptRequest(plan: CanonicalPlan): Result<WorkerApproval, string> {
    if !Valid(plan.operation) then Err("invalid_operation")
    else if !plan.state.Apt? || !IsSha256(plan.state.digest) then Err("invalid_worker_plan")
    else Ok(WorkerApproval(plan.state.digest, plan.id, plan.expiresAt, false, false, false))
  }

  /** The worker's tests after its first locked resolution. */
  predicate PassesGuards(d: Digests, plan: AptPlan.Plan, approval: WorkerApproval) {
    && d.worker(Transaction(plan)) == approval.planDigest
    && (plan.sourceChanges == [] || approval.allowSourceChange)
    && (plan.essentialRemovals == [] || approval.allowEssentialRemoval)
    && (plan.heldChanges == [] || approval.allowHeldChange)
  }

  // ----- the protocol as a state machine

  /** How far the request that holds the operation lock has come. */
  datatype Stage =
    | Idle
    | PrepareLocked(caller: Caller, operation: Operation)
    | PrepareSeen(caller: Caller, operation: Operation, state: Snapshot)
    | PrepareConfirmed(caller: Caller, operation: Operation, state: Snapshot)
    | ApplyLocked(caller: Caller, planId: string, digest: string)
    | Consumed(caller: Caller, plan: CanonicalPlan)
    | SeenBefore(caller: Caller, plan: CanonicalPlan, before: Snapshot)
    | AwaitingGrant(caller: Caller, plan: CanonicalPlan)
    | Granted(plan: CanonicalPlan)
    | Reidentified(current: Caller, plan: CanonicalPlan)
    | SeenAfter(current: Caller, plan: CanonicalPlan, after: Snapshot)
    | Executing(plan: CanonicalPlan)
    | Rechecked(plan: CanonicalPlan, seen: Snapshot)
    | WorkerStarted(plan: CanonicalPlan, approval: WorkerApproval)
    | WorkerApproved(plan: CanonicalPlan, approval: WorkerApproval, at: nat)
    | WorkerResolved(plan: CanonicalPlan, approval: WorkerApproval, first: AptPlan.Plan, at: nat)
    | WorkerSources(plan: CanonicalPlan, approval: WorkerApproval, manifest: seq<string>)
    | WorkerLocked(plan: CanonicalPlan, manifest: seq<string>, at: nat)

  /** What reached the host. A commit records the resolution that ran and the one before it that the
      guards looked at; a refresh records the manifest that was digested and the manifest of the source
      list that was then read. */
  datatype Effect =
    | RanSystemctl(action: ServiceAction, unit: string, seen: Snapshot)
    | Signalled(pid: nat, seen: Snapshot)
    | Committed(cache: AptPlan.DepCache, plan: AptPlan.Plan, first: AptPlan.Plan)
    | Refreshed(manifest: seq<string>, sources: seq<string>)

  /** `checked` is the time of the last expiry test before the effect, `at` the time of the effect. */
  datatype Event =
    | PlanStored(id: string, plan: CanonicalPlan)
    | PlanConsumed(id: string, who: Caller, digest: string, at: nat)
    | CheckedBefore(id: string, who: Caller, seen: Snapshot, at: nat)
    | ActionGranted(id: string, actionId: string)
    | CheckedAfter(id: string, who: Caller, seen: Snapshot, at: nat)
    | Executed(id: string, effect: Effect, checked: nat, at: nat)

  datatype System = System(plans: Store, stage: Stage, issued: set<string>, log: seq<Event>)

  /** A step, with the answer the outside gave. `Abandon` stands for every failing call. */
  datatype Action =
    | StartPrepare(caller: Caller, operation: Operation)
    | StartApply(caller: Caller, planId: string, digest: string)
    | See(seen: Snapshot)
    | Identify(caller: Caller)
    | StorePlan(now: nat, nonce: string)
    | Tick(now: nat)
    | Authorize(granted: bool)
    | Resolve(cache: AptPlan.DepCache, plan: AptPlan.Plan, now: nat)
    | ReadSources(manifest: seq<string>)
    | ReadMainList(sources: seq<string>, now: nat)
    | Abandon

  /** `seen` is an answer `executor::snapshot` may give for `op`. */
  ghost predicate Observable(d: Digests, op: Operation, seen: Snapshot) {
    match op
    case Service(_, _) => seen.ServiceState?
    case ProcessKill(pid) => seen.Process? && seen.process.pid == pid
    case AptUpdate => seen.Apt? && seen.worker.Update? && seen.digest == d.worker(seen.worker) && IsSha256(seen.digest)
    case _ =>
      && seen.Apt? && seen.worker.Transaction? && seen.digest == d.worker(seen.worker) && IsSha256(seen.digest)
      && exists cache :: AptPlan.IsPlanOf(WorkerName(op), Requested(op), cache, seen.worker.plan)
  }

  function Release(s: System): System { s.(stage := Idle) }

  function Finish(s: System, event: Event): System { s.(stage := Idle, log := s.log + [event]) }

  ghost function OnSee(d: Digests, s: System, seen: Snapshot): System {
    match s.stage
    case PrepareLocked(caller, op) =>
      if Observable(d, op, seen) then s.(stage := PrepareSeen(caller, op, seen)) else s
    case Consumed(caller, plan) =>
      if Observable(d, plan.operation, seen) then s.(stage := SeenBefore(caller, plan, seen)) else s
    case Reidentified(current, plan) =>
      if Observable(d, plan.operation, seen) then s.(stage := SeenAfter(current, plan, seen)) else s
    case Executing(plan) =>
      if !Observable(d, plan.operation, seen) || !(plan.operation.Service? || plan.operation.ProcessKill?) then s
      else if seen == plan.state then s.(stage := Rechecked(plan, seen))
      else Release(s)
    case _ => s
  }

  function OnIdentify(s: System, caller: Caller): System {
    match s.stage
    case PrepareSeen(first, op, state) =>
      if caller == first then s.(stage := PrepareConfirmed(first, op, state)) else Release(s)
    case Granted(plan) => s.(stage := Reidentified(caller, plan))
    case _ => s
  }

  function OnStorePlan(d: Digests, s: System, now: nat, nonce: string): System {
    match s.stage
    case PrepareConfirmed(caller, op, state) =>
      if nonce in s.issued then s
      else
        var (plans, result) := StorePrepare(d, s.plans, caller, op, state, now, nonce);
        if result.Ok? then
          System(plans, Idle, s.issued + {nonce}, s.log + [PlanStored(nonce, result.value.plan)])
        else s.(plans := plans, stage := Idle)
    case _ => s
  }

  function OnConsume(s: System, now: nat): System
    requires s.stage.ApplyLocked?
  {
    var ApplyLocked(caller, id, digest) := s.stage;
    var (plans, result) := StoreConsume(s.plans, id, digest, caller, now);
    if result.Ok? then
      var event := PlanConsumed(result.value.id, caller, digest, now);
      System(plans, Consumed(caller, result.value), s.issued, s.log + [event])
    else s.(plans := plans, stage := Idle)
  }

  function OnCheck(d: Digests, s: System, now: nat): System
    requires s.stage.SeenBefore? || s.stage.SeenAfter?
  {
    match s.stage
    case SeenBefore(caller, plan, before) =>
      if Revalidate(d, plan, caller, before, now).Ok? then
        s.(stage := AwaitingGrant(caller, plan), log := s.log + [CheckedBefore(plan.id, caller, before, now)])
      else Release(s)
    case SeenAfter(current, plan, after) =>
      if Revalidate(d, plan, current, after, now).Ok? then
        s.(stage := Executing(plan), log := s.log + [CheckedAfter(plan.id, current, after, now)])
      else Release(s)
  }

  /** The last expiry check before systemctl or the signal. */
  function OnLastCheck(s: System, now: nat): System
    requires s.stage.Rechecked?
  {
    var Rechecked(plan, seen) := s.stage;
    if !InLifetime(plan, now) then Release(s)
    else if plan.operation.Service? then
      Finish(s, Executed(plan.id, RanSystemctl(plan.operation.action, plan.operation.unit, seen), now, now))
    else if plan.operation.ProcessKill? then
      Finish(s, Executed(plan.id, Signalled(plan.operation.pid, seen), now, now))
    else Release(s)
  }

  function OnTick(d: Digests, s: System, now: nat): System {
    match s.stage
    case ApplyLocked(_, _, _) => OnConsume(s, now)
    case SeenBefore(_, _, _) => OnCheck(d, s, now)
    case SeenAfter(_, _, _) => OnCheck(d, s, now)
    case Rechecked(_, _) => OnLastCheck(s, now)
    case Executing(plan) =>
      if plan.operation.Service? || plan.operation.ProcessKill? then s
      else if InLifetime(plan, now) && AptRequest(plan).Ok? then
        s.(stage := WorkerStarted(plan, AptRequest(plan).value))
      else Release(s)
    case WorkerStarted(plan, approval) =>
      if !IsTransaction(plan.operation) then s
      else if now < approval.expiresAt then s.(stage := WorkerApproved(plan, approval, now))
      else Release(s)
    case WorkerSources(plan, approval, manifest) =>
      if now < approval.expiresAt && d.worker(Update(manifest)) == approval.planDigest then
        s.(stage := WorkerLocked(plan, manifest, now))
      else Release(s)
    case _ => s
  }

  function OnAuthorize(s: System, granted: bool): System {
    match s.stage
    case AwaitingGrant(_, plan) =>
      if granted then s.(stage := Granted(plan), log := s.log + [ActionGranted(plan.id, plan.actionId)])
      else Release(s)
    case _ => s
  }

  /** The worker reads no clock after the approval, so a resolution only says when it happens. */
  ghost function OnResolve(d: Digests, s: System, cache: AptPlan.DepCache, plan: AptPlan.Plan, now: nat): System {
    match s.stage
    case WorkerApproved(approved, approval, at) =>
      if !AptPlan.IsPlanOf(WorkerName(approved.operation), Requested(approved.operation), cache, plan) then s
      else if PassesGuards(d, plan, approval) then s.(stage := WorkerResolved(approved, approval, plan, at))
      else Release(s)
    case WorkerResolved(approved, approval, first, at) =>
      if !AptPlan.IsPlanOf(WorkerName(approved.operation), Requested(approved.operation), cache, plan) then s
      else if d.worker(Transaction(plan)) == approval.planDigest then
        Finish(s, Executed(approved.id, Committed(cache, plan, first), at, now))
      else Release(s)
    case _ => s
  }

  function OnReadSources(s: System, manifest: seq<string>): System {
    match s.stage
    case WorkerStarted(plan, approval) =>
      if plan.operation.AptUpdate? then s.(stage := WorkerSources(plan, approval, manifest)) else s
    case _ => s
  }

  /** Under the package system's lock the worker reads the source list afresh and refreshes that. */
  function OnReadMainList(s: System, sources: seq<string>, now: nat): System {
    match s.stage
    case WorkerLocked(plan, manifest, at) => Finish(s, Executed(plan.id, Refreshed(manifest, sources), at, now))
    case _ => s
  }

  /** One step. A step that does not fit the current stage, a request that finds the lock taken, and
      an identifier that was used before all change nothing. */
  ghost function Next(d: Digests, s: System, a: Action): System {
    match a
    case StartPrepare(caller, op) =>
      if s.stage.Idle? && Valid(op) then s.(stage := PrepareLocked(caller, op)) else s
    case StartApply(caller, id, digest) =>
      if s.stage.Idle? then s.(stage := ApplyLocked(caller, id, digest)) else s
    case See(seen) => OnSee(d, s, seen)
    case Identify(caller) => OnIdentify(s, caller)
    case StorePlan(now, nonce) => OnStorePlan(d, s, now, nonce)
    case Tick(now) => OnTick(d, s, now)
    case Authorize(granted) => OnAuthorize(s, granted)
    case Resolve(cache, plan, now) => OnResolve(d, s, cache, plan, now)
    case ReadSources(manifest) => OnReadSources(s, manifest)
    case ReadMainList(sources, now) => OnReadMainList(s, sources, now)
    case Abandon => Release(s)
  }

  const INITIAL := System(map[], Idle, {}, [])

  ghost function Run(d: Digests, actions: seq<Action>): System {
    if actions == [] then INITIAL else Next(d, Run(d, actions[..|actions| - 1]), actions[|actions| - 1])
  }

  // ----- what every run keeps

  /** The events of one plan identifier, in order. */
  function History(log: seq<Event>, id: string): seq<Event> {
    if log == [] then []
    else
      var before := History(log[..|log| - 1], id);
      if log[|log| - 1].id == id then before + [log[|log| - 1]] else before
  }

  lemma HistorySnoc(log: seq<Event>, e: Event, id: string)
    ensures History(log + [e], id) == if e.id == id then History(log, id) + [e] else History(log, id)
  {
    assert (log + [e])[..|log|] == log;
  }

  ghost predicate WellFormed(d: Digests, p: CanonicalPlan) {
    && Valid(p.operation) && p.actionId == ActionId(p.operation) && p.argumentDigest == d.operation(p.operation)
    && p.expiresAt == p.issuedAt + PLAN_LIFETIME_SECONDS && Observable(d, p.operation, p.state)
  }

  /** The effect is the one the plan describes, on the state the plan describes. */
  ghost predicate EffectFits(d: Digests, p: CanonicalPlan, effect: Effect) {
    match p.operation
    case Service(action, unit) => effect == RanSystemctl(action, unit, p.state)
    case ProcessKill(pid) => effect == Signalled(pid, p.state)
    case AptUpdate =>
      effect.Refreshed? && p.state.Apt? && d.worker(Update(effect.manifest)) == p.state.digest
    case _ =>
      && effect.Committed? && p.state.Apt?
      && AptPlan.IsPlanOf(WorkerName(p.operation), Requested(p.operation), effect.cache, effect.plan)
      && d.worker(Transaction(effect.plan)) == p.state.digest == d.worker(Transaction(effect.first))
      && effect.first.sourceChanges == [] && effect.first.essentialRemovals == [] && effect.first.heldChanges == []
  }

  /** A plan's history is a beginning of one fixed script: stored, consumed by its own caller,
      checked, granted, checked again, executed. Each check saw the stored state, inside the plan's
      lifetime, with the stored caller. */
  ghost predicate FollowsScript(d: Digests, id: string, h: seq<Event>) {
    && |h| <= 6
    && (|h| > 0 ==> h[0].PlanStored? && h[0].id == h[0].plan.id == id && WellFormed(d, h[0].plan))
    && (|h| > 1 ==> h[1].PlanConsumed? && h[1].who == h[0].plan.caller && h[1].digest == d.plan(h[0].plan)
                    && InLifetime(h[0].plan, h[1].at))
    && (|h| > 2 ==> h[2].CheckedBefore? && h[2].who == h[0].plan.caller
                    && h[2].seen == h[0].plan.state && InLifetime(h[0].plan, h[2].at))
    && (|h| > 3 ==> h[3].ActionGranted? && h[3].actionId == ActionId(h[0].plan.operation))
    && (|h| > 4 ==> h[4].CheckedAfter? && h[4].who == h[0].plan.caller
                    && h[4].seen == h[0].plan.state && InLifetime(h[0].plan, h[4].at))
    && (|h| > 5 ==> h[5].Executed? && h[5].checked < h[0].plan.expiresAt && EffectFits(d, h[0].plan, h[5].effect)
                    && (Direct(h[0].plan.operation) ==> h[5].at == h[5].checked && InLifetime(h[0].plan, h[5].at)))
  }

  /** The plan the lock holder took out of the store, if it has got that far. */
  function Holding(stage: Stage): Option<CanonicalPlan> {
    match stage
    case Consumed(_, plan) => Some(plan)
    case SeenBefore(_, plan, _) => Some(plan)
    case AwaitingGrant(_, plan) => Some(plan)
    case Granted(plan) => Some(plan)
    case Reidentified(_, plan) => Some(plan)
    case SeenAfter(_, plan, _) => Some(plan)
    case Executing(plan) => Some(plan)
    case Rechecked(plan, _) => Some(plan)
    case WorkerStarted(plan, _) => Some(plan)
    case WorkerApproved(plan, _, _) => Some(plan)
    case WorkerResolved(plan, _, _, _) => Some(plan)
    case WorkerSources(plan, _, _) => Some(plan)
    case WorkerLocked(plan, _, _) => Some(plan)
    case _ => None
  }

  /** How many events of its script the plan in hand has behind it. */
  function Depth(stage: Stage): (n: nat)
    ensures 2 <= n <= 5
  {
    match stage
    case Consumed(_, _) => 2
    case SeenBefore(_, _, _) => 2
    case AwaitingGrant(_, _) => 3
    case Granted(_) => 4
    case Reidentified(_, _) => 4
    case SeenAfter(_, _, _) => 4
    case _ => 5
  }

  /** What the stage itself has established. */
  ghost predicate StageFits(d: Digests, stage: Stage) {
    match stage
    case PrepareLocked(_, op) => Valid(op)
    case PrepareSeen(_, op, state) => Valid(op) && Observable(d, op, state)
    case PrepareConfirmed(_, op, state) => Valid(op) && Observable(d, op, state)
    case Consumed(caller, plan) => caller == plan.caller
    case SeenBefore(caller, plan, _) => caller == plan.caller
    case Rechecked(plan, seen) => seen == plan.state
    case WorkerStarted(plan, approval) => AptRequest(plan) == Ok(approval)
    case WorkerApproved(plan, approval, at) =>
      AptRequest(plan) == Ok(approval) && at < plan.expiresAt && IsTransaction(plan.operation)
    case WorkerResolved(plan, approval, first, at) =>
      AptRequest(plan) == Ok(approval) && at < plan.expiresAt && IsTransaction(plan.operation)
        && PassesGuards(d, first, approval)
    case WorkerSources(plan, approval, _) => AptRequest(plan) == Ok(approval) && plan.operation.AptUpdate?
    case WorkerLocked(plan, manifest, at) =>
      && plan.operation.AptUpdate? && plan.state.Apt?
      && d.worker(Update(manifest)) == plan.state.digest && at < plan.expiresAt
    case _ => true
  }

  ghost predicate StoreFits(d: Digests, s: System) {
    forall id :: id in s.plans ==>
      && id in s.issued && s.plans[id].plan.id == id && WellFormed(d, s.plans[id].plan)
      && s.plans[id].digest == d.plan(s.plans[id].plan)
      && History(s.log, id) == [PlanStored(id, s.plans[id].plan)]
  }

  ghost predicate HeldFits(d: Digests, s: System) {
    var held := Holding(s.stage);
    held.Some? ==>
      && held.value.id in s.issued && held.value.id !in s.plans
      && |History(s.log, held.value.id)| == Depth(s.stage)
      && History(s.log, held.value.id)[0] == PlanStored(held.value.id, held.value)
  }

  ghost predicate Inv(d: Digests, s: System) {
    && WithinLimits(s.plans) && StoreFits(d, s) && HeldFits(d, s) && StageFits(d, s.stage)
    && (forall id :: FollowsScript(d, id, History(s.log, id)))
    && (forall id :: id !in s.issued ==> History(s.log, id) == [])
  }

  // ----- the invariant is kept

  /** Adding one event touches the history of one identifier. */
  lemma HistoriesSnoc(log: seq<Event>, e: Event)
    ensures forall id :: History(log + [e], id) == if e.id == id then History(log, id) + [e] else History(log, id)
  {
    forall id { HistorySnoc(log, e, id); }
  }

  lemma QuietStep(d: Digests, s: System, t: System)
    requires Inv(d, s) && t.plans == s.plans && t.issued == s.issued && t.log == s.log && StageFits(d, t.stage)
    requires Holding(t.stage).None? || (Holding(t.stage) == Holding(s.stage) && Depth(t.stage) == Depth(s.stage))
    ensures Inv(d, t)
  {
  }

  lemma SeeKeeps(d: Digests, s: System, seen: Snapshot)
    requires Inv(d, s)
    ensures Inv(d, OnSee(d, s, seen))
  {
    hide Valid, ActionId, WorkerName, Requested, IsSha256, WithinLimits, WellFormed, FollowsScript, History,
      Observable, StoreFits, HeldFits, AptRequest, PassesGuards;
    QuietStep(d, s, OnSee(d, s, seen));
  }

  lemma IdentifyKeeps(d: Digests, s: System, caller: Caller)
    requires Inv(d, s)
    ensures Inv(d, OnIdentify(s, caller))
  {
    hide Valid, ActionId, WorkerName, Requested, IsSha256, WithinLimits, WellFormed, FollowsScript, History,
      Observable, AptRequest, PassesGuards;
    QuietStep(d, s, OnIdentify(s, caller));
  }

  /** One event that fits the script of its plan leaves every history fitting. */
  lemma LogAdvances(d: Digests, s: System, e: Event)
    requires Inv(d, s) && FollowsScript(d, e.id, History(s.log, e.id) + [e])
    ensures forall id :: FollowsScript(d, id, History(s.log + [e], id))
  {
    hide FollowsScript, History, StoreFits, HeldFits, StageFits, WithinLimits;
    HistoriesSnoc(s.log, e);
  }

  lemma FirstEvent(d: Digests, plan: CanonicalPlan)
    requires WellFormed(d, plan)
    ensures FollowsScript(d, plan.id, [PlanStored(plan.id, plan)])
  {
    hide WellFormed, EffectFits;
  }

  lemma NewPlanFits(d: Digests, caller: Caller, op: Operation, state: Snapshot, now: nat, nonce: string)
    requires Valid(op) && Observable(d, op, state)
    ensures WellFormed(d, NewPlan(d, caller, op, state, now, nonce))
  {
    hide Valid, Observable, ActionId;
  }

  /** The store after a prepare: plans it already had, and perhaps the new one. */
  lemma PreparedPlans(d: Digests, plans: Store, caller: Caller, op: Operation, state: Snapshot, now: nat, nonce: string)
    ensures var (after, result) := StorePrepare(d, plans, caller, op, state, now, nonce);
      && (forall id :: id in after && (id != nonce || result.Err?) ==> id in plans && after[id] == plans[id])
      && (result.Ok? ==>
        && nonce in after && after[nonce] == result.value
        && result.value.plan == NewPlan(d, caller, op, state, now, nonce)
        && result.value.digest == d.plan(result.value.plan))
  {
    hide Valid, ActionId, OwnedBy, NewPlan;
  }

  lemma StorePlanKeeps(d: Digests, s: System, now: nat, nonce: string)
    requires Inv(d, s)
    ensures Inv(d, OnStorePlan(d, s, now, nonce))
  {
    hide Valid, ActionId, Observable, WithinLimits, History, FollowsScript, WellFormed, StorePrepare, NewPlan;
    if s.stage.PrepareConfirmed? && nonce !in s.issued {
      var PrepareConfirmed(caller, op, state) := s.stage;
      var plan := NewPlan(d, caller, op, state, now, nonce);
      PrepareKeepsLimits(d, s.plans, caller, op, state, now, nonce);
      PreparedPlans(d, s.plans, caller, op, state, now, nonce);
      NewPlanFits(d, caller, op, state, now, nonce);
      assert plan.id == nonce by { NewPlanNamed(d, caller, op, state, now, nonce); }
      FirstEvent(d, plan);
      assert History(s.log, nonce) + [PlanStored(nonce, plan)] == [PlanStored(nonce, plan)];
      LogAdvances(d, s, PlanStored(nonce, plan));
      HistoriesSnoc(s.log, PlanStored(nonce, plan));
    }
  }

  lemma NewPlanNamed(d: Digests, caller: Caller, op: Operation, state: Snapshot, now: nat, nonce: string)
    ensures NewPlan(d, caller, op, state, now, nonce).id == nonce
  {
  }

  /** The plan in hand moves one event further along its script. */
  lemma HeldAdvances(d: Digests, s: System, e: Event, stage: Stage)
    requires Inv(d, s) && Holding(s.stage).Some? && e.id == Holding(s.stage).value.id
    requires FollowsScript(d, e.id, History(s.log, e.id) + [e]) && StageFits(d, stage)
    requires Holding(stage).None? || (Holding(stage) == Holding(s.stage) && Depth(stage) == Depth(s.stage) + 1)
    ensures Inv(d, s.(stage := stage, log := s.log + [e]))
  {
    hide FollowsScript, History, WellFormed, WithinLimits, StageFits, Holding, Depth;
    LogAdvances(d, s, e);
    HistoriesSnoc(s.log, e);
  }

  lemma SecondEvent(d: Digests, plan: CanonicalPlan, now: nat)
    requires FollowsScript(d, plan.id, [PlanStored(plan.id, plan)]) && InLifetime(plan, now)
    ensures FollowsScript(d, plan.id,
      [PlanStored(plan.id, plan), PlanConsumed(plan.id, plan.caller, d.plan(plan), now)])
  {
    hide WellFormed, EffectFits;
  }

  /** What a consume leaves in the store, and what it hands out. */
  lemma ConsumedPlan(plans: Store, id: string, digest: string, caller: Caller, now: nat)
    ensures var (after, result) := StoreConsume(plans, id, digest, caller, now);
      && (forall k :: k in after ==> k in plans && after[k] == plans[k])
      && (result.Ok? ==>
        && id in plans && id !in after && result.value == plans[id].plan && plans[id].digest == digest
        && result.value.caller == caller && InLifetime(result.value, now))
  {
  }

  /** Exactly when a plan is handed out, and exactly when it is gone: whoever prepared it can use it up with a
      late or wrong reference, and nobody else can. */
  lemma ConsumedIff(plans: Store, id: string, digest: string, caller: Caller, now: nat)
    ensures var (after, result) := StoreConsume(plans, id, digest, caller, now);
      var theirs := |id| == |digest| == 64 && id in plans && plans[id].plan.caller == caller;
      && (result.Ok? <==> theirs && InLifetime(plans[id].plan, now) && plans[id].digest == digest)
      && (result == Err("plan_expired") <==> theirs && !InLifetime(plans[id].plan, now))
      && (result == Err("plan_digest_changed") <==>
          theirs && InLifetime(plans[id].plan, now) && plans[id].digest != digest)
      && after == if theirs then plans - {id} else plans
  {
  }

  lemma ConsumeKeeps(d: Digests, s: System, now: nat)
    requires Inv(d, s) && s.stage.ApplyLocked?
    ensures Inv(d, OnConsume(s, now))
  {
    hide WellFormed, EffectFits, WithinLimits, History, FollowsScript, StoreConsume, InLifetime;
    var ApplyLocked(caller, id, digest) := s.stage;
    var (plans, result) := StoreConsume(s.plans, id, digest, caller, now);
    ConsumedPlan(s.plans, id, digest, caller, now);
    FewerStayWithin(s.plans, plans);
    if result.Ok? {
      var plan, e := result.value, PlanConsumed(id, caller, digest, now);
      assert FollowsScript(d, id, History(s.log, id));
      SecondEvent(d, plan, now);
      assert History(s.log, id) + [e] == [PlanStored(id, plan), e];
      LogAdvances(d, s, e);
      HistoriesSnoc(s.log, e);
    }
  }

  lemma CheckKeeps(d: Digests, s: System, now: nat)
    requires Inv(d, s) && (s.stage.SeenBefore? || s.stage.SeenAfter?)
    ensures Inv(d, OnCheck(d, s, now))
  {
    hide Valid, ActionId, Observable, WithinLimits, History, EffectFits;
    var t := OnCheck(d, s, now);
    if t.stage.Idle? {
      QuietStep(d, s, t);
    } else if s.stage.SeenBefore? {
      HeldAdvances(d, s, CheckedBefore(s.stage.plan.id, s.stage.caller, s.stage.before, now), t.stage);
    } else {
      HeldAdvances(d, s, CheckedAfter(s.stage.plan.id, s.stage.current, s.stage.after, now), t.stage);
    }
  }

  lemma LastCheckKeeps(d: Digests, s: System, now: nat)
    requires Inv(d, s) && s.stage.Rechecked?
    ensures Inv(d, OnLastCheck(s, now))
  {
    hide Valid, ActionId, Observable, WithinLimits, History, IsSha256;
    var t := OnLastCheck(s, now);
    if t == Release(s) {
      QuietStep(d, s, t);
    } else {
      HeldAdvances(d, s, t.log[|s.log|], Idle);
    }
  }

  lemma ExecutionStartKeeps(d: Digests, s: System, now: nat)
    requires Inv(d, s) && (s.stage.Executing? || s.stage.WorkerStarted? || s.stage.WorkerSources?)
    ensures Inv(d, OnTick(d, s, now))
  {
    hide Valid, Observable, WithinLimits, History, IsSha256, FollowsScript, StoreFits, HeldFits;
    QuietStep(d, s, OnTick(d, s, now));
  }

  lemma TickKeeps(d: Digests, s: System, now: nat)
    requires Inv(d, s)
    ensures Inv(d, OnTick(d, s, now))
  {
    hide OnConsume, OnCheck, OnLastCheck, Valid, Observable, WithinLimits, History, IsSha256, FollowsScript,
      StoreFits, HeldFits;
    match s.stage
    case ApplyLocked(_, _, _) => ConsumeKeeps(d, s, now);
    case SeenBefore(_, _, _) => CheckKeeps(d, s, now);
    case SeenAfter(_, _, _) => CheckKeeps(d, s, now);
    case Rechecked(_, _) => LastCheckKeeps(d, s, now);
    case WorkerSources(_, _, _) => ExecutionStartKeeps(d, s, now);
    case Executing(_) => ExecutionStartKeeps(d, s, now);
    case WorkerStarted(_, _) => ExecutionStartKeeps(d, s, now);
    case _ =>
  }

  lemma AuthorizeKeeps(d: Digests, s: System, granted: bool)
    requires Inv(d, s)
    ensures Inv(d, OnAuthorize(s, granted))
  {
    hide Valid, Observable, WithinLimits, History, EffectFits, ActionId, IsSha256, AptRequest, PassesGuards;
    var t := OnAuthorize(s, granted);
    if s.stage.AwaitingGrant? && granted {
      HeldAdvances(d, s, ActionGranted(s.stage.plan.id, s.stage.plan.actionId), t.stage);
    } else {
      QuietStep(d, s, t);
    }
  }

  lemma ResolveKeeps(d: Digests, s: System, cache: AptPlan.DepCache, plan: AptPlan.Plan, now: nat)
    requires Inv(d, s)
    ensures Inv(d, OnResolve(d, s, cache, plan, now))
  {
    hide Valid, Observable, WithinLimits, History, WorkerName, Requested, ActionId, IsSha256, AptPlan.IsPlanOf;
    var t := OnResolve(d, s, cache, plan, now);
    if t.log == s.log {
      QuietStep(d, s, t);
    } else {
      HeldAdvances(d, s, t.log[|s.log|], Idle);
    }
  }

  lemma ReadMainListKeeps(d: Digests, s: System, sources: seq<string>, now: nat)
    requires Inv(d, s)
    ensures Inv(d, OnReadMainList(s, sources, now))
  {
    hide Valid, Observable, WithinLimits, History, WorkerName, Requested, ActionId, IsSha256, AptPlan.IsPlanOf,
      AptRequest, PassesGuards;
    var t := OnReadMainList(s, sources, now);
    if t.log != s.log { HeldAdvances(d, s, t.log[|s.log|], Idle); }
  }

  predicate Quiet(a: Action) {
    a.StartPrepare? || a.StartApply? || a.ReadSources? || a.Abandon?
  }

  lemma QuietKeeps(d: Digests, s: System, a: Action)
    requires Inv(d, s) && Quiet(a)
    ensures Inv(d, Next(d, s, a))
  {
    hide Valid, Observable, WithinLimits, History, FollowsScript, StoreFits, HeldFits, AptRequest, PassesGuards,
      OnSee, OnIdentify, OnStorePlan, OnTick, OnAuthorize, OnResolve, OnReadMainList;
    QuietStep(d, s, Next(d, s, a));
  }

  lemma NextKeeps(d: Digests, s: System, a: Action)
    requires Inv(d, s)
    ensures Inv(d, Next(d, s, a))
  {
    hide Inv, OnSee, OnIdentify, OnStorePlan, OnTick, OnAuthorize, OnResolve, OnReadSources, OnReadMainList, Valid;
    match a
    case See(seen) => SeeKeeps(d, s, seen);
    case Identify(caller) => IdentifyKeeps(d, s, caller);
    case StorePlan(now, nonce) => StorePlanKeeps(d, s, now, nonce);
    case Tick(now) => TickKeeps(d, s, now);
    case Authorize(granted) => AuthorizeKeeps(d, s, granted);
    case Resolve(cache, plan, now) => ResolveKeeps(d, s, cache, plan, now);
    case ReadMainList(sources, now) => ReadMainListKeeps(d, s, sources, now);
    case _ => QuietKeeps(d, s, a);
  }

  lemma {:induction false} RunKeeps(d: Digests, actions: seq<Action>)
    ensures Inv(d, Run(d, actions))
  {
    if actions == [] {
      assert forall name :: OwnedBy(map[], name) == {};
    } else {
      RunKeeps(d, actions[..|actions| - 1]);
      NextKeeps(d, Run(d, actions[..|actions| - 1]), actions[|actions| - 1]);
    }
  }

  // ----- the theorems

  /** Over every run and for every identifier: the events of a plan are a beginning of the fixed
      script, so it is executed at most once, only after its own caller consumed it inside its
      lifetime, only after two checks around the grant saw the stored state and caller, and only
      after an expiry test passed. The store never exceeds its limits. */
  lemma EveryPlanFollowsScript(d: Digests, actions: seq<Action>, id: string)
    ensures FollowsScript(d, id, History(Run(d, actions).log, id))
    ensures WithinLimits(Run(d, actions).plans)
  {
    RunKeeps(d, actions);
  }

  ghost predicate PlansCollide(d: Digests, a: CanonicalPlan, b: CanonicalPlan) {
    a != b && d.plan(a) == d.plan(b)
  }

  /** Over every run: the plan that is executed is the one whose digest its caller presented at Apply. Any plan
      with that digest is this one, or two plans collide. */
  lemma ExecutedIsPresented(d: Digests, actions: seq<Action>, id: string, shown: CanonicalPlan)
    requires |History(Run(d, actions).log, id)| == 6 && History(Run(d, actions).log, id)[1].PlanConsumed?
    requires History(Run(d, actions).log, id)[1].digest == d.plan(shown)
    ensures var h := History(Run(d, actions).log, id);
      && h[0].PlanStored? && h[1].who == h[0].plan.caller
      && (shown == h[0].plan || PlansCollide(d, shown, h[0].plan))
  {
    hide Run, History, WellFormed, EffectFits;
    EveryPlanFollowsScript(d, actions, id);
  }

  /** Two different worker plans with one digest. */
  ghost predicate Collision(d: Digests, a: WorkerPlan, b: WorkerPlan) {
    a != b && d.worker(a) == d.worker(b)
  }

  /** Over every run, whatever the host does between any two steps: a package transaction that
      reaches libapt is the plan stored at Prepare, and no package it touches is guarded, although
      the guards are tested on the resolution before the one that runs. The only way out is a digest
      collision among the three plans the protocol compared. */
  lemma ExecutedTransactionIsApproved(d: Digests, actions: seq<Action>, id: string)
    returns (stored: CanonicalPlan, effect: Effect)
    requires |History(Run(d, actions).log, id)| == 6 && History(Run(d, actions).log, id)[0].PlanStored?
    requires IsTransaction(History(Run(d, actions).log, id)[0].plan.operation)
    ensures var h := History(Run(d, actions).log, id);
      h[0] == PlanStored(id, stored) && h[5].Executed? && h[5].effect == effect
    ensures stored.state.Apt? && stored.state.worker.Transaction? && effect.Committed?
    ensures
      || (&& effect.plan == stored.state.worker.plan
          && (forall i :: 0 <= i < |effect.cache.packages| ==> !AptPlan.Guarded(effect.cache.packages[i]))
          && (effect.plan.sourceDetectionComplete <==>
              forall i :: 0 <= i < |effect.cache.packages| ==> AptPlan.KeepsOrigins(effect.cache.packages[i])))
      || Collision(d, Transaction(effect.plan), stored.state.worker)
      || Collision(d, Transaction(effect.plan), Transaction(effect.first))
  {
    hide Run, History, Valid, ActionId, IsSha256, AptPlan.IsPlanOf, WorkerName, Requested;
    EveryPlanFollowsScript(d, actions, id);
    var h := History(Run(d, actions).log, id);
    stored, effect := h[0].plan, h[5].effect;
    if effect.plan == effect.first {
      AptPlan.GuardsEmptyIff(WorkerName(stored.operation), Requested(stored.operation), effect.cache, effect.plan);
      AptPlan.OriginsKeptIff(WorkerName(stored.operation), Requested(stored.operation), effect.cache, effect.plan);
    }
  }

  /** Over every run: the source list a refresh used is the one approved at Prepare exactly when it did
      not change after the worker digested it; or two manifests collide. */
  lemma RefreshApprovedIff(d: Digests, actions: seq<Action>, id: string) returns (stored: CanonicalPlan, effect: Effect)
    requires |History(Run(d, actions).log, id)| == 6 && History(Run(d, actions).log, id)[0].PlanStored?
    requires History(Run(d, actions).log, id)[0].plan.operation.AptUpdate?
    ensures var h := History(Run(d, actions).log, id);
      h[0] == PlanStored(id, stored) && h[5].Executed? && h[5].effect == effect
    ensures stored.state.Apt? && stored.state.worker.Update? && effect.Refreshed?
    ensures
      || (effect.sources == stored.state.worker.manifest <==> effect.sources == effect.manifest)
      || Collision(d, Update(effect.manifest), stored.state.worker)
  {
    hide Run, History, Valid, ActionId, IsSha256;
    EveryPlanFollowsScript(d, actions, id);
    var h := History(Run(d, actions).log, id);
    stored, effect := h[0].plan, h[5].effect;
  }

  lemma LogGrows(d: Digests, s: System, a: Action)
    ensures var log := Next(d, s, a).log;
      log == s.log || (|log| == |s.log| + 1 && log == s.log + [log[|s.log|]])
  {
    hide Valid, Observable, StorePrepare, StoreConsume, Revalidate, AptRequest, PassesGuards, AptPlan.IsPlanOf;
  }

  /** The step that executes, and the time it carries. */
  predicate Executes(a: Action, op: Operation, at: nat) {
    if Direct(op) then a == Tick(at)
    else if op.AptUpdate? then a.ReadMainList? && a.now == at
    else a.Resolve? && a.now == at
  }

  lemma ExecutesNow(d: Digests, s: System, a: Action, e: Event)
    requires Inv(d, s) && Next(d, s, a).log == s.log + [e] && e.Executed?
    ensures Holding(s.stage).Some? && Holding(s.stage).value.id == e.id
    ensures Executes(a, Holding(s.stage).value.operation, e.at)
  {
    hide Valid, Observable, WithinLimits, History, FollowsScript, StoreFits, HeldFits, AptRequest, PassesGuards,
      AptPlan.IsPlanOf, StorePrepare, StoreConsume, Revalidate, IsSha256, WorkerName, Requested;
    assert e == Next(d, s, a).log[|s.log|];
  }

  /** Over every run: which step executes a plan, and that its time is the one recorded. For systemctl and the
      signal that time is inside the lifetime, by the guard before them; for the worker it is that of the
      second resolution, or of the reading of the source list. */
  lemma {:induction false} ExecutedAt(d: Digests, actions: seq<Action>, id: string)
    returns (k: nat, stored: CanonicalPlan, e: Event)
    requires |History(Run(d, actions).log, id)| == 6
    ensures var h := History(Run(d, actions).log, id); h[0] == PlanStored(id, stored) && h[5] == e && e.Executed?
    ensures k < |actions| && Executes(actions[k], stored.operation, e.at)
    ensures |History(Run(d, actions[..k]).log, id)| == 5 && |History(Run(d, actions[..k + 1]).log, id)| == 6
    ensures Direct(stored.operation) ==> InLifetime(stored, e.at)
    decreases |actions|
  {
    hide Next, FollowsScript, Inv, History;
    assert |actions| > 0 by { assert Run(d, []).log == []; NoHistory(id); }
    var n := |actions| - 1;
    var init := actions[..n];
    if |History(Run(d, init).log, id)| == 6 {
      AlreadyExecuted(d, actions, id);
      k, stored, e := ExecutedAt(d, init, id);
      assert init[..k] == actions[..k] && init[..k + 1] == actions[..k + 1];
    } else {
      k := n;
      stored, e := ExecutedLast(d, actions, id);
      assert actions[..n + 1] == actions;
    }
  }

  lemma NoHistory(id: string)
    ensures History([], id) == []
  {
  }

  lemma AlreadyExecuted(d: Digests, actions: seq<Action>, id: string)
    requires actions != [] && |History(Run(d, actions[..|actions| - 1]).log, id)| == 6
    ensures History(Run(d, actions).log, id) == History(Run(d, actions[..|actions| - 1]).log, id)
  {
    hide Next, FollowsScript, Inv, History;
    var s, a := Run(d, actions[..|actions| - 1]), actions[|actions| - 1];
    EveryPlanFollowsScript(d, actions, id);
    FullScript(d, id, History(Run(d, actions).log, id));
    LogGrows(d, s, a);
    if Run(d, actions).log != s.log { HistorySnoc(s.log, Run(d, actions).log[|s.log|], id); }
  }

  lemma ExecutedLast(d: Digests, actions: seq<Action>, id: string) returns (stored: CanonicalPlan, e: Event)
    requires actions != [] && |History(Run(d, actions).log, id)| == 6
    requires |History(Run(d, actions[..|actions| - 1]).log, id)| != 6
    ensures var h := History(Run(d, actions).log, id); h[0] == PlanStored(id, stored) && h[5] == e && e.Executed?
    ensures |History(Run(d, actions[..|actions| - 1]).log, id)| == 5
    ensures Executes(actions[|actions| - 1], stored.operation, e.at)
    ensures Direct(stored.operation) ==> InLifetime(stored, e.at)
  {
    hide Next, FollowsScript, Inv, History, Holding;
    var s, a, h := Run(d, actions[..|actions| - 1]), actions[|actions| - 1], History(Run(d, actions).log, id);
    RunKeeps(d, actions[..|actions| - 1]);
    EveryPlanFollowsScript(d, actions, id);
    FullScript(d, id, h);
    LogGrows(d, s, a);
    stored, e := h[0].plan, Run(d, actions).log[|s.log|];
    HistorySnoc(s.log, e, id);
    ExecutesNow(d, s, a, e);
    HeldIsFirst(d, s, id);
  }

  lemma FullScript(d: Digests, id: string, h: seq<Event>)
    requires FollowsScript(d, id, h)
    ensures |h| <= 6
    ensures |h| == 6 ==> h[0].PlanStored? && h[0] == PlanStored(id, h[0].plan) && h[5].Executed?
    ensures |h| == 6 ==> (Direct(h[0].plan.operation) ==> InLifetime(h[0].plan, h[5].at))
  {
    hide WellFormed, EffectFits;
  }

  lemma HeldIsFirst(d: Digests, s: System, id: string)
    requires Inv(d, s) && Holding(s.stage).Some? && Holding(s.stage).value.id == id
    ensures History(s.log, id) != [] && History(s.log, id)[0] == PlanStored(id, Holding(s.stage).value)
  {
    hide History, FollowsScript, StageFits, StoreFits, WithinLimits;
  }

  /** A step changes or removes a stored plan only if the plan has expired at the time the step read,
      or the step is its own caller consuming it. */
  lemma OthersPlansUntouched(d: Digests, s: System, a: Action, id: string)
    requires Inv(d, s) && id in s.plans
    ensures
      || (id in Next(d, s, a).plans && Next(d, s, a).plans[id] == s.plans[id])
      || (a.StorePlan? && a.now >= s.plans[id].plan.expiresAt)
      || (a.Tick? && s.stage.ApplyLocked? && s.stage.planId == id && s.stage.caller == s.plans[id].plan.caller)
  {
    hide Valid, Observable, WithinLimits, History, WorkerName, Requested, FollowsScript, WellFormed, AptRequest,
      PassesGuards, IsSha256, HeldFits, StageFits, Revalidate;
  }

  // ----- the protocol does get there

  /** A run with one more action. */
  lemma Do(d: Digests, actions: seq<Action>, a: Action) returns (more: seq<Action>)
    ensures Run(d, more) == Next(d, Run(d, actions), a)
  {
    more := actions + [a];
    assert more[..|actions|] == actions;
  }

  /** The broker empty but for the request it is working on. */
  function Working(stage: Stage): System { System(map[], stage, {}, []) }

  lemma PrepareStarts(d: Digests, caller: Caller, op: Operation)
    requires Valid(op)
    ensures Next(d, INITIAL, StartPrepare(caller, op)) == Working(PrepareLocked(caller, op))
  {
    hide Valid, OnSee, OnIdentify, OnStorePlan, OnTick, OnAuthorize, OnResolve, OnReadSources, OnReadMainList;
  }

  lemma PrepareSees(d: Digests, caller: Caller, op: Operation, state: Snapshot)
    requires Observable(d, op, state)
    ensures Next(d, Working(PrepareLocked(caller, op)), See(state)) == Working(PrepareSeen(caller, op, state))
  {
    hide Valid, Observable, OnIdentify, OnStorePlan, OnTick, OnAuthorize, OnResolve, OnReadSources, OnReadMainList;
  }

  lemma PrepareConfirms(d: Digests, caller: Caller, op: Operation, state: Snapshot)
    ensures Next(d, Working(PrepareSeen(caller, op, state)), Identify(caller)) ==
      Working(PrepareConfirmed(caller, op, state))
  {
    hide Valid, Observable, OnSee, OnStorePlan, OnTick, OnAuthorize, OnResolve, OnReadSources, OnReadMainList;
  }

  lemma Prepares(d: Digests, caller: Caller, op: Operation, state: Snapshot, now: nat, nonce: string)
    returns (actions: seq<Action>)
    requires Valid(op) && Observable(d, op, state) && now + PLAN_LIFETIME_SECONDS <= U64_MAX
    ensures var plan := NewPlan(d, caller, op, state, now, nonce);
      Run(d, actions) == System(map[nonce := Prepared(plan, d.plan(plan))], Idle, {nonce}, [PlanStored(nonce, plan)])
  {
    assert Run(d, []) == INITIAL;
    hide Run, NewPlan, Valid, Observable, Next;
    PrepareStarts(d, caller, op);
    PrepareSees(d, caller, op, state);
    PrepareConfirms(d, caller, op, state);
    actions := Do(d, [], StartPrepare(caller, op));
    actions := Do(d, actions, See(state));
    actions := Do(d, actions, Identify(caller));
    actions := PreparedFrom(d, actions, caller, op, state, now, nonce);
  }

  lemma PreparedFrom(
    d: Digests, before: seq<Action>, caller: Caller, op: Operation, state: Snapshot, now: nat, nonce: string)
    returns (actions: seq<Action>)
    requires Run(d, before) == Working(PrepareConfirmed(caller, op, state))
    requires Valid(op) && now + PLAN_LIFETIME_SECONDS <= U64_MAX
    ensures var plan := NewPlan(d, caller, op, state, now, nonce);
      Run(d, actions) == System(map[nonce := Prepared(plan, d.plan(plan))], Idle, {nonce}, [PlanStored(nonce, plan)])
  {
    hide Run, StorePrepare, NewPlan, Valid, OnSee, OnIdentify, OnTick, OnAuthorize, OnResolve, OnReadSources,
      OnReadMainList;
    EmptyStorePrepares(d, caller, op, state, now, nonce);
    actions := Do(d, before, StorePlan(now, nonce));
  }

  lemma EmptyStorePrepares(d: Digests, caller: Caller, op: Operation, state: Snapshot, now: nat, nonce: string)
    requires Valid(op) && now + PLAN_LIFETIME_SECONDS <= U64_MAX
    ensures var plan := NewPlan(d, caller, op, state, now, nonce); var prepared := Prepared(plan, d.plan(plan));
      StorePrepare(d, map[], caller, op, state, now, nonce) == (map[nonce := prepared], Ok(prepared))
  {
    hide Valid, NewPlan;
    assert Unexpired(map[], now) == map[] && OwnedBy(map[], caller.uniqueName) == {};
  }

  lemma ReachesGrant(d: Digests, before: seq<Action>, plan: CanonicalPlan, now: nat) returns (actions: seq<Action>)
    requires Run(d, before) ==
      System(map[plan.id := Prepared(plan, d.plan(plan))], Idle, {plan.id}, [PlanStored(plan.id, plan)])
    requires |plan.id| == |d.plan(plan)| == 64 && InLifetime(plan, now)
    requires Valid(plan.operation) && Observable(d, plan.operation, plan.state)
    requires plan.actionId == ActionId(plan.operation) && plan.argumentDigest == d.operation(plan.operation)
    ensures Run(d, actions).stage == AwaitingGrant(plan.caller, plan)
    ensures |Run(d, actions).log| == 3 && Run(d, actions).log[0] == PlanStored(plan.id, plan)
  {
    hide Run, ActionId, Valid, Observable;
    actions := Do(d, before, StartApply(plan.caller, plan.id, d.plan(plan)));
    actions := Do(d, actions, Tick(now));
    assert Run(d, actions).stage == Consumed(plan.caller, plan);
    actions := Do(d, actions, See(plan.state));
    actions := Do(d, actions, Tick(now));
  }

  lemma ReachesExecution(d: Digests, before: seq<Action>, plan: CanonicalPlan, now: nat) returns (actions: seq<Action>)
    requires Run(d, before).stage == AwaitingGrant(plan.caller, plan)
    requires |Run(d, before).log| == 3 && Run(d, before).log[0] == PlanStored(plan.id, plan) && InLifetime(plan, now)
    requires Valid(plan.operation) && Observable(d, plan.operation, plan.state)
    requires plan.actionId == ActionId(plan.operation) && plan.argumentDigest == d.operation(plan.operation)
    ensures Run(d, actions).stage == Executing(plan)
    ensures |Run(d, actions).log| == 5 && Run(d, actions).log[0] == PlanStored(plan.id, plan)
  {
    hide Run, ActionId, Valid, Observable;
    actions := Do(d, before, Authorize(true));
    actions := Do(d, actions, Identify(plan.caller));
    actions := Do(d, actions, See(plan.state));
    assert Run(d, actions).stage == SeenAfter(plan.caller, plan, plan.state);
    actions := Do(d, actions, Tick(now));
  }

  /** Every prepared request can be taken as far as its execution. */
  lemma CanExecute(d: Digests, caller: Caller, op: Operation, state: Snapshot, now: nat, nonce: string)
    returns (actions: seq<Action>)
    requires Valid(op) && Observable(d, op, state) && now + PLAN_LIFETIME_SECONDS <= U64_MAX
    requires |nonce| == 64 && |d.plan(NewPlan(d, caller, op, state, now, nonce))| == 64
    ensures Run(d, actions).stage == Executing(NewPlan(d, caller, op, state, now, nonce))
    ensures |Run(d, actions).log| == 5
    ensures Run(d, actions).log[0] == PlanStored(nonce, NewPlan(d, caller, op, state, now, nonce))
  {
    hide Run, ActionId, Valid, Observable;
    var plan := NewPlan(d, caller, op, state, now, nonce);
    actions := Prepares(d, caller, op, state, now, nonce);
    actions := ReachesGrant(d, actions, plan, now);
    actions := ReachesExecution(d, actions, plan, now);
  }

  /** The protocol is not vacuous: with an unchanged process and caller, a granted request to end the
      process is carried out. */
  lemma RequestCarriedOut(d: Digests, caller: Caller, pid: nat, state: Snapshot, now: nat, nonce: string)
    returns (actions: seq<Action>)
    requires 1 < pid <= I32_MAX && state.Process? && state.process.pid == pid
    requires now + PLAN_LIFETIME_SECONDS <= U64_MAX
    requires |nonce| == 64 && |d.plan(NewPlan(d, caller, ProcessKill(pid), state, now, nonce))| == 64
    ensures var log := Run(d, actions).log; |log| == 6 && log[5] == Executed(nonce, Signalled(pid, state), now, now)
  {
    hide Run, ActionId;
    var plan := NewPlan(d, caller, ProcessKill(pid), state, now, nonce);
    actions := CanExecute(d, caller, ProcessKill(pid), state, now, nonce);
    actions := Do(d, actions, See(state));
    assert Run(d, actions).stage == Rechecked(plan, state);
    actions := Do(d, actions, Tick(now));
  }

  predicate Unguarded(plan: AptPlan.Plan) {
    plan.sourceChanges == [] && plan.essentialRemovals == [] && plan.heldChanges == []
  }

  /** So is a package transaction that resolves to the approved plan twice, however late the second time is. */
  lemma TransactionCommitted(
    d: Digests, caller: Caller, op: Operation, cache: AptPlan.DepCache, plan: AptPlan.Plan, now: nat, later: nat,
    nonce: string)
    returns (actions: seq<Action>)
    requires Valid(op) && IsTransaction(op) && AptPlan.IsPlanOf(WorkerName(op), Requested(op), cache, plan)
    requires IsSha256(d.worker(Transaction(plan))) && Unguarded(plan) && now + PLAN_LIFETIME_SECONDS <= U64_MAX
    requires var state := Apt(Transaction(plan), d.worker(Transaction(plan)));
      |nonce| == 64 && |d.plan(NewPlan(d, caller, op, state, now, nonce))| == 64
    ensures var state := Apt(Transaction(plan), d.worker(Transaction(plan))); var log := Run(d, actions).log;
      && |log| == 6 && log[0] == PlanStored(nonce, NewPlan(d, caller, op, state, now, nonce))
      && log[5] == Executed(nonce, Committed(cache, plan, plan), now, later)
  {
    var state := Apt(Transaction(plan), d.worker(Transaction(plan)));
    assert Observable(d, op, state);
    var stored := NewPlan(d, caller, op, state, now, nonce);
    hide Run, ActionId, IsSha256, Observable, AptPlan.IsPlanOf, WorkerName, Requested, Valid;
    actions := CanExecute(d, caller, op, state, now, nonce);
    actions := WorkerStarts(d, actions, stored, now);
    actions := WorkerCommits(d, actions, stored, cache, plan, now, later);
  }

  lemma WorkerStarts(d: Digests, before: seq<Action>, plan: CanonicalPlan, now: nat) returns (actions: seq<Action>)
    requires Run(d, before).stage == Executing(plan) && InLifetime(plan, now)
    requires !Direct(plan.operation) && AptRequest(plan).Ok?
    ensures Run(d, actions) == Run(d, before).(stage := WorkerStarted(plan, AptRequest(plan).value))
  {
    hide Run, AptRequest;
    actions := Do(d, before, Tick(now));
  }

  lemma WorkerCommits(
    d: Digests, before: seq<Action>, stored: CanonicalPlan, cache: AptPlan.DepCache, plan: AptPlan.Plan,
    now: nat, later: nat)
    returns (actions: seq<Action>)
    requires IsTransaction(stored.operation) && stored.state == Apt(Transaction(plan), d.worker(Transaction(plan)))
    requires AptRequest(stored).Ok? && Run(d, before).stage == WorkerStarted(stored, AptRequest(stored).value)
    requires |Run(d, before).log| == 5 && Run(d, before).log[0] == PlanStored(stored.id, stored)
    requires AptPlan.IsPlanOf(WorkerName(stored.operation), Requested(stored.operation), cache, plan)
    requires now < stored.expiresAt && Unguarded(plan)
    ensures var log := Run(d, actions).log;
      && |log| == 6 && log[0] == PlanStored(stored.id, stored)
      && log[5] == Executed(stored.id, Committed(cache, plan, plan), now, later)
  {
    hide Run, IsSha256, AptPlan.IsPlanOf, WorkerName, Requested, Valid;
    var approval := AptRequest(stored).value;
    actions := Do(d, before, Tick(now));
    assert Run(d, actions).stage == WorkerApproved(stored, approval, now);
    actions := Do(d, actions, Resolve(cache, plan, now));
    assert Run(d, actions).stage == WorkerResolved(stored, approval, plan, now);
    actions := Do(d, actions, Resolve(cache, plan, later));
  }

  /** And a refresh, which can use a source list nobody approved: it is read again after the digest test. */
  lemma RefreshCanDiffer(
    d: Digests, caller: Caller, manifest: seq<string>, sources: seq<string>, now: nat, later: nat, nonce: string)
    returns (actions: seq<Action>)
    requires IsSha256(d.worker(Update(manifest))) && now + PLAN_LIFETIME_SECONDS <= U64_MAX
    requires var state := Apt(Update(manifest), d.worker(Update(manifest)));
      |nonce| == 64 && |d.plan(NewPlan(d, caller, AptUpdate, state, now, nonce))| == 64
    ensures var state := Apt(Update(manifest), d.worker(Update(manifest))); var log := Run(d, actions).log;
      && |log| == 6 && log[0] == PlanStored(nonce, NewPlan(d, caller, AptUpdate, state, now, nonce))
      && log[5] == Executed(nonce, Refreshed(manifest, sources), now, later)
  {
    var state := Apt(Update(manifest), d.worker(Update(manifest)));
    assert Observable(d, AptUpdate, state);
    var stored := NewPlan(d, caller, AptUpdate, state, now, nonce);
    hide Run, ActionId, IsSha256, Observable;
    actions := CanExecute(d, caller, AptUpdate, state, now, nonce);
    actions := WorkerStarts(d, actions, stored, now);
    actions := WorkerRefreshes(d, actions, stored, manifest, sources, now, later);
  }

  lemma WorkerRefreshes(
    d: Digests, before: seq<Action>, stored: CanonicalPlan, manifest: seq<string>, sources: seq<string>, now: nat,
    later: nat)
    returns (actions: seq<Action>)
    requires stored.operation.AptUpdate? && stored.state == Apt(Update(manifest), d.worker(Update(manifest)))
    requires AptRequest(stored).Ok? && Run(d, before).stage == WorkerStarted(stored, AptRequest(stored).value)
    requires |Run(d, before).log| == 5 && Run(d, before).log[0] == PlanStored(stored.id, stored)
    requires now < stored.expiresAt
    ensures var log := Run(d, actions).log;
      && |log| == 6 && log[0] == PlanStored(stored.id, stored)
      && log[5] == Executed(stored.id, Refreshed(manifest, sources), now, later)
  {
    hide Run, IsSha256, OnSee, OnIdentify, OnStorePlan, OnAuthorize, OnResolve;
    actions := Do(d, before, ReadSources(manifest));
    assert Run(d, actions).stage == WorkerSources(stored, AptRequest(stored).value, manifest);
    actions := Do(d, actions, Tick(now));
    assert Run(d, actions).stage == WorkerLocked(stored, manifest, now);
    actions := Do(d, actions, ReadMainList(sources, later));
  }

  // ----- which executions are inside the lifetime

  /** SHA-256 digests in hexadecimal, as the broker and the worker compute them. */
  ghost predicate ProperDigests(d: Digests) {
    && (forall p: WorkerPlan :: IsSha256(d.worker(p)))
    && (forall p: CanonicalPlan :: |d.plan(p)| == 64)
  }

  ghost predicate InTime(d: Digests, op: Operation, actions: seq<Action>, id: string) {
    var h := History(Run(d, actions).log, id);
    |h| == 6 && h[0].PlanStored? && h[0].plan.operation == op && h[5].Executed? ==> InLifetime(h[0].plan, h[5].at)
  }

  /** Six events of one plan are its history. */
  lemma WholeHistory(d: Digests, actions: seq<Action>, id: string)
    requires |Run(d, actions).log| == 6 && Run(d, actions).log[0].id == id && Run(d, actions).log[5].Executed?
    requires Run(d, actions).log[5].id == id
    ensures History(Run(d, actions).log, id) == Run(d, actions).log
  {
    hide Run, Inv, FollowsScript;
    RunKeeps(d, actions);
    var log := Run(d, actions).log;
    LastIsSixth(d, Run(d, actions), id);
    AllOrFewer(log, id);
  }

  lemma LastIsSixth(d: Digests, s: System, id: string)
    requires Inv(d, s) && |s.log| > 0 && s.log[|s.log| - 1].Executed? && s.log[|s.log| - 1].id == id
    ensures |History(s.log, id)| == 6
  {
    hide StoreFits, HeldFits, StageFits, WithinLimits, WellFormed, EffectFits;
    var h := History(s.log, id);
    assert FollowsScript(d, id, h) && h[|h| - 1] == s.log[|s.log| - 1];
  }

  lemma {:induction false} AllOrFewer(log: seq<Event>, id: string)
    ensures |History(log, id)| <= |log|
    ensures |History(log, id)| == |log| ==> History(log, id) == log
  {
    if log != [] { AllOrFewer(log[..|log| - 1], id); }
  }

  /** Whatever the worker is asked to do can happen after the plan has expired: it tests the clock once, before
      it resolves or reads. */
  lemma CanBeLate(d: Digests, caller: Caller, op: Operation, now: nat, nonce: string, totals: AptPlan.Totals)
    returns (actions: seq<Action>)
    requires ProperDigests(d) && Valid(op) && !Direct(op) && |nonce| == 64 && now + PLAN_LIFETIME_SECONDS <= U64_MAX
    ensures !InTime(d, op, actions, nonce)
  {
    hide Run, ActionId, IsSha256, AptPlan.IsPlanOf, Valid, History;
    var late := now + PLAN_LIFETIME_SECONDS;
    if op.AptUpdate? {
      actions := RefreshCanDiffer(d, caller, [], [], now, late, nonce);
    } else {
      var cache, plan := AptPlan.IdlePlan(WorkerName(op), Requested(op), totals);
      actions := TransactionCommitted(d, caller, op, cache, plan, now, late, nonce);
    }
    WholeHistory(d, actions, nonce);
  }

  /** Exactly the operations the broker carries out itself are always carried out inside the lifetime of their
      plan: over all runs for systemctl and the signal, and for no package operation. */
  lemma AlwaysInTimeIff(d: Digests, op: Operation)
    requires ProperDigests(d) && Valid(op)
    ensures (forall actions, id :: InTime(d, op, actions, id)) <==> Direct(op)
  {
    hide Run, Valid, History, FollowsScript;
    if Direct(op) {
      forall actions, id ensures InTime(d, op, actions, id) {
        EveryPlanFollowsScript(d, actions, id);
        FullScript(d, id, History(Run(d, actions).log, id));
      }
    } else {
      var nonce := seq(64, _ => '0');
      var caller := Caller("", 0, 0, 0, "");
      var actions := CanBeLate(d, caller, op, 0, nonce, AptPlan.Totals(0, 0, 0, 0, 0, 0, 0));
      assert !InTime(d, op, actions, nonce);
    }
  }

  /** A package whose new version has no recorded origin is upgraded, although its origins differ. */
  lemma UnknownOriginCommitted(d: Digests, caller: Caller, name: string, origin: string, now: nat, nonce: string)
    returns (actions: seq<Action>)
    requires ProperDigests(d) && |nonce| == 64 && now + PLAN_LIFETIME_SECONDS <= U64_MAX
    ensures var log := Run(d, actions).log;
      && |log| == 6 && log[5].Executed? && log[5].effect.Committed?
      && var cache := log[5].effect.cache;
      |cache.packages| == 1 && !AptPlan.KeepsOrigins(cache.packages[0])
  {
    hide Run, IsSha256, AptPlan.IsPlanOf, AptPlan.KeepsOrigins;
    var cache, plan := AptPlan.UnknownOriginPasses(name, origin, AptPlan.Totals(0, 0, 0, 0, 0, 0, 0));
    assert WorkerName(AptUpgrade) == "apt_upgrade" && Requested(AptUpgrade) == [];
    actions := TransactionCommitted(d, caller, AptUpgrade, cache, plan, now, now, nonce);
  }
}
