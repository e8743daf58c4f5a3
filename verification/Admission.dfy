/** The inference admission queue. A reservation's counters and its semaphore permit change at
    different instants, so every reservation is followed through each half-finished state. */
module Admission {
  import opened Results

  const U32 := 0x1_0000_0000

  datatype Counts = Counts(queued: nat, active: nat, byUid: map<nat, nat>)

  datatype Limits = Limits(maxActive: nat, globalLimit: nat, perUidLimit: nat)

  datatype QueueError = GlobalFull | UserFull

  // ----- the three critical sections under the counts lock

  function SaturatingSub(a: nat, b: nat): nat { if a < b then 0 else a - b }

  function UserCount(c: Counts, uid: nat): nat { if uid in c.byUid then c.byUid[uid] else 0 }

  function ReserveCounts(l: Limits, c: Counts, uid: nat): Result<Counts, QueueError> {
    if c.queued + c.active >= l.globalLimit then Err(GlobalFull)
    else if UserCount(c, uid) >= l.perUidLimit then Err(UserFull)
    else Ok(c.(queued := c.queued + 1, byUid := c.byUid[uid := UserCount(c, uid) + 1]))
  }

  function ActivateCounts(c: Counts): Counts {
    c.(queued := SaturatingSub(c.queued, 1), active := c.active + 1)
  }

  function ReleaseCounts(c: Counts, uid: nat, wasActive: bool): Counts {
    var moved :=
      if wasActive then c.(active := SaturatingSub(c.active, 1)) else c.(queued := SaturatingSub(c.queued, 1));
    if uid !in c.byUid then moved
    else if SaturatingSub(c.byUid[uid], 1) == 0 then moved.(byUid := c.byUid - {uid})
    else moved.(byUid := c.byUid[uid := SaturatingSub(c.byUid[uid], 1)])
  }

  // ----- every interleaving

  /** `Admitted` holds a permit but is still counted as queued; `LeavingActive` is still counted as
      active but has given its permit back. */
  datatype Phase = Queued | Admitted | Active | LeavingQueued | LeavingActive

  datatype Reservation = Reservation(uid: nat, phase: Phase)

  datatype System = System(counts: Counts, permits: nat, live: map<nat, Reservation>, issued: nat)

  datatype Step =
    | Reserve(uid: nat)
    | TakePermit(r: nat)
    | Activate(r: nat)
    | StartDrop(r: nat)
    | FinishDrop(r: nat)

  function SetPhase(s: System, r: nat, phase: Phase): System
    requires r in s.live
  {
    s.(live := s.live[r := s.live[r].(phase := phase)])
  }

  /** A step that is not possible in `s` changes nothing; so does an acquire that is cancelled. */
  function Next(l: Limits, s: System, step: Step): System {
    match step
    case Reserve(uid) =>
      (match ReserveCounts(l, s.counts, uid)
       case Ok(c) => System(c, s.permits, s.live[s.issued := Reservation(uid, Queued)], s.issued + 1)
       case Err(_) => s)
    case TakePermit(r) =>
      if r in s.live && s.live[r].phase == Queued && s.permits > 0 then
        SetPhase(s, r, Admitted).(permits := s.permits - 1)
      else s
    case Activate(r) =>
      if r in s.live && s.live[r].phase == Admitted then
        SetPhase(s, r, Active).(counts := ActivateCounts(s.counts))
      else s
    case StartDrop(r) =>
      if r in s.live && s.live[r].phase == Queued then SetPhase(s, r, LeavingQueued)
      else if r in s.live && s.live[r].phase == Active then SetPhase(s, r, LeavingActive).(permits := s.permits + 1)
      else s
    case FinishDrop(r) =>
      if r in s.live && s.live[r].phase in {LeavingQueued, LeavingActive} then
        s.(live := s.live - {r}, counts := ReleaseCounts(s.counts, s.live[r].uid, s.live[r].phase == LeavingActive))
      else s
  }

  function Start(l: Limits): System { System(Counts(0, 0, map[]), l.maxActive, map[], 0) }

  function Run(l: Limits, steps: seq<Step>): System {
    if steps == [] then Start(l) else Next(l, Run(l, steps[..|steps| - 1]), steps[|steps| - 1])
  }

  // ----- populations

  function In(live: map<nat, Reservation>, kind: Phase -> bool): set<nat> {
    set r | r in live && kind(live[r].phase)
  }

  function Of(live: map<nat, Reservation>, uid: nat): set<nat> {
    set r | r in live && live[r].uid == uid
  }

  predicate HoldsPermit(p: Phase) { p == Admitted || p == Active }

  predicate CountedQueued(p: Phase) { p == Queued || p == Admitted || p == LeavingQueued }

  predicate CountedActive(p: Phase) { p == Active || p == LeavingActive }

  predicate Uncounting(p: Phase) { p == LeavingActive }

  ghost predicate UsersFit(l: Limits, s: System) {
    && (forall r :: r in s.live ==> s.live[r].uid in s.counts.byUid)
    && (forall u :: u in s.counts.byUid ==>
      s.counts.byUid[u] == |Of(s.live, u)| && 0 < s.counts.byUid[u] <= l.perUidLimit)
  }

  /** Every counter is the population of the phases it counts, in-transit reservations included. */
  ghost predicate Inv(l: Limits, s: System) {
    && s.permits + |In(s.live, HoldsPermit)| == l.maxActive
    && s.counts.queued == |In(s.live, CountedQueued)|
    && s.counts.active == |In(s.live, CountedActive)|
    && s.counts.queued + s.counts.active <= l.globalLimit
    && UsersFit(l, s)
    && (forall r :: r in s.live ==> r < s.issued)
  }

  function One(b: bool): nat { if b then 1 else 0 }

  lemma PhaseMove(live: map<nat, Reservation>, r: nat, phase: Phase, kind: Phase -> bool)
    requires r in live
    ensures |In(live[r := live[r].(phase := phase)], kind)| ==
      |In(live, kind)| + One(kind(phase)) - One(kind(live[r].phase))
  {
    var after := live[r := live[r].(phase := phase)];
    var others := In(live, kind) - {r};
    assert In(live, kind) == if kind(live[r].phase) then others + {r} else others;
    assert In(after, kind) == if kind(phase) then others + {r} else others;
  }

  lemma OwnersUnmoved(live: map<nat, Reservation>, r: nat, phase: Phase)
    requires r in live
    ensures forall u :: Of(live[r := live[r].(phase := phase)], u) == Of(live, u)
  {
  }

  lemma MoveKeeps(l: Limits, s: System, step: Step)
    requires Inv(l, s) && (step.TakePermit? || step.Activate? || step.StartDrop?)
    ensures Inv(l, Next(l, s, step))
  {
    var t := Next(l, s, step);
    if t != s {
      var r := step.r;
      var phase := t.live[r].phase;
      OwnersUnmoved(s.live, r, phase);
      PhaseMove(s.live, r, phase, HoldsPermit);
      PhaseMove(s.live, r, phase, CountedQueued);
      PhaseMove(s.live, r, phase, CountedActive);
      if step.Activate? { assert r in In(s.live, CountedQueued); }
    }
  }

  lemma NewOwner(live: map<nat, Reservation>, r: nat, uid: nat)
    requires r !in live
    ensures forall u :: |Of(live[r := Reservation(uid, Queued)], u)| == |Of(live, u)| + One(u == uid)
  {
    var after := live[r := Reservation(uid, Queued)];
    forall u ensures |Of(after, u)| == |Of(live, u)| + One(u == uid) {
      assert Of(after, u) == if u == uid then Of(live, u) + {r} else Of(live, u);
    }
  }

  lemma ReserveKeepsUsers(l: Limits, s: System, uid: nat)
    requires Inv(l, s)
    ensures UsersFit(l, Next(l, s, Reserve(uid)))
  {
    NewOwner(s.live, s.issued, uid);
    if uid !in s.counts.byUid { assert Of(s.live, uid) == {}; }
  }

  lemma ReserveKeeps(l: Limits, s: System, uid: nat)
    requires Inv(l, s)
    ensures Inv(l, Next(l, s, Reserve(uid)))
  {
    ReserveKeepsUsers(l, s, uid);
    NewMember(s.live, s.issued, uid, HoldsPermit);
    NewMember(s.live, s.issued, uid, CountedQueued);
    NewMember(s.live, s.issued, uid, CountedActive);
    hide UsersFit, In, Of;
  }

  lemma NewMember(live: map<nat, Reservation>, r: nat, uid: nat, kind: Phase -> bool)
    requires r !in live
    ensures |In(live[r := Reservation(uid, Queued)], kind)| == |In(live, kind)| + One(kind(Queued))
  {
    var after := live[r := Reservation(uid, Queued)];
    assert In(after, kind) == if kind(Queued) then In(live, kind) + {r} else In(live, kind);
  }

  lemma GoneMember(live: map<nat, Reservation>, r: nat, kind: Phase -> bool)
    requires r in live
    ensures |In(live - {r}, kind)| == |In(live, kind)| - One(kind(live[r].phase))
    ensures kind(live[r].phase) ==> |In(live, kind)| > 0
  {
    assert In(live - {r}, kind) == In(live, kind) - {r};
    assert kind(live[r].phase) ==> r in In(live, kind);
  }

  lemma GoneOwner(live: map<nat, Reservation>, r: nat)
    requires r in live
    ensures forall u :: |Of(live - {r}, u)| == |Of(live, u)| - One(u == live[r].uid)
    ensures |Of(live, live[r].uid)| > 0
    ensures forall q :: q in live - {r} ==> |Of(live - {r}, live[q].uid)| > 0
  {
    assert r in Of(live, live[r].uid);
    forall u ensures |Of(live - {r}, u)| == |Of(live, u)| - One(u == live[r].uid) {
      assert Of(live - {r}, u) == Of(live, u) - {r};
    }
    forall q | q in live - {r} ensures |Of(live - {r}, live[q].uid)| > 0 {
      assert q in Of(live - {r}, live[q].uid);
    }
  }

  lemma FinishDropKeepsUsers(l: Limits, s: System, r: nat)
    requires Inv(l, s)
    ensures UsersFit(l, Next(l, s, FinishDrop(r)))
  {
    if r in s.live { GoneOwner(s.live, r); }
  }

  lemma FinishDropKeeps(l: Limits, s: System, r: nat)
    requires Inv(l, s)
    ensures Inv(l, Next(l, s, FinishDrop(r)))
  {
    FinishDropKeepsUsers(l, s, r);
    if r in s.live {
      GoneMember(s.live, r, HoldsPermit);
      GoneMember(s.live, r, CountedQueued);
      GoneMember(s.live, r, CountedActive);
    }
    hide UsersFit, In, Of;
  }

  lemma NobodyIn()
    ensures In(map[], HoldsPermit) == In(map[], CountedQueued) == In(map[], CountedActive) == {}
  {
  }

  lemma {:induction false} RunKeeps(l: Limits, steps: seq<Step>)
    ensures Inv(l, Run(l, steps))
  {
    if steps == [] {
      NobodyIn();
    } else {
      var s, step := Run(l, steps[..|steps| - 1]), steps[|steps| - 1];
      RunKeeps(l, steps[..|steps| - 1]);
      match step
      case Reserve(uid) => ReserveKeeps(l, s, uid);
      case FinishDrop(r) => FinishDropKeeps(l, s, r);
      case _ => MoveKeeps(l, s, step);
    }
  }

  // ----- the theorems

  /** Under every interleaving: held permits never exceed max_active, and the two counters
      together count every live reservation and stay within the global limit. */
  lemma QueueLimits(l: Limits, steps: seq<Step>)
    ensures var s := Run(l, steps);
      && |In(s.live, HoldsPermit)| <= l.maxActive
      && s.counts.queued + s.counts.active == |s.live| <= l.globalLimit
  {
    RunKeeps(l, steps);
    hide Run, UsersFit, In;
    EveryoneCounted(Run(l, steps).live);
  }

  lemma EveryoneCounted(live: map<nat, Reservation>)
    ensures |In(live, CountedQueued)| + |In(live, CountedActive)| == |live|
  {
    var q, a := In(live, CountedQueued), In(live, CountedActive);
    assert live.Keys == q + a;
    assert q !! a;
    assert |live| == |live.Keys| == |q + a|;
  }

  lemma UserCounted(l: Limits, s: System, uid: nat)
    requires Inv(l, s)
    ensures UserCount(s.counts, uid) == |Of(s.live, uid)|
  {
    hide In;
    if Of(s.live, uid) != {} { var r :| r in Of(s.live, uid); }
  }

  lemma UserOnRecordIff(l: Limits, s: System, uid: nat)
    requires Inv(l, s)
    ensures uid in s.counts.byUid <==> Of(s.live, uid) != {}
  {
    hide In;
    if Of(s.live, uid) != {} { var r :| r in Of(s.live, uid); }
  }

  /** Under every interleaving: the users on record are exactly those with a live reservation, each
      with its own number of them and within its own limit. */
  lemma UserLimits(l: Limits, steps: seq<Step>, uid: nat)
    ensures var s := Run(l, steps);
      && (uid in s.counts.byUid <==> Of(s.live, uid) != {})
      && UserCount(s.counts, uid) == |Of(s.live, uid)|
      && (uid in s.counts.byUid ==> |Of(s.live, uid)| <= l.perUidLimit)
  {
    RunKeeps(l, steps);
    hide Run, In;
    UserCounted(l, Run(l, steps), uid);
    UserOnRecordIff(l, Run(l, steps), uid);
  }

  ghost function SomeUser(m: map<nat, nat>): nat
    requires m.Keys != {}
    ensures SomeUser(m) in m
  {
    var u :| u in m; u
  }

  ghost function Sum(m: map<nat, nat>): nat {
    if m.Keys == {} then 0 else m[SomeUser(m)] + Sum(m - {SomeUser(m)})
  }

  lemma {:induction false} SumOfUsers(m: map<nat, nat>, live: map<nat, Reservation>)
    requires forall r :: r in live ==> live[r].uid in m
    requires forall u :: u in m ==> m[u] == |Of(live, u)|
    ensures Sum(m) == |live|
    decreases m.Keys
  {
    if m.Keys == {} {
      assert live.Keys == {};
    } else {
      var u := SomeUser(m);
      var rest := live - Of(live, u);
      WithoutUser(live, u);
      hide Of;
      assert (m - {u}).Keys == m.Keys - {u};
      SumOfUsers(m - {u}, rest);
    }
  }

  lemma WithoutUser(live: map<nat, Reservation>, u: nat)
    ensures var rest := live - Of(live, u);
      && |live| == |rest| + |Of(live, u)|
      && (forall r :: r in rest ==> r in live && rest[r] == live[r] && rest[r].uid != u)
      && (forall v :: v != u ==> Of(rest, v) == Of(live, v))
  {
    var rest := live - Of(live, u);
    assert live.Keys == rest.Keys + Of(live, u) && rest.Keys !! Of(live, u);
    assert |live| == |live.Keys| == |rest.Keys + Of(live, u)|;
    forall v | v != u ensures Of(rest, v) == Of(live, v) {
      assert forall r :: r in Of(rest, v) <==> r in Of(live, v);
    }
  }

  /** The per-user counts add up to everything queued or active. */
  lemma UserCountsAddUp(l: Limits, steps: seq<Step>)
    ensures var s := Run(l, steps); Sum(s.counts.byUid) == s.counts.queued + s.counts.active
  {
    RunKeeps(l, steps);
    QueueLimits(l, steps);
    SumOfUsers(Run(l, steps).counts.byUid, Run(l, steps).live);
  }

  /** No saturating subtraction ever saturates: whenever a step would subtract, the counter is
      positive. */
  lemma NeverSaturates(l: Limits, steps: seq<Step>, r: nat)
    requires r in Run(l, steps).live
    ensures var s := Run(l, steps); var phase := s.live[r].phase;
      && (phase == Admitted ==> s.counts.queued > 0)
      && (phase == LeavingQueued ==> s.counts.queued > 0)
      && (phase == LeavingActive ==> s.counts.active > 0)
      && s.live[r].uid in s.counts.byUid && s.counts.byUid[s.live[r].uid] > 0
  {
    RunKeeps(l, steps);
    hide Run, Inv;
    PositiveCounter(l, Run(l, steps), r);
  }

  predicate Admitting(p: Phase) { p == Admitted }

  /** The active counter is within max_active exactly when the reservations that have given their
      permit back but are still counted are no more than the free permits and the permits whose
      holders are not counted as active yet. */
  lemma ActiveWithinLimitIff(l: Limits, steps: seq<Step>)
    ensures var s := Run(l, steps);
      s.counts.active <= l.maxActive <==> |In(s.live, Uncounting)| <= s.permits + |In(s.live, Admitting)|
  {
    RunKeeps(l, steps);
    hide Run, UsersFit;
    var s := Run(l, steps);
    var both := In(s.live, p => p == Active);
    assert In(s.live, CountedActive) == both + In(s.live, Uncounting) && both !! In(s.live, Uncounting);
    assert In(s.live, HoldsPermit) == both + In(s.live, Admitting) && both !! In(s.live, Admitting);
  }

  /** The active counter itself does exceed max_active: a dropped reservation returns its permit
      before it is uncounted, and the next one is activated in between. */
  lemma ActiveCounterOvershoots()
    ensures var l := Limits(1, 2, 2);
      Run(l, [Reserve(7), TakePermit(0), Activate(0), Reserve(7), StartDrop(0), TakePermit(1),
        Activate(1)]).counts.active > l.maxActive
  {
    hide *;
    var l := Limits(1, 2, 2);
    var steps := [Reserve(7), TakePermit(0), Activate(0), Reserve(7), StartDrop(0), TakePermit(1), Activate(1)];
    assert steps[..7] == steps && steps[..0] == [];
    RunEmpty(l);
    RunSnoc(l, steps, 0);
    RunSnoc(l, steps, 1);
    RunSnoc(l, steps, 2);
    RunSnoc(l, steps, 3);
    RunSnoc(l, steps, 4);
    RunSnoc(l, steps, 5);
    RunSnoc(l, steps, 6);
    BusyQueue(l);
    OverlappingDrop(l);
  }

  const BUSY := System(Counts(1, 1, map[7 := 2]), 0, map[0 := Reservation(7, Active), 1 := Reservation(7, Queued)], 2)

  lemma BusyQueue(l: Limits)
    requires l == Limits(1, 2, 2)
    ensures Next(l, Next(l, Next(l, Next(l, Start(l), Reserve(7)), TakePermit(0)), Activate(0)), Reserve(7)) == BUSY
  {
    var s1 := System(Counts(1, 0, map[7 := 1]), 1, map[0 := Reservation(7, Queued)], 1);
    assert Next(l, Start(l), Reserve(7)) == s1;
    var s2 := s1.(permits := 0, live := map[0 := Reservation(7, Admitted)]);
    assert Next(l, s1, TakePermit(0)) == s2;
    var s3 := s2.(counts := Counts(0, 1, map[7 := 1]), live := map[0 := Reservation(7, Active)]);
    assert Next(l, s2, Activate(0)) == s3;
    assert Next(l, s3, Reserve(7)) == BUSY;
  }

  lemma OverlappingDrop(l: Limits)
    ensures Next(l, Next(l, Next(l, BUSY, StartDrop(0)), TakePermit(1)), Activate(1)).counts.active == 2
  {
    var s5 := BUSY.(permits := 1, live := map[0 := Reservation(7, LeavingActive), 1 := Reservation(7, Queued)]);
    assert Next(l, BUSY, StartDrop(0)) == s5;
    var s6 := s5.(permits := 0, live := map[0 := Reservation(7, LeavingActive), 1 := Reservation(7, Admitted)]);
    assert Next(l, s5, TakePermit(1)) == s6;
  }

  lemma RunEmpty(l: Limits)
    ensures Run(l, []) == Start(l)
  {
  }

  lemma RunSnoc(l: Limits, steps: seq<Step>, i: nat)
    requires i < |steps|
    ensures Run(l, steps[..i + 1]) == Next(l, Run(l, steps[..i]), steps[i])
  {
    assert steps[..i + 1][..i] == steps[..i];
  }

  // ----- the queue object

  /** What the counters that Reserve reads and writes stand for. */
  lemma ReserveCounted(l: Limits, s: System, uid: nat)
    requires Inv(l, s)
    ensures s.issued !in s.live && s.counts.queued + s.counts.active == |s.live|
    ensures UserCount(s.counts, uid) == |Of(s.live, uid)|
    ensures Reserved(l, s, uid, Next(l, s, Reserve(uid)))
  {
    EveryoneCounted(s.live);
    UserCounted(l, s, uid);
    ReserveKeeps(l, s, uid);
    hide UsersFit, In, Of;
  }

  ghost predicate Reserved(l: Limits, s: System, uid: nat, t: System) {
    match ReserveCounts(l, s.counts, uid)
    case Ok(c) =>
      && t == System(c, s.permits, s.live[s.issued := Reservation(uid, Queued)], s.issued + 1)
      && c.queued == |In(t.live, CountedQueued)|
    case Err(_) => t == s
  }

  /** The counter a reservation is counted by is positive, and so is its user's. */
  lemma PositiveCounter(l: Limits, s: System, r: nat)
    requires Inv(l, s) && r in s.live
    ensures CountedQueued(s.live[r].phase) ==> s.counts.queued > 0
    ensures CountedActive(s.live[r].phase) ==> s.counts.active > 0
    ensures s.live[r].uid in s.counts.byUid && s.counts.byUid[s.live[r].uid] > 0
  {
    GoneMember(s.live, r, CountedQueued);
    GoneMember(s.live, r, CountedActive);
    hide In, Of;
  }

  /** The counters and the semaphore, with the reservations they stand for. Each method is one indivisible
      part of a reservation's life, so any order of calls is an interleaving. */
  class InferenceQueue {
    const limits: Limits
    var queued: nat
    var active: nat
    var byUid: map<nat, nat>
    var permits: nat
    ghost var live: map<nat, Reservation>
    ghost var issued: nat

    constructor (limits: Limits)
      ensures Valid() && this.limits == limits && live == map[] && permits == limits.maxActive
    {
      this.limits, queued, active, byUid, permits := limits, 0, 0, map[], limits.maxActive;
      live, issued := map[], 0;
      new;
      NobodyIn();
    }

    function State(): Counts
      reads this
    {
      Counts(queued, active, byUid)
    }

    ghost function Whole(): System
      reads this
    {
      System(State(), permits, live, issued)
    }

    ghost predicate Valid()
      reads this
    {
      Inv(limits, Whole())
    }

    /** Refused exactly when as many reservations are alive, or as many of this user's, as the limit
        allows; a new one is told how many are queued, itself included. */
    method Reserve(uid: nat) returns (position: Result<nat, QueueError>)
      requires Valid()
      modifies this
      ensures Valid() && permits == old(permits)
      ensures position == Err(GlobalFull) <==> |old(live)| >= limits.globalLimit
      ensures position == Err(UserFull) <==>
        |old(live)| < limits.globalLimit && |Of(old(live), uid)| >= limits.perUidLimit
      ensures position.Ok? ==> old(issued) !in old(live) && live == old(live)[old(issued) := Reservation(uid, Queued)]
      ensures position.Ok? ==> position.value == |In(live, CountedQueued)| % U32
      ensures position.Err? ==> Whole() == old(Whole())
    {
      hide Inv, UsersFit, In, Of, Next;
      ReserveKeeps(limits, Whole(), uid);
      ReserveCounted(limits, Whole(), uid);
      ghost var after := Next(limits, Whole(), Step.Reserve(uid));
      if queued + active >= limits.globalLimit { return Err(GlobalFull); }
      var userCount := if uid in byUid then byUid[uid] else 0;
      if userCount >= limits.perUidLimit { return Err(UserFull); }
      queued := queued + 1;
      byUid := byUid[uid := userCount + 1];
      live, issued := live[issued := Reservation(uid, Queued)], issued + 1;
      assert Whole() == after;
      position := Ok(queued % U32);
    }

    /** The semaphore's part of Reservation::acquire: it hands over a permit as long as fewer than
        max_active are held. */
    method TakePermit(ghost r: nat) returns (taken: bool)
      requires Valid() && r in live && live[r].phase == Queued
      modifies this`permits, this`live
      ensures Valid()
      ensures taken <==> |In(old(live), HoldsPermit)| < limits.maxActive
      ensures live == if taken then old(live)[r := old(live)[r].(phase := Admitted)] else old(live)
    {
      MoveKeeps(limits, Whole(), Step.TakePermit(r));
      ghost var after := Next(limits, Whole(), Step.TakePermit(r));
      hide UsersFit, In, Of;
      taken := permits > 0;
      if taken {
        permits := permits - 1;
        live := live[r := live[r].(phase := Admitted)];
      }
      assert Whole() == after;
    }

    /** The counters' part of Reservation::acquire. */
    method Activate(ghost r: nat)
      requires Valid() && r in live && live[r].phase == Admitted
      modifies this`queued, this`active, this`live
      ensures Valid() && queued + 1 == old(queued) && active == old(active) + 1
      ensures live == old(live)[r := old(live)[r].(phase := Active)]
    {
      hide Inv;
      MoveKeeps(limits, Whole(), Step.Activate(r));
      PositiveCounter(limits, Whole(), r);
      ghost var after := Next(limits, Whole(), Step.Activate(r));
      queued := SaturatingSub(queued, 1);
      active := active + 1;
      live := live[r := live[r].(phase := Active)];
      assert Whole() == after;
    }

    /** The semaphore's part of Reservation::drop. */
    method ReturnPermit(ghost r: nat, wasActive: bool)
      requires Valid() && r in live && live[r].phase == if wasActive then Active else Queued
      modifies this`permits, this`live
      ensures Valid() && permits == old(permits) + One(wasActive)
      ensures live == old(live)[r := old(live)[r].(phase := if wasActive then LeavingActive else LeavingQueued)]
    {
      MoveKeeps(limits, Whole(), StartDrop(r));
      ghost var after := Next(limits, Whole(), StartDrop(r));
      hide UsersFit, In, Of;
      if wasActive { permits := permits + 1; }
      live := live[r := live[r].(phase := if wasActive then LeavingActive else LeavingQueued)];
      assert Whole() == after;
    }

    /** The counters' part of Reservation::drop: exactly one reservation is uncounted, and its user is
        forgotten with the last of them. */
    method Release(ghost r: nat, uid: nat, wasActive: bool)
      requires Valid() && r in live && live[r] == Reservation(uid, if wasActive then LeavingActive else LeavingQueued)
      modifies this`queued, this`active, this`byUid, this`live
      ensures Valid() && live == old(live) - {r}
      ensures queued + active + 1 == old(queued) + old(active)
      ensures uid in byUid <==> Of(live, uid) != {}
    {
      hide Inv, Of;
      FinishDropKeeps(limits, Whole(), r);
      PositiveCounter(limits, Whole(), r);
      ghost var after := Next(limits, Whole(), FinishDrop(r));
      UserOnRecordIff(limits, after, uid);
      if wasActive { active := SaturatingSub(active, 1); } else { queued := SaturatingSub(queued, 1); }
      if uid in byUid {
        var value := SaturatingSub(byUid[uid], 1);
        byUid := if value == 0 then byUid - {uid} else byUid[uid := value];
      }
      live := live - {r};
      assert Whole() == after;
    }
  }
}
