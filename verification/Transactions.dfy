/** Canonical form of a transaction plan: four lists, each put in a fixed order. */
module Transactions {
  import opened Results
  import opened Sorting

  datatype PackageDelta = PackageDelta(
    package: string, fromVersion: Option<string>, toVersion: Option<string>,
    downloadBytes: nat, sizeDelta: int, serviceEffect: Option<string>)

  datatype ServiceDelta = ServiceDelta(service: string, action: string, expectedState: Option<string>)

  datatype Plan = Plan(
    header: Header, requestedTargets: seq<string>, packageChanges: seq<PackageDelta>,
    serviceChanges: seq<ServiceDelta>, unknownEffects: seq<string>)

  /** The fields canonicalization does not touch. */
  datatype Header = Header(
    version: string, planId: string, createdAtMs: nat, requesterUid: nat, kind: string,
    stateFingerprint: string, approvalRequired: bool)

  /** An absent version sorts before every present one. */
  predicate VersionLeq(a: Option<string>, b: Option<string>) {
    a.None? || (b.Some? && NameLeq(a.value, b.value))
  }

  predicate PackageLeq(a: PackageDelta, b: PackageDelta) {
    if a.package == b.package then VersionLeq(a.toVersion, b.toVersion) else NameLeq(a.package, b.package)
  }

  predicate ServiceLeq(a: ServiceDelta, b: ServiceDelta) {
    if a.service == b.service then NameLeq(a.action, b.action) else NameLeq(a.service, b.service)
  }

  function Canonicalized(p: Plan): Plan {
    p.(requestedTargets := Sort(NameLeq, p.requestedTargets),
       unknownEffects := Sort(NameLeq, p.unknownEffects),
       packageChanges := Sort(PackageLeq, p.packageChanges),
       serviceChanges := Sort(ServiceLeq, p.serviceChanges))
  }

  /** `q` lists the same things as `p`, in any order. */
  ghost predicate Reorders(p: Plan, q: Plan) {
    && p.header == q.header
    && multiset(p.requestedTargets) == multiset(q.requestedTargets)
    && multiset(p.packageChanges) == multiset(q.packageChanges)
    && multiset(p.serviceChanges) == multiset(q.serviceChanges)
    && multiset(p.unknownEffects) == multiset(q.unknownEffects)
  }

  lemma DeltaOrders()
    ensures TotalPreorder(PackageLeq) && TotalPreorder(ServiceLeq)
  {
    NameOrder();
    hide NameLeq;
  }

  /** Canonicalization only reorders, and a canonical plan is its own canonical form. */
  lemma CanonicalizedReordersOnce(p: Plan)
    ensures Reorders(p, Canonicalized(p))
    ensures Canonicalized(Canonicalized(p)) == Canonicalized(p)
  {
    NameOrder();
    DeltaOrders();
    SortSorts(NameLeq, p.requestedTargets);
    SortSorts(NameLeq, p.unknownEffects);
    SortSorts(PackageLeq, p.packageChanges);
    SortSorts(ServiceLeq, p.serviceChanges);
    var c := Canonicalized(p);
    SortOfSorted(NameLeq, c.requestedTargets);
    SortOfSorted(NameLeq, c.unknownEffects);
    SortOfSorted(PackageLeq, c.packageChanges);
    SortOfSorted(ServiceLeq, c.serviceChanges);
  }

  /** Packages come by name and then by the version they are to have, an absent one first; services by name and
      then by action; targets and unknown effects by name. */
  lemma CanonicalizedIsOrdered(p: Plan, i: nat, j: nat)
    requires i < j
    ensures var c := Canonicalized(p);
      && (j < |c.packageChanges| ==>
          var a, b := c.packageChanges[i], c.packageChanges[j];
          if a.package == b.package then
            a.toVersion.None? || (b.toVersion.Some? && NameLeq(a.toVersion.value, b.toVersion.value))
          else NameLeq(a.package, b.package))
      && (j < |c.serviceChanges| ==>
          var a, b := c.serviceChanges[i], c.serviceChanges[j];
          if a.service == b.service then NameLeq(a.action, b.action) else NameLeq(a.service, b.service))
      && (j < |c.requestedTargets| ==> NameLeq(c.requestedTargets[i], c.requestedTargets[j]))
      && (j < |c.unknownEffects| ==> NameLeq(c.unknownEffects[i], c.unknownEffects[j]))
  {
    hide NameLeq, Sort;
    NameOrder();
    DeltaOrders();
    SortSorts(NameLeq, p.requestedTargets);
    SortSorts(NameLeq, p.unknownEffects);
    SortSorts(PackageLeq, p.packageChanges);
    SortSorts(ServiceLeq, p.serviceChanges);
  }

  /** A list of plain names is sorted by its whole value, so its sorted form never depends on the
      order it came in. */
  lemma NamesForgetOrder(s: seq<string>, t: seq<string>)
    requires multiset(s) == multiset(t)
    ensures Sort(NameLeq, s) == Sort(NameLeq, t)
  {
    NameOrder();
    SortForgetsOrderIff(NameLeq, s);
  }

  lemma CanonicalizedForgetsOrder(p: Plan, q: Plan)
    requires Reorders(p, q)
    requires DistinctKeys(PackageLeq, p.packageChanges) && DistinctKeys(ServiceLeq, p.serviceChanges)
    ensures Canonicalized(q) == Canonicalized(p)
  {
    DeltaOrders();
    NamesForgetOrder(p.requestedTargets, q.requestedTargets);
    NamesForgetOrder(p.unknownEffects, q.unknownEffects);
    SortForgetsOrderIff(PackageLeq, p.packageChanges);
    SortForgetsOrderIff(ServiceLeq, p.serviceChanges);
    assert Sort(PackageLeq, q.packageChanges) == Sort(PackageLeq, p.packageChanges);
    assert Sort(ServiceLeq, q.serviceChanges) == Sort(ServiceLeq, p.serviceChanges);
  }

  lemma TiesKeepOrder(p: Plan) returns (q: Plan)
    requires !DistinctKeys(PackageLeq, p.packageChanges) || !DistinctKeys(ServiceLeq, p.serviceChanges)
    ensures Reorders(p, q) && Canonicalized(q) != Canonicalized(p)
  {
    DeltaOrders();
    if !DistinctKeys(PackageLeq, p.packageChanges) {
      SortForgetsOrderIff(PackageLeq, p.packageChanges);
      var t :| multiset(t) == multiset(p.packageChanges) && Sort(PackageLeq, t) != Sort(PackageLeq, p.packageChanges);
      q := p.(packageChanges := t);
      assert Canonicalized(q).packageChanges != Canonicalized(p).packageChanges;
    } else {
      SortForgetsOrderIff(ServiceLeq, p.serviceChanges);
      var t :| multiset(t) == multiset(p.serviceChanges) && Sort(ServiceLeq, t) != Sort(ServiceLeq, p.serviceChanges);
      q := p.(serviceChanges := t);
      assert Canonicalized(q).serviceChanges != Canonicalized(p).serviceChanges;
    }
  }

  /** Every reordering of a plan has the same canonical form exactly when no two different package
      changes agree on name and target version and no two different service changes agree on service
      and action. */
  lemma CanonicalizedForgetsOrderIff(p: Plan)
    ensures (forall q :: Reorders(p, q) ==> Canonicalized(q) == Canonicalized(p))
       <==> DistinctKeys(PackageLeq, p.packageChanges) && DistinctKeys(ServiceLeq, p.serviceChanges)
  {
    if DistinctKeys(PackageLeq, p.packageChanges) && DistinctKeys(ServiceLeq, p.serviceChanges) {
      forall q | Reorders(p, q) ensures Canonicalized(q) == Canonicalized(p) {
        CanonicalizedForgetsOrder(p, q);
      }
    } else {
      var q := TiesKeepOrder(p);
    }
  }
}
