/** The APT worker's canonical plan: what BuildCanonicalPlan extracts from a resolved dependency
    cache, and why it does not depend on the order libapt enumerates packages in. */
module AptPlan {
  import opened Results
  import opened Sorting

  const MAX_DEPENDENCY_ENTRIES := 512

  datatype Version = Version(text: string, origins: set<string>, originDetails: seq<string>, dependencies: seq<string>)

  /** One package of the dependency cache with the marks the resolver left on it. */
  datatype Package = Package(
    name: string, fullName: string, architecture: string,
    installed: Option<Version>, planned: Option<Version>, candidate: Option<string>,
    install: bool, delete: bool, upgrade: bool, downgrade: bool,
    held: bool, essential: bool, important: bool)

  datatype Totals = Totals(
    downloadBytes: int, diskDelta: int, install: nat, remove: nat, keep: nat, broken: nat, policyBroken: nat)

  datatype DepCache = DepCache(packages: seq<Package>, totals: Totals)

  datatype Change = Change(
    package: string, fullName: string, architecture: string,
    fromVersion: Option<string>, toVersion: Option<string>, candidateVersion: Option<string>,
    held: bool, essential: bool, important: bool)

  datatype DependencyChange = DependencyChange(package: string, toVersion: string, dependencies: seq<string>)

  datatype SourceChange = SourceChange(package: string, fromOrigins: seq<string>, toOrigins: seq<string>)

  datatype Plan = Plan(
    operation: string, requested: seq<string>,
    install: seq<Change>, remove: seq<Change>, upgrade: seq<Change>, downgrade: seq<Change>,
    dependencyChanges: seq<DependencyChange>, heldChanges: seq<Change>, essentialRemovals: seq<Change>,
    sourceChanges: seq<SourceChange>, sourceDetectionComplete: bool, totals: Totals)

  // ----- what each array of the plan should hold

  function Text(v: Option<Version>): Option<string> {
    if v.Some? then Some(v.value.text) else None
  }

  function ChangeOf(p: Package): Change {
    Change(p.name, p.fullName, p.architecture, Text(p.installed), Text(p.planned), p.candidate,
           p.held, p.essential, p.important)
  }

  predicate Changed(p: Package) { p.install || p.delete }

  predicate OriginsMove(p: Package) {
    && Changed(p) && p.installed.Some? && p.planned.Some?
    && p.installed.value.origins != {} && p.planned.value.origins != {}
    && p.installed.value.origins != p.planned.value.origins
  }

  predicate OriginsKnown(p: Package) {
    Changed(p) && p.installed.Some? && p.planned.Some? ==>
      p.installed.value.origins != {} && p.planned.value.origins != {}
  }

  function AsChange(p: Package): Option<Change> { if Changed(p) then Some(ChangeOf(p)) else None }

  function AsRemove(p: Package): Option<Change> { if p.delete then Some(ChangeOf(p)) else None }

  function AsDowngrade(p: Package): Option<Change> {
    if p.install && !p.delete && p.downgrade then Some(ChangeOf(p)) else None
  }

  function AsUpgrade(p: Package): Option<Change> {
    if p.install && !p.delete && !p.downgrade && p.installed.Some? && p.upgrade then Some(ChangeOf(p)) else None
  }

  function AsInstall(p: Package): Option<Change> {
    if p.install && !p.delete && !p.downgrade && !(p.installed.Some? && p.upgrade) then Some(ChangeOf(p)) else None
  }

  function AsHeld(p: Package): Option<Change> { if Changed(p) && p.held then Some(ChangeOf(p)) else None }

  function AsEssential(p: Package): Option<Change> {
    if p.delete && (p.essential || p.important) then Some(ChangeOf(p)) else None
  }

  function AsDependency(p: Package): Option<DependencyChange> {
    if Changed(p) && p.planned.Some? then
      Some(DependencyChange(p.name, p.planned.value.text, Capped(p.planned.value.dependencies)))
    else None
  }

  function AsSource(p: Package): Option<SourceChange> {
    if OriginsMove(p) then
      Some(SourceChange(p.name, p.installed.value.originDetails, p.planned.value.originDetails))
    else None
  }

  function Capped(dependencies: seq<string>): seq<string> {
    if |dependencies| <= MAX_DEPENDENCY_ENTRIES then dependencies else dependencies[..MAX_DEPENDENCY_ENTRIES]
  }

  predicate ChangeLeq(a: Change, b: Change) { NameLeq(a.package, b.package) }

  predicate DependencyLeq(a: DependencyChange, b: DependencyChange) { NameLeq(a.package, b.package) }

  predicate SourceLeq(a: SourceChange, b: SourceChange) { NameLeq(a.package, b.package) }

  /** The entries `f` keeps, in enumeration order. */
  function Select<A, B>(f: A -> Option<B>, s: seq<A>): seq<B> {
    if s == [] then []
    else
      var rest := Select(f, s[..|s| - 1]);
      var last := f(s[|s| - 1]);
      if last.Some? then rest + [last.value] else rest
  }

  /** `plan` is one of the plans BuildCanonicalPlan may return for `cache`: std::sort fixes no order
      among entries with the same package name. */
  ghost predicate IsPlanOf(operation: string, requested: seq<string>, cache: DepCache, plan: Plan) {
    && plan.operation == operation && plan.totals == cache.totals
    && SortsTo(NameLeq, requested, plan.requested)
    && SortsTo(ChangeLeq, Select(AsInstall, cache.packages), plan.install)
    && SortsTo(ChangeLeq, Select(AsRemove, cache.packages), plan.remove)
    && SortsTo(ChangeLeq, Select(AsUpgrade, cache.packages), plan.upgrade)
    && SortsTo(ChangeLeq, Select(AsDowngrade, cache.packages), plan.downgrade)
    && SortsTo(ChangeLeq, Select(AsHeld, cache.packages), plan.heldChanges)
    && SortsTo(ChangeLeq, Select(AsEssential, cache.packages), plan.essentialRemovals)
    && SortsTo(DependencyLeq, Select(AsDependency, cache.packages), plan.dependencyChanges)
    && SortsTo(SourceLeq, Select(AsSource, cache.packages), plan.sourceChanges)
    && plan.sourceDetectionComplete == (forall i :: 0 <= i < |cache.packages| ==> OriginsKnown(cache.packages[i]))
  }

  // ----- the worker's loop

  lemma ChangeOrders()
    ensures TotalPreorder(NameLeq) && TotalPreorder(ChangeLeq)
    ensures TotalPreorder(DependencyLeq) && TotalPreorder(SourceLeq)
  {
    NameOrder();
  }

  /** std::sort with a comparison by package name. */
  method SortChangeArray<T(!new)>(leq: (T, T) -> bool, changes: seq<T>) returns (sorted: seq<T>)
    requires TotalPreorder(leq)
    ensures SortsTo(leq, changes, sorted)
  {
    sorted := Sort(leq, changes);
    SortSorts(leq, changes);
  }

  /** The eight arrays the worker's enumeration loop fills, and its completeness flag. */
  datatype Collected = Collected(
    install: seq<Change>, remove: seq<Change>, upgrade: seq<Change>, downgrade: seq<Change>,
    held: seq<Change>, essential: seq<Change>, dependencies: seq<DependencyChange>, sources: seq<SourceChange>,
    complete: bool)

  ghost predicate Collects(packages: seq<Package>, c: Collected) {
    && c.install == Select(AsInstall, packages) && c.remove == Select(AsRemove, packages)
    && c.upgrade == Select(AsUpgrade, packages) && c.downgrade == Select(AsDowngrade, packages)
    && c.held == Select(AsHeld, packages) && c.essential == Select(AsEssential, packages)
    && c.dependencies == Select(AsDependency, packages) && c.sources == Select(AsSource, packages)
    && c.complete == (forall k :: 0 <= k < |packages| ==> OriginsKnown(packages[k]))
  }

  function With<T>(s: seq<T>, entry: Option<T>): seq<T> {
    if entry.Some? then s + [entry.value] else s
  }

  /** What one more package should add to each array. */
  ghost predicate Adds(c: Collected, p: Package, r: Collected) {
    && r.install == With(c.install, AsInstall(p)) && r.remove == With(c.remove, AsRemove(p))
    && r.upgrade == With(c.upgrade, AsUpgrade(p)) && r.downgrade == With(c.downgrade, AsDowngrade(p))
    && r.held == With(c.held, AsHeld(p)) && r.essential == With(c.essential, AsEssential(p))
    && r.dependencies == With(c.dependencies, AsDependency(p)) && r.sources == With(c.sources, AsSource(p))
    && r.complete == (c.complete && OriginsKnown(p))
  }

  lemma SelectSnoc<A, B>(f: A -> Option<B>, s: seq<A>, x: A)
    ensures Select(f, s + [x]) == With(Select(f, s), f(x))
  {
    assert (s + [x])[..|s|] == s;
  }

  lemma CollectsSnoc(before: seq<Package>, c: Collected, p: Package, r: Collected)
    requires Collects(before, c) && Adds(c, p, r)
    ensures Collects(before + [p], r)
  {
    SelectSnoc(AsInstall, before, p);
    SelectSnoc(AsRemove, before, p);
    SelectSnoc(AsUpgrade, before, p);
    SelectSnoc(AsDowngrade, before, p);
    SelectSnoc(AsHeld, before, p);
    SelectSnoc(AsEssential, before, p);
    SelectSnoc(AsDependency, before, p);
    SelectSnoc(AsSource, before, p);
    var all := before + [p];
    assert all[|before|] == p;
    assert forall k :: 0 <= k < |before| ==> all[k] == before[k];
  }

  /** One turn of the enumeration loop. */
  method CollectOne(c: Collected, p: Package) returns (r: Collected)
    ensures Adds(c, p, r)
  {
    hide ChangeOf, Capped;
    if !(p.install || p.delete) { return c; }
    var change := ChangeOf(p);
    var install, remove, upgrade, downgrade := c.install, c.remove, c.upgrade, c.downgrade;
    var held, essential, dependencies, sources, complete := c.held, c.essential, c.dependencies, c.sources, c.complete;
    if p.delete {
      remove := remove + [change];
      if p.essential || p.important { essential := essential + [change]; }
    } else if p.downgrade {
      downgrade := downgrade + [change];
    } else if p.installed.None? || !p.upgrade {
      install := install + [change];
    } else {
      upgrade := upgrade + [change];
    }
    if p.held { held := held + [change]; }
    if p.planned.Some? {
      dependencies :=
        dependencies + [DependencyChange(p.name, p.planned.value.text, Capped(p.planned.value.dependencies))];
    }
    if p.installed.Some? && p.planned.Some? {
      var was, becomes := p.installed.value, p.planned.value;
      if was.origins == {} || becomes.origins == {} {
        complete := false;
      } else if was.origins != becomes.origins {
        sources := sources + [SourceChange(p.name, was.originDetails, becomes.originDetails)];
      }
    }
    r := Collected(install, remove, upgrade, downgrade, held, essential, dependencies, sources, complete);
  }

  method BuildCanonicalPlan(operation: string, requested: seq<string>, cache: DepCache) returns (plan: Plan)
    ensures IsPlanOf(operation, requested, cache, plan)
  {
    var packages := cache.packages;
    var c := Collected([], [], [], [], [], [], [], [], true);
    for i := 0 to |packages|
      invariant Collects(packages[..i], c)
    {
      var r := CollectOne(c, packages[i]);
      CollectsSnoc(packages[..i], c, packages[i], r);
      c := r;
      assert packages[..i] + [packages[i]] == packages[..i + 1];
    }
    assert packages[..|packages|] == packages;
    ChangeOrders();
    var install := SortChangeArray(ChangeLeq, c.install);
    var remove := SortChangeArray(ChangeLeq, c.remove);
    var upgrade := SortChangeArray(ChangeLeq, c.upgrade);
    var downgrade := SortChangeArray(ChangeLeq, c.downgrade);
    var held := SortChangeArray(ChangeLeq, c.held);
    var sources := SortChangeArray(SourceLeq, c.sources);
    var essential := SortChangeArray(ChangeLeq, c.essential);
    var dependencies := SortChangeArray(DependencyLeq, c.dependencies);
    var names := SortChangeArray(NameLeq, requested);
    plan := Plan(operation, names, install, remove, upgrade, downgrade, dependencies, held, essential,
                 sources, c.complete, cache.totals);
  }

  // ----- what the plan says about the packages

  lemma {:induction false} SelectEmptyIff<A, B>(f: A -> Option<B>, s: seq<A>)
    ensures Select(f, s) == [] <==> forall i :: 0 <= i < |s| ==> f(s[i]).None?
  {
    if s != [] {
      SelectEmptyIff(f, s[..|s| - 1]);
      assert f(s[|s| - 1]).None? || Select(f, s) != [];
      assert forall i :: 0 <= i < |s| - 1 ==> s[i] == s[..|s| - 1][i];
    }
  }

  lemma SortedEmptyIff<T>(leq: (T, T) -> bool, s: seq<T>, t: seq<T>)
    requires SortsTo(leq, s, t)
    ensures s == [] <==> t == []
  {
    assert |s| == |multiset(s)| == |multiset(t)| == |t|;
  }

  /** A package the worker's three execution guards exist to keep out. */
  predicate Guarded(p: Package) {
    || (p.delete && (p.essential || p.important))
    || (Changed(p) && p.held)
    || OriginsMove(p)
  }

  /** The three guarded arrays of a plan are all empty exactly when no package of the dependency
      cache is a removed essential or important package, a changed held package, or a package whose
      known origins move. */
  lemma GuardsEmptyIff(operation: string, requested: seq<string>, cache: DepCache, plan: Plan)
    requires IsPlanOf(operation, requested, cache, plan)
    ensures plan.sourceChanges == [] && plan.essentialRemovals == [] && plan.heldChanges == []
       <==> forall i :: 0 <= i < |cache.packages| ==> !Guarded(cache.packages[i])
  {
    var ps := cache.packages;
    SelectEmptyIff(AsSource, ps);
    SelectEmptyIff(AsEssential, ps);
    SelectEmptyIff(AsHeld, ps);
    SortedEmptyIff(SourceLeq, Select(AsSource, ps), plan.sourceChanges);
    SortedEmptyIff(ChangeLeq, Select(AsEssential, ps), plan.essentialRemovals);
    SortedEmptyIff(ChangeLeq, Select(AsHeld, ps), plan.heldChanges);
    if forall i :: 0 <= i < |ps| ==> !Guarded(ps[i]) {
      forall i | 0 <= i < |ps| ensures AsSource(ps[i]).None? && AsEssential(ps[i]).None? && AsHeld(ps[i]).None? {
        assert !Guarded(ps[i]);
      }
    } else {
      var i :| 0 <= i < |ps| && Guarded(ps[i]);
      assert AsSource(ps[i]).Some? || AsEssential(ps[i]).Some? || AsHeld(ps[i]).Some?;
    }
  }

  /** The origins of a package that is changed from one version to another are known and stay the same. */
  predicate KeepsOrigins(p: Package) {
    Changed(p) && p.installed.Some? && p.planned.Some? ==>
      p.installed.value.origins != {} && p.installed.value.origins == p.planned.value.origins
  }

  /** An empty list of source changes means that every package keeps its origins exactly when all origins
      were known. */
  lemma OriginsKeptIff(operation: string, requested: seq<string>, cache: DepCache, plan: Plan)
    requires IsPlanOf(operation, requested, cache, plan)
    ensures (forall i :: 0 <= i < |cache.packages| ==> KeepsOrigins(cache.packages[i])) <==>
      plan.sourceChanges == [] && plan.sourceDetectionComplete
  {
    var ps := cache.packages;
    SelectEmptyIff(AsSource, ps);
    SortedEmptyIff(SourceLeq, Select(AsSource, ps), plan.sourceChanges);
    hide Select, SortsTo;
    if forall i :: 0 <= i < |ps| ==> KeepsOrigins(ps[i]) {
      forall i | 0 <= i < |ps| ensures AsSource(ps[i]).None? && OriginsKnown(ps[i]) { assert KeepsOrigins(ps[i]); }
    }
    if plan.sourceChanges == [] && plan.sourceDetectionComplete {
      forall i | 0 <= i < |ps| ensures KeepsOrigins(ps[i]) { assert AsSource(ps[i]).None? && OriginsKnown(ps[i]); }
    }
  }

  /** A package upgraded to a version of unknown origin passes all three guards. */
  lemma UnknownOriginPasses(name: string, origin: string, totals: Totals) returns (cache: DepCache, plan: Plan)
    ensures IsPlanOf("apt_upgrade", [], cache, plan)
    ensures plan.sourceChanges == [] && plan.essentialRemovals == [] && plan.heldChanges == []
    ensures |cache.packages| == 1 && !KeepsOrigins(cache.packages[0])
  {
    hide IsPlanOf, SortedPlan;
    var p := Package(name, name, "all", Some(Version("1", {origin}, [], [])), Some(Version("2", {}, [], [])), None,
                     true, false, true, false, false, false, false);
    cache := DepCache([p], totals);
    plan := UnguardedPlan("apt_upgrade", [], cache);
    assert origin in p.installed.value.origins;
  }

  lemma UnguardedPlan(operation: string, requested: seq<string>, cache: DepCache) returns (plan: Plan)
    requires forall i :: 0 <= i < |cache.packages| ==> !Guarded(cache.packages[i])
    ensures IsPlanOf(operation, requested, cache, plan)
    ensures plan.sourceChanges == [] && plan.essentialRemovals == [] && plan.heldChanges == []
  {
    hide IsPlanOf, SortedPlan, Guarded;
    plan := SortedPlan(operation, requested, cache);
    SortedPlanIsPlan(operation, requested, cache);
    GuardsEmptyIff(operation, requested, cache, plan);
  }

  /** A cache in which nothing changes has an unguarded plan for any request. */
  lemma IdlePlan(operation: string, requested: seq<string>, totals: Totals) returns (cache: DepCache, plan: Plan)
    ensures IsPlanOf(operation, requested, cache, plan)
    ensures plan.sourceChanges == [] && plan.essentialRemovals == [] && plan.heldChanges == []
  {
    cache := DepCache([], totals);
    plan := UnguardedPlan(operation, requested, cache);
  }

  lemma {:induction false} SelectPartition(s: seq<Package>)
    ensures multiset(Select(AsInstall, s)) + multiset(Select(AsRemove, s))
          + multiset(Select(AsUpgrade, s)) + multiset(Select(AsDowngrade, s)) == multiset(Select(AsChange, s))
  {
    if s != [] { SelectPartition(s[..|s| - 1]); }
  }

  /** Every changed package lands in exactly one of install, remove, upgrade and downgrade: the four
      arrays together hold each change exactly as often as the cache does, and no package is taken
      by two of them. */
  lemma ChangesPartition(operation: string, requested: seq<string>, cache: DepCache, plan: Plan)
    requires IsPlanOf(operation, requested, cache, plan)
    ensures multiset(plan.install) + multiset(plan.remove) + multiset(plan.upgrade) + multiset(plan.downgrade)
         == multiset(Select(AsChange, cache.packages))
    ensures forall p :: p in cache.packages ==>
      Kept(AsInstall(p)) + Kept(AsRemove(p)) + Kept(AsUpgrade(p)) + Kept(AsDowngrade(p)) == Kept(AsChange(p))
  {
    SelectPartition(cache.packages);
  }

  function Kept<T>(entry: Option<T>): nat {
    if entry.Some? then 1 else 0
  }

  /** An entry says what its package is called, what is installed, and what is to be. */
  predicate Describes(c: Change, p: Package) {
    && c.package == p.name && c.fullName == p.fullName && c.architecture == p.architecture
    && (c.fromVersion.Some? <==> p.installed.Some?) && (c.toVersion.Some? <==> p.planned.Some?)
    && (p.installed.Some? ==> c.fromVersion.value == p.installed.value.text)
    && (p.planned.Some? ==> c.toVersion.value == p.planned.value.text)
    && c.candidateVersion == p.candidate && c.held == p.held && c.essential == p.essential && c.important == p.important
  }

  lemma SelectHas<B(!new)>(f: Package -> Option<B>, s: seq<Package>, t: seq<B>, leq: (B, B) -> bool, c: B)
    returns (p: Package)
    requires SortsTo(leq, Select(f, s), t) && c in t
    ensures p in s && f(p) == Some(c)
  {
    assert c in multiset(t);
    assert c in multiset(Select(f, s));
    var i :| 0 <= i < |Select(f, s)| && Select(f, s)[i] == c;
    var k := SelectOrigin(f, s, i);
    p := s[k];
  }

  /** Every entry of the four lists of changes describes a package of the cache that is marked for that change. */
  lemma EntryDescribes(operation: string, requested: seq<string>, cache: DepCache, plan: Plan, c: Change)
    returns (p: Package)
    requires IsPlanOf(operation, requested, cache, plan)
    requires c in plan.install || c in plan.remove || c in plan.upgrade || c in plan.downgrade
    ensures p in cache.packages && Describes(c, p)
    ensures p.delete || p.install
    ensures p.delete ==> c in plan.remove
    ensures !p.delete && p.downgrade ==> c in plan.downgrade
    ensures !p.delete && !p.downgrade ==>
      if p.installed.Some? && p.upgrade then c in plan.upgrade else c in plan.install
  {
    hide Select, SortsTo;
    if c in plan.remove {
      p := SelectHas(AsRemove, cache.packages, plan.remove, ChangeLeq, c);
    } else if c in plan.install {
      p := SelectHas(AsInstall, cache.packages, plan.install, ChangeLeq, c);
    } else if c in plan.upgrade {
      p := SelectHas(AsUpgrade, cache.packages, plan.upgrade, ChangeLeq, c);
    } else {
      p := SelectHas(AsDowngrade, cache.packages, plan.downgrade, ChangeLeq, c);
    }
  }

  lemma {:induction false} SelectKeepsEach<A, B>(f: A -> Option<B>, s: seq<A>, i: nat)
    requires i < |s| && f(s[i]).Some?
    ensures f(s[i]).value in Select(f, s)
  {
    if i < |s| - 1 { SelectKeepsEach(f, s[..|s| - 1], i); }
  }

  lemma SortedHas<B>(leq: (B, B) -> bool, s: seq<B>, t: seq<B>, c: B)
    requires SortsTo(leq, s, t) && c in s
    ensures c in t
  {
    assert c in multiset(s);
    assert c in multiset(t);
  }

  /** Every package marked for a change is in the list for that change: removals first, then downgrades, then
      upgrades of what is installed, and everything else is an installation. */
  lemma PackageListed(operation: string, requested: seq<string>, cache: DepCache, plan: Plan, i: nat)
    returns (c: Change)
    requires IsPlanOf(operation, requested, cache, plan) && i < |cache.packages| && Changed(cache.packages[i])
    ensures var p := cache.packages[i];
      && Describes(c, p)
      && (if p.delete then c in plan.remove
          else if p.downgrade then c in plan.downgrade
          else if p.installed.Some? && p.upgrade then c in plan.upgrade
          else c in plan.install)
  {
    hide Select, SortsTo;
    var ps := cache.packages;
    var p := ps[i];
    c := ChangeOf(p);
    if p.delete {
      SelectKeepsEach(AsRemove, ps, i);
      SortedHas(ChangeLeq, Select(AsRemove, ps), plan.remove, c);
    } else if p.downgrade {
      SelectKeepsEach(AsDowngrade, ps, i);
      SortedHas(ChangeLeq, Select(AsDowngrade, ps), plan.downgrade, c);
    } else if p.installed.Some? && p.upgrade {
      SelectKeepsEach(AsUpgrade, ps, i);
      SortedHas(ChangeLeq, Select(AsUpgrade, ps), plan.upgrade, c);
    } else {
      SelectKeepsEach(AsInstall, ps, i);
      SortedHas(ChangeLeq, Select(AsInstall, ps), plan.install, c);
    }
  }

  /** A source change goes from where the installed version comes from to where the planned one does. */
  lemma SourceDescribes(operation: string, requested: seq<string>, cache: DepCache, plan: Plan, c: SourceChange)
    returns (p: Package)
    requires IsPlanOf(operation, requested, cache, plan) && c in plan.sourceChanges
    ensures p in cache.packages && p.installed.Some? && p.planned.Some? && c.package == p.name
    ensures c.fromOrigins == p.installed.value.originDetails && c.toOrigins == p.planned.value.originDetails
    ensures p.installed.value.origins != p.planned.value.origins
  {
    hide Select, SortsTo;
    p := SelectHas(AsSource, cache.packages, plan.sourceChanges, SourceLeq, c);
  }

  /** A dependency entry has the first 512 dependencies of the planned version. */
  lemma DependencyDescribes(operation: string, requested: seq<string>, cache: DepCache, plan: Plan, c: DependencyChange)
    returns (p: Package)
    requires IsPlanOf(operation, requested, cache, plan) && c in plan.dependencyChanges
    ensures p in cache.packages && p.planned.Some? && c.package == p.name && c.toVersion == p.planned.value.text
    ensures c.dependencies <= p.planned.value.dependencies
    ensures |c.dependencies| == 512 || c.dependencies == p.planned.value.dependencies
  {
    hide Select, SortsTo;
    p := SelectHas(AsDependency, cache.packages, plan.dependencyChanges, DependencyLeq, c);
  }

  // ----- the enumeration order does not matter

  lemma {:induction false} SelectAppend<A, B>(f: A -> Option<B>, s: seq<A>, t: seq<A>)
    ensures Select(f, s + t) == Select(f, s) + Select(f, t)
  {
    if t == [] {
      assert s + t == s;
    } else {
      SelectAppend(f, s, t[..|t| - 1]);
      assert (s + t)[..|s + t| - 1] == s + t[..|t| - 1];
    }
  }

  lemma WithoutOne<A>(s: seq<A>, t: seq<A>, k: nat)
    requires multiset(s) == multiset(t) && s != [] && k < |t| && t[k] == s[|s| - 1]
    ensures multiset(s[..|s| - 1]) == multiset(t[..k] + t[k + 1..])
  {
    assert s == s[..|s| - 1] + [s[|s| - 1]];
    assert t == t[..k] + [t[k]] + t[k + 1..];
    assert multiset(t) == multiset(t[..k]) + multiset{t[k]} + multiset(t[k + 1..]);
    assert multiset(s[..|s| - 1]) == multiset(s) - multiset{t[k]};
    assert multiset(t[..k]) + multiset(t[k + 1..]) == multiset(t) - multiset{t[k]};
    assert multiset(t[..k] + t[k + 1..]) == multiset(t[..k]) + multiset(t[k + 1..]);
  }

  lemma WithBetween<B>(a: seq<B>, x: Option<B>, b: seq<B>)
    ensures multiset(With(a, x) + b) == multiset(With(a + b, x))
  {
    if x.Some? {
      assert multiset(a + [x.value] + b) == multiset(a) + multiset{x.value} + multiset(b);
      assert multiset(a + b + [x.value]) == multiset(a) + multiset(b) + multiset{x.value};
    }
  }

  lemma SelectAround<A, B>(f: A -> Option<B>, t: seq<A>, k: nat)
    requires k < |t|
    ensures multiset(Select(f, t)) == multiset(With(Select(f, t[..k] + t[k + 1..]), f(t[k])))
  {
    hide Select, With;
    var a, x, b := t[..k], t[k], t[k + 1..];
    assert t == a + [x] + b;
    SelectAppend(f, a + [x], b);
    SelectSnoc(f, a, x);
    SelectAppend(f, a, b);
    WithBetween(Select(f, a), f(x), Select(f, b));
  }

  lemma {:induction false} SelectReordered<A, B>(f: A -> Option<B>, s: seq<A>, t: seq<A>)
    requires multiset(s) == multiset(t)
    ensures multiset(Select(f, s)) == multiset(Select(f, t))
    decreases |s|
  {
    assert |s| == |multiset(s)| == |multiset(t)| == |t|;
    if s != [] {
      var n := |s| - 1;
      assert s[n] in multiset(t);
      var k :| 0 <= k < |t| && t[k] == s[n];
      WithoutOne(s, t, k);
      SelectReordered(f, s[..n], t[..k] + t[k + 1..]);
      SelectAround(f, t, k);
    }
  }

  /** Packages of one name that `f` keeps have the same entry. */
  ghost predicate Agree<B>(f: Package -> Option<B>, packages: seq<Package>) {
    forall i, j :: 0 <= i < |packages| && 0 <= j < |packages| ==> SameEntry(f, packages[i], packages[j])
  }

  ghost predicate SameEntry<B>(f: Package -> Option<B>, p: Package, q: Package) {
    p.name == q.name && f(p).Some? && f(q).Some? ==> f(p) == f(q)
  }

  /** No array of the plan has two different entries under one name. */
  ghost predicate NoTies(packages: seq<Package>) {
    && Agree(AsInstall, packages) && Agree(AsRemove, packages)
    && Agree(AsUpgrade, packages) && Agree(AsDowngrade, packages)
    && Agree(AsHeld, packages) && Agree(AsEssential, packages)
    && Agree(AsDependency, packages) && Agree(AsSource, packages)
  }

  lemma {:induction false} SelectKeeps<A, B>(f: A -> Option<B>, s: seq<A>, i: nat) returns (k: nat)
    requires i < |s| && f(s[i]).Some?
    ensures k < |Select(f, s)| && Select(f, s)[k] == f(s[i]).value
  {
    var n := |s| - 1;
    if i < n { k := SelectKeeps(f, s[..n], i); } else { k := |Select(f, s[..n])|; }
  }

  lemma {:induction false} SelectOrigin<A, B>(f: A -> Option<B>, s: seq<A>, k: nat) returns (i: nat)
    requires k < |Select(f, s)|
    ensures i < |s| && f(s[i]) == Some(Select(f, s)[k])
  {
    var n := |s| - 1;
    if k < |Select(f, s[..n])| { i := SelectOrigin(f, s[..n], k); } else { i := n; }
  }

  /** `f` keeps only changed packages and files them under their own name. */
  ghost predicate ByName<B(!new)>(f: Package -> Option<B>, leq: (B, B) -> bool) {
    forall p, q :: f(p).Some? && f(q).Some? ==>
      Changed(p) && Changed(q) && (leq(f(p).value, f(q).value) <==> NameLeq(p.name, q.name))
  }

  lemma OneOrder<B(!new)>(
    f: Package -> Option<B>, leq: (B, B) -> bool, s: seq<Package>, t: seq<Package>, a: seq<B>, b: seq<B>)
    requires ByName(f, leq) && TotalPreorder(leq)
    requires multiset(s) == multiset(t) && Agree(f, s)
    requires SortsTo(leq, Select(f, s), a) && SortsTo(leq, Select(f, t), b)
    ensures a == b
  {
    hide TotalPreorder, Select, Agree, ByName, DistinctKeys;
    SelectReordered(f, s, t);
    SelectedKeysIff(f, leq, s);
    SortedOrderUniqueIff(leq, Select(f, s));
    assert SortsTo(leq, Select(f, s), a) && SortsTo(leq, Select(f, s), b);
  }

  lemma SelectedKeysIff<B(!new)>(f: Package -> Option<B>, leq: (B, B) -> bool, s: seq<Package>)
    requires ByName(f, leq)
    ensures DistinctKeys(leq, Select(f, s)) <==> Agree(f, s)
  {
    var u := Select(f, s);
    if Agree(f, s) {
      forall i, j | 0 <= i < |u| && 0 <= j < |u| && leq(u[i], u[j]) && leq(u[j], u[i]) ensures u[i] == u[j] {
        var k := SelectOrigin(f, s, i);
        var l := SelectOrigin(f, s, j);
        NameAntisymmetric(s[k].name, s[l].name);
        assert SameEntry(f, s[k], s[l]);
      }
    }
    if DistinctKeys(leq, u) {
      forall i, j | 0 <= i < |s| && 0 <= j < |s| && s[i].name == s[j].name && f(s[i]).Some? && f(s[j]).Some?
        ensures SameEntry(f, s[i], s[j])
      {
        var k := SelectKeeps(f, s, i);
        var l := SelectKeeps(f, s, j);
        NameTotal(s[i].name, s[j].name);
      }
    }
  }

  lemma TwoOrders<B(!new)>(f: Package -> Option<B>, leq: (B, B) -> bool, s: seq<Package>) returns (t: seq<B>, u: seq<B>)
    requires ByName(f, leq) && TotalPreorder(leq) && !Agree(f, s)
    ensures SortsTo(leq, Select(f, s), t) && SortsTo(leq, Select(f, s), u) && t != u
  {
    hide TotalPreorder, Select, Agree, ByName, DistinctKeys;
    SelectedKeysIff(f, leq, s);
    SortedOrderUniqueIff(leq, Select(f, s));
    t, u :| SortsTo(leq, Select(f, s), t) && SortsTo(leq, Select(f, s), u) && t != u;
  }

  lemma ChangesByName()
    ensures ByName(AsInstall, ChangeLeq) && ByName(AsRemove, ChangeLeq) && ByName(AsUpgrade, ChangeLeq)
    ensures ByName(AsDowngrade, ChangeLeq) && ByName(AsHeld, ChangeLeq) && ByName(AsEssential, ChangeLeq)
  {
    hide NameLeq;
  }

  lemma OthersByName()
    ensures ByName(AsDependency, DependencyLeq) && ByName(AsSource, SourceLeq)
  {
    hide NameLeq, Capped;
  }

  lemma FiledByName()
    ensures ByName(AsInstall, ChangeLeq) && ByName(AsRemove, ChangeLeq) && ByName(AsUpgrade, ChangeLeq)
    ensures ByName(AsDowngrade, ChangeLeq) && ByName(AsHeld, ChangeLeq) && ByName(AsEssential, ChangeLeq)
    ensures ByName(AsDependency, DependencyLeq) && ByName(AsSource, SourceLeq)
  {
    hide ByName;
    ChangesByName();
    OthersByName();
  }

  lemma RequestedOrder(s: seq<string>, a: seq<string>, b: seq<string>)
    requires SortsTo(NameLeq, s, a) && SortsTo(NameLeq, s, b)
    ensures a == b
  {
    NameOrder();
    SortedOrderUniqueIff(NameLeq, s);
  }

  lemma OriginsKnownReordered(s: seq<Package>, t: seq<Package>)
    requires multiset(s) == multiset(t)
    requires forall i :: 0 <= i < |s| ==> OriginsKnown(s[i])
    ensures forall i :: 0 <= i < |t| ==> OriginsKnown(t[i])
  {
    forall i | 0 <= i < |t| ensures OriginsKnown(t[i]) {
      assert t[i] in multiset(s);
      var k :| 0 <= k < |s| && s[k] == t[i];
    }
  }

  /** Two enumerations of the same resolved packages give the same plan, whatever order the sort
      leaves ties in, when no array has different entries under one name. */
  lemma EnumerationOrderForgotten(operation: string, requested: seq<string>, c: DepCache, d: DepCache, p: Plan, q: Plan)
    requires IsPlanOf(operation, requested, c, p) && IsPlanOf(operation, requested, d, q)
    requires multiset(c.packages) == multiset(d.packages) && c.totals == d.totals && NoTies(c.packages)
    ensures p == q
  {
    hide Select, Agree, ByName, TotalPreorder, OriginsKnown;
    ChangeOrders();
    FiledByName();
    RequestedOrder(requested, p.requested, q.requested);
    OneOrder(AsInstall, ChangeLeq, c.packages, d.packages, p.install, q.install);
    OneOrder(AsRemove, ChangeLeq, c.packages, d.packages, p.remove, q.remove);
    OneOrder(AsUpgrade, ChangeLeq, c.packages, d.packages, p.upgrade, q.upgrade);
    OneOrder(AsDowngrade, ChangeLeq, c.packages, d.packages, p.downgrade, q.downgrade);
    OneOrder(AsHeld, ChangeLeq, c.packages, d.packages, p.heldChanges, q.heldChanges);
    OneOrder(AsEssential, ChangeLeq, c.packages, d.packages, p.essentialRemovals, q.essentialRemovals);
    OneOrder(AsDependency, DependencyLeq, c.packages, d.packages, p.dependencyChanges, q.dependencyChanges);
    OneOrder(AsSource, SourceLeq, c.packages, d.packages, p.sourceChanges, q.sourceChanges);
    if p.sourceDetectionComplete { OriginsKnownReordered(c.packages, d.packages); }
    if q.sourceDetectionComplete { OriginsKnownReordered(d.packages, c.packages); }
  }

  /** Some plan of a cache. */
  function SortedPlan(operation: string, requested: seq<string>, cache: DepCache): Plan {
    Plan(operation, Sort(NameLeq, requested),
         Sort(ChangeLeq, Select(AsInstall, cache.packages)), Sort(ChangeLeq, Select(AsRemove, cache.packages)),
         Sort(ChangeLeq, Select(AsUpgrade, cache.packages)), Sort(ChangeLeq, Select(AsDowngrade, cache.packages)),
         Sort(DependencyLeq, Select(AsDependency, cache.packages)), Sort(ChangeLeq, Select(AsHeld, cache.packages)),
         Sort(ChangeLeq, Select(AsEssential, cache.packages)), Sort(SourceLeq, Select(AsSource, cache.packages)),
         forall i :: 0 <= i < |cache.packages| ==> OriginsKnown(cache.packages[i]), cache.totals)
  }

  lemma SortedPlanIsPlan(operation: string, requested: seq<string>, cache: DepCache)
    ensures IsPlanOf(operation, requested, cache, SortedPlan(operation, requested, cache))
  {
    hide Select, Sort, TotalPreorder, SortsTo, OriginsKnown;
    ChangeOrders();
    SortSorts(NameLeq, requested);
    SortSorts(ChangeLeq, Select(AsInstall, cache.packages));
    SortSorts(ChangeLeq, Select(AsRemove, cache.packages));
    SortSorts(ChangeLeq, Select(AsUpgrade, cache.packages));
    SortSorts(ChangeLeq, Select(AsDowngrade, cache.packages));
    SortSorts(ChangeLeq, Select(AsHeld, cache.packages));
    SortSorts(ChangeLeq, Select(AsEssential, cache.packages));
    SortSorts(DependencyLeq, Select(AsDependency, cache.packages));
    SortSorts(SourceLeq, Select(AsSource, cache.packages));
  }

  /** A tie leaves the order, and with it the plan and its digest, to the sort. */
  lemma TiesLeaveAChoice(operation: string, requested: seq<string>, cache: DepCache) returns (p: Plan, q: Plan)
    requires !NoTies(cache.packages)
    ensures IsPlanOf(operation, requested, cache, p) && IsPlanOf(operation, requested, cache, q) && p != q
  {
    hide Select, Sort, TotalPreorder, SortsTo, OriginsKnown, Agree, ByName, SortedPlan;
    ChangeOrders();
    FiledByName();
    SortedPlanIsPlan(operation, requested, cache);
    var plan := SortedPlan(operation, requested, cache);
    if !Agree(AsInstall, cache.packages) {
      var t, u := TwoOrders(AsInstall, ChangeLeq, cache.packages);
      p, q := plan.(install := t), plan.(install := u);
    } else if !Agree(AsRemove, cache.packages) {
      var t, u := TwoOrders(AsRemove, ChangeLeq, cache.packages);
      p, q := plan.(remove := t), plan.(remove := u);
    } else if !Agree(AsUpgrade, cache.packages) {
      var t, u := TwoOrders(AsUpgrade, ChangeLeq, cache.packages);
      p, q := plan.(upgrade := t), plan.(upgrade := u);
    } else if !Agree(AsDowngrade, cache.packages) {
      var t, u := TwoOrders(AsDowngrade, ChangeLeq, cache.packages);
      p, q := plan.(downgrade := t), plan.(downgrade := u);
    } else if !Agree(AsHeld, cache.packages) {
      var t, u := TwoOrders(AsHeld, ChangeLeq, cache.packages);
      p, q := plan.(heldChanges := t), plan.(heldChanges := u);
    } else if !Agree(AsEssential, cache.packages) {
      var t, u := TwoOrders(AsEssential, ChangeLeq, cache.packages);
      p, q := plan.(essentialRemovals := t), plan.(essentialRemovals := u);
    } else if !Agree(AsDependency, cache.packages) {
      var t, u := TwoOrders(AsDependency, DependencyLeq, cache.packages);
      p, q := plan.(dependencyChanges := t), plan.(dependencyChanges := u);
    } else {
      var t, u := TwoOrders(AsSource, SourceLeq, cache.packages);
      p, q := plan.(sourceChanges := t), plan.(sourceChanges := u);
    }
  }

  /** `d` enumerates the packages of `c` in some order. */
  ghost predicate SamePackages(c: DepCache, d: DepCache) {
    multiset(c.packages) == multiset(d.packages) && c.totals == d.totals
  }

  ghost predicate PlansAgree(operation: string, requested: seq<string>, c: DepCache, d: DepCache, p: Plan, q: Plan) {
    SamePackages(c, d) && IsPlanOf(operation, requested, c, p) && IsPlanOf(operation, requested, d, q) ==> p == q
  }

  /** The plan is independent of the enumeration, and of how the sort treats equal names, exactly when
      no array has two different entries under one name. */
  lemma EnumerationOrderForgottenIff(operation: string, requested: seq<string>, c: DepCache)
    ensures (forall d, p, q :: PlansAgree(operation, requested, c, d, p, q)) <==> NoTies(c.packages)
  {
    hide IsPlanOf, NoTies;
    if NoTies(c.packages) {
      forall d, p, q ensures PlansAgree(operation, requested, c, d, p, q) {
        if SamePackages(c, d) && IsPlanOf(operation, requested, c, p) && IsPlanOf(operation, requested, d, q) {
          EnumerationOrderForgotten(operation, requested, c, d, p, q);
        }
      }
    } else {
      var p, q := TiesLeaveAChoice(operation, requested, c);
      assert !PlansAgree(operation, requested, c, c, p, q);
    }
  }

  /** One package for two architectures is such a tie. */
  lemma MultiArchTies(p: Package, architecture: string)
    requires p.install && !p.delete && !p.downgrade && p.installed.None? && architecture != p.architecture
    ensures !NoTies([p, p.(architecture := architecture)])
  {
    var s := [p, p.(architecture := architecture)];
    assert !SameEntry(AsInstall, s[0], s[1]);
    assert !Agree(AsInstall, s);
  }
}
