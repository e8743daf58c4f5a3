/** Rebuilding the retrieval index: every configured source in turn collects documents within one
    shared budget, then upserts, skips and deletes rows of one table keyed by path. */
module Rebuild {
  import opened Results

  const USIZE_MAX := 0xFFFF_FFFF_FFFF_FFFF

  type usize = x: nat | x <= USIZE_MAX

  /** Columns that an unchanged document leaves as they were. */
  datatype Metadata = Metadata(trustLabel: string, packageVersion: Option<string>, modifiedUnix: int, indexedUnix: int)

  datatype Document = Document(path: string, hash: string, byteLen: usize, metadata: Metadata)

  datatype Row = Row(owner: string, hash: string, metadata: Metadata)

  type Table = map<string, Row>

  // ----- the budget

  datatype Allowance = Allowance(maxFiles: usize, maxBytes: usize, files: usize, bytes: usize)

  function SaturatingAdd(a: usize, b: usize): usize { if a + b > USIZE_MAX then USIZE_MAX else a + b }

  function Wrapped(n: nat): usize { n % (USIZE_MAX + 1) }

  predicate Affords(a: Allowance, bytes: usize) {
    a.files < a.maxFiles && SaturatingAdd(a.bytes, bytes) <= a.maxBytes
  }

  /** The test saturates, the sum itself wraps. */
  function Charged(a: Allowance, bytes: usize): Allowance
    requires Affords(a, bytes)
  {
    a.(files := a.files + 1, bytes := Wrapped(a.bytes + bytes))
  }

  predicate Within(a: Allowance) { a.files <= a.maxFiles && a.bytes <= a.maxBytes }

  class Budget {
    const maxFiles: usize
    const maxBytes: usize
    var files: usize
    var bytes: usize

    constructor (maxFiles: usize, maxBytes: usize)
      ensures State() == Allowance(maxFiles, maxBytes, 0, 0)
    {
      this.maxFiles, this.maxBytes, files, bytes := maxFiles, maxBytes, 0, 0;
    }

    function State(): Allowance
      reads this
    {
      Allowance(maxFiles, maxBytes, files, bytes)
    }

    method TryConsume(size: usize) returns (ok: bool)
      requires Within(State())
      modifies this
      ensures ok == Affords(old(State()), size)
      ensures State() == if ok then Charged(old(State()), size) else old(State())
      ensures Within(State())
    {
      if files >= maxFiles { return false; }
      if SaturatingAdd(bytes, size) > maxBytes { return false; }
      files := files + 1;
      bytes := Wrapped(bytes + size);
      ok := true;
    }
  }

  /** An accepted charge is accounted for in full exactly when the sum does not pass the largest
      representable number; only a budget of that size can be deceived. */
  lemma AcceptedChargeFitsIff(a: Allowance, bytes: usize)
    requires Within(a) && Affords(a, bytes)
    ensures Within(Charged(a, bytes))
    ensures Charged(a, bytes).bytes == a.bytes + bytes <==> a.bytes + bytes <= USIZE_MAX
    ensures a.bytes + bytes <= a.maxBytes <==> a.bytes + bytes <= USIZE_MAX
    ensures a.maxBytes < USIZE_MAX ==> a.bytes + bytes <= a.maxBytes
  {
  }

  lemma WrappedSum(n: nat, m: nat)
    ensures Wrapped(Wrapped(n) + m) == Wrapped(n + m)
  {
    var q, r := n / 0x1_0000_0000_0000_0000, (Wrapped(n) + m) / 0x1_0000_0000_0000_0000;
    assert n == q * 0x1_0000_0000_0000_0000 + Wrapped(n);
    assert n + m == (q + r) * 0x1_0000_0000_0000_0000 + Wrapped(Wrapped(n) + m);
  }

  /** The documents a source keeps of its candidates, and the allowance left. */
  function Collected(a: Allowance, maxFileBytes: nat, candidates: seq<Document>): (Allowance, seq<Document>) {
    if candidates == [] then (a, [])
    else
      var (b, docs) := Collected(a, maxFileBytes, candidates[..|candidates| - 1]);
      var c := candidates[|candidates| - 1];
      if c.byteLen <= maxFileBytes && Affords(b, c.byteLen) then (Charged(b, c.byteLen), docs + [c]) else (b, docs)
  }

  function Bytes(docs: seq<Document>): nat {
    if docs == [] then 0 else Bytes(docs[..|docs| - 1]) + docs[|docs| - 1].byteLen
  }

  /** `b` is the allowance `a` after `files` more files with `bytes` more bytes. Files are counted; bytes
      are counted too, and stay within the limit, exactly when they can be represented, which they
      always can under a limit below the largest number. */
  ghost predicate Spent(a: Allowance, b: Allowance, files: nat, bytes: nat) {
    && b.maxFiles == a.maxFiles && b.maxBytes == a.maxBytes && Within(b)
    && b.files == a.files + files && b.bytes == Wrapped(a.bytes + bytes)
    && (a.bytes + bytes <= a.maxBytes <==> a.bytes + bytes <= USIZE_MAX)
    && (a.maxBytes < USIZE_MAX ==> a.bytes + bytes <= a.maxBytes)
  }

  lemma SpentMore(a: Allowance, b: Allowance, c: Allowance, files: nat, bytes: nat, moreFiles: nat, moreBytes: nat)
    requires Spent(a, b, files, bytes) && Spent(b, c, moreFiles, moreBytes)
    ensures Spent(a, c, files + moreFiles, bytes + moreBytes)
  {
    WrappedSum(a.bytes + bytes, moreBytes);
    hide Wrapped;
    if a.bytes + bytes <= USIZE_MAX { assert b.bytes == a.bytes + bytes by { SmallWraps(a.bytes + bytes); } }
  }

  lemma SmallWraps(n: nat)
    ensures n <= USIZE_MAX ==> Wrapped(n) == n
  {
  }

  lemma NothingSpent(a: Allowance)
    requires Within(a)
    ensures Spent(a, a, 0, 0)
  {
    SmallWraps(a.bytes);
  }

  lemma SpentWithin(a: Allowance, b: Allowance, files: nat, bytes: nat)
    requires Spent(a, b, files, bytes)
    ensures Within(b) && a.files + files <= a.maxFiles
  {
  }

  /** Collection charges exactly what it keeps. */
  lemma {:induction false} CollectionConserves(a: Allowance, maxFileBytes: nat, candidates: seq<Document>)
    requires Within(a)
    ensures var (b, docs) := Collected(a, maxFileBytes, candidates); Spent(a, b, |docs|, Bytes(docs))
  {
    if candidates == [] {
      NothingSpent(a);
    } else {
      hide Wrapped, Spent;
      var front, c := candidates[..|candidates| - 1], candidates[|candidates| - 1];
      CollectionConserves(a, maxFileBytes, front);
      var (b, docs) := Collected(a, maxFileBytes, front);
      if c.byteLen <= maxFileBytes && Affords(b, c.byteLen) {
        assert (docs + [c])[..|docs|] == docs;
        ChargeSpends(a, b, |docs|, Bytes(docs), c.byteLen);
      }
    }
  }

  lemma ChargeSpends(a: Allowance, b: Allowance, files: nat, bytes: nat, size: usize)
    requires Spent(a, b, files, bytes) && Affords(b, size)
    ensures Spent(a, Charged(b, size), files + 1, bytes + size)
  {
    AcceptedChargeFitsIff(b, size);
    SpentMore(a, b, Charged(b, size), files, bytes, 1, size);
  }

  /** There is room for `c` after the documents kept before it, counted from what had been used. A byte limit of
      the largest number refuses nothing. */
  predicate RoomFor(a: Allowance, kept: seq<Document>, c: Document) {
    && a.files + |kept| < a.maxFiles
    && (a.maxBytes == USIZE_MAX || a.bytes + Bytes(kept) + c.byteLen <= a.maxBytes)
  }

  /** A candidate is left out exactly when it is too long, or the files kept before it fill the limit, or the bytes
      kept before it and its own pass the limit. */
  lemma KeptIff(a: Allowance, maxFileBytes: nat, candidates: seq<Document>, i: nat)
    requires Within(a) && i < |candidates|
    ensures var before, after := Collected(a, maxFileBytes, candidates[..i]).1,
                                 Collected(a, maxFileBytes, candidates[..i + 1]).1;
      after == before + if candidates[i].byteLen <= maxFileBytes && RoomFor(a, before, candidates[i])
                        then [candidates[i]] else []
  {
    var (b, kept) := Collected(a, maxFileBytes, candidates[..i]);
    CollectionConserves(a, maxFileBytes, candidates[..i]);
    assert candidates[..i + 1][..i] == candidates[..i];
    RoomIff(a, b, kept, candidates[i]);
    assert kept + [] == kept;
  }

  lemma RoomIff(a: Allowance, b: Allowance, kept: seq<Document>, c: Document)
    requires Spent(a, b, |kept|, Bytes(kept))
    ensures Affords(b, c.byteLen) <==> RoomFor(a, kept, c)
  {
    SmallWraps(a.bytes + Bytes(kept));
    hide Wrapped;
  }

  lemma LastFits(a: Allowance, candidates: seq<Document>)
    requires candidates != [] && a.files + |candidates| <= a.maxFiles && a.bytes + Bytes(candidates) <= a.maxBytes
    ensures var n := |candidates| - 1;
      && RoomFor(a, candidates[..n], candidates[n]) && a.bytes + Bytes(candidates[..n]) <= a.maxBytes
  {
  }

  predicate NoneTooLong(candidates: seq<Document>, maxFileBytes: nat) {
    forall i :: 0 <= i < |candidates| ==> candidates[i].byteLen <= maxFileBytes
  }

  /** Candidates that all fit are all collected. */
  lemma {:induction false} AllCollected(a: Allowance, maxFileBytes: nat, candidates: seq<Document>)
    requires Within(a) && NoneTooLong(candidates, maxFileBytes)
    requires a.files + |candidates| <= a.maxFiles && a.bytes + Bytes(candidates) <= a.maxBytes
    ensures Collected(a, maxFileBytes, candidates).1 == candidates
  {
    if candidates != [] {
      var n := |candidates| - 1;
      assert NoneTooLong(candidates[..n], maxFileBytes) && candidates[n].byteLen <= maxFileBytes;
      hide Collected, Within, Bytes, RoomFor, NoneTooLong;
      LastFits(a, candidates);
      AllCollected(a, maxFileBytes, candidates[..n]);
      KeptIff(a, maxFileBytes, candidates, n);
      assert candidates[..n + 1] == candidates && candidates[..n] + [candidates[n]] == candidates;
    }
  }

  /** The candidates longer than one file may be. */
  function TooLong(candidates: seq<Document>, maxFileBytes: nat): set<int> {
    set i | 0 <= i < |candidates| && candidates[i].byteLen > maxFileBytes
  }

  lemma TooLongNext(candidates: seq<Document>, maxFileBytes: nat, i: nat)
    requires i < |candidates|
    ensures |TooLong(candidates[..i + 1], maxFileBytes)| ==
      |TooLong(candidates[..i], maxFileBytes)| + if candidates[i].byteLen > maxFileBytes then 1 else 0
  {
    var before := TooLong(candidates[..i], maxFileBytes);
    assert TooLong(candidates[..i + 1], maxFileBytes) ==
      if candidates[i].byteLen > maxFileBytes then before + {i} else before;
  }

  method CollectDocuments(budget: Budget, maxFileBytes: nat, candidates: seq<Document>)
    returns (docs: seq<Document>, oversize: nat, overBudget: nat)
    requires Within(budget.State())
    modifies budget
    ensures (budget.State(), docs) == Collected(old(budget.State()), maxFileBytes, candidates)
    ensures Within(budget.State())
    ensures oversize == |TooLong(candidates, maxFileBytes)| && |docs| + oversize + overBudget == |candidates|
  {
    docs, oversize, overBudget := [], 0, 0;
    for i := 0 to |candidates|
      invariant Within(budget.State())
      invariant (budget.State(), docs) == Collected(old(budget.State()), maxFileBytes, candidates[..i])
      invariant oversize == |TooLong(candidates[..i], maxFileBytes)| && |docs| + oversize + overBudget == i
    {
      var c := candidates[i];
      assert candidates[..i + 1][..i] == candidates[..i];
      TooLongNext(candidates, maxFileBytes, i);
      if c.byteLen > maxFileBytes {
        oversize := oversize + 1;
        continue;
      }
      var ok := budget.TryConsume(c.byteLen);
      if ok { docs := docs + [c]; } else { overBudget := overBudget + 1; }
    }
    assert candidates[..|candidates|] == candidates;
  }

  // ----- one source

  function Existing(t: Table, source: string): map<string, string> {
    map p | p in t && t[p].owner == source :: t[p].hash
  }

  function Paths(docs: seq<Document>): set<string> {
    set d | d in docs :: d.path
  }

  predicate Unchanged(existing: map<string, string>, d: Document) {
    d.path in existing && existing[d.path] == d.hash
  }

  function RowOf(source: string, d: Document): Row { Row(source, d.hash, d.metadata) }

  function Upserted(existing: map<string, string>, t: Table, source: string, docs: seq<Document>): Table {
    if docs == [] then t
    else
      var before := Upserted(existing, t, source, docs[..|docs| - 1]);
      var d := docs[|docs| - 1];
      if Unchanged(existing, d) then before else before[d.path := RowOf(source, d)]
  }

  function Applied(t: Table, source: string, docs: seq<Document>): Table {
    var existing := Existing(t, source);
    Upserted(existing, t, source, docs) - (existing.Keys - Paths(docs))
  }

  datatype Report = Report(indexed: nat, skipped: nat, updated: nat, inserted: nat, removed: nat)

  function Count(existing: map<string, string>, docs: seq<Document>): Report {
    if docs == [] then Report(0, 0, 0, 0, 0)
    else
      var r := Count(existing, docs[..|docs| - 1]);
      var d := docs[|docs| - 1];
      var seen := r.(indexed := r.indexed + 1);
      if Unchanged(existing, d) then seen.(skipped := r.skipped + 1)
      else if d.path in existing then seen.(updated := r.updated + 1)
      else seen.(inserted := r.inserted + 1)
  }

  function ReportOf(t: Table, source: string, docs: seq<Document>): Report {
    var existing := Existing(t, source);
    Count(existing, docs).(removed := |existing.Keys - Paths(docs)|)
  }

  /** The documents the source has already with this content, with other content, or not at all. */
  function Same(existing: map<string, string>, docs: seq<Document>): set<int> {
    set i | 0 <= i < |docs| && docs[i].path in existing && existing[docs[i].path] == docs[i].hash
  }

  function Other(existing: map<string, string>, docs: seq<Document>): set<int> {
    set i | 0 <= i < |docs| && docs[i].path in existing && existing[docs[i].path] != docs[i].hash
  }

  function Absent(existing: map<string, string>, docs: seq<Document>): set<int> {
    set i | 0 <= i < |docs| && docs[i].path !in existing
  }

  /** What the counters of a report count. */
  lemma {:induction false} CountsSay(existing: map<string, string>, docs: seq<Document>)
    ensures var r := Count(existing, docs);
      && r.indexed == |docs| && r.skipped == |Same(existing, docs)|
      && r.updated == |Other(existing, docs)| && r.inserted == |Absent(existing, docs)|
  {
    if docs != [] {
      var n := |docs| - 1;
      var front := docs[..n];
      CountsSay(existing, front);
      SameGrows(existing, docs);
      OtherGrows(existing, docs);
      AbsentGrows(existing, docs);
      hide Same, Other, Absent;
    }
  }

  lemma SameGrows(existing: map<string, string>, docs: seq<Document>)
    requires docs != []
    ensures |Same(existing, docs)| ==
      |Same(existing, docs[..|docs| - 1])| + if Unchanged(existing, docs[|docs| - 1]) then 1 else 0
  {
    var n := |docs| - 1;
    var before := Same(existing, docs[..n]);
    assert Same(existing, docs) == if Unchanged(existing, docs[n]) then before + {n} else before;
  }

  lemma OtherGrows(existing: map<string, string>, docs: seq<Document>)
    requires docs != []
    ensures var d := docs[|docs| - 1];
      |Other(existing, docs)| ==
      |Other(existing, docs[..|docs| - 1])| + if d.path in existing && !Unchanged(existing, d) then 1 else 0
  {
    var n := |docs| - 1;
    var before, d := Other(existing, docs[..n]), docs[n];
    assert Other(existing, docs) == if d.path in existing && !Unchanged(existing, d) then before + {n} else before;
  }

  lemma AbsentGrows(existing: map<string, string>, docs: seq<Document>)
    requires docs != []
    ensures |Absent(existing, docs)| ==
      |Absent(existing, docs[..|docs| - 1])| + if docs[|docs| - 1].path in existing then 0 else 1
  {
    var n := |docs| - 1;
    var before := Absent(existing, docs[..n]);
    assert Absent(existing, docs) == if docs[n].path in existing then before else before + {n};
  }

  class Index {
    var rows: Table

    constructor (rows: Table)
      ensures this.rows == rows
    {
      this.rows := rows;
    }

    method UpsertDocuments(existing: map<string, string>, source: string, docs: seq<Document>)
      returns (seen: set<string>, report: Report)
      modifies this
      ensures rows == Upserted(existing, old(rows), source, docs)
      ensures seen == Paths(docs) && report == Count(existing, docs)
    {
      seen := {};
      report := Report(0, 0, 0, 0, 0);
      for i := 0 to |docs|
        invariant rows == Upserted(existing, old(rows), source, docs[..i])
        invariant seen == Paths(docs[..i]) && report == Count(existing, docs[..i])
      {
        var d := docs[i];
        assert docs[..i + 1][..i] == docs[..i];
        PathsSnoc(docs[..i + 1]);
        report := report.(indexed := report.indexed + 1);
        seen := seen + {d.path};
        if d.path in existing {
          if existing[d.path] == d.hash {
            report := report.(skipped := report.skipped + 1);
            continue;
          }
          report := report.(updated := report.updated + 1);
        } else {
          report := report.(inserted := report.inserted + 1);
        }
        rows := rows[d.path := RowOf(source, d)];
      }
      assert docs[..|docs|] == docs;
    }

    /** DELETE FROM documents WHERE source_name = source AND path = p, for every stale p. */
    method DeleteStale(source: string, paths: set<string>) returns (removed: nat)
      requires forall p :: p in paths ==> p in rows && rows[p].owner == source
      modifies this
      ensures rows == old(rows) - paths && removed == |paths|
    {
      removed := 0;
      var stale := paths;
      while stale != {}
        invariant stale <= paths
        invariant rows == old(rows) - (paths - stale)
        invariant removed == |paths - stale|
        decreases stale
      {
        var p :| p in stale;
        if p in rows && rows[p].owner == source { rows := rows - {p}; }
        assert paths - (stale - {p}) == (paths - stale) + {p};
        removed := removed + 1;
        stale := stale - {p};
      }
    }

    method ApplySource(source: string, docs: seq<Document>) returns (report: Report)
      modifies this
      ensures rows == Applied(old(rows), source, docs)
      ensures report == ReportOf(old(rows), source, docs)
    {
      var existing := map p | p in rows && rows[p].owner == source :: rows[p].hash;
      UpsertKeepsOwner(existing, rows, source, docs);
      var seen, counted := UpsertDocuments(existing, source, docs);
      var stale := set p | p in existing && p !in seen;
      assert stale == existing.Keys - Paths(docs);
      var removed := DeleteStale(source, stale);
      report := counted.(removed := removed);
    }
  }

  lemma PathsSnoc(docs: seq<Document>)
    requires docs != []
    ensures Paths(docs) == Paths(docs[..|docs| - 1]) + {docs[|docs| - 1].path}
  {
    var front, d := docs[..|docs| - 1], docs[|docs| - 1];
    assert docs == front + [d];
    assert forall x :: x in docs <==> x in front || x == d;
  }

  // ----- what one source leaves behind

  /** The last document of `docs` for `p` that the upsert is run for. */
  function LastUpsert(existing: map<string, string>, docs: seq<Document>, p: string): Option<Document> {
    if docs == [] then None
    else
      var d := docs[|docs| - 1];
      if d.path == p && !Unchanged(existing, d) then Some(d) else LastUpsert(existing, docs[..|docs| - 1], p)
  }

  /** The last document of `docs` for `p`. */
  function LastDocument(docs: seq<Document>, p: string): Option<Document> {
    LastUpsert(map[], docs, p)
  }

  lemma {:induction false} UpsertedAt(
    existing: map<string, string>, t: Table, source: string, docs: seq<Document>, p: string)
    ensures var u, last := Upserted(existing, t, source, docs), LastUpsert(existing, docs, p);
            if last.Some? then p in u && u[p] == RowOf(source, last.value)
            else (p in u <==> p in t) && (p in t ==> u[p] == t[p])
  {
    if docs != [] { UpsertedAt(existing, t, source, docs[..|docs| - 1], p); }
  }

  lemma UpsertKeepsOwner(existing: map<string, string>, t: Table, source: string, docs: seq<Document>)
    requires existing == Existing(t, source)
    ensures forall p :: p in existing ==>
      p in Upserted(existing, t, source, docs) && Upserted(existing, t, source, docs)[p].owner == source
  {
    forall p | p in existing
      ensures p in Upserted(existing, t, source, docs) && Upserted(existing, t, source, docs)[p].owner == source
    {
      UpsertedAt(existing, t, source, docs, p);
    }
  }

  lemma {:induction false} LastFound(existing: map<string, string>, docs: seq<Document>, p: string)
    ensures LastUpsert(existing, docs, p).Some? <==>
      exists i :: 0 <= i < |docs| && docs[i].path == p && !Unchanged(existing, docs[i])
    ensures LastUpsert(existing, docs, p).Some? ==>
      var d := LastUpsert(existing, docs, p).value; d in docs && d.path == p && !Unchanged(existing, d)
  {
    if docs != [] {
      var front := docs[..|docs| - 1];
      LastFound(existing, front, p);
      assert docs == front + [docs[|docs| - 1]];
      if i :| 0 <= i < |front| && front[i].path == p && !Unchanged(existing, front[i]) {
        assert docs[i] == front[i];
      }
      if i :| 0 <= i < |docs| && docs[i].path == p && !Unchanged(existing, docs[i]) {
        assert i < |front| ==> front[i] == docs[i];
      }
    }
  }

  lemma PathsFound(docs: seq<Document>, p: string)
    ensures p in Paths(docs) <==> LastDocument(docs, p).Some?
  {
    LastFound(map[], docs, p);
    if p in Paths(docs) {
      var d :| d in docs && d.path == p;
      var i :| 0 <= i < |docs| && docs[i] == d;
    }
  }

  /** For any documents, repeated paths included: a collected path has the row of its last upserted
      document, or keeps the row it had when every document was unchanged; an uncollected path of the
      source is gone; every other row is as it was. */
  lemma AppliedAt(t: Table, source: string, docs: seq<Document>, p: string)
    ensures var existing, u := Existing(t, source), Applied(t, source, docs);
      if p in Paths(docs) then
        && p in u
        && (var last := LastUpsert(existing, docs, p);
            if last.Some? then u[p] == RowOf(source, last.value) else p in existing && u[p] == t[p])
      else if p in existing then p !in u
      else (p in u <==> p in t) && (p in t ==> u[p] == t[p])
  {
    var existing := Existing(t, source);
    UpsertedAt(existing, t, source, docs, p);
    LastFound(existing, docs, p);
    PathsFound(docs, p);
    LastFound(map[], docs, p);
    if p in Paths(docs) && LastUpsert(existing, docs, p).None? {
      var i :| 0 <= i < |docs| && docs[i].path == p;
      assert Unchanged(existing, docs[i]);
    }
  }

  lemma {:induction false} LastUpsertIsLast(existing: map<string, string>, docs: seq<Document>, p: string)
    requires LastDocument(docs, p).Some?
    ensures !Unchanged(existing, LastDocument(docs, p).value) ==> LastUpsert(existing, docs, p) == LastDocument(docs, p)
  {
    if docs[|docs| - 1].path != p { LastUpsertIsLast(existing, docs[..|docs| - 1], p); }
  }

  /** A path repeated within one source ends with the hash of the document collected last, except
      when that hash is the one the row already had and another document for the path has a
      different one: the earlier document is written and the last is skipped as unchanged. */
  lemma LastDocumentWinsIff(t: Table, source: string, docs: seq<Document>, p: string)
    requires p in Paths(docs)
    ensures LastDocument(docs, p).Some? && p in Applied(t, source, docs)
    ensures Applied(t, source, docs)[p].hash == LastDocument(docs, p).value.hash
       <==> !(&& Unchanged(Existing(t, source), LastDocument(docs, p).value)
              && exists i :: 0 <= i < |docs| && docs[i].path == p && docs[i].hash != LastDocument(docs, p).value.hash)
  {
    var existing := Existing(t, source);
    PathsFound(docs, p);
    AppliedAt(t, source, docs, p);
    LastUpsertIsLast(existing, docs, p);
    LastFound(existing, docs, p);
    LastFound(map[], docs, p);
    if i :| 0 <= i < |docs| && docs[i].path == p && docs[i].hash != LastDocument(docs, p).value.hash {
      if Unchanged(existing, LastDocument(docs, p).value) { assert !Unchanged(existing, docs[i]); }
    }
  }

  // ----- conservation of counts

  function Owned(t: Table, source: string): set<string> {
    set p | p in t && t[p].owner == source
  }

  /** After its turn a source owns exactly the paths it collected. */
  lemma OwnsWhatItCollected(t: Table, source: string, docs: seq<Document>)
    ensures Owned(Applied(t, source, docs), source) == Paths(docs)
  {
    forall p ensures p in Owned(Applied(t, source, docs), source) <==> p in Paths(docs) {
      AppliedAt(t, source, docs, p);
    }
  }

  function NewPaths(existing: map<string, string>, docs: seq<Document>): set<string> {
    Paths(docs) - existing.Keys
  }

  /** Two documents for one path that the source did not own before. */
  ghost predicate RepeatsNewPath(existing: map<string, string>, docs: seq<Document>) {
    exists i, j :: 0 <= i < j < |docs| && docs[i].path == docs[j].path && docs[i].path !in existing
  }

  lemma {:induction false} InsertedCountsNewPaths(existing: map<string, string>, docs: seq<Document>)
    ensures Count(existing, docs).inserted >= |NewPaths(existing, docs)|
    ensures Count(existing, docs).inserted == |NewPaths(existing, docs)| <==> !RepeatsNewPath(existing, docs)
  {
    if docs == [] {
      assert NewPaths(existing, docs) == {};
    } else {
      hide Paths, NewPaths, RepeatsNewPath, Count;
      var front, d := docs[..|docs| - 1], docs[|docs| - 1];
      InsertedCountsNewPaths(existing, front);
      CountSnoc(existing, docs);
      NewPathsSnoc(existing, docs);
      if d.path !in existing && d.path in Paths(front) {
        RepeatsAtEnd(existing, docs);
      } else {
        RepeatsInFront(existing, docs);
      }
    }
  }

  lemma NewPathsSnoc(existing: map<string, string>, docs: seq<Document>)
    requires docs != []
    ensures var front, d := docs[..|docs| - 1], docs[|docs| - 1];
      |NewPaths(existing, docs)| ==
        |NewPaths(existing, front)| + if d.path in existing || d.path in Paths(front) then 0 else 1
  {
    hide Paths;
    var front, d := docs[..|docs| - 1], docs[|docs| - 1];
    PathsSnoc(docs);
    OneMore(Paths(front), existing.Keys, d.path);
  }

  lemma OneMore<T>(a: set<T>, known: set<T>, x: T)
    ensures |(a + {x}) - known| == |a - known| + if x in known || x in a then 0 else 1
  {
    if x in known || x in a {
      assert (a + {x}) - known == a - known;
    } else {
      assert (a + {x}) - known == (a - known) + {x};
    }
  }

  lemma CountSnoc(existing: map<string, string>, docs: seq<Document>)
    requires docs != []
    ensures Count(existing, docs).inserted
         == Count(existing, docs[..|docs| - 1]).inserted + if docs[|docs| - 1].path in existing then 0 else 1
  {
  }

  lemma RepeatsAtEnd(existing: map<string, string>, docs: seq<Document>)
    requires docs != [] && docs[|docs| - 1].path !in existing && docs[|docs| - 1].path in Paths(docs[..|docs| - 1])
    ensures RepeatsNewPath(existing, docs)
  {
    var n := |docs| - 1;
    var e :| e in docs[..n] && e.path == docs[n].path;
    var i :| 0 <= i < n && docs[..n][i] == e;
    assert docs[i].path == docs[n].path;
  }

  lemma RepeatsInFront(existing: map<string, string>, docs: seq<Document>)
    requires docs != []
    requires docs[|docs| - 1].path in existing || docs[|docs| - 1].path !in Paths(docs[..|docs| - 1])
    ensures RepeatsNewPath(existing, docs) <==> RepeatsNewPath(existing, docs[..|docs| - 1])
  {
    var front := docs[..|docs| - 1];
    if i, j :| 0 <= i < j < |docs| && docs[i].path == docs[j].path && docs[i].path !in existing {
      assert docs[i] in front && docs[i].path in Paths(front);
      assert front[i].path == front[j].path;
    }
    if i, j :| 0 <= i < j < |front| && front[i].path == front[j].path && front[i].path !in existing {
      assert docs[i].path == docs[j].path;
    }
  }

  /** Owned after = owned before + inserted - removed, exactly when the source does not collect a
      path it did not own twice. */
  lemma CountsConservedIff(t: Table, source: string, docs: seq<Document>)
    ensures var r := ReportOf(t, source, docs);
      (|Owned(Applied(t, source, docs), source)| == |Owned(t, source)| + r.inserted - r.removed)
      <==> !RepeatsNewPath(Existing(t, source), docs)
  {
    hide Applied, Paths, Count, RepeatsNewPath;
    var existing := Existing(t, source);
    OwnsWhatItCollected(t, source, docs);
    InsertedCountsNewPaths(existing, docs);
    assert existing.Keys == Owned(t, source);
    SetSplit(existing.Keys, Paths(docs));
    SetSplit(Paths(docs), existing.Keys);
    assert existing.Keys * Paths(docs) == Paths(docs) * existing.Keys;
  }

  lemma SetSplit<T>(a: set<T>, b: set<T>)
    ensures |a| == |a - b| + |a * b|
  {
    assert a == (a - b) + (a * b);
  }

  // ----- the whole rebuild

  datatype Source = Source(name: string, docs: seq<Document>)

  function Rebuilt(t: Table, sources: seq<Source>): Table {
    if sources == [] then t
    else
      var last := sources[|sources| - 1];
      Applied(Rebuilt(t, sources[..|sources| - 1]), last.name, last.docs)
  }

  ghost predicate DistinctSources(sources: seq<Source>) {
    forall i, j :: 0 <= i < j < |sources| ==> sources[i].name != sources[j].name
  }

  /** The row source `k` already has for `p` when its turn comes: the one in the table, if no source
      before it has taken the path over. */
  ghost function HeldRow(t: Table, sources: seq<Source>, k: int, p: string): Option<Row>
    requires 0 <= k < |sources|
  {
    if p in t && t[p].owner == sources[k].name && (forall j :: 0 <= j < k ==> p !in Paths(sources[j].docs)) then
      Some(t[p])
    else None
  }

  function Holding(held: Option<Row>, p: string): map<string, string> {
    if held.Some? then map[p := held.value.hash] else map[]
  }

  /** What a source that collected `p` leaves: the row of its last document that differs from what it
      held, or what it held if none does. */
  ghost predicate SettledAs(row: Row, source: string, held: Option<Row>, docs: seq<Document>, p: string) {
    var last := LastUpsert(Holding(held, p), docs, p);
    if last.Some? then row == RowOf(source, last.value) else held == Some(row)
  }

  /** The specification for any sources: the last source that collected `p` wins; a path nobody collected
      keeps its row unless its owner is one of the sources. */
  ghost predicate LastSourceWins(t: Table, sources: seq<Source>, u: Table, p: string) {
    if Collects(sources, p) then
      exists k ::
        && IsLastCollector(sources, p, k) && p in u
        && SettledAs(u[p], sources[k].name, HeldRow(t, sources, k, p), sources[k].docs, p)
    else if p in t && !Configured(sources, t[p].owner) then p in u && u[p] == t[p]
    else p !in u
  }

  predicate IsLastCollector(sources: seq<Source>, p: string, k: int) {
    && 0 <= k < |sources| && p in Paths(sources[k].docs)
    && forall j :: k < j < |sources| ==> p !in Paths(sources[j].docs)
  }

  predicate Configured(sources: seq<Source>, name: string) {
    exists k :: 0 <= k < |sources| && sources[k].name == name
  }

  lemma {:induction false} LastUpsertLocal(
    existing: map<string, string>, other: map<string, string>, docs: seq<Document>, p: string)
    requires p in existing <==> p in other
    requires p in existing ==> existing[p] == other[p]
    ensures LastUpsert(existing, docs, p) == LastUpsert(other, docs, p)
  {
    if docs != [] { LastUpsertLocal(existing, other, docs[..|docs| - 1], p); }
  }

  function OwnRow(t: Table, source: string, p: string): Option<Row> {
    if p in t && t[p].owner == source then Some(t[p]) else None
  }

  /** What holds of any source's turn, whatever the table. */
  lemma AppliedSettles(t: Table, source: string, docs: seq<Document>, p: string)
    requires p in Paths(docs)
    ensures var u := Applied(t, source, docs); p in u && SettledAs(u[p], source, OwnRow(t, source, p), docs, p)
  {
    hide Applied, Paths;
    AppliedAt(t, source, docs, p);
    LastUpsertLocal(Existing(t, source), Holding(OwnRow(t, source, p), p), docs, p);
  }

  lemma SettledOwner(row: Row, source: string, held: Option<Row>, docs: seq<Document>, p: string)
    requires SettledAs(row, source, held, docs, p) && (held.Some? ==> held.value.owner == source)
    ensures row.owner == source
  {
  }

  /** Any table, any sources with distinct names, any documents: every path is as specified. */
  lemma {:induction false} RebuildAt(t: Table, sources: seq<Source>, p: string)
    requires DistinctSources(sources)
    ensures LastSourceWins(t, sources, Rebuilt(t, sources), p)
  {
    if sources == [] {
    } else {
      hide Applied, Paths, SettledAs;
      var n := |sources| - 1;
      var front, last := sources[..n], sources[n];
      RebuildAt(t, front, p);
      var before, after := Rebuilt(t, front), Rebuilt(t, sources);
      AppliedAt(before, last.name, last.docs, p);
      if p in Paths(last.docs) {
        assert IsLastCollector(sources, p, n);
        AppliedSettles(before, last.name, last.docs, p);
        HeldByLast(t, sources, before, p);
      } else if k :| IsLastCollector(front, p, k) {
        KeptFromFront(t, sources, before, p, k);
      } else {
        NobodyCollected(sources, p);
        assert Configured(sources, last.name) by { assert sources[n].name == last.name; }
        if p in t {
          ConfiguredSnoc(sources, t[p].owner);
        }
      }
    }
  }

  /** When the last source's turn comes, the table holds for it what the specification says. */
  lemma HeldByLast(t: Table, sources: seq<Source>, before: Table, p: string)
    requires sources != [] && DistinctSources(sources) && LastSourceWins(t, sources[..|sources| - 1], before, p)
    ensures var n := |sources| - 1; HeldRow(t, sources, n, p) == OwnRow(before, sources[n].name, p)
  {
    hide Paths, SettledAs;
    var n := |sources| - 1;
    var front := sources[..n];
    assert forall j :: 0 <= j < n ==> front[j] == sources[j] && sources[j].name != sources[n].name;
    if Collects(front, p) {
      var k :| IsLastCollector(front, p, k) && p in before
        && SettledAs(before[p], front[k].name, HeldRow(t, front, k, p), front[k].docs, p);
      SettledOwner(before[p], front[k].name, HeldRow(t, front, k, p), front[k].docs, p);
      assert p in Paths(sources[k].docs) && before[p].owner != sources[n].name;
    } else {
      NoneCollects(front, p);
      if p in t && Configured(front, t[p].owner) {
        var k :| 0 <= k < n && front[k].name == t[p].owner;
        assert t[p].owner != sources[n].name;
      }
    }
  }

  lemma StillLast(sources: seq<Source>, p: string, k: int)
    requires sources != [] && IsLastCollector(sources[..|sources| - 1], p, k)
    requires p !in Paths(sources[|sources| - 1].docs)
    ensures IsLastCollector(sources, p, k)
  {
    hide Paths;
    var front := sources[..|sources| - 1];
    assert forall j :: 0 <= j < |front| ==> front[j] == sources[j];
  }

  lemma {:induction false} NoneCollects(sources: seq<Source>, p: string)
    requires !Collects(sources, p)
    ensures forall j :: 0 <= j < |sources| ==> p !in Paths(sources[j].docs)
  {
    hide Paths;
    if sources != [] {
      var n := |sources| - 1;
      var front := sources[..n];
      assert p !in Paths(sources[n].docs) by { assert p in Paths(sources[n].docs) ==> IsLastCollector(sources, p, n); }
      assert !Collects(front, p) by {
        if k :| IsLastCollector(front, p, k) {
          StillLast(sources, p, k);
          assert false;
        }
      }
      NoneCollects(front, p);
      assert forall j :: 0 <= j < n ==> front[j] == sources[j];
    }
  }

  lemma KeptFromFront(t: Table, sources: seq<Source>, before: Table, p: string, k: int)
    requires sources != [] && DistinctSources(sources)
    requires IsLastCollector(sources[..|sources| - 1], p, k) && p !in Paths(sources[|sources| - 1].docs)
    requires LastSourceWins(t, sources[..|sources| - 1], before, p)
    ensures LastSourceWins(t, sources, Applied(before, sources[|sources| - 1].name, sources[|sources| - 1].docs), p)
  {
    hide Applied, Paths, SettledAs, LastUpsert;
    var n := |sources| - 1;
    var front, last := sources[..n], sources[n];
    var j :| IsLastCollector(front, p, j) && p in before
      && SettledAs(before[p], front[j].name, HeldRow(t, front, j, p), front[j].docs, p);
    SettledOwner(before[p], front[j].name, HeldRow(t, front, j, p), front[j].docs, p);
    assert sources[j] == front[j] && sources[j].name != sources[n].name;
    NotTouched(before, last.name, last.docs, p);
    HeldInFront(t, sources, p, j);
    StillLast(sources, p, j);
  }

  lemma NotTouched(t: Table, source: string, docs: seq<Document>, p: string)
    requires p in t && t[p].owner != source && p !in Paths(docs)
    ensures p in Applied(t, source, docs) && Applied(t, source, docs)[p] == t[p]
  {
    hide Applied, Paths, LastUpsert;
    AppliedAt(t, source, docs, p);
  }

  lemma HeldInFront(t: Table, sources: seq<Source>, p: string, j: int)
    requires sources != [] && 0 <= j < |sources| - 1
    ensures HeldRow(t, sources, j, p) == HeldRow(t, sources[..|sources| - 1], j, p)
  {
    hide Paths;
    var front := sources[..|sources| - 1];
    assert forall m :: 0 <= m <= j ==> sources[m] == front[m];
  }

  ghost predicate Collects(sources: seq<Source>, p: string) {
    exists k :: IsLastCollector(sources, p, k)
  }

  lemma NobodyCollected(sources: seq<Source>, p: string)
    requires sources != [] && p !in Paths(sources[|sources| - 1].docs)
    requires !Collects(sources[..|sources| - 1], p)
    ensures !Collects(sources, p)
  {
    var front := sources[..|sources| - 1];
    if k :| IsLastCollector(sources, p, k) {
      assert front[k] == sources[k];
      assert forall j :: k < j < |front| ==> front[j] == sources[j];
      assert IsLastCollector(front, p, k);
    }
  }

  lemma ConfiguredSnoc(sources: seq<Source>, name: string)
    requires sources != []
    ensures Configured(sources, name) <==>
      Configured(sources[..|sources| - 1], name) || sources[|sources| - 1].name == name
  {
    var n := |sources| - 1;
    if k :| 0 <= k < n && sources[..n][k].name == name { assert sources[k].name == name; }
    if k :| 0 <= k < |sources| && sources[k].name == name { assert k < n ==> sources[..n][k].name == name; }
  }

  /** `k` alone collects `p`. */
  predicate IsSoleCollector(sources: seq<Source>, p: string, k: int) {
    IsLastCollector(sources, p, k) && forall j :: 0 <= j < k ==> p !in Paths(sources[j].docs)
  }

  /** Two documents for `p` with different contents. */
  predicate Differ(docs: seq<Document>, p: string) {
    exists i, j :: 0 <= i < |docs| && 0 <= j < |docs| && docs[i].path == p
      && docs[j].path == p && docs[i].hash != docs[j].hash
  }

  /** A path one source alone collects, twice, with different contents. */
  ghost predicate FlipsAt(sources: seq<Source>, p: string) {
    exists k :: IsSoleCollector(sources, p, k) && Differ(sources[k].docs, p)
  }

  lemma OneLastCollector(sources: seq<Source>, p: string, j: int, k: int)
    requires IsLastCollector(sources, p, j) && IsLastCollector(sources, p, k)
    ensures j == k
  {
    hide Paths;
    assert !(j < k) && !(k < j);
  }

  /** With nothing held, the last document decides. */
  lemma SettledFresh(row: Row, source: string, docs: seq<Document>, p: string)
    requires p in Paths(docs)
    ensures LastDocument(docs, p).Some?
    ensures SettledAs(row, source, None, docs, p) <==> row == RowOf(source, LastDocument(docs, p).value)
  {
    PathsFound(docs, p);
  }

  /** The same files found again: whatever else was recorded of them, as the time of indexing, is new. */
  predicate SameFiles(a: seq<Document>, b: seq<Document>) {
    |a| == |b| && forall i :: 0 <= i < |a| ==> a[i].path == b[i].path && a[i].hash == b[i].hash
  }

  predicate FoundAgain(a: seq<Source>, b: seq<Source>) {
    |a| == |b| && forall k :: 0 <= k < |a| ==> a[k].name == b[k].name && SameFiles(a[k].docs, b[k].docs)
  }

  lemma SameFilesAgree(a: seq<Document>, b: seq<Document>, p: string)
    requires SameFiles(a, b)
    ensures p in Paths(a) <==> p in Paths(b)
    ensures Differ(a, p) <==> Differ(b, p)
  {
    if d :| d in a && d.path == p { var i :| 0 <= i < |a| && a[i] == d; assert b[i] in b; }
    if d :| d in b && d.path == p { var i :| 0 <= i < |b| && b[i] == d; assert a[i] in a; }
  }

  lemma {:induction false} SameLast(existing: map<string, string>, a: seq<Document>, b: seq<Document>, p: string)
    requires SameFiles(a, b)
    ensures var x, y := LastUpsert(existing, a, p), LastUpsert(existing, b, p);
      (x.Some? <==> y.Some?) && (x.Some? ==> x.value.hash == y.value.hash)
  {
    if a != [] { SameLast(existing, a[..|a| - 1], b[..|b| - 1], p); }
  }

  lemma FoundAgainAgree(a: seq<Source>, b: seq<Source>, p: string, k: int)
    requires FoundAgain(a, b)
    ensures IsLastCollector(a, p, k) <==> IsLastCollector(b, p, k)
    ensures IsSoleCollector(a, p, k) <==> IsSoleCollector(b, p, k)
  {
    hide Paths, Differ, SameFiles;
    forall j | 0 <= j < |a| ensures p in Paths(a[j].docs) <==> p in Paths(b[j].docs) {
      SameFilesAgree(a[j].docs, b[j].docs, p);
    }
  }

  /** With its own result held, the source leaves it alone exactly when all its documents agree. */
  lemma SettledAgain(
    first: Row, second: Row, source: string, held: Option<Row>, docs: seq<Document>, again: seq<Document>, p: string)
    requires p in Paths(docs) && SameFiles(docs, again)
    requires SettledAs(first, source, held, docs, p) && SettledAs(second, source, Some(first), again, p)
    ensures if Differ(docs, p) then second.hash != first.hash else second == first
  {
    hide Paths;
    LastFound(Holding(held, p), docs, p);
    LastFound(Holding(Some(first), p), again, p);
    assert exists i :: 0 <= i < |docs| && docs[i].path == p by { SomeDocument(docs, p); }
    if Differ(docs, p) {
      var i, j :| 0 <= i < |docs| && 0 <= j < |docs| && docs[i].path == p
        && docs[j].path == p && docs[i].hash != docs[j].hash;
      var other := if docs[i].hash != first.hash then i else j;
      assert again[other].path == p && !Unchanged(Holding(Some(first), p), again[other]);
    } else {
      var i :| 0 <= i < |docs| && docs[i].path == p;
      assert docs[i].hash == first.hash;
      assert forall l :: 0 <= l < |docs| && docs[l].path == p ==> docs[l].hash == docs[i].hash;
    }
  }

  lemma SomeDocument(docs: seq<Document>, p: string)
    requires p in Paths(docs)
    ensures exists i :: 0 <= i < |docs| && docs[i].path == p
  {
    PathsFound(docs, p);
    LastFound(map[], docs, p);
  }

  /** A path collected again: flipped, left as it was in every column, or written anew by the last source. */
  lemma CollectedTwice(t: Table, sources: seq<Source>, again: seq<Source>, p: string, k: int)
    requires DistinctSources(sources) && FoundAgain(sources, again) && IsLastCollector(sources, p, k)
    ensures var u := Rebuilt(t, sources); var v := Rebuilt(u, again);
      && p in u && p in v && u[p].owner == v[p].owner && (u[p].hash == v[p].hash <==> !FlipsAt(sources, p))
      && (if IsSoleCollector(sources, p, k) then !FlipsAt(sources, p) ==> u[p] == v[p]
          else
            var last := LastDocument(again[k].docs, p);
            last.Some? && v[p] == RowOf(sources[k].name, last.value))
  {
    hide Paths, SettledAs, Rebuilt, Differ, SameFiles;
    var u := Rebuilt(t, sources);
    var v := Rebuilt(u, again);
    FoundAgainAgree(sources, again, p, k);
    RebuildAt(t, sources, p);
    RebuildAt(u, again, p);
    assert Collects(sources, p) && Collects(again, p);
    var i :| IsLastCollector(sources, p, i) && p in u
      && SettledAs(u[p], sources[i].name, HeldRow(t, sources, i, p), sources[i].docs, p);
    var j :| IsLastCollector(again, p, j) && p in v
      && SettledAs(v[p], again[j].name, HeldRow(u, again, j, p), again[j].docs, p);
    OneLastCollector(sources, p, i, k);
    OneLastCollector(again, p, j, k);
    SettledOwner(u[p], sources[k].name, HeldRow(t, sources, k, p), sources[k].docs, p);
    SettledOwner(v[p], again[k].name, HeldRow(u, again, k, p), again[k].docs, p);
    if IsSoleCollector(sources, p, k) {
      assert HeldRow(u, again, k, p) == Some(u[p]);
      SettledAgain(u[p], v[p], sources[k].name, HeldRow(t, sources, k, p), sources[k].docs, again[k].docs, p);
    } else {
      SettledFresh(u[p], sources[k].name, sources[k].docs, p);
      SettledFresh(v[p], sources[k].name, again[k].docs, p);
      SameLast(map[], sources[k].docs, again[k].docs, p);
    }
    if l :| IsSoleCollector(sources, p, l) { OneLastCollector(sources, p, l, k); }
  }

  /** The last source that collects a path leaves its hash, when its documents for the path agree. */
  lemma CollectedHash(t: Table, sources: seq<Source>, p: string, k: int)
    requires DistinctSources(sources) && IsLastCollector(sources, p, k) && !Differ(sources[k].docs, p)
    ensures var u := Rebuilt(t, sources);
      && p in u && u[p].owner == sources[k].name
      && forall d :: d in sources[k].docs && d.path == p ==> u[p].hash == d.hash
  {
    hide Paths, Rebuilt;
    var u, docs := Rebuilt(t, sources), sources[k].docs;
    RebuildAt(t, sources, p);
    var j :| IsLastCollector(sources, p, j) && p in u
      && SettledAs(u[p], sources[j].name, HeldRow(t, sources, j, p), sources[j].docs, p);
    OneLastCollector(sources, p, j, k);
    SettledOwner(u[p], sources[k].name, HeldRow(t, sources, k, p), docs, p);
    LastFound(Holding(HeldRow(t, sources, k, p), p), docs, p);
    SomeDocument(docs, p);
    var i :| 0 <= i < |docs| && docs[i].path == p;
    assert docs[i].hash == u[p].hash;
  }

  ghost predicate SameRow(t: Table, u: Table, p: string) {
    (p in t <==> p in u) && (p in t ==> t[p].owner == u[p].owner && t[p].hash == u[p].hash)
  }

  /** A second rebuild leaves `p` with its owner and hash, or still without a row. */
  ghost predicate StaysAt(t: Table, sources: seq<Source>, again: seq<Source>, p: string) {
    SameRow(Rebuilt(t, sources), Rebuilt(Rebuilt(t, sources), again), p)
  }

  /** Rebuilding again from the same files changes no path, owner or hash exactly when no path is collected
      by one source alone with different contents. Such a path changes every time, whatever the table. */
  lemma RebuildIdempotentIff(t: Table, sources: seq<Source>, again: seq<Source>)
    requires DistinctSources(sources) && FoundAgain(sources, again)
    ensures (forall p :: StaysAt(t, sources, again, p)) <==> forall p :: !FlipsAt(sources, p)
    ensures forall p :: FlipsAt(sources, p) ==> !StaysAt(t, sources, again, p)
  {
    hide StaysAt, FlipsAt;
    forall p ensures FlipsAt(sources, p) ==> !StaysAt(t, sources, again, p) { StaysIff(t, sources, again, p); }
    if p :| FlipsAt(sources, p) {
      assert !StaysAt(t, sources, again, p);
    } else {
      forall p ensures StaysAt(t, sources, again, p) {
        assert !FlipsAt(sources, p);
        StaysIff(t, sources, again, p);
      }
    }
  }

  lemma StaysIff(t: Table, sources: seq<Source>, again: seq<Source>, p: string)
    requires DistinctSources(sources) && FoundAgain(sources, again)
    ensures StaysAt(t, sources, again, p) <==> !FlipsAt(sources, p)
  {
    hide Paths, Rebuilt, Differ, SameFiles;
    if k :| IsLastCollector(sources, p, k) {
      CollectedTwice(t, sources, again, p, k);
    } else {
      UncollectedTwice(t, sources, again, p);
    }
  }

  lemma UncollectedTwice(t: Table, sources: seq<Source>, again: seq<Source>, p: string)
    requires DistinctSources(sources) && FoundAgain(sources, again) && !Collects(sources, p)
    ensures var u := Rebuilt(t, sources); var v := Rebuilt(u, again);
      (p in u <==> p in v) && (p in u ==> u[p] == v[p])
  {
    hide Paths, Rebuilt, Differ, SameFiles;
    var u := Rebuilt(t, sources);
    RebuildAt(t, sources, p);
    RebuildAt(u, again, p);
    if k :| IsLastCollector(again, p, k) { FoundAgainAgree(sources, again, p, k); }
    if p in t {
      assert Configured(again, t[p].owner) <==> Configured(sources, t[p].owner) by {
        if k :| 0 <= k < |again| && again[k].name == t[p].owner { assert sources[k].name == t[p].owner; }
        if k :| 0 <= k < |sources| && sources[k].name == t[p].owner { assert again[k].name == t[p].owner; }
      }
    }
  }

  /** More than one source collects the path. */
  ghost predicate Contested(sources: seq<Source>, p: string) {
    exists k :: IsLastCollector(sources, p, k) && !IsSoleCollector(sources, p, k)
  }

  ghost predicate WrittenBy(row: Row, source: Source, p: string) {
    LastDocument(source.docs, p).Some? && row == RowOf(source.name, LastDocument(source.docs, p).value)
  }

  /** The other columns of a path, the indexing time among them, are left alone if at most one source collects
      it and it does not flip. If several do, each writes over the last, and the row is that of the last
      source's newest document. */
  lemma ColumnsStay(t: Table, sources: seq<Source>, again: seq<Source>, p: string)
    requires DistinctSources(sources) && FoundAgain(sources, again) && !FlipsAt(sources, p)
    ensures var u := Rebuilt(t, sources); var v := Rebuilt(u, again);
      if Contested(sources, p) then
        && p in u && p in v
        && exists k :: IsLastCollector(sources, p, k) && WrittenBy(v[p], again[k], p)
      else (p in u <==> p in v) && (p in u ==> u[p] == v[p])
  {
    hide Paths, Rebuilt, Differ, SameFiles, LastUpsert;
    if k :| IsLastCollector(sources, p, k) {
      CollectedTwice(t, sources, again, p, k);
    } else {
      UncollectedTwice(t, sources, again, p);
    }
  }

  /** One source, two documents of one path: the hash goes back and forth. */
  lemma HashFlips(name: string, a: Document, b: Document)
    requires a.path == b.path && a.hash != b.hash
    ensures var sources := [Source(name, [a, b])];
      var once := Rebuilt(map[], sources); var twice := Rebuilt(once, sources); var thrice := Rebuilt(twice, sources);
      && a.path in once && once[a.path].hash == b.hash && a.path in twice && twice[a.path].hash == a.hash
      && a.path in thrice && thrice[a.path].hash == b.hash
  {
    hide Applied;
    var docs, p := [a, b], a.path;
    var sources := [Source(name, docs)];
    var once := Applied(map[], name, docs);
    var twice := Applied(once, name, docs);
    OneSource(map[], name, docs);
    OneSource(once, name, docs);
    OneSource(twice, name, docs);
    LastOfTwo(map[], a, b);
    LastOfTwo(Existing(once, name), a, b);
    LastOfTwo(Existing(twice, name), a, b);
    AppliedAt(map[], name, docs, p);
    AppliedAt(once, name, docs, p);
    AppliedAt(twice, name, docs, p);
  }

  lemma OneSource(t: Table, name: string, docs: seq<Document>)
    ensures Rebuilt(t, [Source(name, docs)]) == Applied(t, name, docs)
  {
    hide Applied;
    var sources := [Source(name, docs)];
    assert sources[..0] == [] && sources[0].docs == docs;
  }

  lemma LastOfTwo(existing: map<string, string>, a: Document, b: Document)
    requires a.path == b.path
    ensures a.path in Paths([a, b])
    ensures LastUpsert(existing, [a, b], a.path) ==
      if !Unchanged(existing, b) then Some(b) else if !Unchanged(existing, a) then Some(a) else None
  {
    var docs, front := [a, b], [a];
    assert docs[0] == a && docs[1] == b && docs[..1] == front && front[..0] == [];
    assert LastUpsert(existing, [], a.path) == None;
    assert LastUpsert(existing, front, a.path) == if !Unchanged(existing, a) then Some(a) else None;
  }

  // ----- collection and application together

  /** A configured source with the readable, non-empty documents its walk comes across, in order. */
  datatype Input = Input(name: string, candidates: seq<Document>)

  function CollectAll(a: Allowance, maxFileBytes: nat, inputs: seq<Input>): (Allowance, seq<Source>) {
    if inputs == [] then (a, [])
    else
      var (b, sources) := CollectAll(a, maxFileBytes, inputs[..|inputs| - 1]);
      var input := inputs[|inputs| - 1];
      var (c, docs) := Collected(b, maxFileBytes, input.candidates);
      (c, sources + [Source(input.name, docs)])
  }

  function FileTotal(sources: seq<Source>): nat {
    if sources == [] then 0 else FileTotal(sources[..|sources| - 1]) + |sources[|sources| - 1].docs|
  }

  function ByteTotal(sources: seq<Source>): nat {
    if sources == [] then 0 else ByteTotal(sources[..|sources| - 1]) + Bytes(sources[|sources| - 1].docs)
  }

  /** All sources together collect no more files than the budget, and no more bytes exactly when the sum
      can be represented; under a limit below the largest number, always. */
  lemma {:induction false} RebuildStaysWithinBudget(a: Allowance, maxFileBytes: nat, inputs: seq<Input>)
    requires Within(a)
    ensures var (b, sources) := CollectAll(a, maxFileBytes, inputs);
      Spent(a, b, FileTotal(sources), ByteTotal(sources))
  {
    hide Wrapped, Spent, Collected, Bytes;
    if inputs == [] {
      NothingSpent(a);
    } else {
      var front, input := inputs[..|inputs| - 1], inputs[|inputs| - 1];
      RebuildStaysWithinBudget(a, maxFileBytes, front);
      var (b, sources) := CollectAll(a, maxFileBytes, front);
      SpentWithin(a, b, FileTotal(sources), ByteTotal(sources));
      CollectionConserves(b, maxFileBytes, input.candidates);
      var (c, docs) := Collected(b, maxFileBytes, input.candidates);
      var all := CollectAll(a, maxFileBytes, inputs).1;
      assert all[..|all| - 1] == sources;
      SpentMore(a, b, c, FileTotal(sources), ByteTotal(sources), |docs|, Bytes(docs));
    }
  }

  function Reports(t: Table, sources: seq<Source>): seq<Report> {
    if sources == [] then []
    else
      var front, last := sources[..|sources| - 1], sources[|sources| - 1];
      Reports(t, front) + [ReportOf(Rebuilt(t, front), last.name, last.docs)]
  }

  lemma RebuiltSnoc(t: Table, a: Allowance, maxFileBytes: nat, inputs: seq<Input>, i: nat)
    requires i < |inputs|
    ensures var (b, sources) := CollectAll(a, maxFileBytes, inputs[..i]);
      var (c, docs) := Collected(b, maxFileBytes, inputs[i].candidates);
      && CollectAll(a, maxFileBytes, inputs[..i + 1]) == (c, sources + [Source(inputs[i].name, docs)])
      && Rebuilt(t, sources + [Source(inputs[i].name, docs)]) == Applied(Rebuilt(t, sources), inputs[i].name, docs)
      && Reports(t, sources + [Source(inputs[i].name, docs)])
         == Reports(t, sources) + [ReportOf(Rebuilt(t, sources), inputs[i].name, docs)]
  {
    assert inputs[..i + 1][..i] == inputs[..i];
    var (b, sources) := CollectAll(a, maxFileBytes, inputs[..i]);
    var (c, docs) := Collected(b, maxFileBytes, inputs[i].candidates);
    assert (sources + [Source(inputs[i].name, docs)])[..|sources|] == sources;
  }

  /** The rebuild loop: each source collects, then applies, before the next one starts. */
  method RebuildIndex(index: Index, budget: Budget, maxFileBytes: nat, inputs: seq<Input>)
    returns (reports: seq<Report>)
    requires Within(budget.State())
    modifies index, budget
    ensures index.rows == Rebuilt(old(index.rows), CollectAll(old(budget.State()), maxFileBytes, inputs).1)
    ensures budget.State() == CollectAll(old(budget.State()), maxFileBytes, inputs).0
    ensures reports == Reports(old(index.rows), CollectAll(old(budget.State()), maxFileBytes, inputs).1)
  {
    hide Applied, Collected, ReportOf, Affords;
    ghost var start := budget.State();
    ghost var was := index.rows;
    reports := [];
    for i := 0 to |inputs|
      invariant Within(budget.State())
      invariant reports == Reports(was, CollectAll(start, maxFileBytes, inputs[..i]).1)
      invariant budget.State() == CollectAll(start, maxFileBytes, inputs[..i]).0
      invariant index.rows == Rebuilt(was, CollectAll(start, maxFileBytes, inputs[..i]).1)
    {
      var input := inputs[i];
      RebuiltSnoc(was, start, maxFileBytes, inputs, i);
      var docs, oversize, overBudget := CollectDocuments(budget, maxFileBytes, input.candidates);
      var report := index.ApplySource(input.name, docs);
      reports := reports + [report];
    }
    assert inputs[..|inputs|] == inputs;
  }
}
