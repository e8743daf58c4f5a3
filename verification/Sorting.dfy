/** Sorting by a key: what a stable sort returns, and when a sorted order is unique.

    Rust's `sort_by` is stable, so its result is the function `Sort`. C++'s `std::sort` is not, so
    its result is only known to be some sorted rearrangement (`SortsTo`). */
module Sorting {

  ghost predicate TotalPreorder<T(!new)>(leq: (T, T) -> bool) {
    && (forall a, b :: leq(a, b) || leq(b, a))
    && (forall a, b, c :: leq(a, b) && leq(b, c) ==> leq(a, c))
  }

  ghost predicate SortedBy<T>(leq: (T, T) -> bool, s: seq<T>) {
    forall i, j :: 0 <= i < j < |s| ==> leq(s[i], s[j])
  }

  /** `t` is one of the orders a sorting routine may leave the elements of `s` in. */
  ghost predicate SortsTo<T>(leq: (T, T) -> bool, s: seq<T>, t: seq<T>) {
    multiset(s) == multiset(t) && SortedBy(leq, t)
  }

  /** No two different elements of `s` have the same key. */
  ghost predicate DistinctKeys<T>(leq: (T, T) -> bool, s: seq<T>) {
    forall i, j :: 0 <= i < |s| && 0 <= j < |s| && leq(s[i], s[j]) && leq(s[j], s[i]) ==> s[i] == s[j]
  }

  // ----- the stable sort

  function Insert<T>(leq: (T, T) -> bool, s: seq<T>, x: T): seq<T> {
    if s == [] || leq(s[|s| - 1], x) then s + [x]
    else Insert(leq, s[..|s| - 1], x) + [s[|s| - 1]]
  }

  function Sort<T>(leq: (T, T) -> bool, s: seq<T>): seq<T> {
    if s == [] then [] else Insert(leq, Sort(leq, s[..|s| - 1]), s[|s| - 1])
  }

  lemma {:induction false} InsertMembers<T>(leq: (T, T) -> bool, s: seq<T>, x: T)
    ensures multiset(Insert(leq, s, x)) == multiset(s) + multiset{x}
  {
    if s != [] && !leq(s[|s| - 1], x) {
      var n := |s| - 1;
      assert s == s[..n] + [s[n]];
      InsertMembers(leq, s[..n], x);
    }
  }

  lemma Above<T(!new)>(leq: (T, T) -> bool, s: seq<T>, x: T, r: seq<T>, top: T)
    requires multiset(r) == multiset(s) + multiset{x} && leq(x, top)
    requires forall i :: 0 <= i < |s| ==> leq(s[i], top)
    ensures forall i :: 0 <= i < |r| ==> leq(r[i], top)
  {
    forall i | 0 <= i < |r| ensures leq(r[i], top) {
      assert r[i] in multiset(r);
      assert r[i] in s || r[i] == x;
    }
  }

  lemma {:induction false} InsertKeepsOrder<T(!new)>(leq: (T, T) -> bool, s: seq<T>, x: T)
    requires TotalPreorder(leq) && SortedBy(leq, s)
    ensures SortedBy(leq, Insert(leq, s, x))
    ensures multiset(Insert(leq, s, x)) == multiset(s) + multiset{x}
  {
    InsertMembers(leq, s, x);
    if s != [] && !leq(s[|s| - 1], x) {
      var n := |s| - 1;
      InsertKeepsOrder(leq, s[..n], x);
      Above(leq, s[..n], x, Insert(leq, s[..n], x), s[n]);
    }
  }

  /** The stable sort returns a sorted rearrangement of its input. */
  lemma {:induction false} SortSorts<T(!new)>(leq: (T, T) -> bool, s: seq<T>)
    requires TotalPreorder(leq)
    ensures SortsTo(leq, s, Sort(leq, s))
  {
    if s != [] {
      var n := |s| - 1;
      assert s == s[..n] + [s[n]];
      SortSorts(leq, s[..n]);
      InsertKeepsOrder(leq, Sort(leq, s[..n]), s[n]);
    }
  }

  /** A sorted sequence is left alone, so sorting twice is sorting once. */
  lemma {:induction false} SortOfSorted<T>(leq: (T, T) -> bool, s: seq<T>)
    requires SortedBy(leq, s)
    ensures Sort(leq, s) == s
  {
    if s != [] {
      var n := |s| - 1;
      assert s == s[..n] + [s[n]];
      SortOfSorted(leq, s[..n]);
    }
  }

  // ----- uniqueness of the sorted order

  lemma TailMembers<T>(s: seq<T>)
    requires s != []
    ensures multiset(s) == multiset{s[0]} + multiset(s[1..]) && multiset(s[1..]) == multiset(s) - multiset{s[0]}
  {
    assert s == [s[0]] + s[1..];
  }

  lemma SameFirst<T(!new)>(leq: (T, T) -> bool, s: seq<T>, t: seq<T>)
    requires TotalPreorder(leq) && SortedBy(leq, s) && SortedBy(leq, t)
    requires multiset(s) == multiset(t) && DistinctKeys(leq, s) && s != [] && t != []
    ensures s[0] == t[0]
  {
    assert s[0] in multiset(t) && t[0] in multiset(s);
    var i :| 0 <= i < |t| && t[i] == s[0];
    var j :| 0 <= j < |s| && s[j] == t[0];
    assert leq(s[0], s[j]) && leq(t[0], t[i]);
  }

  lemma TailSorted<T>(leq: (T, T) -> bool, s: seq<T>)
    requires SortedBy(leq, s) && s != []
    ensures SortedBy(leq, s[1..]) && (DistinctKeys(leq, s) ==> DistinctKeys(leq, s[1..]))
  {
  }

  lemma TailsMatch<T>(s: seq<T>, t: seq<T>)
    requires multiset(s) == multiset(t) && s != [] && t != [] && s[0] == t[0]
    ensures multiset(s[1..]) == multiset(t[1..])
  {
    TailMembers(s);
    TailMembers(t);
  }

  lemma SameLength<T>(s: seq<T>, t: seq<T>)
    requires multiset(s) == multiset(t)
    ensures |s| == |t|
  {
    assert |s| == |multiset(s)| == |multiset(t)| == |t|;
  }

  lemma {:induction false} SortedOrderUnique<T(!new)>(leq: (T, T) -> bool, s: seq<T>, t: seq<T>)
    requires TotalPreorder(leq) && SortedBy(leq, s) && SortedBy(leq, t)
    requires multiset(s) == multiset(t) && DistinctKeys(leq, s)
    ensures s == t
    decreases |s|
  {
    hide TotalPreorder, SortedBy, DistinctKeys;
    SameLength(s, t);
    if |s| > 0 {
      SameFirst(leq, s, t);
      TailsMatch(s, t);
      TailSorted(leq, s);
      TailSorted(leq, t);
      SortedOrderUnique(leq, s[1..], t[1..]);
      Rejoined(s, t);
    }
  }

  lemma Rejoined<T>(s: seq<T>, t: seq<T>)
    requires s != [] && t != [] && s[0] == t[0] && s[1..] == t[1..]
    ensures s == t
  {
    assert s == [s[0]] + s[1..] && t == [t[0]] + t[1..];
  }

  lemma SwapTies<T(!new)>(leq: (T, T) -> bool, s: seq<T>, i: nat, j: nat) returns (t: seq<T>)
    requires TotalPreorder(leq) && SortedBy(leq, s)
    requires i < j < |s| && s[i] != s[j] && leq(s[j], s[i])
    ensures SortedBy(leq, t) && multiset(t) == multiset(s) && t != s
  {
    t := s[i := s[j]][j := s[i]];
    assert t[i] != s[i];
  }

  /** The sorted order of a collection is unique exactly when no two different elements share a key. */
  lemma SortedOrderUniqueIff<T(!new)>(leq: (T, T) -> bool, s: seq<T>)
    requires TotalPreorder(leq)
    ensures (forall t, u :: SortsTo(leq, s, t) && SortsTo(leq, s, u) ==> t == u) <==> DistinctKeys(leq, s)
  {
    if DistinctKeys(leq, s) {
      forall t, u | SortsTo(leq, s, t) && SortsTo(leq, s, u) ensures t == u {
        DistinctKeysMoves(leq, s, t);
        SortedOrderUnique(leq, t, u);
      }
    } else {
      var t := Sort(leq, s);
      SortSorts(leq, s);
      if DistinctKeys(leq, t) { DistinctKeysMoves(leq, t, s); }
      var i, j :| 0 <= i < |t| && 0 <= j < |t| && leq(t[i], t[j]) && leq(t[j], t[i]) && t[i] != t[j];
      var u := SwapTies(leq, t, if i < j then i else j, if i < j then j else i);
      assert SortsTo(leq, s, t) && SortsTo(leq, s, u) && t != u;
    }
  }

  lemma DistinctKeysMoves<T>(leq: (T, T) -> bool, s: seq<T>, t: seq<T>)
    requires multiset(s) == multiset(t) && DistinctKeys(leq, s)
    ensures DistinctKeys(leq, t)
  {
    forall i, j | 0 <= i < |t| && 0 <= j < |t| && leq(t[i], t[j]) && leq(t[j], t[i]) ensures t[i] == t[j] {
      assert t[i] in multiset(s) && t[j] in multiset(s);
      var a :| 0 <= a < |s| && s[a] == t[i];
      var b :| 0 <= b < |s| && s[b] == t[j];
    }
  }

  /** The stable sort forgets the order its input came in exactly when no two different elements
      share a key. */
  lemma SortForgetsOrderIff<T(!new)>(leq: (T, T) -> bool, s: seq<T>)
    requires TotalPreorder(leq)
    ensures (forall t :: multiset(t) == multiset(s) ==> Sort(leq, t) == Sort(leq, s)) <==> DistinctKeys(leq, s)
  {
    SortedOrderUniqueIff(leq, s);
    if DistinctKeys(leq, s) {
      forall t | multiset(t) == multiset(s) ensures Sort(leq, t) == Sort(leq, s) {
        SortSorts(leq, t);
        SortSorts(leq, s);
        assert SortsTo(leq, s, Sort(leq, t));
      }
    } else {
      var t, u :| SortsTo(leq, s, t) && SortsTo(leq, s, u) && t != u;
      SortOfSorted(leq, t);
      SortOfSorted(leq, u);
    }
  }

  // ----- the lexicographic order of names

  predicate NameLeq(a: string, b: string) {
    a == "" || (b != "" && (a[0] < b[0] || (a[0] == b[0] && NameLeq(a[1..], b[1..]))))
  }

  lemma {:induction false} NameTotal(a: string, b: string)
    ensures NameLeq(a, b) || NameLeq(b, a)
  {
    if a != "" && b != "" { NameTotal(a[1..], b[1..]); }
  }

  lemma {:induction false} NameTransitive(a: string, b: string, c: string)
    requires NameLeq(a, b) && NameLeq(b, c)
    ensures NameLeq(a, c)
  {
    if a != "" && a[0] == b[0] == c[0] { NameTransitive(a[1..], b[1..], c[1..]); }
  }

  lemma {:induction false} NameAntisymmetric(a: string, b: string)
    requires NameLeq(a, b) && NameLeq(b, a)
    ensures a == b
  {
    if a != "" {
      NameAntisymmetric(a[1..], b[1..]);
      assert a == [a[0]] + a[1..] && b == [b[0]] + b[1..];
    }
  }

  lemma NameOrder()
    ensures TotalPreorder(NameLeq)
    ensures forall a, b :: NameLeq(a, b) && NameLeq(b, a) ==> a == b
  {
    forall a, b ensures NameLeq(a, b) || NameLeq(b, a) { NameTotal(a, b); }
    forall a, b, c | NameLeq(a, b) && NameLeq(b, c) ensures NameLeq(a, c) { NameTransitive(a, b, c); }
    forall a, b | NameLeq(a, b) && NameLeq(b, a) ensures a == b { NameAntisymmetric(a, b); }
  }
}
