/** Stable sorting, and the byte-wise order of names. */
module Sorting {
  ghost predicate TotalPreorder<T(!new)>(leq: (T, T) -> bool) {
    && (forall a, b :: leq(a, b) || leq(b, a))
    && (forall a, b, c :: leq(a, b) && leq(b, c) ==> leq(a, c))
  }

  predicate SortedBy<T>(s: seq<T>, leq: (T, T) -> bool) {
    forall i, j :: 0 <= i < j < |s| ==> leq(s[i], s[j])
  }

  function Insert<T>(x: T, s: seq<T>, leq: (T, T) -> bool): (r: seq<T>)
    ensures |r| == |s| + 1
  {
    if s == [] then [x]
    else if leq(x, s[0]) then [x] + s
    else [s[0]] + Insert(x, s[1..], leq)
  }

  /** A stable sort: of two elements that compare equal, the earlier stays earlier. */
  function Sort<T>(s: seq<T>, leq: (T, T) -> bool): (r: seq<T>)
    ensures |r| == |s|
  {
    if s == [] then [] else Insert(s[0], Sort(s[1..], leq), leq)
  }

  lemma {:induction false} InsertPermutes<T>(x: T, s: seq<T>, leq: (T, T) -> bool)
    ensures multiset(Insert(x, s, leq)) == multiset{x} + multiset(s)
  {
    if s != [] && !leq(x, s[0]) {
      InsertPermutes(x, s[1..], leq);
      assert s == [s[0]] + s[1..];
    }
  }

  /** An element that is below every element of a list and below `x` is below all after inserting. */
  lemma BelowInserted<T(!new)>(low: T, x: T, s: seq<T>, leq: (T, T) -> bool, j: nat)
    requires leq(low, x) && (forall i :: 0 <= i < |s| ==> leq(low, s[i])) && j < |Insert(x, s, leq)|
    ensures leq(low, Insert(x, s, leq)[j])
  {
    InsertPermutes(x, s, leq);
    assert Insert(x, s, leq)[j] in multiset(Insert(x, s, leq));
    assert Insert(x, s, leq)[j] == x || Insert(x, s, leq)[j] in s;
  }

  lemma {:induction false} InsertSorted<T(!new)>(x: T, s: seq<T>, leq: (T, T) -> bool)
    requires TotalPreorder(leq) && SortedBy(s, leq)
    ensures SortedBy(Insert(x, s, leq), leq)
  {
    if s != [] && !leq(x, s[0]) {
      InsertSorted(x, s[1..], leq);
      forall j | 0 <= j < |Insert(x, s[1..], leq)| ensures leq(s[0], Insert(x, s[1..], leq)[j]) {
        BelowInserted(s[0], x, s[1..], leq, j);
      }
    }
  }

  lemma {:induction false} SortSorts<T(!new)>(s: seq<T>, leq: (T, T) -> bool)
    requires TotalPreorder(leq)
    ensures SortedBy(Sort(s, leq), leq)
    ensures multiset(Sort(s, leq)) == multiset(s)
  {
    if s != [] {
      SortSorts(s[1..], leq);
      InsertSorted(s[0], Sort(s[1..], leq), leq);
      InsertPermutes(s[0], Sort(s[1..], leq), leq);
      assert s == [s[0]] + s[1..];
    }
  }

  /** No two different elements compare equal. */
  predicate DistinctKeys<T(==)>(s: seq<T>, leq: (T, T) -> bool) {
    forall i, j :: 0 <= i < |s| && 0 <= j < |s| && leq(s[i], s[j]) && leq(s[j], s[i]) ==> s[i] == s[j]
  }

  lemma SameFirst<T>(a: seq<T>, b: seq<T>, leq: (T, T) -> bool)
    requires SortedBy(a, leq) && SortedBy(b, leq) && a != [] && b != []
    requires multiset(a) == multiset(b) && DistinctKeys(a, leq)
    ensures a[0] == b[0]
  {
    assert a[0] in multiset(b) && b[0] in multiset(a);
    var i :| 0 <= i < |b| && b[i] == a[0];
    var j :| 0 <= j < |a| && a[j] == b[0];
    assert i > 0 ==> leq(b[0], b[i]);
    assert j > 0 ==> leq(a[0], a[j]);
  }

  lemma TailKeeps<T>(a: seq<T>, leq: (T, T) -> bool)
    requires SortedBy(a, leq) && a != []
    ensures SortedBy(a[1..], leq)
    ensures DistinctKeys(a, leq) ==> DistinctKeys(a[1..], leq)
  {
    assert forall i :: 0 <= i < |a| - 1 ==> a[1..][i] == a[i + 1];
  }

  lemma TailsMatch<T>(a: seq<T>, b: seq<T>)
    requires a != [] && b != [] && a[0] == b[0]
    ensures multiset(a) == multiset(b) ==> multiset(a[1..]) == multiset(b[1..])
    ensures a[1..] == b[1..] ==> a == b
  {
    assert a == [a[0]] + a[1..] && b == [b[0]] + b[1..];
    assert multiset(a[1..]) == multiset(a) - multiset{a[0]};
    assert multiset(b[1..]) == multiset(b) - multiset{b[0]};
  }

  lemma SameLength<T>(a: seq<T>, b: seq<T>)
    requires multiset(a) == multiset(b)
    ensures |a| == |b|
  {
    assert |a| == |multiset(a)| == |multiset(b)| == |b|;
  }

  /** With distinct keys, a multiset has one sorted arrangement. */
  lemma {:induction false} SortedUnique<T>(a: seq<T>, b: seq<T>, leq: (T, T) -> bool)
    requires SortedBy(a, leq) && SortedBy(b, leq)
    requires multiset(a) == multiset(b) && DistinctKeys(a, leq)
    ensures a == b
  {
    SameLength(a, b);
    if a != [] {
      SameFirst(a, b, leq);
      TailsMatch(a, b);
      TailKeeps(a, leq);
      TailKeeps(b, leq);
      SortedUnique(a[1..], b[1..], leq);
    }
  }

  /** Sorting makes the order of the input irrelevant when keys are distinct. */
  lemma SortIgnoresOrder<T(!new)>(a: seq<T>, b: seq<T>, leq: (T, T) -> bool)
    requires TotalPreorder(leq) && multiset(a) == multiset(b) && DistinctKeys(a, leq)
    ensures Sort(a, leq) == Sort(b, leq)
  {
    SortSorts(a, leq);
    SortSorts(b, leq);
    var sorted := Sort(a, leq);
    forall i, j | 0 <= i < |sorted| && 0 <= j < |sorted| && leq(sorted[i], sorted[j]) && leq(sorted[j], sorted[i])
      ensures sorted[i] == sorted[j]
    {
      assert sorted[i] in multiset(a) && sorted[j] in multiset(a);
    }
    SortedUnique(sorted, Sort(b, leq), leq);
  }

  // ---------------------------------------------------------------- names

  /** The order of Go strings. */
  predicate NameLeq(a: string, b: string) {
    if a == "" then true
    else if b == "" then false
    else a[0] < b[0] || (a[0] == b[0] && NameLeq(a[1..], b[1..]))
  }

  lemma {:induction false} NameTotal(a: string, b: string)
    ensures NameLeq(a, b) || NameLeq(b, a)
    ensures NameLeq(a, b) && NameLeq(b, a) ==> a == b
  {
    if a != "" && b != "" {
      NameTotal(a[1..], b[1..]);
      assert a == [a[0]] + a[1..] && b == [b[0]] + b[1..];
    }
  }

  lemma {:induction false} NameTransitive(a: string, b: string, c: string)
    requires NameLeq(a, b) && NameLeq(b, c)
    ensures NameLeq(a, c)
  {
    if a != "" && a[0] == b[0] == c[0] {
      NameTransitive(a[1..], b[1..], c[1..]);
    }
  }

  lemma NamesPreordered()
    ensures TotalPreorder(NameLeq)
  {
    forall a, b ensures NameLeq(a, b) || NameLeq(b, a) { NameTotal(a, b); }
    forall a, b, c | NameLeq(a, b) && NameLeq(b, c) ensures NameLeq(a, c) { NameTransitive(a, b, c); }
  }
}
