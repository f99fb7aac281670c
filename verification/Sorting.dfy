/** Insertion into a strict order, and why its result does not depend on where the input started. */
module Sorting {
  function Insert<T>(less: (T, T) -> bool, x: T, s: seq<T>): seq<T> {
    if s == [] || less(x, s[0]) then [x] + s else [s[0]] + Insert(less, x, s[1..])
  }

  function Sort<T>(less: (T, T) -> bool, s: seq<T>): seq<T> {
    if s == [] then [] else Insert(less, s[0], Sort(less, s[1..]))
  }

  ghost predicate Ascending<T>(less: (T, T) -> bool, s: seq<T>) {
    forall i, j :: 0 <= i < j < |s| ==> less(s[i], s[j])
  }

  /** No two elements share a place. */
  ghost predicate Comparable<T>(less: (T, T) -> bool, s: seq<T>) {
    forall i, j :: 0 <= i < j < |s| ==> less(s[i], s[j]) || less(s[j], s[i])
  }

  ghost predicate StrictOrder<T(!new)>(less: (T, T) -> bool) {
    && (forall a, b :: less(a, b) ==> !less(b, a))
    && (forall a, b, c :: less(a, b) && less(b, c) ==> less(a, c))
  }

  lemma {:induction false} InsertBag<T>(less: (T, T) -> bool, x: T, s: seq<T>)
    ensures multiset(Insert(less, x, s)) == multiset(s) + multiset{x}
  {
    if s != [] && !less(x, s[0]) {
      InsertBag(less, x, s[1..]);
      assert s == [s[0]] + s[1..];
    }
  }

  lemma {:induction false} InsertAscending<T(!new)>(less: (T, T) -> bool, x: T, s: seq<T>)
    requires StrictOrder(less) && Ascending(less, s) && forall i :: 0 <= i < |s| ==> less(x, s[i]) || less(s[i], x)
    ensures Ascending(less, Insert(less, x, s))
  {
    if s != [] && !less(x, s[0]) {
      var rest := s[1..];
      InsertAscending(less, x, rest);
      InsertBag(less, x, rest);
      forall i | 0 <= i < |Insert(less, x, rest)| ensures less(s[0], Insert(less, x, rest)[i]) {
        assert Insert(less, x, rest)[i] in multiset(Insert(less, x, rest));
        assert Insert(less, x, rest)[i] == x || Insert(less, x, rest)[i] in rest;
      }
    }
  }

  lemma {:induction false} SortBag<T>(less: (T, T) -> bool, s: seq<T>)
    ensures multiset(Sort(less, s)) == multiset(s)
  {
    if s != [] {
      SortBag(less, s[1..]);
      InsertBag(less, s[0], Sort(less, s[1..]));
      assert s == [s[0]] + s[1..];
    }
  }

  lemma {:induction false} SortAscending<T(!new)>(less: (T, T) -> bool, s: seq<T>)
    requires StrictOrder(less) && Comparable(less, s)
    ensures Ascending(less, Sort(less, s))
  {
    if s != [] {
      SortAscending(less, s[1..]);
      SortBag(less, s[1..]);
      var sorted := Sort(less, s[1..]);
      forall i | 0 <= i < |sorted| ensures less(s[0], sorted[i]) || less(sorted[i], s[0]) {
        assert sorted[i] in multiset(s[1..]);
        var j :| 0 <= j < |s| - 1 && s[j + 1] == sorted[i];
      }
      InsertAscending(less, s[0], sorted);
    }
  }

  /** There is only one ascending arrangement. */
  lemma {:induction false} AscendingUnique<T(!new)>(less: (T, T) -> bool, a: seq<T>, b: seq<T>)
    requires StrictOrder(less) && Ascending(less, a) && Ascending(less, b) && multiset(a) == multiset(b)
    ensures a == b
  {
    SameLength(a, b);
    if a != [] {
      SameFirst(less, a, b);
      SameTails(a, b);
      AscendingUnique(less, a[1..], b[1..]);
    }
  }

  lemma SameLength<T>(a: seq<T>, b: seq<T>)
    requires multiset(a) == multiset(b)
    ensures |a| == |b|
  {
    assert |a| == |multiset(a)| == |multiset(b)| == |b|;
  }

  lemma SameTails<T>(a: seq<T>, b: seq<T>)
    requires a != [] && b != [] && a[0] == b[0] && multiset(a) == multiset(b)
    ensures multiset(a[1..]) == multiset(b[1..])
  {
    assert a == [a[0]] + a[1..] && b == [b[0]] + b[1..];
    assert multiset(a[1..]) == multiset(a) - multiset{a[0]};
    assert multiset(b[1..]) == multiset(b) - multiset{b[0]};
  }

  lemma SameFirst<T(!new)>(less: (T, T) -> bool, a: seq<T>, b: seq<T>)
    requires StrictOrder(less) && Ascending(less, a) && Ascending(less, b) && multiset(a) == multiset(b)
    requires a != [] && b != []
    ensures a[0] == b[0]
  {
    assert a[0] in multiset(b) && b[0] in multiset(a);
    var i :| 0 <= i < |b| && b[i] == a[0];
    var j :| 0 <= j < |a| && a[j] == b[0];
    assert i > 0 ==> less(b[0], b[i]);
    assert j > 0 ==> less(a[0], a[j]);
  }

  lemma OnceAscending<T(!new)>(less: (T, T) -> bool, s: seq<T>, a: nat)
    requires StrictOrder(less) && Ascending(less, s) && a < |s|
    ensures multiset(s)[s[a]] == 1
  {
    assert s == s[..a] + [s[a]] + s[a + 1..];
    forall i | 0 <= i < a ensures s[i] != s[a] {
      assert less(s[i], s[a]);
    }
    forall i | a < i < |s| ensures s[i] != s[a] {
      assert less(s[a], s[i]);
    }
    assert s[a] !in s[..a] && s[a] !in s[a + 1..];
  }

  lemma PairComparable<T(!new)>(less: (T, T) -> bool, sorted: seq<T>, s: seq<T>, i: nat, j: nat)
    requires StrictOrder(less) && Ascending(less, sorted) && multiset(s) == multiset(sorted) && i < j < |s|
    ensures less(s[i], s[j]) || less(s[j], s[i])
  {
    assert s[i] in multiset(sorted) && s[j] in multiset(sorted);
    var a :| 0 <= a < |sorted| && sorted[a] == s[i];
    var b :| 0 <= b < |sorted| && sorted[b] == s[j];
    if a == b {
      assert s == s[..i] + [s[i]] + s[i + 1..j] + [s[j]] + s[j + 1..];
      OnceAscending(less, sorted, a);
    } else {
      assert less(sorted[a], sorted[b]) || less(sorted[b], sorted[a]);
    }
  }

  /** Whatever order the elements of an ascending sequence come in, sorting restores it. */
  lemma SortRestores<T(!new)>(less: (T, T) -> bool, sorted: seq<T>, s: seq<T>)
    requires StrictOrder(less) && Ascending(less, sorted) && multiset(s) == multiset(sorted)
    ensures Sort(less, s) == sorted
  {
    forall i, j | 0 <= i < j < |s| ensures less(s[i], s[j]) || less(s[j], s[i]) {
      PairComparable(less, sorted, s, i, j);
    }
    SortBag(less, s);
    SortAscending(less, s);
    AscendingUnique(less, Sort(less, s), sorted);
  }
}
