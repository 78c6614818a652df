/** The stable sort that `Array.sort` and ORDER BY provide, for any comparison. */
module Sorting {

  /** A comparison under which any two values can be put in order. */
  ghost predicate TotalPreorder<T(!new)>(le: (T, T) -> bool) {
    && (forall x, y :: le(x, y) || le(y, x))
    && (forall x, y, z :: le(x, y) && le(y, z) ==> le(x, z))
  }

  ghost predicate Ordered<T(!new)>(s: seq<T>, le: (T, T) -> bool) {
    forall i, j :: 0 <= i < j < |s| ==> le(s[i], s[j])
  }

  /** Places `x` after everything it does not have to precede. */
  function Insert<T>(s: seq<T>, x: T, le: (T, T) -> bool): (r: seq<T>)
    ensures multiset(r) == multiset(s) + multiset{x}
  {
    if s == [] then [x]
    else
      var init, last := s[..|s| - 1], s[|s| - 1];
      assert s == init + [last];
      if le(last, x) then s + [x] else Insert(init, x, le) + [last]
  }

  function Sort<T>(s: seq<T>, le: (T, T) -> bool): (r: seq<T>)
    ensures multiset(r) == multiset(s)
    ensures |r| == |s|
  {
    if s == [] then []
    else
      assert s == s[..|s| - 1] + [s[|s| - 1]];
      var r := Insert(Sort(s[..|s| - 1], le), s[|s| - 1], le);
      assert |r| == |multiset(r)| == |multiset(s)| == |s|;
      r
  }

  lemma SameMembers<T>(a: seq<T>, b: seq<T>)
    requires multiset(a) == multiset(b)
    ensures forall x :: x in a <==> x in b
  {
    forall x ensures x in a <==> x in b {
      assert x in a <==> x in multiset(a);
      assert x in b <==> x in multiset(b);
    }
  }

  lemma {:induction false} InsertKeepsOrder<T(!new)>(s: seq<T>, x: T, le: (T, T) -> bool)
    requires TotalPreorder(le) && Ordered(s, le)
    ensures Ordered(Insert(s, x, le), le)
  {
    if s != [] {
      var init, last := s[..|s| - 1], s[|s| - 1];
      if le(last, x) {
        forall i | 0 <= i < |s| ensures le(s[i], x) {
          assert i == |s| - 1 || le(s[i], last);
        }
      } else {
        InsertKeepsOrder(init, x, le);
        var r := Insert(init, x, le);
        assert multiset(r) == multiset(init + [x]);
        SameMembers(r, init + [x]);
        forall i | 0 <= i < |r| ensures le(r[i], last) {
          assert r[i] in init + [x];
        }
      }
    }
  }

  lemma {:induction false} SortOrders<T(!new)>(s: seq<T>, le: (T, T) -> bool)
    requires TotalPreorder(le)
    ensures Ordered(Sort(s, le), le)
  {
    if s != [] {
      SortOrders(s[..|s| - 1], le);
      InsertKeepsOrder(Sort(s[..|s| - 1], le), s[|s| - 1], le);
    }
  }

  /** No two different rows tie. */
  ghost predicate NoTies<T(!new)>(rows: multiset<T>, le: (T, T) -> bool) {
    forall x, y :: x in rows && y in rows && le(x, y) && le(y, x) ==> x == y
  }

  lemma DropLast<T>(a: seq<T>, b: seq<T>)
    requires a != [] && b != []
    requires a[|a| - 1] == b[|b| - 1] && multiset(a) == multiset(b)
    ensures multiset(a[..|a| - 1]) == multiset(b[..|b| - 1]) <= multiset(a)
  {
    assert a == a[..|a| - 1] + [a[|a| - 1]];
    assert b == b[..|b| - 1] + [b[|b| - 1]];
    assert multiset(a[..|a| - 1]) == multiset(a) - multiset{a[|a| - 1]};
    assert multiset(b[..|b| - 1]) == multiset(b) - multiset{a[|a| - 1]};
  }

  lemma SameLast<T(!new)>(a: seq<T>, b: seq<T>, le: (T, T) -> bool)
    requires Ordered(a, le) && Ordered(b, le)
    requires multiset(a) == multiset(b) && NoTies(multiset(a), le)
    requires a != [] && b != []
    ensures a[|a| - 1] == b[|b| - 1]
  {
    var x, y := a[|a| - 1], b[|b| - 1];
    SameMembers(a, b);
    assert x in b && y in a;
    var i :| 0 <= i < |b| && b[i] == x;
    var j :| 0 <= j < |a| && a[j] == y;
    assert i < |b| - 1 ==> le(b[i], b[|b| - 1]);
    assert j < |a| - 1 ==> le(a[j], a[|a| - 1]);
    assert x == y || (le(x, y) && le(y, x));
    assert x in multiset(a) && y in multiset(a);
  }

  lemma DropLastKeepsOrder<T(!new)>(a: seq<T>, le: (T, T) -> bool)
    requires a != [] && Ordered(a, le)
    ensures Ordered(a[..|a| - 1], le)
  {
    assert forall i :: 0 <= i < |a| - 1 ==> a[..|a| - 1][i] == a[i];
  }

  lemma FewerRowsNoTies<T(!new)>(some: multiset<T>, all: multiset<T>, le: (T, T) -> bool)
    requires some <= all && NoTies(all, le)
    ensures NoTies(some, le)
  {
  }

  lemma SameSize<T>(a: seq<T>, b: seq<T>)
    requires multiset(a) == multiset(b)
    ensures |a| == |b|
  {
    assert |multiset(a)| == |a| && |multiset(b)| == |b|;
  }

  lemma Rejoin<T>(a: seq<T>, b: seq<T>)
    requires |a| == |b| > 0 && a[..|a| - 1] == b[..|b| - 1] && a[|a| - 1] == b[|b| - 1]
    ensures a == b
  {
    assert a == a[..|a| - 1] + [a[|a| - 1]] && b == b[..|b| - 1] + [b[|b| - 1]];
  }

  /** When no two different rows tie, there is only one ordered arrangement of them. */
  lemma {:induction false} OrderIsUnique<T(!new)>(a: seq<T>, b: seq<T>, le: (T, T) -> bool)
    requires Ordered(a, le) && Ordered(b, le)
    requires multiset(a) == multiset(b) && NoTies(multiset(a), le)
    ensures a == b
    decreases |a|
  {
    SameSize(a, b);
    if a != [] {
      SameLast(a, b, le);
      DropLast(a, b);
      DropLastKeepsOrder(a, le);
      DropLastKeepsOrder(b, le);
      FewerRowsNoTies(multiset(a[..|a| - 1]), multiset(a), le);
      OrderIsUnique(a[..|a| - 1], b[..|b| - 1], le);
      Rejoin(a, b);
    }
  }
}
