/**
 * Database tables as sequences of rows, in the order they were written.
 *
 * `Sum` is SQL's SUM over a whole table, `Where` is its row filter. Both recurse
 * from the end, so an INSERT (append) and a loop reading one more row are the
 * same single unfolding.
 */
module Rows {

  function Sum<T>(rows: seq<T>, f: T -> int): int {
    if rows == [] then 0 else Sum(rows[..|rows| - 1], f) + f(rows[|rows| - 1])
  }

  function Where<T(!new)>(rows: seq<T>, p: T -> bool): (kept: seq<T>)
    ensures forall r {:trigger r in kept} :: r in kept <==> r in rows && p(r)
  {
    if rows == [] then []
    else
      var last := rows[|rows| - 1];
      assert rows == rows[..|rows| - 1] + [last];
      Where(rows[..|rows| - 1], p) + if p(last) then [last] else []
  }

  lemma SumAppend<T(!new)>(rows: seq<T>, r: T, f: T -> int)
    ensures Sum(rows + [r], f) == Sum(rows, f) + f(r)
  {
    assert (rows + [r])[..|rows|] == rows;
  }

  lemma SumOne<T>(r: T, f: T -> int)
    ensures Sum([r], f) == f(r)
  {
    assert [r][..0] == [];
  }

  lemma SumTwo<T>(q: T, r: T, f: T -> int)
    ensures Sum([q, r], f) == f(q) + f(r)
  {
    assert [q, r][..1] == [q];
    SumOne(q, f);
  }

  lemma {:induction false} SumConcat<T(!new)>(a: seq<T>, b: seq<T>, f: T -> int)
    ensures Sum(a + b, f) == Sum(a, f) + Sum(b, f)
  {
    if b == [] {
      assert a + b == a;
    } else {
      assert (a + b)[..|a + b| - 1] == a + b[..|b| - 1];
      SumConcat(a, b[..|b| - 1], f);
    }
  }

  /** Reading one more row of a table inside a loop. */
  lemma SumNext<T(!new)>(rows: seq<T>, i: nat, f: T -> int)
    requires i < |rows|
    ensures Sum(rows[..i + 1], f) == Sum(rows[..i], f) + f(rows[i])
  {
    assert rows[..i + 1] == rows[..i] + [rows[i]];
  }

  lemma {:induction false} SumLe<T(!new)>(rows: seq<T>, f: T -> int, g: T -> int)
    requires forall r :: r in rows ==> f(r) <= g(r)
    ensures Sum(rows, f) <= Sum(rows, g)
  {
    if rows != [] {
      SumLe(rows[..|rows| - 1], f, g);
    }
  }

  lemma SumEq<T(!new)>(rows: seq<T>, f: T -> int, g: T -> int)
    requires forall r :: r in rows ==> f(r) == g(r)
    ensures Sum(rows, f) == Sum(rows, g)
  {
    SumLe(rows, f, g);
    SumLe(rows, g, f);
  }

  lemma {:induction false} SumZero<T(!new)>(rows: seq<T>, f: T -> int)
    requires forall r :: r in rows ==> f(r) == 0
    ensures Sum(rows, f) == 0
  {
    if rows != [] {
      SumZero(rows[..|rows| - 1], f);
    }
  }

  lemma {:induction false} SumAdd<T(!new)>(rows: seq<T>, f: T -> int, g: T -> int, h: T -> int)
    requires forall r :: r in rows ==> h(r) == f(r) + g(r)
    ensures Sum(rows, h) == Sum(rows, f) + Sum(rows, g)
  {
    if rows != [] {
      SumAdd(rows[..|rows| - 1], f, g, h);
    }
  }

  lemma SumAround<T(!new)>(before: seq<T>, r: T, after: seq<T>, f: T -> int)
    ensures Sum(before + [r] + after, f) == Sum(before, f) + f(r) + Sum(after, f)
  {
    SumConcat(before + [r], after, f);
  }

  lemma SplitAt<T>(rows: seq<T>, i: nat)
    requires i < |rows|
    ensures rows == rows[..i] + [rows[i]] + rows[i + 1..]
  {
  }

  /** Rewriting one row changes a sum by the difference it makes. */
  lemma SumUpdate<T(!new)>(rows: seq<T>, i: nat, r: T, f: T -> int)
    requires i < |rows|
    ensures Sum(rows[i := r], f) == Sum(rows, f) - f(rows[i]) + f(r)
  {
    SplitAt(rows, i);
    SumAround(rows[..i], rows[i], rows[i + 1..], f);
    assert rows[i := r] == rows[..i] + [r] + rows[i + 1..];
    SumAround(rows[..i], r, rows[i + 1..], f);
  }

  /** `id: { not: … }`: every row but one. */
  function Except<T>(rows: seq<T>, i: nat): seq<T>
    requires i < |rows|
  {
    rows[..i] + rows[i + 1..]
  }

  lemma SumExcept<T(!new)>(rows: seq<T>, i: nat, f: T -> int)
    requires i < |rows|
    ensures Sum(Except(rows, i), f) == Sum(rows, f) - f(rows[i])
  {
    SplitAt(rows, i);
    SumAround(rows[..i], rows[i], rows[i + 1..], f);
    SumConcat(rows[..i], rows[i + 1..], f);
  }

  lemma {:induction false} SumNegate<T(!new)>(rows: seq<T>, f: T -> int, minus: T -> int)
    requires forall r :: r in rows ==> minus(r) == -f(r)
    ensures Sum(rows, minus) == -Sum(rows, f)
  {
    if rows != [] {
      SumNegate(rows[..|rows| - 1], f, minus);
    }
  }

  /** Filtering out rows changes a sum by exactly what those rows contributed. */
  lemma {:induction false} SumWhere<T(!new)>(rows: seq<T>, p: T -> bool, f: T -> int, g: T -> int)
    requires forall r :: r in rows ==> g(r) == if p(r) then f(r) else 0
    ensures Sum(Where(rows, p), f) == Sum(rows, g)
  {
    if rows != [] {
      var last := rows[|rows| - 1];
      SumWhere(rows[..|rows| - 1], p, f, g);
      if p(last) {
      } else {
        assert Where(rows[..|rows| - 1], p) + [] == Where(rows[..|rows| - 1], p);
      }
    }
  }

  /** COUNT: adding one for each row of a kind is the length of the filtered rows. */
  lemma {:induction false} SumIsCount<T(!new)>(rows: seq<T>, f: T -> int, p: T -> bool)
    requires forall r :: r in rows ==> f(r) == if p(r) then 1 else 0
    ensures Sum(rows, f) == |Where(rows, p)|
  {
    if rows != [] {
      SumIsCount(rows[..|rows| - 1], f, p);
    }
  }

  lemma {:induction false} SumWhereLe<T(!new)>(rows: seq<T>, p: T -> bool, f: T -> int)
    requires forall r :: r in rows ==> f(r) >= 0
    ensures 0 <= Sum(Where(rows, p), f) <= Sum(rows, f)
  {
    if rows != [] {
      var last := rows[|rows| - 1];
      SumWhereLe(rows[..|rows| - 1], p, f);
      if p(last) {
      } else {
        assert Where(rows[..|rows| - 1], p) + [] == Where(rows[..|rows| - 1], p);
      }
    }
  }

  /** One row of a sum of non-negative figures is at most the sum. */
  lemma {:induction false} RowLeSum<T(!new)>(rows: seq<T>, x: T, f: T -> int)
    requires x in rows && forall r :: r in rows ==> f(r) >= 0
    ensures f(x) <= Sum(rows, f)
  {
    var init, last := rows[..|rows| - 1], rows[|rows| - 1];
    SumNonNegative(init, f);
    if x != last {
      assert rows == init + [last];
      RowLeSum(init, x, f);
    }
  }

  lemma SumNonNegative<T(!new)>(rows: seq<T>, f: T -> int)
    requires forall r :: r in rows ==> f(r) >= 0
    ensures Sum(rows, f) >= 0
  {
    SumWhereLe(rows, (r: T) => true, f);
  }

  lemma {:induction false} WhereConcat<T(!new)>(a: seq<T>, b: seq<T>, p: T -> bool)
    ensures Where(a + b, p) == Where(a, p) + Where(b, p)
  {
    if b == [] {
      assert a + b == a;
      assert Where(a, p) + [] == Where(a, p);
    } else {
      assert (a + b)[..|a + b| - 1] == a + b[..|b| - 1];
      WhereConcat(a, b[..|b| - 1], p);
    }
  }

  lemma {:induction false} WhereAll<T(!new)>(rows: seq<T>, p: T -> bool)
    requires forall r :: r in rows ==> p(r)
    ensures Where(rows, p) == rows
  {
    if rows != [] {
      WhereAll(rows[..|rows| - 1], p);
      assert rows == rows[..|rows| - 1] + [rows[|rows| - 1]];
    }
  }

  lemma WhereNone<T(!new)>(rows: seq<T>, p: T -> bool)
    requires forall r :: r in rows ==> !p(r)
    ensures Where(rows, p) == []
  {
    if Where(rows, p) != [] {
      assert Where(rows, p)[0] in Where(rows, p);
    }
  }

  /** Filtering out just the newest rows leaves the table as it was. */
  lemma WhereDropsNew<T(!new)>(rows: seq<T>, more: seq<T>, keep: T -> bool)
    requires forall r :: r in rows ==> keep(r)
    requires forall r :: r in more ==> !keep(r)
    ensures Where(rows + more, keep) == rows
  {
    WhereConcat(rows, more, keep);
    WhereAll(rows, keep);
    WhereNone(more, keep);
  }

  lemma {:induction false} WhereSame<T(!new)>(rows: seq<T>, p: T -> bool, q: T -> bool)
    requires forall r :: r in rows ==> p(r) == q(r)
    ensures Where(rows, p) == Where(rows, q)
  {
    if rows != [] {
      WhereSame(rows[..|rows| - 1], p, q);
    }
  }

  lemma {:induction false} WhereTwice<T(!new)>(rows: seq<T>, p: T -> bool, q: T -> bool, both: T -> bool)
    requires forall r :: r in rows ==> both(r) == (p(r) && q(r))
    ensures Where(Where(rows, p), q) == Where(rows, both)
  {
    if rows != [] {
      var init, last := rows[..|rows| - 1], rows[|rows| - 1];
      WhereTwice(init, p, q, both);
      if p(last) {
        WhereConcat(Where(init, p), [last], q);
        assert [last][..0] == [];
      } else {
        assert Where(init, p) + [] == Where(init, p);
      }
    }
  }

  /** A unique column. */
  ghost predicate Unique<T(!new), K(!new)>(rows: seq<T>, key: T -> K) {
    forall i, j :: 0 <= i < j < |rows| ==> key(rows[i]) != key(rows[j])
  }

  lemma UniqueAppend<T(!new), K(!new)>(rows: seq<T>, r: T, key: T -> K)
    requires Unique(rows, key) && forall x :: x in rows ==> key(x) != key(r)
    ensures Unique(rows + [r], key)
  {
  }

  lemma UniqueMap<T(!new), K(!new)>(rows: seq<T>, f: T -> T, key: T -> K)
    requires Unique(rows, key) && forall r :: r in rows ==> key(f(r)) == key(r)
    ensures Unique(Map(rows, f), key)
  {
  }

  lemma {:induction false} UniqueWhere<T(!new), K(!new)>(rows: seq<T>, p: T -> bool, key: T -> K)
    requires Unique(rows, key)
    ensures Unique(Where(rows, p), key)
  {
    if rows != [] {
      var init, last := rows[..|rows| - 1], rows[|rows| - 1];
      UniqueWhere(init, p, key);
      if p(last) {
        UniqueAppend(Where(init, p), last, key);
      } else {
        assert Where(init, p) + [] == Where(init, p);
      }
    }
  }

  /** What only one row of a unique column contributes to. */
  lemma {:induction false} SumOfUnique<T(!new), K(!new)>(rows: seq<T>, key: T -> K, r: T, f: T -> int)
    requires Unique(rows, key) && r in rows
    requires forall x :: x in rows && key(x) != key(r) ==> f(x) == 0
    ensures Sum(rows, f) == f(r)
  {
    var init, last := rows[..|rows| - 1], rows[|rows| - 1];
    assert rows == init + [last];
    if key(last) == key(r) {
      var i :| 0 <= i < |rows| && rows[i] == r;
      forall x | x in init ensures f(x) == 0 {
        var j :| 0 <= j < |init| && init[j] == x;
        assert rows[j] == x;
      }
      SumZero(init, f);
    } else {
      SumOfUnique(init, key, r, f);
    }
  }

  /** How many times a row occurs. */
  function Count<T(==)>(rows: seq<T>, x: T): nat {
    if rows == [] then 0 else Count(rows[..|rows| - 1], x) + if rows[|rows| - 1] == x then 1 else 0
  }

  lemma {:induction false} CountConcat<T>(a: seq<T>, b: seq<T>, x: T)
    ensures Count(a + b, x) == Count(a, x) + Count(b, x)
  {
    if b == [] {
      assert a + b == a;
    } else {
      assert (a + b)[..|a + b| - 1] == a + b[..|b| - 1];
      CountConcat(a, b[..|b| - 1], x);
    }
  }

  lemma {:induction false} CountWhere<T(!new)>(rows: seq<T>, p: T -> bool, x: T)
    ensures Count(Where(rows, p), x) == if p(x) then Count(rows, x) else 0
  {
    if rows != [] {
      var init, last := rows[..|rows| - 1], rows[|rows| - 1];
      CountWhere(init, p, x);
      if p(last) {
        assert (Where(init, p) + [last])[..|Where(init, p)|] == Where(init, p);
      } else {
        assert Where(init, p) + [] == Where(init, p);
      }
    }
  }

  lemma {:induction false} CountIsMultiplicity<T>(rows: seq<T>, x: T)
    ensures Count(rows, x) == multiset(rows)[x]
  {
    if rows != [] {
      CountIsMultiplicity(rows[..|rows| - 1], x);
      assert rows == rows[..|rows| - 1] + [rows[|rows| - 1]];
    }
  }

  /** Tables that hold each row equally often hold the same rows. */
  lemma SameCountsSameRows<T>(a: seq<T>, b: seq<T>, x: T)
    requires Count(a, x) == Count(b, x)
    ensures x in a <==> x in b
  {
    CountIsMultiplicity(a, x);
    CountIsMultiplicity(b, x);
    assert x in multiset(a) <==> x in multiset(b);
  }

  /** Tables that hold each row equally often have equal sums. */
  lemma SumSameCounts<T(!new)>(a: seq<T>, b: seq<T>, f: T -> int)
    requires forall x :: Count(a, x) == Count(b, x)
    ensures Sum(a, f) == Sum(b, f)
  {
    forall x: T ensures multiset(a)[x] == multiset(b)[x] {
      CountIsMultiplicity(a, x);
      CountIsMultiplicity(b, x);
    }
    assert multiset(a) == multiset(b);
    SumPermuted(a, b, f);
  }

  /** Two orders of the same rows stay so when one row is taken out of both. */
  lemma LastMatched<T>(a: seq<T>, b: seq<T>, i: nat)
    requires a != [] && multiset(a) == multiset(b) && i < |b| && b[i] == a[|a| - 1]
    ensures multiset(a[..|a| - 1]) == multiset(Except(b, i))
  {
    SplitAt(b, i);
    assert a == a[..|a| - 1] + [b[i]];
    assert multiset(b) == multiset(Except(b, i)) + multiset{b[i]};
    assert multiset(a) == multiset(a[..|a| - 1]) + multiset{b[i]};
    assert multiset(a[..|a| - 1]) == multiset(a) - multiset{b[i]};
    assert multiset(Except(b, i)) == multiset(b) - multiset{b[i]};
  }

  /** SUM does not depend on the order of the rows. */
  lemma {:induction false} SumPermuted<T(!new)>(a: seq<T>, b: seq<T>, f: T -> int)
    requires multiset(a) == multiset(b)
    ensures Sum(a, f) == Sum(b, f)
    decreases |a|
  {
    assert |a| == |multiset(a)| == |multiset(b)| == |b|;
    if a != [] {
      assert a[|a| - 1] in multiset(b);
      var i :| 0 <= i < |b| && b[i] == a[|a| - 1];
      LastMatched(a, b, i);
      SumPermuted(a[..|a| - 1], Except(b, i), f);
      SumExcept(b, i, f);
    }
  }

  /** UPDATE: every row rewritten in place. */
  function Map<T>(rows: seq<T>, f: T -> T): (mapped: seq<T>)
    ensures |mapped| == |rows|
    ensures forall i :: 0 <= i < |rows| ==> mapped[i] == f(rows[i])
  {
    seq(|rows|, i requires 0 <= i < |rows| => f(rows[i]))
  }

  lemma {:induction false} SumMap<T(!new)>(rows: seq<T>, f: T -> T, g: T -> int, h: T -> int)
    requires forall r :: r in rows ==> g(f(r)) == h(r)
    ensures Sum(Map(rows, f), g) == Sum(rows, h)
  {
    if rows != [] {
      assert Map(rows, f)[..|rows| - 1] == Map(rows[..|rows| - 1], f);
      SumMap(rows[..|rows| - 1], f, g, h);
    }
  }

  /** Every row of one table turned into rows of another, in order. */
  function FlatMap<T, U>(rows: seq<T>, f: T -> seq<U>): seq<U> {
    if rows == [] then [] else FlatMap(rows[..|rows| - 1], f) + f(rows[|rows| - 1])
  }

  lemma FlatMapAppend<T, U>(rows: seq<T>, r: T, f: T -> seq<U>)
    ensures FlatMap(rows + [r], f) == FlatMap(rows, f) + f(r)
  {
    assert (rows + [r])[..|rows|] == rows;
  }

  /** Deleting causes and deleting the rows they caused commute. */
  lemma {:induction false} FlatMapWhere<T(!new), U(!new)>(rows: seq<T>, f: T -> seq<U>, p: T -> bool, q: U -> bool)
    requires forall r, u :: r in rows && u in f(r) ==> q(u) == p(r)
    ensures Where(FlatMap(rows, f), q) == FlatMap(Where(rows, p), f)
  {
    if rows != [] {
      var init, last := rows[..|rows| - 1], rows[|rows| - 1];
      FlatMapWhere(init, f, p, q);
      WhereConcat(FlatMap(init, f), f(last), q);
      if p(last) {
        WhereAll(f(last), q);
        FlatMapAppend(Where(init, p), last, f);
      } else {
        WhereNone(f(last), q);
        assert Where(init, p) + [] == Where(init, p);
      }
    }
  }

  lemma {:induction false} FlatMapMap<T(!new), U>(rows: seq<T>, g: T -> T, f: T -> seq<U>)
    requires forall r :: r in rows ==> f(g(r)) == f(r)
    ensures FlatMap(Map(rows, g), f) == FlatMap(rows, f)
  {
    if rows != [] {
      assert Map(rows, g)[..|rows| - 1] == Map(rows[..|rows| - 1], g);
      FlatMapMap(rows[..|rows| - 1], g, f);
    }
  }

  lemma {:induction false} SumFlatMap<T(!new), U(!new)>(rows: seq<T>, f: T -> seq<U>, g: U -> int, h: T -> int)
    requires forall r :: r in rows ==> h(r) == Sum(f(r), g)
    ensures Sum(FlatMap(rows, f), g) == Sum(rows, h)
  {
    if rows != [] {
      SumFlatMap(rows[..|rows| - 1], f, g, h);
      SumConcat(FlatMap(rows[..|rows| - 1], f), f(rows[|rows| - 1]), g);
    }
  }

  lemma {:induction false} FlatMapMember<T, U>(rows: seq<T>, f: T -> seq<U>, u: U) returns (r: T)
    requires u in FlatMap(rows, f)
    ensures r in rows && u in f(r)
  {
    if u in f(rows[|rows| - 1]) {
      r := rows[|rows| - 1];
    } else {
      r := FlatMapMember(rows[..|rows| - 1], f, u);
    }
  }

  /* -------------------------- up to some moment ------------------------ */

  /** In rows ordered by a date, those up to a moment are the first so many. */
  lemma {:induction false} PrefixBy<T(!new)>(rows: seq<T>, date: T -> int, d: int) returns (n: nat)
    requires forall i, j :: 0 <= i < j < |rows| ==> date(rows[i]) <= date(rows[j])
    ensures n <= |rows| && forall i :: 0 <= i < |rows| ==> (date(rows[i]) <= d <==> i < n)
  {
    n := 0;
    if rows != [] {
      var init := rows[..|rows| - 1];
      n := PrefixBy(init, date, d);
      assert forall i :: 0 <= i < |init| ==> rows[i] == init[i];
      if date(rows[|rows| - 1]) <= d {
        assert forall i :: 0 <= i < |init| ==> date(rows[i]) <= d;
        n := |rows|;
      }
    }
  }

  /** A sum over the first rows is a sum over all of a figure that leaves the others out. */
  lemma SumPrefix<T(!new)>(rows: seq<T>, n: nat, f: T -> int, g: T -> int)
    requires n <= |rows|
    requires forall i :: 0 <= i < |rows| ==> g(rows[i]) == if i < n then f(rows[i]) else 0
    ensures Sum(rows[..n], f) == Sum(rows, g)
  {
    assert rows == rows[..n] + rows[n..];
    SumConcat(rows[..n], rows[n..], g);
    forall r | r in rows[..n] ensures f(r) == g(r) {
      var i :| 0 <= i < n && rows[..n][i] == r;
    }
    SumEq(rows[..n], f, g);
    forall r | r in rows[n..] ensures g(r) == 0 {
      var i :| 0 <= i < |rows| - n && rows[n..][i] == r;
      assert rows[n + i] == r;
    }
    SumZero(rows[n..], g);
  }

  /* ------------------------------ GROUP BY ----------------------------- */

  /** One group's share of a sum. */
  function OfKey<T, K(==)>(key: T -> K, f: T -> int, k: K): T -> int { (r: T) => if key(r) == k then f(r) else 0 }

  /** `groups` is an answer to GROUP BY key, SUM(f): one row per key that occurs, in any order. */
  ghost predicate GroupedBy<T(!new), K(!new)>(groups: seq<(K, int)>, rows: seq<T>, key: T -> K, f: T -> int) {
    && (forall i, j :: 0 <= i < j < |groups| ==> groups[i].0 != groups[j].0)
    && (forall i :: 0 <= i < |groups| ==> groups[i].1 == Sum(rows, OfKey(key, f, groups[i].0)))
    && (forall r :: r in rows ==> exists i :: 0 <= i < |groups| && groups[i].0 == key(r))
  }

  /** What a lookup in the grouped rows gives, with the usual fallback of 0. */
  function GroupSum<K(==)>(groups: seq<(K, int)>, k: K): int {
    if groups == [] then 0
    else if groups[|groups| - 1].0 == k then groups[|groups| - 1].1
    else GroupSum(groups[..|groups| - 1], k)
  }

  lemma {:induction false} GroupSumAt<K>(groups: seq<(K, int)>, i: nat)
    requires forall i, j :: 0 <= i < j < |groups| ==> groups[i].0 != groups[j].0
    requires i < |groups|
    ensures GroupSum(groups, groups[i].0) == groups[i].1
  {
    if i < |groups| - 1 {
      GroupSumAt(groups[..|groups| - 1], i);
    }
  }

  lemma {:induction false} GroupSumAbsent<K>(groups: seq<(K, int)>, k: K)
    requires forall i :: 0 <= i < |groups| ==> groups[i].0 != k
    ensures GroupSum(groups, k) == 0
  {
    if groups != [] {
      GroupSumAbsent(groups[..|groups| - 1], k);
    }
  }

  /** Looking a key up in the groups, or missing it, is summing that key's rows. */
  lemma GroupSumIsSum<T(!new), K(!new)>(groups: seq<(K, int)>, rows: seq<T>, key: T -> K, f: T -> int, k: K)
    requires GroupedBy(groups, rows, key, f)
    ensures GroupSum(groups, k) == Sum(rows, OfKey(key, f, k))
  {
    if i :| 0 <= i < |groups| && groups[i].0 == k {
      GroupSumAt(groups, i);
    } else {
      GroupSumAbsent(groups, k);
      SumZero(rows, OfKey(key, f, k));
    }
  }
}
