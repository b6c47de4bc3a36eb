/** Integer sums over sequences, and the filtering a SQL `WHERE` or `DELETE` does. */
module Sums {

  datatype Option<+T> = None | Some(value: T)

  function Sum<T>(s: seq<T>, f: T -> int): int {
    if s == [] then 0 else f(s[0]) + Sum(s[1..], f)
  }

  function Filter<T>(s: seq<T>, keep: T -> bool): (r: seq<T>)
    ensures forall x | x in r :: x in s && keep(x)
    ensures forall x | x in s && keep(x) :: x in r
    ensures |r| <= |s|
  {
    if s == [] then []
    else if keep(s[0]) then [s[0]] + Filter(s[1..], keep)
    else Filter(s[1..], keep)
  }

  /** The value under `k`, or `default` when the key is missing (Python's `dict.get`). */
  function Get<K, V>(m: map<K, V>, k: K, default: V): V {
    if k in m then m[k] else default
  }

  /** The next element of an iteration whose order must not matter. */
  method Pick<T>(s: set<T>) returns (x: T)
    requires s != {}
    ensures x in s
  {
    x :| x in s;
  }

  lemma {:induction false} SumAppend<T>(a: seq<T>, b: seq<T>, f: T -> int)
    ensures Sum(a + b, f) == Sum(a, f) + Sum(b, f)
  {
    if a == [] {
      assert a + b == b;
    } else {
      assert (a + b)[1..] == a[1..] + b;
      SumAppend(a[1..], b, f);
    }
  }

  lemma {:induction false} SumSnoc<T>(a: seq<T>, x: T, f: T -> int)
    ensures Sum(a + [x], f) == Sum(a, f) + f(x)
  {
    SumAppend(a, [x], f);
    assert Sum([x], f) == f(x) + Sum([], f);
  }

  lemma {:induction false} SumEq<T>(s: seq<T>, f: T -> int, g: T -> int)
    requires forall x | x in s :: f(x) == g(x)
    ensures Sum(s, f) == Sum(s, g)
  {
    if s != [] {
      SumEq(s[1..], f, g);
    }
  }

  lemma {:induction false} SumLe<T>(s: seq<T>, f: T -> int, g: T -> int)
    requires forall x | x in s :: f(x) <= g(x)
    ensures Sum(s, f) <= Sum(s, g)
  {
    if s != [] {
      SumLe(s[1..], f, g);
    }
  }

  lemma {:induction false} SumZero<T>(s: seq<T>, f: T -> int)
    requires forall x | x in s :: f(x) == 0
    ensures Sum(s, f) == 0
  {
    if s != [] {
      SumZero(s[1..], f);
    }
  }

  lemma {:induction false} SumNonNegative<T>(s: seq<T>, f: T -> int)
    requires forall x | x in s :: f(x) >= 0
    ensures Sum(s, f) >= 0
    ensures forall x | x in s :: Sum(s, f) >= f(x)
  {
    if s != [] {
      SumNonNegative(s[1..], f);
    }
  }

  lemma {:induction false} SumPlus<T>(s: seq<T>, f: T -> int, g: T -> int, h: T -> int)
    requires forall x | x in s :: h(x) == f(x) + g(x)
    ensures Sum(s, h) == Sum(s, f) + Sum(s, g)
  {
    if s != [] {
      SumPlus(s[1..], f, g, h);
    }
  }

  /** Only one element carries weight. */
  lemma {:induction false} SumSingle<T>(s: seq<T>, i: nat, f: T -> int)
    requires i < |s|
    requires forall j | 0 <= j < |s| && j != i :: f(s[j]) == 0
    ensures Sum(s, f) == f(s[i])
  {
    assert s == s[..i] + ([s[i]] + s[i + 1..]);
    SumAppend(s[..i], [s[i]] + s[i + 1..], f);
    SumZero(s[..i], f);
    SumZero(s[i + 1..], f);
    assert ([s[i]] + s[i + 1..])[1..] == s[i + 1..];
  }

  function Masked<T>(keep: T -> bool, f: T -> int): T -> int {
    x => if keep(x) then f(x) else 0
  }

  lemma {:induction false} SumFilter<T>(s: seq<T>, keep: T -> bool, f: T -> int)
    ensures Sum(Filter(s, keep), f) == Sum(s, Masked(keep, f))
  {
    if s != [] {
      SumFilter(s[1..], keep, f);
      if keep(s[0]) {
        assert Filter(s, keep)[1..] == Filter(s[1..], keep);
      }
    }
  }

  lemma {:induction false} FilterAppend<T>(a: seq<T>, b: seq<T>, keep: T -> bool)
    ensures Filter(a + b, keep) == Filter(a, keep) + Filter(b, keep)
  {
    if a == [] {
      assert a + b == b;
    } else {
      assert (a + b)[1..] == a[1..] + b;
      FilterAppend(a[1..], b, keep);
    }
  }

  lemma {:induction false} FilterAll<T>(s: seq<T>, keep: T -> bool)
    requires forall x | x in s :: keep(x)
    ensures Filter(s, keep) == s
  {
    if s != [] {
      FilterAll(s[1..], keep);
    }
  }

  lemma {:induction false} FilterNone<T>(s: seq<T>, keep: T -> bool)
    requires forall x | x in s :: !keep(x)
    ensures Filter(s, keep) == []
  {
    if s != [] {
      FilterNone(s[1..], keep);
    }
  }

  lemma {:induction false} FilterHead<T>(s: seq<T>, k: nat, keep: T -> bool)
    requires k <= |s|
    requires forall i | 0 <= i < k :: keep(s[i])
    requires forall i | k <= i < |s| :: !keep(s[i])
    ensures Filter(s, keep) == s[..k]
  {
    if s != [] {
      FilterHead(s[1..], if k == 0 then 0 else k - 1, keep);
      assert k > 0 ==> s[..k] == [s[0]] + s[1..][..k - 1];
    }
  }

  /** Deleting everything after a clean cut keeps the head. */
  lemma {:induction false} FilterPrefix<T>(a: seq<T>, b: seq<T>, keep: T -> bool)
    requires forall x | x in a :: keep(x)
    requires forall x | x in b :: !keep(x)
    ensures Filter(a + b, keep) == a
  {
    FilterAppend(a, b, keep);
    FilterAll(a, keep);
    FilterNone(b, keep);
  }

  /** Conditions that agree on the elements keep the same elements. */
  lemma {:induction false} FilterSame<T>(s: seq<T>, p: T -> bool, q: T -> bool)
    requires forall x | x in s :: p(x) <==> q(x)
    ensures Filter(s, p) == Filter(s, q)
  {
    if s != [] {
      FilterSame(s[1..], p, q);
    }
  }

  /** Filtering twice is filtering once by both conditions. */
  lemma {:induction false} FilterFilter<T>(s: seq<T>, p: T -> bool, q: T -> bool, r: T -> bool)
    requires forall x | x in s :: r(x) <==> p(x) && q(x)
    ensures Filter(Filter(s, p), q) == Filter(s, r)
  {
    if s != [] {
      FilterFilter(s[1..], p, q, r);
    }
  }

  ghost predicate Pairwise<T>(s: seq<T>, rel: (T, T) -> bool) {
    forall i, j | 0 <= i < j < |s| :: rel(s[i], s[j])
  }

  lemma PairwiseTail<T>(s: seq<T>, rel: (T, T) -> bool)
    requires s != [] && Pairwise(s, rel)
    ensures Pairwise(s[1..], rel)
    ensures forall x | x in s[1..] :: rel(s[0], x)
  {
    var tail := s[1..];
    assert forall i | 0 <= i < |tail| :: tail[i] == s[i + 1] && rel(s[0], tail[i]);
  }

  lemma PairwiseCons<T>(x: T, s: seq<T>, rel: (T, T) -> bool)
    requires Pairwise(s, rel) && forall y | y in s :: rel(x, y)
    ensures Pairwise([x] + s, rel)
  {
    forall i | 0 <= i < |s| ensures rel(x, s[i]) {
      assert s[i] in s;
    }
  }

  lemma PairwiseAppend<T>(a: seq<T>, b: seq<T>, rel: (T, T) -> bool)
    requires Pairwise(a, rel) && Pairwise(b, rel)
    requires forall x, y | x in a && y in b :: rel(x, y)
    ensures Pairwise(a + b, rel)
  {
    var all := a + b;
    forall i, j | 0 <= i < j < |all| ensures rel(all[i], all[j]) {
      if j < |a| {
        assert rel(a[i], a[j]);
      } else if i >= |a| {
        assert rel(b[i - |a|], b[j - |a|]);
      } else {
        assert a[i] in a && b[j - |a|] in b;
      }
    }
  }

  /** Filtering keeps the order of the rows that survive. */
  lemma {:induction false} FilterPairwise<T>(s: seq<T>, keep: T -> bool, rel: (T, T) -> bool)
    requires Pairwise(s, rel)
    ensures Pairwise(Filter(s, keep), rel)
  {
    if s != [] {
      var tail := s[1..];
      assert forall i | 0 <= i < |tail| :: tail[i] == s[i + 1] && rel(s[0], tail[i]);
      FilterPairwise(tail, keep, rel);
      var rest := Filter(tail, keep);
      forall j | 0 <= j < |rest| ensures rel(s[0], rest[j]) {
        assert rest[j] in tail;
      }
    }
  }

  // ---- Sorting ----

  ghost predicate TotalPreorder<T(!new)>(lead: (T, T) -> bool) {
    && (forall a, b :: lead(a, b) || lead(b, a))
    && (forall a, b, c :: lead(a, b) && lead(b, c) ==> lead(a, c))
  }

  function Insert<T>(x: T, s: seq<T>, lead: (T, T) -> bool): seq<T> {
    if s == [] || lead(x, s[0]) then [x] + s else [s[0]] + Insert(x, s[1..], lead)
  }

  /** The stable sort: elements that lead each other keep their order. */
  function SortBy<T>(s: seq<T>, lead: (T, T) -> bool): seq<T> {
    if s == [] then [] else Insert(s[0], SortBy(s[1..], lead), lead)
  }

  lemma {:induction false} InsertKeeps<T>(x: T, s: seq<T>, lead: (T, T) -> bool)
    ensures multiset(Insert(x, s, lead)) == multiset(s) + multiset{x}
    ensures forall y | y in Insert(x, s, lead) :: y == x || y in s
  {
    if s != [] && !lead(x, s[0]) {
      assert s == [s[0]] + s[1..];
      InsertKeeps(x, s[1..], lead);
    }
  }

  lemma {:induction false} InsertSorts<T(!new)>(x: T, s: seq<T>, lead: (T, T) -> bool)
    requires TotalPreorder(lead) && Pairwise(s, lead)
    ensures Pairwise(Insert(x, s, lead), lead)
  {
    if s != [] {
      PairwiseTail(s, lead);
      if lead(x, s[0]) {
        forall y | y in s ensures lead(x, y) {
          assert y == s[0] || y in s[1..];
        }
        PairwiseCons(x, s, lead);
      } else {
        InsertSorts(x, s[1..], lead);
        InsertKeeps(x, s[1..], lead);
        PairwiseCons(s[0], Insert(x, s[1..], lead), lead);
      }
    }
  }

  lemma {:induction false} SortBySorts<T(!new)>(s: seq<T>, lead: (T, T) -> bool)
    requires TotalPreorder(lead)
    ensures Pairwise(SortBy(s, lead), lead)
    ensures multiset(SortBy(s, lead)) == multiset(s)
  {
    if s != [] {
      SortBySorts(s[1..], lead);
      InsertSorts(s[0], SortBy(s[1..], lead), lead);
      InsertKeeps(s[0], SortBy(s[1..], lead), lead);
      assert s == [s[0]] + s[1..];
    }
  }

  // ---- Order does not matter to a sum ----

  function Without<T>(s: seq<T>, i: nat): seq<T>
    requires i < |s|
  {
    s[..i] + s[i + 1..]
  }

  lemma {:induction false} SumWithout<T>(s: seq<T>, i: nat, f: T -> int)
    requires i < |s|
    ensures Sum(s, f) == f(s[i]) + Sum(Without(s, i), f)
  {
    assert s == s[..i] + s[i..];
    SumAppend(s[..i], s[i..], f);
    SumAppend(s[..i], s[i + 1..], f);
    assert s[i..][1..] == s[i + 1..];
  }

  lemma MultisetWithout<T>(s: seq<T>, i: nat)
    requires i < |s|
    ensures multiset(Without(s, i)) == multiset(s) - multiset{s[i]}
  {
    assert s == s[..i] + ([s[i]] + s[i + 1..]);
  }

  /** A sum does not depend on the order of the rows. */
  lemma {:induction false} SumPermutation<T>(a: seq<T>, b: seq<T>, f: T -> int)
    requires multiset(a) == multiset(b)
    ensures Sum(a, f) == Sum(b, f)
    decreases |a|
  {
    if a == [] {
      assert |multiset(b)| == 0;
    } else {
      assert a[0] in multiset(b);
      var i :| 0 <= i < |b| && b[i] == a[0];
      MultisetWithout(a, 0);
      MultisetWithout(b, i);
      assert Without(a, 0) == a[1..];
      SumPermutation(a[1..], Without(b, i), f);
      SumWithout(b, i, f);
    }
  }

  function Row<A, B>(w: (A, B) -> int, x: A): B -> int { y => w(x, y) }

  function Column<A, B>(w: (A, B) -> int, y: B): A -> int { x => w(x, y) }

  function RowSums<A, B>(bs: seq<B>, w: (A, B) -> int): A -> int { x => Sum(bs, Row(w, x)) }

  function ColumnSums<A, B>(xs: seq<A>, w: (A, B) -> int): B -> int { y => Sum(xs, Column(w, y)) }

  /** Summing a table by rows or by columns gives the same total. */
  lemma {:induction false} SumSwap<A, B>(xs: seq<A>, ys: seq<B>, w: (A, B) -> int)
    ensures Sum(xs, RowSums(ys, w)) == Sum(ys, ColumnSums(xs, w))
  {
    if xs == [] {
      SumZero(ys, ColumnSums(xs, w));
    } else {
      SumSwap(xs[1..], ys, w);
      SumPlus(ys, Row(w, xs[0]), ColumnSums(xs[1..], w), ColumnSums(xs, w));
    }
  }
}
