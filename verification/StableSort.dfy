/** Stable sorting by a strict weak order, as Python's `sorted` promises it.
    The router and the lane resolver both rank through it, so the laws they need
    (permutation, sortedness, uniqueness under a total order, commutation with
    filtering, stability) are stated once here. */
module StableSort {

  ghost predicate StrictWeakOrder<T(!new)>(lt: (T, T) -> bool) {
    && (forall x :: !lt(x, x))
    && (forall x, y, z :: lt(x, y) && lt(y, z) ==> lt(x, z))
    && (forall x, y, z :: lt(x, z) ==> lt(x, y) || lt(y, z))
  }

  ghost predicate Ordered<T(!new)>(lt: (T, T) -> bool, s: seq<T>) {
    forall i, j :: 0 <= i < j < |s| ==> !lt(s[j], s[i])
  }

  ghost predicate Distinct<T(!new)>(s: seq<T>) {
    forall i, j :: 0 <= i < j < |s| ==> s[i] != s[j]
  }

  /** Elements distinct in `s` are comparable one way or the other. */
  ghost predicate TotalOn<T(!new)>(lt: (T, T) -> bool, s: seq<T>) {
    forall x, y :: x in s && y in s && x != y ==> lt(x, y) || lt(y, x)
  }

  function Insert<T(!new)>(lt: (T, T) -> bool, x: T, s: seq<T>): seq<T> {
    if s == [] || !lt(s[0], x) then [x] + s else [s[0]] + Insert(lt, x, s[1..])
  }

  /** The stable sort of `s`: equal elements keep their order in `s`. */
  function Sorted<T(!new)>(lt: (T, T) -> bool, s: seq<T>): seq<T> {
    if s == [] then [] else Insert(lt, s[0], Sorted(lt, s[1..]))
  }

  function Filter<T(!new)>(p: T -> bool, s: seq<T>): (r: seq<T>)
    ensures forall x :: x in r <==> x in s && p(x)
    ensures |r| <= |s|
  {
    if s == [] then []
    else
      assert s == [s[0]] + s[1..];
      if p(s[0]) then [s[0]] + Filter(p, s[1..]) else Filter(p, s[1..])
  }

  lemma {:induction false} FilterConcat<T(!new)>(p: T -> bool, s: seq<T>, t: seq<T>)
    ensures Filter(p, s + t) == Filter(p, s) + Filter(p, t)
  {
    if s == [] {
      assert s + t == t;
    } else {
      assert (s + t)[0] == s[0] && (s + t)[1..] == s[1..] + t;
      FilterConcat(p, s[1..], t);
    }
  }

  lemma {:induction false} FilterTwice<T(!new)>(p: T -> bool, q: T -> bool, s: seq<T>)
    ensures Filter(p, Filter(q, s)) == Filter(x => p(x) && q(x), s)
  {
    if s != [] {
      FilterTwice(p, q, s[1..]);
    }
  }

  lemma {:induction false} FilterCongruent<T(!new)>(p: T -> bool, q: T -> bool, s: seq<T>)
    requires forall x :: x in s ==> p(x) == q(x)
    ensures Filter(p, s) == Filter(q, s)
  {
    if s != [] {
      FilterCongruent(p, q, s[1..]);
    }
  }

  lemma {:induction false} FilterAll<T(!new)>(p: T -> bool, s: seq<T>)
    requires forall x :: x in s ==> p(x)
    ensures Filter(p, s) == s
  {
    if s != [] {
      FilterAll(p, s[1..]);
    }
  }

  lemma {:induction false} FilterNone<T(!new)>(p: T -> bool, s: seq<T>)
    requires forall x :: x in s ==> !p(x)
    ensures Filter(p, s) == []
  {
    if s != [] {
      FilterNone(p, s[1..]);
    }
  }

  function FlatMap<T, U>(f: T -> seq<U>, s: seq<T>): seq<U> {
    if s == [] then [] else f(s[0]) + FlatMap(f, s[1..])
  }

  lemma {:induction false} FlatMapConcat<T(!new), U(!new)>(f: T -> seq<U>, s: seq<T>, t: seq<T>)
    ensures FlatMap(f, s + t) == FlatMap(f, s) + FlatMap(f, t)
  {
    if s == [] {
      assert s + t == t;
    } else {
      assert (s + t)[1..] == s[1..] + t;
      FlatMapConcat(f, s[1..], t);
    }
  }

  lemma FlatMapNext<T(!new), U(!new)>(f: T -> seq<U>, s: seq<T>, i: nat)
    requires i < |s|
    ensures FlatMap(f, s[..i + 1]) == FlatMap(f, s[..i]) + f(s[i])
  {
    assert s[..i + 1] == s[..i] + [s[i]];
    FlatMapConcat(f, s[..i], [s[i]]);
    assert FlatMap(f, [s[i]]) == f(s[i]);
  }

  lemma FilterNext<T(!new)>(p: T -> bool, s: seq<T>, i: nat)
    requires i < |s|
    ensures Filter(p, s[..i + 1]) == if p(s[i]) then Filter(p, s[..i]) + [s[i]] else Filter(p, s[..i])
  {
    assert s[..i + 1] == s[..i] + [s[i]];
    FilterConcat(p, s[..i], [s[i]]);
    assert Filter(p, s[..i]) + [] == Filter(p, s[..i]);
  }

  lemma FlatMapFilterNext<T(!new), U(!new)>(f: T -> seq<U>, p: T -> bool, s: seq<T>, i: nat)
    requires i < |s| && p(s[i])
    ensures FlatMap(f, Filter(p, s[..i + 1])) == FlatMap(f, Filter(p, s[..i])) + f(s[i])
  {
    FilterNext(p, s, i);
    FlatMapConcat(f, Filter(p, s[..i]), [s[i]]);
    assert FlatMap(f, [s[i]]) == f(s[i]);
  }

  /** Filtering each image filters the whole. */
  lemma {:induction false} FlatMapFilter<T(!new), U(!new)>(f: T -> seq<U>, g: T -> seq<U>, p: U -> bool, s: seq<T>)
    requires forall x :: x in s ==> g(x) == Filter(p, f(x))
    ensures FlatMap(g, s) == Filter(p, FlatMap(f, s))
  {
    if s != [] {
      FlatMapFilter(f, g, p, s[1..]);
      FilterConcat(p, f(s[0]), FlatMap(f, s[1..]));
    }
  }

  lemma ConsMultiset<T>(x: T, s: seq<T>)
    ensures multiset([x] + s) == multiset{x} + multiset(s)
  {
  }

  lemma {:induction false} FilterSplits<T(!new)>(p: T -> bool, q: T -> bool, s: seq<T>)
    requires forall x :: x in s ==> p(x) != q(x)
    ensures multiset(s) == multiset(Filter(p, s)) + multiset(Filter(q, s))
  {
    if s != [] {
      var x, rest := s[0], s[1..];
      assert s == [x] + rest && x in s;
      FilterSplits(p, q, rest);
      ConsMultiset(x, rest);
      ConsMultiset(x, Filter(p, rest));
      ConsMultiset(x, Filter(q, rest));
    }
  }

  /** Pulling one occurrence of `x` out of a sequence. */
  lemma SplitAt<T(!new)>(s: seq<T>, x: T) returns (a: seq<T>, b: seq<T>)
    requires x in s
    ensures s == a + [x] + b
    ensures multiset(a + b) == multiset(s) - multiset{x}
  {
    var i :| 0 <= i < |s| && s[i] == x;
    a, b := s[..i], s[i + 1..];
    assert s == a + [x] + b;
  }

  lemma {:induction false} FlatMapPermutes<T(!new), U(!new)>(f: T -> seq<U>, s: seq<T>, t: seq<T>)
    requires multiset(s) == multiset(t)
    ensures multiset(FlatMap(f, s)) == multiset(FlatMap(f, t))
    decreases |s|
  {
    SameElements(s, t);
    if s != [] {
      var a, b := SplitAt(t, s[0]);
      MultisetDropFirst(s);
      FlatMapPermutes(f, s[1..], a + b);
      FlatMapConcat(f, a, b);
      FlatMapConcat(f, a + [s[0]], b);
      FlatMapConcat(f, a, [s[0]]);
      assert FlatMap(f, [s[0]]) == f(s[0]);
    }
  }

  lemma {:induction false} FilterPermutes<T(!new)>(p: T -> bool, s: seq<T>, t: seq<T>)
    requires multiset(s) == multiset(t)
    ensures multiset(Filter(p, s)) == multiset(Filter(p, t))
    decreases |s|
  {
    SameElements(s, t);
    if s != [] {
      var a, b := SplitAt(t, s[0]);
      MultisetDropFirst(s);
      FilterPermutes(p, s[1..], a + b);
      FilterConcat(p, a, b);
      FilterConcat(p, a + [s[0]], b);
      FilterConcat(p, a, [s[0]]);
    }
  }

  lemma {:induction false} InsertPermutes<T(!new)>(lt: (T, T) -> bool, x: T, s: seq<T>)
    ensures multiset(Insert(lt, x, s)) == multiset(s) + multiset{x}
  {
    if s == [] || !lt(s[0], x) {
    } else {
      InsertPermutes(lt, x, s[1..]);
      assert s == [s[0]] + s[1..];
    }
  }

  lemma {:induction false} SortPermutes<T(!new)>(lt: (T, T) -> bool, s: seq<T>)
    ensures multiset(Sorted(lt, s)) == multiset(s)
    ensures |Sorted(lt, s)| == |s|
    ensures forall x :: x in Sorted(lt, s) <==> x in s
  {
    if s != [] {
      SortPermutes(lt, s[1..]);
      InsertPermutes(lt, s[0], Sorted(lt, s[1..]));
      assert s == [s[0]] + s[1..];
    }
    SameElements(Sorted(lt, s), s);
  }

  lemma SameElements<T(!new)>(s: seq<T>, t: seq<T>)
    requires multiset(s) == multiset(t)
    ensures |s| == |t|
    ensures forall x :: x in s <==> x in t
  {
    assert |multiset(s)| == |s| && |multiset(t)| == |t|;
    forall x ensures x in s <==> x in t {
      assert x in s <==> x in multiset(s);
      assert x in t <==> x in multiset(t);
    }
  }

  lemma {:induction false} InsertOrdered<T(!new)>(lt: (T, T) -> bool, x: T, s: seq<T>)
    requires StrictWeakOrder(lt) && Ordered(lt, s)
    ensures Ordered(lt, Insert(lt, x, s))
  {
    if s == [] || !lt(s[0], x) {
      var r := [x] + s;
      forall i, j | 0 <= i < j < |r| ensures !lt(r[j], r[i]) {
        if i == 0 && j > 1 {
          assert !lt(s[j - 1], s[0]);
        }
      }
    } else {
      InsertOrdered(lt, x, s[1..]);
      var r := Insert(lt, x, s[1..]);
      InsertPermutes(lt, x, s[1..]);
      forall j | 0 <= j < |r| ensures !lt(r[j], s[0]) {
        assert r[j] in multiset(r);
        if r[j] != x {
          assert r[j] in s[1..];
        }
      }
    }
  }

  lemma {:induction false} SortOrders<T(!new)>(lt: (T, T) -> bool, s: seq<T>)
    requires StrictWeakOrder(lt)
    ensures Ordered(lt, Sorted(lt, s))
  {
    if s != [] {
      SortOrders(lt, s[1..]);
      InsertOrdered(lt, s[0], Sorted(lt, s[1..]));
    }
  }

  lemma NoneBefore<T(!new)>(lt: (T, T) -> bool, x: T, s: seq<T>)
    requires StrictWeakOrder(lt) && Ordered(lt, s)
    requires s != [] && !lt(s[0], x)
    ensures forall y :: y in s ==> !lt(y, x)
  {
    forall y | y in s ensures !lt(y, x) {
      var i :| 0 <= i < |s| && s[i] == y;
      assert i > 0 ==> !lt(s[i], s[0]);
    }
  }

  lemma {:induction false} InsertFilter<T(!new)>(lt: (T, T) -> bool, p: T -> bool, x: T, s: seq<T>)
    requires StrictWeakOrder(lt) && Ordered(lt, s)
    ensures Filter(p, Insert(lt, x, s)) == if p(x) then Insert(lt, x, Filter(p, s)) else Filter(p, s)
  {
    if s == [] {
      assert Insert(lt, x, s) == [x];
    } else if !lt(s[0], x) {
      var f := Filter(p, s);
      NoneBefore(lt, x, s);
      assert f != [] ==> f[0] in s;
      assert ([x] + s)[1..] == s;
    } else {
      InsertFilter(lt, p, x, s[1..]);
      assert Insert(lt, x, s)[1..] == Insert(lt, x, s[1..]);
      if p(s[0]) {
        assert Filter(p, s)[1..] == Filter(p, s[1..]);
      }
    }
  }

  /** Dropping elements before or after sorting is the same thing. */
  lemma {:induction false} SortFilter<T(!new)>(lt: (T, T) -> bool, p: T -> bool, s: seq<T>)
    requires StrictWeakOrder(lt)
    ensures Filter(p, Sorted(lt, s)) == Sorted(lt, Filter(p, s))
  {
    if s != [] {
      SortFilter(lt, p, s[1..]);
      SortOrders(lt, s[1..]);
      InsertFilter(lt, p, s[0], Sorted(lt, s[1..]));
      if p(s[0]) {
        assert Filter(p, s)[1..] == Filter(p, s[1..]);
      }
    }
  }

  /** A list that is in order already comes back unchanged. */
  lemma {:induction false} SortOfOrdered<T(!new)>(lt: (T, T) -> bool, s: seq<T>)
    requires Ordered(lt, s)
    ensures Sorted(lt, s) == s
  {
    if |s| > 0 {
      SortOfOrdered(lt, s[1..]);
      assert s == [s[0]] + s[1..];
      if |s| > 1 {
        assert !lt(s[1], s[0]);
        assert s[1..][0] == s[1];
      }
    }
  }

  lemma MultisetDropFirst<T(!new)>(s: seq<T>)
    requires s != []
    ensures multiset(s[1..]) == multiset(s) - multiset{s[0]}
  {
    assert s == [s[0]] + s[1..];
  }

  lemma {:induction false} NestedFilters<T(!new)>(p: T -> bool, wide: T -> bool, live: T -> bool, was: T -> bool, s: seq<T>)
    requires forall x :: x in s ==> (was(x) <==> p(x)) && (p(x) ==> wide(x))
    ensures Filter(was, Filter(wide, Filter(live, s))) == Filter(live, Filter(p, s))
  {
    if s != [] {
      forall x | x in s[1..] ensures (was(x) <==> p(x)) && (p(x) ==> wide(x)) {
        assert x in s;
      }
      NestedFilters(p, wide, live, was, s[1..]);
      assert s[0] in s;
    }
  }

  /** Two ordered arrangements of the same elements are equal once the order
      is total on them. */
  lemma {:induction false} OrderedUnique<T(!new)>(lt: (T, T) -> bool, s: seq<T>, t: seq<T>)
    requires multiset(s) == multiset(t)
    requires StrictWeakOrder(lt) && TotalOn(lt, s)
    requires Ordered(lt, s) && Ordered(lt, t)
    ensures s == t
  {
    SameElements(s, t);
    if s != [] {
      assert t[0] in s && s[0] in t;
      var i :| 0 <= i < |s| && s[i] == t[0];
      var j :| 0 <= j < |t| && t[j] == s[0];
      assert !lt(t[0], s[0]) && !lt(s[0], t[0]);
      MultisetDropFirst(s);
      MultisetDropFirst(t);
      forall x, y | x in s[1..] && y in s[1..] && x != y ensures lt(x, y) || lt(y, x) {
        assert x in s && y in s;
      }
      OrderedUnique(lt, s[1..], t[1..]);
    }
  }

  /** The order in which the elements arrive does not matter. */
  lemma SortPermutationInvariant<T(!new)>(lt: (T, T) -> bool, s: seq<T>, t: seq<T>)
    requires multiset(s) == multiset(t)
    requires StrictWeakOrder(lt) && TotalOn(lt, s)
    ensures Sorted(lt, s) == Sorted(lt, t)
  {
    SortPermutes(lt, s);
    SortPermutes(lt, t);
    SortOrders(lt, s);
    SortOrders(lt, t);
    OrderedUnique(lt, Sorted(lt, s), Sorted(lt, t));
  }

  /** Highest key first, as `sorted(..., reverse=True)` orders. */
  function Descending<T>(key: T -> int): (T, T) -> bool {
    (a, b) => key(a) > key(b)
  }

  /** Smallest pair of keys first. */
  function ByPair<T>(k1: T -> int, k2: T -> int): (T, T) -> bool {
    (a, b) => k1(a) < k1(b) || (k1(a) == k1(b) && k2(a) < k2(b))
  }

  lemma KeyOrders<T(!new)>(key: T -> int, k2: T -> int)
    ensures StrictWeakOrder(Descending(key)) && StrictWeakOrder(ByPair(key, k2))
  {
  }

  /** `x` stands somewhere before `y`. */
  ghost predicate Precedes<T(!new)>(s: seq<T>, x: T, y: T) {
    exists i, j :: 0 <= i < j < |s| && s[i] == x && s[j] == y
  }

  lemma {:induction false} FilterPrecedes<T(!new)>(p: T -> bool, s: seq<T>, x: T, y: T)
    requires Precedes(Filter(p, s), x, y)
    ensures Precedes(s, x, y)
  {
    if s != [] {
      var f := Filter(p, s);
      var i, j :| 0 <= i < j < |f| && f[i] == x && f[j] == y;
      if !p(s[0]) {
        FilterPrecedes(p, s[1..], x, y);
        ShiftPrecedes(s, x, y);
      } else if i > 0 {
        assert f[1..] == Filter(p, s[1..]);
        assert f[1..][i - 1] == x && f[1..][j - 1] == y;
        FilterPrecedes(p, s[1..], x, y);
        ShiftPrecedes(s, x, y);
      } else {
        assert f[1..] == Filter(p, s[1..]);
        assert f[1..][j - 1] == y;
        assert y in s[1..];
        var k :| 0 <= k < |s[1..]| && s[1..][k] == y;
        assert s[0] == x && s[k + 1] == y;
      }
    }
  }

  lemma ShiftPrecedes<T(!new)>(s: seq<T>, x: T, y: T)
    requires s != [] && Precedes(s[1..], x, y)
    ensures Precedes(s, x, y)
  {
    var i, j :| 0 <= i < j < |s[1..]| && s[1..][i] == x && s[1..][j] == y;
    assert s[i + 1] == x && s[j + 1] == y;
  }

  lemma {:induction false} FilterPair<T(!new)>(s: seq<T>, x: T, y: T)
    requires Distinct(s) && Precedes(s, x, y)
    ensures Filter(z => z == x || z == y, s) == [x, y]
  {
    var p := z => z == x || z == y;
    var i, j :| 0 <= i < j < |s| && s[i] == x && s[j] == y;
    if i > 0 {
      assert s[1..][i - 1] == x && s[1..][j - 1] == y;
      FilterPair(s[1..], x, y);
      assert s[0] != s[i] && s[0] != s[j];
    } else {
      FilterSingle(s[1..], j - 1, p);
    }
  }

  lemma {:induction false} FilterSingle<T(!new)>(s: seq<T>, j: nat, p: T -> bool)
    requires j < |s| && p(s[j])
    requires forall k :: 0 <= k < |s| && k != j ==> !p(s[k])
    ensures Filter(p, s) == [s[j]]
  {
    if j == 0 {
      forall x | x in s[1..] ensures !p(x) {
        var k :| 0 <= k < |s[1..]| && s[1..][k] == x;
        assert s[k + 1] == x;
      }
      FilterNone(p, s[1..]);
    } else {
      assert !p(s[0]);
      FilterSingle(s[1..], j - 1, p);
    }
  }

  /** Stability: elements the order does not separate keep their positions. */
  lemma SortStable<T(!new)>(lt: (T, T) -> bool, s: seq<T>, x: T, y: T)
    requires StrictWeakOrder(lt) && Distinct(s)
    requires Precedes(s, x, y) && !lt(y, x)
    ensures Precedes(Sorted(lt, s), x, y)
  {
    var p := z => z == x || z == y;
    FilterPair(s, x, y);
    SortFilter(lt, p, s);
    assert Ordered(lt, [x, y]);
    SortOfOrdered(lt, [x, y]);
    var f := Filter(p, Sorted(lt, s));
    assert f == [x, y];
    assert f[0] == x && f[1] == y;
    FilterPrecedes(p, Sorted(lt, s), x, y);
  }

  lemma PrecedesInConcat<T(!new)>(s: seq<T>, t: seq<T>, x: T, y: T)
    requires Precedes(s, x, y) || Precedes(t, x, y)
    ensures Precedes(s + t, x, y)
  {
    if Precedes(s, x, y) {
      var i, j :| 0 <= i < j < |s| && s[i] == x && s[j] == y;
      assert (s + t)[i] == x && (s + t)[j] == y;
    } else {
      var i, j :| 0 <= i < j < |t| && t[i] == x && t[j] == y;
      assert (s + t)[|s| + i] == x && (s + t)[|s| + j] == y;
    }
  }

  /** Mapping the two halves of a split maps the whole. */
  lemma SplitPermutes<T(!new), U(!new)>(f: T -> seq<U>, p: T -> bool, q: T -> bool, s: seq<T>)
    requires forall x :: p(x) != q(x)
    ensures multiset(FlatMap(f, Filter(p, s)) + FlatMap(f, Filter(q, s))) == multiset(FlatMap(f, s))
  {
    FilterSplits(p, q, s);
    FlatMapConcat(f, Filter(p, s), Filter(q, s));
    FlatMapPermutes(f, Filter(p, s) + Filter(q, s), s);
  }

  // ----- distinct keys -----

  /** Nothing occurs twice, as a statement about counts. */
  ghost predicate Once<T(!new)>(s: seq<T>) {
    forall x :: multiset(s)[x] <= 1
  }

  lemma {:induction false} OnceIffDistinct<T(!new)>(s: seq<T>)
    ensures Once(s) <==> Distinct(s)
  {
    if s != [] {
      var rest := s[1..];
      OnceIffDistinct(rest);
      ConsMultiset(s[0], rest);
      assert s == [s[0]] + rest;
      if Distinct(s) {
        forall i, j | 0 <= i < j < |rest| ensures rest[i] != rest[j] {
          assert s[i + 1] != s[j + 1];
        }
        assert s[0] !in rest;
        assert multiset(rest)[s[0]] == 0;
      }
      if Once(s) {
        assert multiset(s)[s[0]] <= 1;
        assert s[0] !in rest;
        forall x ensures multiset(rest)[x] <= 1 {
          assert multiset(s)[x] <= 1;
        }
        forall i, j | 0 <= i < j < |s| ensures s[i] != s[j] {
          assert s[j] == rest[j - 1];
          assert i > 0 ==> s[i] == rest[i - 1];
        }
      }
    }
  }

  lemma FewerOnce<T(!new)>(s: seq<T>, t: seq<T>)
    requires multiset(s) <= multiset(t) && Once(t)
    ensures Once(s)
  {
    forall x ensures multiset(s)[x] <= 1 {
      assert multiset(t)[x] <= 1;
    }
  }

  lemma OnceConcat<T(!new)>(s: seq<T>, t: seq<T>)
    requires Once(s) && Once(t) && forall x :: x in s ==> x !in t
    ensures Once(s + t)
  {
    forall x ensures multiset(s + t)[x] <= 1 {
      assert multiset(s)[x] <= 1 && multiset(t)[x] <= 1;
      assert x in s <==> x in multiset(s);
      assert x in t <==> x in multiset(t);
    }
  }

  /** A map to one-element sequences is the ordinary map. */
  lemma {:induction false} SingletonsAt<T(!new), U(!new)>(f: T -> seq<U>, s: seq<T>)
    requires forall x :: |f(x)| == 1
    ensures |FlatMap(f, s)| == |s| && forall i :: 0 <= i < |s| ==> FlatMap(f, s)[i] == f(s[i])[0]
  {
    if s != [] {
      SingletonsAt(f, s[1..]);
    }
  }

  lemma {:induction false} FlatMapOfFilter<T(!new), U(!new)>(f: T -> seq<U>, p: T -> bool, s: seq<T>)
    ensures multiset(FlatMap(f, Filter(p, s))) <= multiset(FlatMap(f, s))
  {
    if s != [] {
      FlatMapOfFilter(f, p, s[1..]);
    }
  }

  lemma PrefixOnce<T(!new), U(!new)>(f: T -> seq<U>, s: seq<T>, n: nat)
    requires n <= |s| && Once(FlatMap(f, s))
    ensures Once(FlatMap(f, s[..n]))
  {
    assert s == s[..n] + s[n..];
    FlatMapConcat(f, s[..n], s[n..]);
    FewerOnce(FlatMap(f, s[..n]), FlatMap(f, s));
  }

  lemma OrderedPrecedes<T(!new)>(lt: (T, T) -> bool, s: seq<T>, x: T, y: T)
    requires StrictWeakOrder(lt) && Ordered(lt, s)
    requires x in s && y in s && lt(x, y)
    ensures Precedes(s, x, y)
  {
    var i :| 0 <= i < |s| && s[i] == x;
    var j :| 0 <= j < |s| && s[j] == y;
    assert i < j;
  }

  /** Two sorted groups, one after the other. */
  lemma GroupedPrecedes<T(!new)>(lt: (T, T) -> bool, lt': (T, T) -> bool, p: T -> bool, q: T -> bool, s: seq<T>, x: T, y: T)
    requires StrictWeakOrder(lt)
    requires x in s && y in s && p(x) && (p(y) || q(y)) && (p(y) ==> lt(x, y))
    ensures Precedes(Sorted(lt, Filter(p, s)) + Sorted(lt', Filter(q, s)), x, y)
  {
    var front, back := Sorted(lt, Filter(p, s)), Sorted(lt', Filter(q, s));
    SortOrders(lt, Filter(p, s));
    SortPermutes(lt, Filter(p, s));
    SortPermutes(lt', Filter(q, s));
    if p(y) {
      OrderedPrecedes(lt, front, x, y);
      PrecedesInConcat(front, back, x, y);
    } else {
      PrecedesAcross(front, back, x, y);
    }
  }

  lemma PrecedesAcross<T(!new)>(s: seq<T>, t: seq<T>, x: T, y: T)
    requires x in s && y in t
    ensures Precedes(s + t, x, y)
  {
    var i :| 0 <= i < |s| && s[i] == x;
    var j :| 0 <= j < |t| && t[j] == y;
    assert (s + t)[i] == x && (s + t)[|s| + j] == y;
  }
}
