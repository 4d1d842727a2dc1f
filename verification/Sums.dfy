/** Finite sums of reals over sequences and over sets, and how grouping rearranges them. */
module Sums {

  /** The sum of f over the elements whose key lies in `ks`. */
  ghost function SumIn<T, K>(xs: seq<T>, key: T -> K, ks: set<K>, f: T -> real): real {
    if xs == [] then 0.0 else
      var n := |xs| - 1;
      SumIn(xs[..n], key, ks, f) + (if key(xs[n]) in ks then f(xs[n]) else 0.0)
  }

  ghost function Total<K>(ks: set<K>, f: K -> real): real {
    if ks == {} then 0.0 else
      var k :| k in ks;
      f(k) + Total(ks - {k}, f)
  }

  lemma {:induction false} TotalSplit<K>(ks: set<K>, f: K -> real, k: K)
    requires k in ks
    ensures Total(ks, f) == f(k) + Total(ks - {k}, f)
  {
    var j :| j in ks && Total(ks, f) == f(j) + Total(ks - {j}, f);
    if j != k {
      TotalSplit(ks - {j}, f, k);
      TotalSplit(ks - {k}, f, j);
      assert ks - {j} - {k} == ks - {k} - {j};
    }
  }

  lemma {:induction false} TotalSame<K>(ks: set<K>, f: K -> real, g: K -> real)
    requires forall k :: k in ks ==> f(k) == g(k)
    ensures Total(ks, f) == Total(ks, g)
  {
    if ks != {} {
      var k :| k in ks;
      TotalSplit(ks, f, k);
      TotalSplit(ks, g, k);
      TotalSame(ks - {k}, f, g);
    }
  }

  lemma TotalBump<K>(ks: set<K>, f: K -> real, g: K -> real, k: K, d: real)
    requires k in ks && g(k) == f(k) + d
    requires forall j :: j in ks && j != k ==> f(j) == g(j)
    ensures Total(ks, g) == Total(ks, f) + d
  {
    TotalSplit(ks, f, k);
    TotalSplit(ks, g, k);
    TotalSame(ks - {k}, f, g);
  }

  lemma {:induction false} TotalPlus<K>(ks: set<K>, f: K -> real, g: K -> real, h: K -> real)
    requires forall k :: k in ks ==> h(k) == f(k) + g(k)
    ensures Total(ks, h) == Total(ks, f) + Total(ks, g)
  {
    if ks != {} {
      var k :| k in ks;
      TotalSplit(ks, f, k);
      TotalSplit(ks, g, k);
      TotalSplit(ks, h, k);
      TotalPlus(ks - {k}, f, g, h);
    }
  }

  ghost predicate Additive(h: real -> real) {
    h(0.0) == 0.0 && forall a, b :: h(a + b) == h(a) + h(b)
  }

  /** An additive function of the parts is that function of the whole. */
  lemma {:induction false} TotalThrough<K>(ks: set<K>, f: K -> real, g: K -> real, h: real -> real)
    requires Additive(h) && forall k :: k in ks ==> f(k) == h(g(k))
    ensures Total(ks, f) == h(Total(ks, g))
  {
    if ks != {} {
      var k :| k in ks;
      TotalSplit(ks, f, k);
      TotalSplit(ks, g, k);
      TotalThrough(ks - {k}, f, g, h);
    }
  }

  lemma {:induction false} TotalConst<K>(ks: set<K>, f: K -> real, c: real)
    requires forall k :: k in ks ==> f(k) == c
    ensures Total(ks, f) == |ks| as real * c
  {
    if ks != {} {
      var k :| k in ks;
      TotalSplit(ks, f, k);
      TotalConst(ks - {k}, f, c);
      assert |ks| as real == |ks - {k}| as real + 1.0;
    }
  }

  lemma {:induction false} TotalDropZeros<K>(ks: set<K>, sub: set<K>, f: K -> real)
    requires sub <= ks && forall k :: k in ks && k !in sub ==> f(k) == 0.0
    ensures Total(ks, f) == Total(sub, f)
    decreases ks
  {
    if ks == sub { return; }
    var k :| k in ks && k !in sub;
    TotalSplit(ks, f, k);
    TotalDropZeros(ks - {k}, sub, f);
  }

  /** Summing group by group is summing once. */
  lemma {:induction false} Regroup<T, K>(xs: seq<T>, key: T -> K, ks: set<K>, f: T -> real, g: K -> real)
    requires forall k :: k in ks ==> g(k) == SumIn(xs, key, {k}, f)
    ensures Total(ks, g) == SumIn(xs, key, ks, f)
  {
    if xs == [] {
      TotalConst(ks, g, 0.0);
    } else {
      var n := |xs| - 1;
      var h := (k: K) => SumIn(xs[..n], key, {k}, f);
      Regroup(xs[..n], key, ks, f, h);
      if key(xs[n]) in ks {
        TotalBump(ks, h, g, key(xs[n]), f(xs[n]));
      } else {
        TotalSame(ks, h, g);
      }
    }
  }

  /** The sum depends only on what each element contributes. */
  lemma {:induction false} SumInSame<T, K, L>(xs: seq<T>, key: T -> K, ks: set<K>, f: T -> real,
                                              key': T -> L, ls: set<L>, g: T -> real)
    requires forall x :: x in xs ==> (if key(x) in ks then f(x) else 0.0) == (if key'(x) in ls then g(x) else 0.0)
    ensures SumIn(xs, key, ks, f) == SumIn(xs, key', ls, g)
  {
    if xs != [] {
      var n := |xs| - 1;
      assert xs == xs[..n] + [xs[n]];
      SumInSame(xs[..n], key, ks, f, key', ls, g);
    }
  }

  lemma {:induction false} SumInScale<T, K>(xs: seq<T>, key: T -> K, ks: set<K>, f: T -> real, g: T -> real, c: real)
    requires forall x :: x in xs && key(x) in ks ==> f(x) == c * g(x)
    ensures SumIn(xs, key, ks, f) == c * SumIn(xs, key, ks, g)
  {
    if xs != [] {
      var n := |xs| - 1;
      assert xs == xs[..n] + [xs[n]];
      SumInScale(xs[..n], key, ks, f, g, c);
    }
  }

  lemma SumInScaleTo<T, K>(xs: seq<T>, key: T -> K, ks: set<K>, f: T -> real, g: T -> real, c: real, total: real)
    requires forall x :: x in xs && key(x) in ks ==> f(x) == c * g(x)
    requires SumIn(xs, key, ks, g) == total
    ensures SumIn(xs, key, ks, f) == c * total
  {
    SumInScale(xs, key, ks, f, g, c);
  }

  lemma {:induction false} SumInPlus<T, K>(xs: seq<T>,
                                           key: T -> K, ks: set<K>, f: T -> real, g: T -> real, h: T -> real)
    requires forall x :: x in xs && key(x) in ks ==> h(x) == f(x) + g(x)
    ensures SumIn(xs, key, ks, h) == SumIn(xs, key, ks, f) + SumIn(xs, key, ks, g)
  {
    if xs != [] {
      var n := |xs| - 1;
      assert xs == xs[..n] + [xs[n]];
      SumInPlus(xs[..n], key, ks, f, g, h);
    }
  }

  lemma {:induction false} SumInZero<T, K>(xs: seq<T>, key: T -> K, ks: set<K>, f: T -> real)
    requires forall x :: x in xs && key(x) in ks ==> f(x) == 0.0
    ensures SumIn(xs, key, ks, f) == 0.0
  {
    if xs != [] {
      var n := |xs| - 1;
      assert xs == xs[..n] + [xs[n]];
      SumInZero(xs[..n], key, ks, f);
    }
  }

  function Mapped<T, U>(xs: seq<T>, h: T -> U): seq<U> {
    seq(|xs|, i requires 0 <= i < |xs| => h(xs[i]))
  }

  /** Summing after translating the elements. */
  lemma {:induction false} SumInMapped<T, U, K>(xs: seq<T>, h: T -> U, key: T -> K, key': U -> K, ks: set<K>,
                                                f: T -> real, f': U -> real)
    requires forall x :: x in xs ==> key(x) == key'(h(x)) && f(x) == f'(h(x))
    ensures SumIn(xs, key, ks, f) == SumIn(Mapped(xs, h), key', ks, f')
  {
    if xs != [] {
      var n := |xs| - 1;
      assert xs == xs[..n] + [xs[n]];
      assert Mapped(xs, h)[..n] == Mapped(xs[..n], h);
      SumInMapped(xs[..n], h, key, key', ks, f, f');
    }
  }

  ghost function Fibre<K, N>(ks: set<K>, key: K -> N, n: N): set<K> {
    set k | k in ks && key(k) == n
  }

  /** Totals over the fibres of a map add up to the total over its domain. */
  lemma {:induction false} TotalFibres<K, N>(ks: set<K>, key: K -> N, ns: set<N>, f: K -> real, g: N -> real)
    requires forall k :: k in ks ==> key(k) in ns
    requires forall n :: n in ns ==> g(n) == Total(Fibre(ks, key, n), f)
    ensures Total(ns, g) == Total(ks, f)
  {
    if ks == {} {
      forall n | n in ns ensures g(n) == 0.0 {
        assert Fibre(ks, key, n) == {};
      }
      TotalConst(ns, g, 0.0);
    } else {
      var k0 :| k0 in ks;
      var rest := ks - {k0};
      var h := (n: N) => Total(Fibre(rest, key, n), f);
      TotalFibres(rest, key, ns, f, h);
      TotalSplit(ks, f, k0);
      forall n | n in ns ensures g(n) == h(n) + if n == key(k0) then f(k0) else 0.0 {
        var fibre := Fibre(ks, key, n);
        if n == key(k0) {
          TotalSplit(fibre, f, k0);
          assert fibre - {k0} == Fibre(rest, key, n);
        } else {
          assert fibre == Fibre(rest, key, n);
        }
      }
      TotalBump(ns, h, g, key(k0), f(k0));
    }
  }

  lemma {:induction false} TotalDrops<K>(ks: set<K>, sub: set<K>, f: K -> real, k: K)
    requires sub <= ks && k in ks && k !in sub && f(k) > 0.0 && forall j :: j in ks ==> f(j) >= 0.0
    ensures Total(sub, f) < Total(ks, f)
    decreases ks
  {
    TotalSplit(ks, f, k);
    if j :| j in ks && j != k && j !in sub {
      TotalSplit(ks, f, j);
      TotalDrops(ks - {j}, sub, f, k);
    } else {
      assert ks - {k} == sub;
    }
  }

  lemma {:induction false} SumInPositive<T, K>(xs: seq<T>, key: T -> K, ks: set<K>, f: T -> real)
    requires forall x :: x in xs && key(x) in ks ==> f(x) >= 0.0
    ensures SumIn(xs, key, ks, f) >= 0.0
    ensures (exists x :: x in xs && key(x) in ks && f(x) > 0.0) ==> SumIn(xs, key, ks, f) > 0.0
  {
    if xs != [] {
      var n := |xs| - 1;
      assert xs == xs[..n] + [xs[n]];
      SumInPositive(xs[..n], key, ks, f);
    }
  }

  // ---------------------------------------------------------------- leaving elements out

  function Filter<T>(xs: seq<T>, p: T -> bool): seq<T> {
    if xs == [] then [] else
      var n := |xs| - 1;
      if p(xs[n]) then Filter(xs[..n], p) + [xs[n]] else Filter(xs[..n], p)
  }

  lemma {:induction false} FilterMembers<T>(xs: seq<T>, p: T -> bool)
    ensures forall x :: x in Filter(xs, p) <==> x in xs && p(x)
  {
    if xs != [] {
      var n := |xs| - 1;
      assert xs == xs[..n] + [xs[n]];
      FilterMembers(xs[..n], p);
    }
  }

  lemma SumInLast<T, K>(xs: seq<T>, x: T, key: T -> K, ks: set<K>, f: T -> real)
    ensures SumIn(xs + [x], key, ks, f) == SumIn(xs, key, ks, f) + if key(x) in ks then f(x) else 0.0
  {
    assert (xs + [x])[..|xs|] == xs;
  }

  lemma SumInTwo<T, K>(x: T, y: T, key: T -> K, ks: set<K>, f: T -> real)
    ensures SumIn([x, y], key, ks, f) == (if key(x) in ks then f(x) else 0.0) + if key(y) in ks then f(y) else 0.0
  {
    SumInLast([], x, key, ks, f);
    SumInLast([x], y, key, ks, f);
    assert [] + [x] == [x] && [x] + [y] == [x, y];
  }

  /** Elements that contribute nothing can be left out. */
  lemma {:induction false} SumInFilter<T, K>(xs: seq<T>, p: T -> bool, key: T -> K, ks: set<K>, f: T -> real,
                                             g: T -> real)
    requires forall x :: x in xs && key(x) in ks ==> if p(x) then f(x) == g(x) else f(x) == 0.0
    ensures SumIn(xs, key, ks, f) == SumIn(Filter(xs, p), key, ks, g)
  {
    if xs != [] {
      var n := |xs| - 1;
      assert xs == xs[..n] + [xs[n]];
      SumInFilter(xs[..n], p, key, ks, f, g);
      SumInLast(Filter(xs[..n], p), xs[n], key, ks, g);
    }
  }

  lemma {:induction false} MappedFilter<T, U>(xs: seq<T>, h: T -> U, p: T -> bool, q: U -> bool)
    requires forall x :: x in xs ==> p(x) == q(h(x))
    ensures Mapped(Filter(xs, p), h) == Filter(Mapped(xs, h), q)
  {
    if xs != [] {
      var n, us := |xs| - 1, Mapped(xs, h);
      assert xs == xs[..n] + [xs[n]];
      assert us[..n] == Mapped(xs[..n], h) && us[n] == h(xs[n]);
      MappedFilter(xs[..n], h, p, q);
      var before := Filter(xs[..n], p);
      assert Mapped(before + [xs[n]], h) == Mapped(before, h) + [h(xs[n])];
    }
  }

  lemma MultisetLast<T>(xs: seq<T>, x: T)
    requires xs != []
    ensures multiset(xs)[x] == multiset(xs[..|xs| - 1])[x] + if xs[|xs| - 1] == x then 1 else 0
  {
    assert xs == xs[..|xs| - 1] + [xs[|xs| - 1]];
  }

  lemma SumInAbsent<T, K>(xs: seq<T>, key: T -> K, k: K, f: T -> real, x: T)
    requires multiset(xs)[x] == 0 && forall y :: y in xs && key(y) == k ==> y == x
    ensures SumIn(xs, key, {k}, f) == 0.0
  {
    assert forall y :: y in xs ==> multiset(xs)[y] > 0;
    SumInZero(xs, key, {k}, f);
  }

  /** A key with one element has that element's share. */
  lemma {:induction false} SumInOnce<T, K>(xs: seq<T>, key: T -> K, k: K, f: T -> real, x: T)
    requires multiset(xs)[x] == 1 && key(x) == k && forall y :: y in xs && key(y) == k ==> y == x
    ensures SumIn(xs, key, {k}, f) == f(x)
  {
    var n := |xs| - 1;
    MultisetLast(xs, x);
    if xs[n] == x { SumInAbsent(xs[..n], key, k, f, x); } else { SumInOnce(xs[..n], key, k, f, x); }
  }
}
