/** Fixed-width integers, optional values, and ascending iteration over sets
    (the order in which `std::set` and `std::map` are walked). */
module Base {

  type Byte = x: int | 0 <= x < 0x100
  type U32 = x: int | 0 <= x < 0x1_0000_0000
  type U64 = x: int | 0 <= x < 0x1_0000_0000_0000_0000
  type Bytes = seq<Byte>

  const U64_MODULUS: int := 0x1_0000_0000_0000_0000

  datatype Option<+T> = None | Some(value: T)

  /******* Total orders *******/

  ghost predicate TotalOrder<T(!new)>(less: (T, T) -> bool) {
    && (forall x :: !less(x, x))
    && (forall x, y, z :: less(x, y) && less(y, z) ==> less(x, z))
    && (forall x, y :: x == y || less(x, y) || less(y, x))
  }

  predicate IsLeast<T(==)>(less: (T, T) -> bool, s: set<T>, m: T) {
    m in s && forall y :: y in s ==> y == m || less(m, y)
  }

  lemma LeastExists<T(!new)>(less: (T, T) -> bool, s: set<T>)
    requires TotalOrder(less) && s != {}
    ensures exists m :: IsLeast(less, s, m)
  {
    var x :| x in s;
    var rest := s - {x};
    if rest == {} {
      assert s == {x};
      assert IsLeast(less, s, x);
    } else {
      LeastExists(less, rest);
      var m :| IsLeast(less, rest, m);
      assert forall y :: y in s ==> y == x || y in rest;
      if less(x, m) {
        assert IsLeast(less, s, x);
      } else {
        assert IsLeast(less, s, m);
      }
    }
  }

  ghost predicate StrictlyAscending<T>(less: (T, T) -> bool, r: seq<T>) {
    forall i, j :: 0 <= i < j < |r| ==> less(r[i], r[j])
  }

  /** The elements of `s` in ascending order. */
  function Ascending<T(!new, ==)>(less: (T, T) -> bool, s: set<T>): (r: seq<T>)
    requires TotalOrder(less)
    ensures forall x :: x in r <==> x in s
    ensures StrictlyAscending(less, r)
    ensures |r| == |s|
  {
    if s == {} then [] else
      LeastExists(less, s);
      var m :| IsLeast(less, s, m);
      [m] + Ascending(less, s - {m})
  }

  /** Strictly ascending sequences with the same elements are equal, so
      `Ascending` is the only possible walk. */
  lemma {:induction false} AscendingUnique<T(!new)>(less: (T, T) -> bool, a: seq<T>, b: seq<T>)
    requires TotalOrder(less)
    requires StrictlyAscending(less, a) && StrictlyAscending(less, b)
    requires forall x :: x in a <==> x in b
    ensures a == b
    decreases |a| + |b|, |b| - |a|
  {
    if |a| < |b| {
      AscendingUnique(less, b, a);
    } else if a != [] {
      assert a[0] in b && b[0] in a;
      assert a[0] == b[0];
      forall x ensures x in a[1..] <==> x in b[1..] {
        if x in a[1..] { assert x in a; }
        if x in b[1..] { assert x in b; }
      }
      AscendingUnique(less, a[1..], b[1..]);
      assert a == [a[0]] + a[1..] && b == [b[0]] + b[1..];
    }
  }

  /******* Folds whose steps commute *******/

  function Fold<S, T>(step: (S, T) -> S, init: S, xs: seq<T>): S
    decreases |xs|
  {
    if xs == [] then init else step(Fold(step, init, xs[..|xs| - 1]), xs[|xs| - 1])
  }

  ghost predicate Commutes<S(!new), T(!new)>(step: (S, T) -> S) {
    forall s, x, y :: step(step(s, x), y) == step(step(s, y), x)
  }

  lemma TakeOut<T>(xs: seq<T>, i: nat)
    requires i < |xs|
    ensures multiset(xs[..i] + xs[i + 1..]) == multiset(xs) - multiset{xs[i]}
  {
    assert xs == xs[..i] + ([xs[i]] + xs[i + 1..]);
  }

  /** An element may be moved to the end. */
  lemma {:induction false} MoveToEnd<S(!new), T(!new)>(step: (S, T) -> S, init: S, xs: seq<T>, i: nat)
    requires Commutes(step) && i < |xs|
    ensures Fold(step, init, xs) == step(Fold(step, init, xs[..i] + xs[i + 1..]), xs[i])
    decreases |xs|
  {
    var n := |xs| - 1;
    if i == n {
      assert xs[..i] + xs[i + 1..] == xs[..n];
    } else {
      var front := xs[..n];
      MoveToEnd(step, init, front, i);
      var rest := front[..i] + front[i + 1..];
      assert xs[..i] + xs[i + 1..] == rest + [xs[n]];
      assert (rest + [xs[n]])[..|rest|] == rest;
    }
  }

  /** The result depends on which elements there are, not on their order. */
  lemma {:induction false} FoldIgnoresOrder<S(!new), T(!new)>(step: (S, T) -> S, init: S, xs: seq<T>, ys: seq<T>)
    requires Commutes(step) && multiset(xs) == multiset(ys)
    ensures Fold(step, init, xs) == Fold(step, init, ys)
    decreases |xs|
  {
    assert |multiset(xs)| == |xs| && |multiset(ys)| == |ys|;
    if xs == [] {
      assert ys == xs;
    } else {
      var n := |xs| - 1;
      assert xs[n] in multiset(ys);
      var i :| 0 <= i < |ys| && ys[i] == xs[n];
      TakeOut(xs, n);
      TakeOut(ys, i);
      assert xs[..n] + xs[n + 1..] == xs[..n];
      FoldIgnoresOrder(step, init, xs[..n], ys[..i] + ys[i + 1..]);
      MoveToEnd(step, init, ys, i);
    }
  }

  /******* Byte strings in the order of `std::string` *******/

  predicate LexLess(a: Bytes, b: Bytes) {
    if b == [] then false
    else if a == [] then true
    else a[0] < b[0] || (a[0] == b[0] && LexLess(a[1..], b[1..]))
  }

  lemma LexTransitive(a: Bytes, b: Bytes, c: Bytes)
    requires LexLess(a, b) && LexLess(b, c)
    ensures LexLess(a, c)
  {
  }

  lemma {:induction false} LexConnected(a: Bytes, b: Bytes)
    ensures a == b || LexLess(a, b) || LexLess(b, a)
  {
    if a != [] && b != [] {
      LexConnected(a[1..], b[1..]);
      assert a == [a[0]] + a[1..] && b == [b[0]] + b[1..];
    }
  }

  lemma LexIrreflexive(a: Bytes)
    ensures !LexLess(a, a)
  {
  }

  lemma LexTotalOrder()
    ensures TotalOrder(LexLess)
  {
    forall a ensures !LexLess(a, a) { LexIrreflexive(a); }
    forall a, b, c | LexLess(a, b) && LexLess(b, c) ensures LexLess(a, c) { LexTransitive(a, b, c); }
    forall a, b ensures a == b || LexLess(a, b) || LexLess(b, a) { LexConnected(a, b); }
  }

  /** The keys of a byte-string map in the order `std::map` walks them. */
  function SortedKeys(m: map<Bytes, Bytes>): (keys: seq<Bytes>)
    ensures forall k :: k in keys <==> k in m
    ensures forall i, j :: 0 <= i < j < |keys| ==> keys[i] != keys[j]
    ensures |keys| == |m|
  {
    LexTotalOrder();
    Ascending(LexLess, m.Keys)
  }
}
