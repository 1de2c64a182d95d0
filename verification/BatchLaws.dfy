/** Conservation of a shared cost, exactly and under floating-point rounding. */
module BatchLaws {
  import opened Entry
  import opened Account
  import opened Batch
  import opened PeakLaws

  /** The unit roundoff of binary64, 2^-53, of `x`. */
  function Roundoff(x: real): real { x / 9007199254740992.0 }

  const MAX_MEMBERS: nat := 0x10_0000

  function Abs(x: real): real { if x < 0.0 then -x else x }

  ghost predicate Within(x: real, y: real, bound: real) { -bound <= x - y <= bound }

  /** Rounding in the absence of overflow and underflow. */
  ghost predicate RelativeError(fl: Rounding) {
    forall x :: Within(fl(x), x, Roundoff(Abs(x)))
  }

  ghost predicate AllNonNegative(xs: seq<real>) {
    forall i :: 0 <= i < |xs| ==> xs[i] >= 0.0
  }

  /******* Products, one at a time *******/

  // Proofs about error bounds hide `Times`, so that what is left is linear.

  lemma Distributes(a: real, x: real, y: real)
    ensures Times(a, x + y) == Times(a, x) + Times(a, y) && Times(x + y, a) == Times(a, x + y)
  {
  }

  lemma Monotone(a: real, x: real, y: real)
    requires a >= 0.0 && x <= y
    ensures Times(a, x) <= Times(a, y) && Times(x, a) <= Times(y, a)
  {
  }

  lemma TimesZero(a: real)
    ensures Times(a, 0.0) == 0.0 && Times(0.0, a) == 0.0
  {
  }

  lemma TimesQuotient(total: real, w: real, wsum: real)
    requires wsum > 0.0
    ensures Times(total, w / wsum) == Times(total / wsum, w)
    ensures Times(total / wsum, wsum) == total
  {
    var p, q := w / wsum, total / wsum;
    assert p * wsum == w && q * wsum == total;
    assert (q * wsum) * p == q * (p * wsum);
  }

  lemma TimesRoundoff(a: real, x: real)
    ensures Times(a, Roundoff(x)) == Roundoff(Times(a, x))
  {
  }

  /******* Error of a rounded sum *******/

  /** Relative error of a rounded sum of `n` terms. */
  function SumFactor(n: nat): real { Roundoff(2.0 * (n as real)) }

  lemma SumFactorGrows(n: nat, x: real)
    requires n <= MAX_MEMBERS && x >= 0.0
    ensures 0.0 <= Times(SumFactor(n), x) <= 0.00000000025 * x
    ensures Times(SumFactor(n + 1), x) == Times(SumFactor(n), x) + Roundoff(2.0 * x)
  {
    hide Times;
    var small := 0.00000000025;
    assert 0.0 <= SumFactor(n) <= small;
    Monotone(x, 0.0, SumFactor(n));
    Monotone(x, SumFactor(n), small);
    TimesZero(x);
    SmallTimes(small, x);
    Distributes(x, SumFactor(n), Roundoff(2.0));
    TimesRoundoff(x, 2.0);
    TwoTimes(x);
    assert SumFactor(n + 1) == SumFactor(n) + Roundoff(2.0);
    Commutes(SumFactor(n), x);
    Commutes(Roundoff(2.0), x);
  }

  lemma Commutes(a: real, b: real)
    ensures Times(a, b) == Times(b, a)
  {
  }

  lemma SmallTimes(small: real, x: real)
    requires small == 0.00000000025
    ensures Times(small, x) == 0.00000000025 * x
  {
  }

  lemma TwoTimes(x: real)
    ensures Times(x, 2.0) == 2.0 * x
  {
  }

  lemma SumStepError(c: real, exact: real, s: real, t: real, r: real)
    requires exact >= 0.0 && t >= 0.0 && 0.0 <= Times(c, exact) <= exact && 0.0 <= Times(c, t)
    requires Within(s, exact, Times(c, exact)) && Within(r, s + t, Roundoff(Abs(s + t)))
    ensures Within(r, exact + t, Times(c, exact + t) + Roundoff(2.0 * (exact + t)))
  {
    hide Times;
    Distributes(c, exact, t);
  }

  lemma RoundOff(fl: Rounding, x: real)
    requires RelativeError(fl)
    ensures Within(fl(x), x, Roundoff(Abs(x)))
  {
  }

  lemma {:induction false} SumError(fl: Rounding, xs: seq<real>)
    requires RelativeError(fl) && AllNonNegative(xs) && |xs| <= MAX_MEMBERS
    ensures Sum(xs) >= 0.0
    ensures Within(RoundedSum(fl, xs), Sum(xs), Times(SumFactor(|xs|), Sum(xs)))
    decreases |xs|
  {
    hide RelativeError, SumFactor, Times;
    if xs == [] {
      TimesZero(SumFactor(0));
    } else {
      var n := |xs| - 1;
      SumError(fl, xs[..n]);
      var s, exact := RoundedSum(fl, xs[..n]), Sum(xs[..n]);
      RoundOff(fl, s + xs[n]);
      SumFactorGrows(n, exact);
      SumFactorGrows(n, xs[n]);
      SumStepError(SumFactor(n), exact, s, xs[n], fl(s + xs[n]));
      SumFactorGrows(n, exact + xs[n]);
    }
  }

  /** For up to `MAX_MEMBERS` terms the relative error stays under 2.5e-10. */
  lemma SumErrorBound(fl: Rounding, xs: seq<real>)
    requires RelativeError(fl) && AllNonNegative(xs) && |xs| <= MAX_MEMBERS
    ensures Sum(xs) >= 0.0
    ensures Within(RoundedSum(fl, xs), Sum(xs), 0.00000000025 * Sum(xs))
  {
    hide RelativeError, RoundedSum, Sum, SumFactor, Times;
    SumError(fl, xs);
    SumFactorGrows(|xs|, Sum(xs));
  }

  /******* Error of the shares *******/

  lemma ScaledError(total: real, p: real, f: real)
    requires total >= 0.0 && p >= 0.0 && Within(f, p, Roundoff(Abs(p)))
    ensures Times(total, p) >= 0.0 && Within(Times(total, f), Times(total, p), Roundoff(Times(total, p)))
  {
    hide Times;
    var e := Roundoff(p);
    TimesZero(total);
    Monotone(total, 0.0, p);
    Monotone(total, f, p + e);
    Monotone(total, p - e, f);
    Distributes(total, p, e);
    Distributes(total, p - e, e);
    TimesRoundoff(total, p);
  }

  lemma RoundedAgain(exact: real, product: real, r: real)
    requires exact >= 0.0 && Within(product, exact, Roundoff(exact)) && Within(r, product, Roundoff(Abs(product)))
    ensures r >= 0.0 && Within(r, exact, Roundoff(3.0 * exact))
  {
  }

  lemma ShareError(fl: Rounding, total: real, m: Id, w: real, wsum: real)
    requires RelativeError(fl) && total >= 0.0 && w >= 0.0 && wsum > 0.0
    ensures var share, exact := ShareOf(fl, total, m, w, wsum).share, Times(total / wsum, w);
            share >= 0.0 && Within(share, exact, Roundoff(3.0 * exact))
  {
    hide RelativeError, Times;
    var p := w / wsum;
    assert p >= 0.0;
    RoundOff(fl, p);
    var product := Times(total, fl(p));
    RoundOff(fl, product);
    ScaledError(total, p, fl(p));
    TimesQuotient(total, w, wsum);
    RoundedAgain(Times(total, p), product, fl(product));
  }

  lemma {:induction false} SharesError(xs: seq<real>, w: seq<real>, q: real)
    requires |xs| == |w|
    requires forall i :: 0 <= i < |w| ==> Within(xs[i], Times(q, w[i]), Roundoff(3.0 * Times(q, w[i])))
    ensures Within(Sum(xs), Times(q, Sum(w)), Roundoff(3.0 * Times(q, Sum(w))))
    decreases |w|
  {
    hide Times;
    if w == [] {
      TimesZero(q);
    } else {
      var n := |w| - 1;
      SharesError(xs[..n], w[..n], q);
      assert Within(xs[n], Times(q, w[n]), Roundoff(3.0 * Times(q, w[n])));
      Distributes(q, Sum(w[..n]), w[n]);
    }
  }

  /******* Reconciliation *******/

  /** Weights that are used are non-negative, and the divisor is close to their sum. */
  lemma DivisorError(fl: Rounding, n: nat, weights: seq<real>, policy: Policy)
    requires RelativeError(fl) && AllNonNegative(weights) && 1 <= n <= MAX_MEMBERS
    ensures var (w, wsum) := Divisor(fl, n, weights, policy);
            AllNonNegative(w) && wsum > 0.0 && Within(wsum, Sum(w), 0.00000000025 * Sum(w))
  {
    hide RelativeError, RoundedSum, Sum;
    var w := EffectiveWeights(n, weights, policy);
    SumErrorBound(fl, w);
    UniformSum(n);
    RoundOff(fl, n as real);
  }

  lemma {:induction false} UniformSum(n: nat)
    ensures Sum(Uniform(n)) == n as real
  {
    if n == 0 {
    } else {
      UniformSum(n - 1);
      assert Uniform(n)[..n - 1] == Uniform(n - 1);
    }
  }

  lemma CloseEnough(fl: Rounding, a: SharedAllocation)
    requires RelativeError(fl) && a.total >= 0.0
    requires Within(MemberSum(fl, a) + a.overhead, a.total, 0.0000000007 * a.total)
    ensures Reconciles(fl, a)
  {
    hide RelativeError, MemberSum, UpperLimit, LowerLimit;
    Limits(fl, if a.total > 0.0 then a.total else 1.0);
    var x := MemberSum(fl, a) + a.overhead;
    RoundOff(fl, x);
    RoundOff(fl, fl(x) - a.total);
  }

  lemma TooFar(fl: Rounding, a: SharedAllocation)
    requires RelativeError(fl) && a.total > 0.0
    requires var x := MemberSum(fl, a) + a.overhead; x <= 0.5 * a.total || x >= 1.5 * a.total
    ensures !Reconciles(fl, a)
  {
    hide RelativeError, MemberSum, UpperLimit, LowerLimit;
    Limits(fl, a.total);
    var x := MemberSum(fl, a) + a.overhead;
    RoundOff(fl, x);
    RoundOff(fl, fl(x) - a.total);
  }

  /** The limits are rounded too; they stay between 0.9e-9 and 1.1e-9 of the scale. */
  lemma Limits(fl: Rounding, scale: real)
    requires RelativeError(fl) && scale > 0.0
    ensures 0.0000000009 * scale <= UpperLimit(fl, scale) <= 0.0000000011 * scale
    ensures -0.0000000011 * scale <= LowerLimit(fl, scale) <= -0.0000000009 * scale
  {
    hide RelativeError, Times;
    var k := fl(0.000000001);
    var above, below := Times(k, scale), Times(-k, scale);
    RoundOff(fl, 0.000000001);
    RoundOff(fl, above);
    RoundOff(fl, below);
    ScaledLimits(k, scale);
  }

  lemma ScaledLimits(k: real, scale: real)
    requires Within(k, 0.000000001, Roundoff(0.000000001)) && scale > 0.0
    ensures Within(Times(k, scale), 0.000000001 * scale, 0.00000000001 * scale)
    ensures Times(-k, scale) == -Times(k, scale)
  {
    hide Times;
    var low, high := 0.00000000099, 0.00000000101;
    Monotone(scale, low, k);
    Monotone(scale, k, high);
    LiteralProducts(scale, low, high);
    Distributes(scale, k, -k);
    TimesZero(scale);
    Commutes(scale, k);
    Commutes(scale, -k);
  }

  lemma LiteralProducts(x: real, low: real, high: real)
    requires low == 0.00000000099 && high == 0.00000000101
    ensures Times(low, x) == 0.00000000099 * x && Times(high, x) == 0.00000000101 * x
  {
  }

  lemma AssignedIsClose(fl: Rounding, total: real, members: seq<Id>, w: seq<real>, wsum: real)
    requires RelativeError(fl) && total >= 0.0 && |w| == |members| <= MAX_MEMBERS
    requires AllNonNegative(w) && wsum > 0.0 && Within(wsum, Sum(w), 0.00000000025 * Sum(w))
    ensures var xs := Amounts(WeightedMembers(fl, total, members, w, wsum));
            Within(RoundedSum(fl, xs), total, 0.0000000006 * total)
  {
    hide RelativeError, RoundedSum, Sum, ShareOf, Times;
    var xs := Amounts(WeightedMembers(fl, total, members, w, wsum));
    var q := total / wsum;
    forall i | 0 <= i < |w|
      ensures xs[i] >= 0.0 && Within(xs[i], Times(q, w[i]), Roundoff(3.0 * Times(q, w[i])))
    {
      ShareError(fl, total, members[i], w[i], wsum);
    }
    SharesError(xs, w, q);
    SumErrorBound(fl, xs);
    TimesQuotient(total, 0.0, wsum);
    Monotone(q, wsum, 1.00000000025 * Sum(w));
    Monotone(q, 0.99999999975 * Sum(w), wsum);
    Distributes(q, Sum(w), 0.00000000025 * Sum(w));
    Distributes(q, 0.99999999975 * Sum(w), 0.00000000025 * Sum(w));
    SmallPart(q, Sum(w));
  }

  lemma SmallPart(q: real, x: real)
    ensures Times(q, 0.00000000025 * x) == 0.00000000025 * Times(q, x)
  {
  }

  /** Every policy but direct ownership hands out a total that reconciles, whatever
      the rounding, and even when a tiny negative remainder was cleared. A batch
      with no members reconciles only when there is nothing to hand out. */
  lemma ProportionalReconciles(fl: Rounding, total: real, members: seq<Id>, weights: seq<real>, policy: Policy,
                               directOwner: Id)
    requires RelativeError(fl) && total >= 0.0 && AllNonNegative(weights)
    requires |members| <= MAX_MEMBERS && !policy.DirectOwnership?
    ensures Reconciles(fl, Allocation(fl, total, members, weights, policy, directOwner)) <==>
            members != [] || total == 0.0
  {
    hide RelativeError, Sum, ShareOf, Divisor, Reconciles, RoundedSum;
    var a := Allocation(fl, total, members, weights, policy, directOwner);
    if members == [] {
      assert Amounts(a.members) == [];
      NothingHandedOut(fl, a);
    } else {
      var (w, wsum) := Divisor(fl, |members|, weights, policy);
      DivisorError(fl, |members|, weights, policy);
      AssignedIsClose(fl, total, members, w, wsum);
      RoundOff(fl, total - MemberSum(fl, a));
      CloseEnough(fl, a);
    }
  }

  lemma NothingHandedOut(fl: Rounding, a: SharedAllocation)
    requires RelativeError(fl) && a.total >= 0.0 && a.overhead == 0.0 && Amounts(a.members) == []
    ensures Reconciles(fl, a) <==> a.total == 0.0
  {
    hide RelativeError, Reconciles;
    assert MemberSum(fl, a) == 0.0;
    if a.total == 0.0 { CloseEnough(fl, a); } else { TooFar(fl, a); }
  }

  /******* Direct ownership *******/

  function Occurrences(members: seq<Id>, m: Id): nat {
    if members == [] then 0 else
    Occurrences(members[..|members| - 1], m) + if members[|members| - 1] == m then 1 else 0
  }

  lemma {:induction false} DirectSum(total: real, members: seq<Id>, owner: Id)
    ensures Sum(Amounts(DirectMembers(total, members, owner))) == Times(total, Occurrences(members, owner) as real)
    decreases |members|
  {
    hide Times;
    if members != [] {
      var n := |members| - 1;
      DirectSum(total, members[..n], owner);
      var xs := Amounts(DirectMembers(total, members, owner));
      assert xs[..n] == Amounts(DirectMembers(total, members[..n], owner));
      OneMore(total, Occurrences(members[..n], owner));
    } else {
      TimesZero(total);
    }
  }

  lemma OneMore(total: real, k: nat)
    ensures Times(total, (k + 1) as real) == Times(total, k as real) + total
  {
  }

  lemma Multiples(total: real, k: nat)
    requires total >= 0.0
    ensures k == 0 || total == 0.0 ==> Times(total, k as real) == 0.0
    ensures k == 1 ==> Times(total, k as real) == total
    ensures k >= 2 ==> Times(total, k as real) >= 2.0 * total
  {
    if k >= 2 {
      assert total * ((k - 2) as real) >= 0.0;
      OneMore(total, k - 1);
      OneMore(total, k - 2);
    }
  }

  /** Direct ownership reconciles exactly when the owner occurs once among the
      members (or there is nothing to hand out). */
  lemma DirectReconciles(fl: Rounding, total: real, members: seq<Id>, weights: seq<real>, directOwner: Id)
    requires RelativeError(fl) && total >= 0.0 && |members| <= MAX_MEMBERS
    ensures Reconciles(fl, Allocation(fl, total, members, weights, DirectOwnership, directOwner)) <==>
            (members != [] && Occurrences(members, Owner(members, directOwner)) == 1) || total == 0.0
  {
    hide RelativeError, Sum, RoundedSum, Reconciles, Occurrences, Times;
    if members == [] {
      var a := Allocation(fl, total, members, weights, DirectOwnership, directOwner);
      assert Amounts(a.members) == [];
      NothingHandedOut(fl, a);
      return;
    }
    var owner := Owner(members, directOwner);
    var a := Allocation(fl, total, members, weights, DirectOwnership, directOwner);
    var xs := Amounts(a.members);
    DirectSum(total, members, owner);
    SumErrorBound(fl, xs);
    var k := Occurrences(members, owner);
    Multiples(total, k);
    if k == 1 || total == 0.0 {
      CloseEnough(fl, a);
    } else {
      TooFar(fl, a);
    }
  }

  /******* Exact arithmetic *******/

  function Exactly(x: real): real { x }

  lemma {:induction false} ExactSum(xs: seq<real>)
    ensures RoundedSum(Exactly, xs) == Sum(xs)
  {
    if xs == [] {
    } else {
      ExactSum(xs[..|xs| - 1]);
    }
  }

  lemma {:induction false} ProportionalSum(xs: seq<real>, w: seq<real>, q: real)
    requires |xs| == |w| && forall i :: 0 <= i < |w| ==> xs[i] == Times(q, w[i])
    ensures Sum(xs) == Times(q, Sum(w))
    decreases |w|
  {
    hide Times;
    if w == [] {
      TimesZero(q);
    } else {
      var n := |w| - 1;
      ProportionalSum(xs[..n], w[..n], q);
      Distributes(q, Sum(w[..n]), w[n]);
    }
  }

  lemma ExactShare(total: real, m: Id, w: real, wsum: real)
    requires wsum > 0.0
    ensures ShareOf(Exactly, total, m, w, wsum).share == Times(total / wsum, w)
  {
    TimesQuotient(total, w, wsum);
  }

  /** In exact arithmetic the shares sum to the total, with no overhead, for
      every total and every sign of weight. */
  lemma ExactSharesSumToTotal(total: real, members: seq<Id>, weights: seq<real>, policy: Policy, directOwner: Id)
    requires members != [] && !policy.DirectOwnership?
    ensures var a := Allocation(Exactly, total, members, weights, policy, directOwner);
            && |a.members| == |members| && a.overhead == 0.0 && MemberSum(Exactly, a) == total
            && Reconciles(Exactly, a)
            && forall i :: 0 <= i < |members| ==> a.members[i].request == members[i]
  {
    hide RoundedSum, Sum, Divisor, Times, Reconciles;
    var a := Allocation(Exactly, total, members, weights, policy, directOwner);
    var (w, wsum) := Divisor(Exactly, |members|, weights, policy);
    ExactDivisor(|members|, weights, policy);
    var xs := Amounts(a.members);
    forall i | 0 <= i < |w| ensures xs[i] == Times(total / wsum, w[i]) { ExactShare(total, members[i], w[i], wsum); }
    ProportionalSum(xs, w, total / wsum);
    TimesQuotient(total, wsum, wsum);
    ExactSum(xs);
    ExactlyReconciles(a);
  }

  lemma ExactlyReconciles(a: SharedAllocation)
    requires MemberSum(Exactly, a) == a.total && a.overhead == 0.0
    ensures Reconciles(Exactly, a)
  {
    hide MemberSum;
  }

  /** And they are in proportion to the weights. */
  lemma ExactSharesAreProportional(total: real, members: seq<Id>, weights: seq<real>, policy: Policy,
                                   directOwner: Id, i: nat, j: nat)
    requires members != [] && !policy.DirectOwnership? && i < |members| && j < |members|
    ensures var ms := Allocation(Exactly, total, members, weights, policy, directOwner).members;
            |ms| == |members| && Times(ms[i].share, ms[j].weight) == Times(ms[j].share, ms[i].weight)
  {
    hide RoundedSum, Sum, Divisor, Times;
    var (w, wsum) := Divisor(Exactly, |members|, weights, policy);
    ExactDivisor(|members|, weights, policy);
    ExactShare(total, members[i], w[i], wsum);
    ExactShare(total, members[j], w[j], wsum);
    Exchange(total / wsum, w[i], w[j]);
  }

  lemma Exchange(q: real, x: real, y: real)
    ensures Times(Times(q, x), y) == Times(Times(q, y), x)
  {
  }

  lemma ExactDivisor(n: nat, weights: seq<real>, policy: Policy)
    requires n > 0
    ensures var (w, wsum) := Divisor(Exactly, n, weights, policy); wsum > 0.0 && wsum == Sum(w)
  {
    hide RoundedSum, Sum;
    ExactSum(EffectiveWeights(n, weights, policy));
    UniformSum(n);
  }

  lemma ExactDirectSum(total: real, members: seq<Id>, weights: seq<real>, directOwner: Id)
    requires members != []
    ensures var a := Allocation(Exactly, total, members, weights, DirectOwnership, directOwner);
            MemberSum(Exactly, a) == total * (Occurrences(members, Owner(members, directOwner)) as real)
  {
    hide RoundedSum, Sum, Occurrences;
    DirectSum(total, members, Owner(members, directOwner));
    ExactSum(Amounts(DirectMembers(total, members, Owner(members, directOwner))));
  }

  /******* From ledger entries to a reconciling split *******/

  lemma WeightIsNonNegative(fl: Rounding, es: seq<LedgerEntry>, policy: Policy)
    requires RelativeError(fl) && NonNegativeAmounts(es)
    ensures MemberWeight(fl, Reconcile(es), policy) >= 0.0
  {
    hide RelativeError, NonNegativeAmounts, Reconcile;
    var a := Reconcile(es);
    AcquiredIsNonNegative(es);
    RoundOff(fl, a.totals.kv.acquired + a.totals.tensor.acquired);
    RoundOff(fl, a.generatedTokens as real);
    RoundOff(fl, (a.executionNs as real) / 1000000000.0);
    RoundOff(fl, a.totals.counts.reserved as real);
  }

  lemma AcquiredIsNonNegative(es: seq<LedgerEntry>)
    requires NonNegativeAmounts(es)
    ensures Reconcile(es).totals.kv.acquired >= 0.0 && Reconcile(es).totals.tensor.acquired >= 0.0
  {
    hide NonNegativeAmounts, Reconcile, GrownIn;
    PeaksAreGreatestRuns(es);
    assert Net(KvMoves(es), 0, 0) == 0.0 && Net(TensorMoves(es), 0, 0) == 0.0;
  }

  /** A cost split by weights read off the members' own accounts reconciles. */
  lemma AccountWeightsReconcile(fl: Rounding, total: real, members: seq<Id>, histories: seq<seq<LedgerEntry>>,
                                weights: seq<real>, policy: Policy, directOwner: Id)
    requires RelativeError(fl) && total >= 0.0 && 1 <= |members| <= MAX_MEMBERS && !policy.DirectOwnership?
    requires |histories| == |weights| == |members|
    requires forall i :: 0 <= i < |members| ==>
               NonNegativeAmounts(histories[i]) && weights[i] == MemberWeight(fl, Reconcile(histories[i]), policy)
    ensures Reconciles(fl, Allocation(fl, total, members, weights, policy, directOwner))
  {
    hide RelativeError, NonNegativeAmounts, Reconciles, Allocation, MemberWeight, Reconcile;
    forall i | 0 <= i < |weights| ensures weights[i] >= 0.0 {
      WeightIsNonNegative(fl, histories[i], policy);
    }
    ProportionalReconciles(fl, total, members, weights, policy, directOwner);
  }
}
