/** Splitting a shared cost over the members of a batch. Every floating-point
    operation goes through a rounding `fl`; the identity gives exact arithmetic. */
module Batch {
  import opened Entry
  import opened Account

  type Rounding = real -> real

  datatype Policy =
    | EqualShare | ProportionalBytes | ProportionalTokens | ProportionalExecution
    | ProportionalReserved | DirectOwnership | Weighted

  datatype MemberShare = MemberShare(request: Id, share: real, weight: real)

  datatype SharedAllocation = SharedAllocation(
    policy: Policy, members: seq<MemberShare>, overhead: real, total: real)

  /** Multiplication under a name, so that proofs can treat a product as one quantity. */
  function Times(a: real, b: real): real { a * b }

  /******* Summation *******/

  /** Left-to-right accumulation from zero, rounding every addition. */
  function RoundedSum(fl: Rounding, xs: seq<real>): real {
    if xs == [] then 0.0 else fl(RoundedSum(fl, xs[..|xs| - 1]) + xs[|xs| - 1])
  }

  function Sum(xs: seq<real>): real {
    if xs == [] then 0.0 else Sum(xs[..|xs| - 1]) + xs[|xs| - 1]
  }

  function Amounts(ms: seq<MemberShare>): (s: seq<real>)
    ensures |s| == |ms| && forall i :: 0 <= i < |s| ==> s[i] == ms[i].share
  {
    seq(|ms|, i requires 0 <= i < |ms| => ms[i].share)
  }

  /******* Allocation *******/

  function Uniform(n: nat): (w: seq<real>)
    ensures |w| == n && forall i :: 0 <= i < n ==> w[i] == 1.0
  {
    seq(n, _ => 1.0)
  }

  function Owner(members: seq<Id>, directOwner: Id): Id
    requires members != []
  {
    if directOwner == ZERO_ID then members[0] else directOwner
  }

  function OwnerShare(total: real, m: Id, owner: Id): MemberShare {
    if m == owner then MemberShare(m, total, 1.0) else MemberShare(m, 0.0, 0.0)
  }

  /** The weights the caller's weights stand for, before the check on their sum. */
  function EffectiveWeights(n: nat, weights: seq<real>, policy: Policy): (w: seq<real>)
    ensures |w| == n
  {
    if |weights| != n || policy.EqualShare? then Uniform(n) else weights
  }

  /** Weights and their sum as the shares are computed from them. */
  function Divisor(fl: Rounding, n: nat, weights: seq<real>, policy: Policy): (r: (seq<real>, real))
    ensures |r.0| == n
  {
    var w := EffectiveWeights(n, weights, policy);
    var wsum := RoundedSum(fl, w);
    if wsum <= 0.0 then (Uniform(n), fl(n as real)) else (w, wsum)
  }

  /** The sum divided by is never zero when `fl` rounds with relative error. */
  function ShareOf(fl: Rounding, total: real, m: Id, w: real, wsum: real): MemberShare {
    MemberShare(m, if wsum == 0.0 then 0.0 else fl(Times(total, fl(w / wsum))), w)
  }

  /** What is left over, with a tiny negative remainder cleared. */
  function Overhead(fl: Rounding, total: real, given: real): real {
    var left := fl(total - given);
    if -fl(0.000000000001) < left < 0.0 then 0.0 else left
  }

  function DirectMembers(total: real, members: seq<Id>, owner: Id): (r: seq<MemberShare>)
    ensures |r| == |members| && forall i :: 0 <= i < |r| ==> r[i] == OwnerShare(total, members[i], owner)
  {
    seq(|members|, i requires 0 <= i < |members| => OwnerShare(total, members[i], owner))
  }

  function WeightedMembers(fl: Rounding, total: real, members: seq<Id>, w: seq<real>, wsum: real): (r: seq<MemberShare>)
    requires |w| == |members|
    ensures |r| == |members| && forall i :: 0 <= i < |r| ==> r[i] == ShareOf(fl, total, members[i], w[i], wsum)
  {
    seq(|members|, i requires 0 <= i < |members| => ShareOf(fl, total, members[i], w[i], wsum))
  }

  function Allocation(fl: Rounding, total: real, members: seq<Id>, weights: seq<real>, policy: Policy,
                      directOwner: Id): SharedAllocation
  {
    if members == [] then SharedAllocation(policy, [], 0.0, total)
    else if policy.DirectOwnership? then
      SharedAllocation(policy, DirectMembers(total, members, Owner(members, directOwner)), 0.0, total)
    else
      var (w, wsum) := Divisor(fl, |members|, weights, policy);
      var shares := WeightedMembers(fl, total, members, w, wsum);
      var given := RoundedSum(fl, Amounts(shares));
      SharedAllocation(policy, shares, Overhead(fl, total, given), total)
  }

  /** `member_sum`. */
  function MemberSum(fl: Rounding, a: SharedAllocation): real { RoundedSum(fl, Amounts(a.members)) }

  function UpperLimit(fl: Rounding, scale: real): real { fl(Times(fl(0.000000001), scale)) }
  function LowerLimit(fl: Rounding, scale: real): real { fl(Times(-fl(0.000000001), scale)) }

  /** `reconciles`: within one part in 10^9 of the total, or 10^-9 when the total is not positive. */
  predicate Reconciles(fl: Rounding, a: SharedAllocation) {
    var diff := fl(fl(MemberSum(fl, a) + a.overhead) - a.total);
    var scale := if a.total > 0.0 then a.total else 1.0;
    LowerLimit(fl, scale) < diff < UpperLimit(fl, scale)
  }

  /******* As it runs *******/

  method SumInOrder(fl: Rounding, xs: seq<real>) returns (s: real)
    ensures s == RoundedSum(fl, xs)
  {
    s := 0.0;
    for i := 0 to |xs|
      invariant s == RoundedSum(fl, xs[..i])
    {
      assert xs[..i + 1][..i] == xs[..i];
      s := fl(s + xs[i]);
    }
    assert xs[..|xs|] == xs;
  }

  method AllocateShared(fl: Rounding, total: real, members: seq<Id>, weights: seq<real>, policy: Policy,
                        directOwner: Id)
    returns (out: SharedAllocation)
    ensures out == Allocation(fl, total, members, weights, policy, directOwner)
  {
    hide RoundedSum, Overhead;
    var n := |members|;
    out := SharedAllocation(policy, [], 0.0, total);
    if n == 0 { return; }
    var ms: seq<MemberShare> := [];
    if policy.DirectOwnership? {
      var owner := if directOwner == ZERO_ID then members[0] else directOwner;
      for i := 0 to n
        invariant ms == DirectMembers(total, members, owner)[..i]
      {
        ms := ms + [OwnerShare(total, members[i], owner)];
      }
      out := out.(members := ms);
      return;
    }
    var w := weights;
    if |w| != n { w := Uniform(n); }
    if policy.EqualShare? { w := Uniform(n); }
    var wsum := SumInOrder(fl, w);
    if wsum <= 0.0 {
      w := Uniform(n);
      wsum := fl(n as real);
    }
    var given;
    ms, given := ShareOut(fl, total, members, w, wsum);
    out := out.(members := ms, overhead := Overhead(fl, total, given));
  }

  /** The loop that fills `out.members` and adds up what it hands out. */
  method ShareOut(fl: Rounding, total: real, members: seq<Id>, w: seq<real>, wsum: real)
    returns (ms: seq<MemberShare>, given: real)
    requires |w| == |members|
    ensures ms == WeightedMembers(fl, total, members, w, wsum)
    ensures given == RoundedSum(fl, Amounts(ms))
  {
    hide ShareOf;
    ms, given := [], 0.0;
    for i := 0 to |members|
      invariant ms == WeightedMembers(fl, total, members, w, wsum)[..i]
      invariant given == RoundedSum(fl, Amounts(ms))
    {
      var m := ShareOf(fl, total, members[i], w[i], wsum);
      assert Amounts(ms + [m])[..i] == Amounts(ms);
      given := fl(given + m.share);
      ms := ms + [m];
    }
  }

  /******* Weights taken from accounts *******/

  function MemberWeight(fl: Rounding, a: RequestAccount, policy: Policy): real {
    match policy
    case ProportionalBytes => fl(a.totals.kv.acquired + a.totals.tensor.acquired)
    case ProportionalTokens => fl(a.generatedTokens as real)
    case ProportionalExecution => fl((a.executionNs as real) / 1000000000.0)
    case ProportionalReserved => fl(a.totals.counts.reserved as real)
    case _ => 1.0
  }

  method MemberWeightsForPolicy(fl: Rounding, accounts: seq<RequestAccount>, policy: Policy) returns (w: seq<real>)
    ensures |w| == |accounts| && forall i :: 0 <= i < |w| ==> w[i] == MemberWeight(fl, accounts[i], policy)
  {
    w := [];
    for i := 0 to |accounts|
      invariant |w| == i && forall j :: 0 <= j < i ==> w[j] == MemberWeight(fl, accounts[j], policy)
    {
      w := w + [MemberWeight(fl, accounts[i], policy)];
    }
  }
}
