/** Whom a shared cost is charged to, in terms of the caller's weights and of the
    members' own entries. */
module WeightLaws {
  import opened Base
  import opened Entry
  import opened Account
  import opened Batch
  import opened BatchLaws
  import TotalsLaws
  import OutcomeLaws

  /** The caller's weights decide the split: one for each member, some weight in them,
      and a policy that does not ask for equal shares. */
  predicate WeightsDecide(n: nat, weights: seq<real>, policy: Policy) {
    policy != EqualShare && |weights| == n && Sum(weights) > 0.0
  }

  /******* Exact arithmetic *******/

  lemma ExactDivisorIs(n: nat, weights: seq<real>, policy: Policy)
    requires n > 0
    ensures var (w, wsum) := Divisor(Exactly, n, weights, policy);
            if WeightsDecide(n, weights, policy) then w == weights && wsum == Sum(weights)
            else w == Uniform(n) && wsum == n as real
  {
    hide RoundedSum, Sum;
    ExactSum(weights);
    ExactSum(Uniform(n));
    UniformSum(n);
  }

  /** In exact arithmetic member `i` is charged in proportion to the caller's weight for
      it, or, when the weights do not decide, an equal part. */
  lemma ExactSharesFollowWeights(total: real, members: seq<Id>, weights: seq<real>, policy: Policy,
                                 directOwner: Id, i: nat)
    requires policy != DirectOwnership && i < |members|
    ensures var ms := Allocation(Exactly, total, members, weights, policy, directOwner).members;
            && |ms| == |members| && ms[i].request == members[i]
            && if WeightsDecide(|members|, weights, policy) then
                 ms[i].weight == weights[i] && ms[i].share * Sum(weights) == total * weights[i]
               else
                 ms[i].weight == 1.0 && ms[i].share * (|members| as real) == total
  {
    hide RoundedSum, Sum, Divisor, Times;
    var n := |members|;
    var (w, wsum) := Divisor(Exactly, n, weights, policy);
    ExactDivisorIs(n, weights, policy);
    ShareTimesDivisor(total, members[i], w[i], wsum);
  }

  lemma ShareTimesDivisor(total: real, m: Id, w: real, wsum: real)
    requires wsum > 0.0
    ensures ShareOf(Exactly, total, m, w, wsum).share * wsum == total * w
  {
    var p := w / wsum;
    assert p * wsum == w;
    assert (total * p) * wsum == total * (p * wsum);
  }

  /******* Under rounding *******/

  lemma RoundedDivisorIs(fl: Rounding, n: nat, weights: seq<real>, policy: Policy)
    requires RelativeError(fl) && AllNonNegative(weights) && 1 <= n <= MAX_MEMBERS
    ensures Divisor(fl, n, weights, policy).0 == if WeightsDecide(n, weights, policy) then weights else Uniform(n)
  {
    hide RelativeError, RoundedSum, Sum;
    if policy != EqualShare && |weights| == n { SumErrorBound(fl, weights); }
  }

  lemma Cancel(a: real, b: real, s: real)
    requires s > 0.0 && a * s <= b * s
    ensures a <= b
  {
    if a > b { Strict(b, a, s); }
  }

  lemma Strict(a: real, b: real, s: real)
    requires a < b && s > 0.0
    ensures a * s < b * s
  {
  }

  /** Dividing by a sum that is a little off gives a quotient that is a little off. */
  lemma QuotientClose(total: real, exact: real, wsum: real)
    requires total >= 0.0 && exact > 0.0 && wsum > 0.0 && Within(wsum, exact, 0.00000000025 * exact)
    ensures var q, x := total / wsum, total / exact;
            0.0 <= q && 0.99999999975 * q <= x <= 1.00000000025 * q
  {
    var q, x := total / wsum, total / exact;
    assert q * wsum == total && x * exact == total && q >= 0.0;
    var low, high := 0.99999999975, 1.00000000025;
    Between(q, low * exact, wsum, high * exact);
    Scaled(low, q, exact);
    Scaled(high, q, exact);
    Cancel(low * q, x, exact);
    Cancel(x, high * q, exact);
  }

  lemma Between(q: real, a: real, b: real, c: real)
    requires q >= 0.0 && a <= b <= c
    ensures q * a <= q * b <= q * c
  {
  }

  lemma Scaled(k: real, q: real, e: real)
    ensures q * (k * e) == (k * q) * e
  {
  }

  /** A share computed from a quotient that is a little off is a little off. */
  lemma ShareClose(share: real, q: real, x: real, w: real)
    requires w >= 0.0 && 0.0 <= q && 0.99999999975 * q <= x <= 1.00000000025 * q
    requires Within(share, Times(q, w), Roundoff(3.0 * Times(q, w)))
    ensures Within(share, Times(x, w), 0.0000000003 * Times(x, w))
  {
    hide Times;
    var low, high := 0.99999999975 * q, 1.00000000025 * q;
    Monotone(w, low, x);
    Monotone(w, x, high);
    Monotone(w, 0.0, q);
    TimesZero(w);
    Factors(q, w, low, high);
  }

  lemma Factors(q: real, w: real, low: real, high: real)
    requires low == 0.99999999975 * q && high == 1.00000000025 * q
    ensures Times(low, w) == 0.99999999975 * Times(q, w) && Times(high, w) == 1.00000000025 * Times(q, w)
  {
  }

  /** The part of the total that goes with weight `i`. */
  function Part(total: real, w: seq<real>, i: nat): real
    requires i < |w| && Sum(w) != 0.0
  {
    Times(total / Sum(w), w[i])
  }

  lemma RoundedShareIsPart(fl: Rounding, total: real, m: Id, w: seq<real>, wsum: real, i: nat)
    requires RelativeError(fl) && total >= 0.0 && AllNonNegative(w) && i < |w| && Sum(w) > 0.0
    requires wsum > 0.0 && Within(wsum, Sum(w), 0.00000000025 * Sum(w))
    ensures Within(ShareOf(fl, total, m, w[i], wsum).share, Part(total, w, i), 0.0000000003 * Part(total, w, i))
  {
    hide RelativeError, Sum, Times, ShareOf;
    ShareError(fl, total, m, w[i], wsum);
    QuotientClose(total, Sum(w), wsum);
    ShareClose(ShareOf(fl, total, m, w[i], wsum).share, total / wsum, total / Sum(w), w[i]);
  }

  /** What member `i` of `n` ought to be charged. */
  function Due(total: real, n: nat, weights: seq<real>, policy: Policy, i: nat): real
    requires i < n
  {
    if WeightsDecide(n, weights, policy) then total / Sum(weights) * weights[i] else total / (n as real)
  }

  /** Under any rounding member `i` is charged its proportional part of the total, by the
      caller's weights where they decide and equally where not, to within three parts
      in ten thousand million. */
  lemma RoundedSharesFollowWeights(fl: Rounding, total: real, members: seq<Id>, weights: seq<real>, policy: Policy,
                                   directOwner: Id, i: nat)
    requires RelativeError(fl) && total >= 0.0 && AllNonNegative(weights)
    requires policy != DirectOwnership && i < |members| <= MAX_MEMBERS
    ensures var ms := Allocation(fl, total, members, weights, policy, directOwner).members;
            var part := Due(total, |members|, weights, policy, i);
            && |ms| == |members| && ms[i].request == members[i]
            && Within(ms[i].share, part, 0.0000000003 * part)
  {
    hide RelativeError, RoundedSum, Sum, Divisor, Part, Due, ShareOf, Within, WeightsDecide;
    var n := |members|;
    var (w, wsum) := Divisor(fl, n, weights, policy);
    DivisorError(fl, n, weights, policy);
    RoundedDivisorIs(fl, n, weights, policy);
    SharesRequest(fl, total, members[i], w[i], wsum);
    DueIsPart(total, n, weights, policy, i);
    RoundedShareIsPart(fl, total, members[i], w, wsum, i);
  }

  lemma DueIsPart(total: real, n: nat, weights: seq<real>, policy: Policy, i: nat)
    requires i < n
    ensures var w := if WeightsDecide(n, weights, policy) then weights else Uniform(n);
            |w| == n && Sum(w) > 0.0 && Due(total, n, weights, policy, i) == Part(total, w, i)
  {
    hide Sum;
    UniformSum(n);
  }

  lemma SharesRequest(fl: Rounding, total: real, m: Id, w: real, wsum: real)
    ensures ShareOf(fl, total, m, w, wsum).request == m
  {
  }

  /** What the shares leave over is reported, to within one rounding, except that a
      remainder a hair below zero is reported as nothing; a negative report is never
      that small. */
  lemma ResidualIsReported(fl: Rounding, total: real, members: seq<Id>, weights: seq<real>, policy: Policy,
                           directOwner: Id)
    requires RelativeError(fl) && policy != DirectOwnership && members != []
    ensures var a := Allocation(fl, total, members, weights, policy, directOwner);
            var left := total - MemberSum(fl, a);
            || Within(a.overhead, left, Roundoff(Abs(left)))
            || (a.overhead == 0.0 && -0.000000000002 < left < 0.0)
    ensures var a := Allocation(fl, total, members, weights, policy, directOwner);
            a.overhead >= 0.0 || a.overhead <= -0.0000000000009
  {
    hide RelativeError, RoundedSum, ShareOf, Divisor;
    var a := Allocation(fl, total, members, weights, policy, directOwner);
    RoundOff(fl, total - MemberSum(fl, a));
    RoundOff(fl, 0.000000000001);
  }

  /******* Direct ownership *******/

  /** The whole total goes to every occurrence of the owner, who is the one named or, if
      none is, the first member; the others get nothing. */
  lemma DirectSharesGoToOwner(fl: Rounding, total: real, members: seq<Id>, weights: seq<real>, directOwner: Id, i: nat)
    requires i < |members|
    ensures var a := Allocation(fl, total, members, weights, DirectOwnership, directOwner);
            var owns := members[i] == if directOwner == Id(0, 0) then members[0] else directOwner;
            && |a.members| == |members| && a.overhead == 0.0
            && a.members[i] == MemberShare(members[i], if owns then total else 0.0, if owns then 1.0 else 0.0)
  {
  }

  /******* Weights read off the members' entries *******/

  lemma {:induction false} AcquiredIsSum(es: seq<LedgerEntry>)
    ensures TotalsOf(es).kv.acquired == TotalsLaws.AmountOf(es, KvAllocate)
    ensures TotalsOf(es).tensor.acquired == TotalsLaws.AmountOf(es, TensorAllocate)
  {
    hide TotalsStep, DurationNs, Amount, Tokens, HeldBytes, MeterStep, KvMove, TensorMove;
    hide TotalsLaws.Joules, TotalsLaws.Bump, TotalsLaws.Later, TotalsLaws.Plus, TotalsLaws.StartOf;
    if es == [] {
    } else {
      var t, e := TotalsOf(TotalsLaws.Front(es)), TotalsLaws.Last(es);
      AcquiredIsSum(TotalsLaws.Front(es));
      TotalsLaws.StepIsContribution(t, e);
      Acquires(t.kv, t.tensor, e);
    }
  }

  lemma Acquires(kv: Meter, tensor: Meter, e: LedgerEntry)
    ensures MeterStep(kv, KvMove(e)).acquired == TotalsLaws.Plus(kv.acquired, e.eventKind == KvAllocate, Amount(e))
    ensures MeterStep(tensor, TensorMove(e)).acquired
         == TotalsLaws.Plus(tensor.acquired, e.eventKind == TensorAllocate, Amount(e))
  {
    hide Amount;
  }

  /** Executing time and tokens of the winning attempt's entries, if one wins. */
  function WonTime(es: seq<LedgerEntry>): nat {
    match Winner(AttemptsOf(es))
    case None => 0
    case Some(a) =>
      OutcomeLaws.AttemptTime(es, a, Prefill) + OutcomeLaws.AttemptTime(es, a, Decode)
      + OutcomeLaws.AttemptTime(es, a, GpuExecution) + OutcomeLaws.AttemptTime(es, a, CpuExecution)
  }

  function WonTokens(es: seq<LedgerEntry>): U64 {
    match Winner(AttemptsOf(es))
    case None => 0
    case Some(a) => TotalsLaws.Wrap(OutcomeLaws.AttemptTokens(es, a))
  }

  /** Each policy weighs a member by what its entries say: bytes allocated, tokens and
      executing seconds of its winning attempt, reservations made; otherwise by one. */
  lemma WeightsComeFromEntries(es: seq<LedgerEntry>, policy: Policy)
    ensures var w := MemberWeight(Exactly, Reconcile(es), policy);
            match policy
            case ProportionalBytes =>
              w == TotalsLaws.AmountOf(es, KvAllocate) + TotalsLaws.AmountOf(es, TensorAllocate)
            case ProportionalTokens => w == WonTokens(es) as real
            case ProportionalExecution => w * 1000000000.0 == WonTime(es) as real
            case ProportionalReserved => w == TotalsLaws.Wrap(TotalsLaws.OccurrencesOf(es, Reserve)) as real
            case _ => w == 1.0
  {
    hide AttemptsOf, TotalsOf, Winner, WasteOf, TotalsLaws.Wrap, TotalsLaws.AmountOf, TotalsLaws.OccurrencesOf;
    hide OutcomeLaws.AttemptTime, OutcomeLaws.AttemptTokens;
    AcquiredIsSum(es);
    OutcomeLaws.ReportedWorkIsTheWinners(es);
    TotalsLaws.ReservationsAreCounted(es);
  }
}
