/** Which figures of an account depend on the order of the entries, and which do not. */
module OrderLaws {
  import opened Base
  import opened Entry
  import opened Codec
  import opened Account
  import opened AccountLaws
  import opened TotalsLaws
  import opened PeakLaws

  /******* Sums do not *******/

  /** The totals without what depends on order: levels, peaks and the two instants. */
  function Sums(t: Totals): Totals {
    t.(span := t.span.(startNs := 0, endNs := 0),
       kv := Meter(t.kv.acquired, 0.0, 0.0), tensor := Meter(t.tensor.acquired, 0.0, 0.0))
  }

  function SumsStep(t: Totals, e: LedgerEntry): Totals { Sums(TotalsLaws.Contribution(t, e)) }

  lemma SumsOfStep(t: Totals, e: LedgerEntry)
    ensures Sums(TotalsStep(t, e)) == SumsStep(Sums(t), e)
  {
    hide TotalsStep, DurationNs, Amount, Tokens, Joules, HeldBytes, Bump, Plus, Later, StartOf, MaxReal;
    StepIsContribution(t, e);
  }

  lemma {:induction false} SumsAreAFold(es: seq<LedgerEntry>)
    ensures Sums(TotalsOf(es)) == Fold(SumsStep, NO_TOTALS, es)
  {
    hide TotalsStep, SumsStep;
    if es == [] {
    } else {
      SumsAreAFold(es[..|es| - 1]);
      SumsOfStep(TotalsOf(es[..|es| - 1]), es[|es| - 1]);
    }
  }

  lemma BumpsCommute(a: U64, p: bool, v: int, q: bool, w: int)
    ensures Bump(Bump(a, p, v), q, w) == Bump(Bump(a, q, w), p, v)
  {
    AddWrappedCommutes(a, v, w);
  }

  lemma DurationsCommute(t: Totals, x: LedgerEntry, y: LedgerEntry)
    ensures SumsStep(SumsStep(t, x), y).times == SumsStep(SumsStep(t, y), x).times
    ensures SumsStep(SumsStep(t, x), y).span == SumsStep(SumsStep(t, y), x).span
  {
    hide DurationNs, Amount, Tokens, Joules, HeldBytes, Bump, Plus, StartOf, MaxReal;
  }

  lemma VolumesCommute(t: Totals, x: LedgerEntry, y: LedgerEntry)
    ensures SumsStep(SumsStep(t, x), y).amounts == SumsStep(SumsStep(t, y), x).amounts
  {
    hide DurationNs, Amount, Tokens, Joules, HeldBytes, Bump, Later, StartOf, MaxReal;
  }

  lemma IntegralsCommute(t: Totals, x: LedgerEntry, y: LedgerEntry)
    ensures SumsStep(SumsStep(t, x), y).derived == SumsStep(SumsStep(t, y), x).derived
    ensures SumsStep(SumsStep(t, x), y).kv == SumsStep(SumsStep(t, y), x).kv
    ensures SumsStep(SumsStep(t, x), y).tensor == SumsStep(SumsStep(t, y), x).tensor
  {
    hide DurationNs, Amount, Tokens, Joules, HeldBytes, Bump, Later, StartOf, MaxReal;
  }

  lemma CountsCommute(t: Totals, x: LedgerEntry, y: LedgerEntry)
    ensures SumsStep(SumsStep(t, x), y).counts == SumsStep(SumsStep(t, y), x).counts
  {
    hide DurationNs, Amount, Tokens, Joules, HeldBytes, Bump, Plus, Later, StartOf, MaxReal;
    var c, k, l, m, n := t.counts, x.eventKind, y.eventKind, Tokens(x), Tokens(y);
    BumpsCommute(c.reserved, k.Reserve?, 1, l.Reserve?, 1);
    BumpsCommute(c.released, k.Release?, 1, l.Release?, 1);
    BumpsCommute(c.specProposed, k.SpeculationProposed?, m, l.SpeculationProposed?, n);
    BumpsCommute(c.specAccepted, k.SpeculationAccepted?, m, l.SpeculationAccepted?, n);
    BumpsCommute(c.specRejected, k.SpeculationRejected?, m, l.SpeculationRejected?, n);
    BumpsCommute(c.retries, k.Retry?, m, l.Retry?, n);
  }

  lemma HitsCommute(t: Totals, x: LedgerEntry, y: LedgerEntry)
    ensures SumsStep(SumsStep(t, x), y).hits == SumsStep(SumsStep(t, y), x).hits
  {
    hide DurationNs, Amount, Tokens, Joules, HeldBytes, Bump, Plus, Later, StartOf, MaxReal;
    var h, k, l, m, n := t.hits, x.eventKind, y.eventKind, Tokens(x), Tokens(y);
    BumpsCommute(h.kernelHits, k.KernelHit?, m, l.KernelHit?, n);
    BumpsCommute(h.kernelMisses, k.KernelMiss?, m, l.KernelMiss?, n);
    BumpsCommute(h.graphHits, k.GraphHit?, m, l.GraphHit?, n);
    BumpsCommute(h.graphMisses, k.GraphMiss?, m, l.GraphMiss?, n);
    BumpsCommute(h.cacheReads, k.CacheRead?, m, l.CacheRead?, n);
    BumpsCommute(h.cacheWrites, k.CacheWrite?, m, l.CacheWrite?, n);
  }

  lemma SumsCommute(t: Totals, x: LedgerEntry, y: LedgerEntry)
    ensures SumsStep(SumsStep(t, x), y) == SumsStep(SumsStep(t, y), x)
  {
    hide SumsStep;
    DurationsCommute(t, x, y);
    VolumesCommute(t, x, y);
    IntegralsCommute(t, x, y);
    CountsCommute(t, x, y);
    HitsCommute(t, x, y);
  }

  /** Times, amounts, byte-seconds, energy, counters, totals allocated and whether the
      request started and ended are the same for every order of the entries. */
  lemma SumsIgnoreOrder(es: seq<LedgerEntry>, fs: seq<LedgerEntry>)
    requires multiset(es) == multiset(fs)
    ensures Sums(Reconcile(es).totals) == Sums(Reconcile(fs).totals)
  {
    hide SumsStep, TotalsOf, Fold, Sums, Winner, WasteOf, AttemptsOf;
    assert Commutes(SumsStep) by {
      forall t, x, y ensures SumsStep(SumsStep(t, x), y) == SumsStep(SumsStep(t, y), x) { SumsCommute(t, x, y); }
    }
    FoldIgnoresOrder(SumsStep, NO_TOTALS, es, fs);
    SumsAreAFold(es);
    SumsAreAFold(fs);
  }

  /******* Peaks and latency do *******/

  const RELEASE: LedgerEntry := PLUS.(eventKind := KvRelease)

  /** Releasing between two allocations halves the peak that two allocations in a row reach. */
  lemma PeakDependsOnOrder()
    ensures var es, fs := [PLUS, RELEASE, PLUS], [PLUS, PLUS, RELEASE];
            && multiset(es) == multiset(fs)
            && 2.0 * Reconcile(es).totals.kv.peak == Reconcile(fs).totals.kv.peak > 0.0
  {
    hide TotalsOf, AttemptsOf, Winner, WasteOf, Amount;
    SignedAmounts();
    ReleaseAmount();
    var es, fs := [PLUS, RELEASE, PLUS], [PLUS, PLUS, RELEASE];
    TotalsAreMeters(es);
    TotalsAreMeters(fs);
    var v := Amount(PLUS);
    assert KvMoves(es) == [Grow(v), Shrink(v), Grow(v)] && KvMoves(fs) == [Grow(v), Grow(v), Shrink(v)];
    ThreeMoves(Grow(v), Shrink(v), Grow(v));
    ThreeMoves(Grow(v), Grow(v), Shrink(v));
  }

  lemma ReleaseAmount()
    ensures Amount(RELEASE) == Amount(PLUS)
  {
  }

  lemma ThreeMoves(a: Move, b: Move, c: Move)
    ensures MeterOf([a, b, c]) == MeterStep(MeterStep(MeterStep(Meter(0.0, 0.0, 0.0), a), b), c)
  {
    hide MeterStep;
    assert [a, b, c][..2] == [a, b] && [a, b][..1] == [a] && [a][..0] == [];
    assert MeterOf([a]) == MeterStep(Meter(0.0, 0.0, 0.0), a);
    assert MeterOf([a, b]) == MeterStep(MeterOf([a]), b);
  }

  function StartAt(ns: U64): LedgerEntry { BLANK.(eventKind := RequestStart, startNs := ns) }

  const END: LedgerEntry := BLANK.(eventKind := RequestEnd, startNs := 9)

  /** With two starts on record, the one that comes last sets the latency. */
  lemma LatencyDependsOnOrder()
    ensures var es, fs := [StartAt(1), StartAt(4), END], [StartAt(4), StartAt(1), END];
            && multiset(es) == multiset(fs)
            && Reconcile(es).wallLatencyNs == 5 && Reconcile(fs).wallLatencyNs == 8
  {
    hide Reconcile, LastOf;
    WallLatencyIsLastToLast([StartAt(1), StartAt(4), END]);
    WallLatencyIsLastToLast([StartAt(4), StartAt(1), END]);
    TwoStarts(StartAt(1), StartAt(4), END);
    TwoStarts(StartAt(4), StartAt(1), END);
  }

  lemma TwoStarts(a: LedgerEntry, b: LedgerEntry, c: LedgerEntry)
    requires a.eventKind.RequestStart? && b.eventKind.RequestStart? && c.eventKind.RequestEnd?
    ensures LastOf([a, b, c], RequestStart) == Some(b) && LastOf([a, b, c], RequestEnd) == Some(c)
  {
    assert TotalsLaws.Front([a, b, c]) == [a, b];
  }
}
