/** Request-wide totals, each as a sum over the entries of its own kind. */
module TotalsLaws {
  import opened Base
  import opened Entry
  import opened Account

  function Front(es: seq<LedgerEntry>): seq<LedgerEntry> requires es != [] { es[..|es| - 1] }
  function Last(es: seq<LedgerEntry>): LedgerEntry requires es != [] { es[|es| - 1] }

  function Later(a: nat, hit: bool, d: nat): nat { if hit then a + d else a }

  function Plus(a: real, hit: bool, v: real): real { if hit then a + v else a }

  function Bump(a: U64, hit: bool, v: int): U64 { if hit then AddWrapped(a, v) else a }

  function TimeOf(es: seq<LedgerEntry>, k: EventKind): nat {
    if es == [] then 0 else Later(TimeOf(Front(es), k), Last(es).eventKind == k, DurationNs(Last(es)))
  }

  function AmountOf(es: seq<LedgerEntry>, k: EventKind): real {
    if es == [] then 0.0 else Plus(AmountOf(Front(es), k), Last(es).eventKind == k, Amount(Last(es)))
  }

  function ByteSecondsOf(es: seq<LedgerEntry>, k: EventKind): real {
    if es == [] then 0.0 else Plus(ByteSecondsOf(Front(es), k), Last(es).eventKind == k, HeldBytes(Last(es)))
  }

  function Joules(e: LedgerEntry): real {
    if e.quantity.unit.EnergyWh? then Amount(e) * 3600.0 else Amount(e)
  }

  function JoulesOf(es: seq<LedgerEntry>): real {
    if es == [] then 0.0 else Plus(JoulesOf(Front(es)), Last(es).eventKind == EventKind.Energy, Joules(Last(es)))
  }

  /** Rounded amounts, added up without wrapping. */
  function CountOf(es: seq<LedgerEntry>, k: EventKind): int {
    if es == [] then 0 else CountOf(Front(es), k) + if Last(es).eventKind == k then Tokens(Last(es)) else 0
  }

  function OccurrencesOf(es: seq<LedgerEntry>, k: EventKind): nat {
    if es == [] then 0 else OccurrencesOf(Front(es), k) + if Last(es).eventKind == k then 1 else 0
  }

  /** The last entry of kind `k`. */
  function LastOf(es: seq<LedgerEntry>, k: EventKind): Option<LedgerEntry> {
    if es == [] then None else if Last(es).eventKind == k then Some(Last(es)) else LastOf(Front(es), k)
  }

  /** A request's start event may itself span time; it counts from its end. */
  function StartOf(e: LedgerEntry): nat { if e.hasEnd then e.endNs else e.startNs }

  /** What an entry does to the totals, field by field instead of kind by kind. */
  function Contribution(t: Totals, e: LedgerEntry): Totals {
    var k, d, v, n := e.eventKind, DurationNs(e), Amount(e), Tokens(e);
    var p, a, x, c, h := t.times, t.amounts, t.derived, t.counts, t.hits;
    Totals(
      Span(t.span.hasStart || k.RequestStart?, t.span.hasEnd || k.RequestEnd?,
           if k.RequestStart? then StartOf(e) else t.span.startNs,
           if k.RequestEnd? then e.startNs else t.span.endNs),
      Durations(Later(p.queueNs, k.Queue?, d), Later(p.batchWaitNs, k.BatchWait?, d),
            Later(p.transferNs, k.TransferH2D? || k.TransferD2H? || k.TransferInterNode?, d),
            Later(p.recomputeNs, k.Recompute?, d)),
      Volumes(Plus(a.h2d, k.TransferH2D?, v), Plus(a.d2h, k.TransferD2H?, v),
              Plus(a.interNode, k.TransferInterNode?, v), Plus(a.kvReuse, k.KvReuse?, v),
              Plus(a.tensorReuse, k.TensorReuse?, v), Plus(a.reuseAvoided, k.ReuseAvoided?, v)),
      Integrals(Plus(x.modelByteSeconds, k.ModelResidency?, HeldBytes(e)),
              Plus(x.adapterByteSeconds, k.AdapterResidency?, HeldBytes(e)),
              Plus(x.energyJoules, k == EventKind.Energy, Joules(e))),
      MeterStep(t.kv, KvMove(e)), MeterStep(t.tensor, TensorMove(e)),
      Counts(Bump(c.reserved, k.Reserve?, 1), Bump(c.released, k.Release?, 1),
             Bump(c.specProposed, k.SpeculationProposed?, n), Bump(c.specAccepted, k.SpeculationAccepted?, n),
             Bump(c.specRejected, k.SpeculationRejected?, n), Bump(c.retries, k.Retry?, n)),
      Hits(Bump(h.kernelHits, k.KernelHit?, n), Bump(h.kernelMisses, k.KernelMiss?, n),
           Bump(h.graphHits, k.GraphHit?, n), Bump(h.graphMisses, k.GraphMiss?, n),
           Bump(h.cacheReads, k.CacheRead?, n), Bump(h.cacheWrites, k.CacheWrite?, n)))
  }

  /** The fold's switch over kinds and the reading of each total agree. */
  lemma StepIsContribution(t: Totals, e: LedgerEntry)
    ensures TotalsStep(t, e) == Contribution(t, e)
  {
    hide MaxReal, AddWrapped, Tokens, Amount, HeldBytes, DurationNs;
  }

  /******* Whole histories *******/

  lemma {:induction false} TimesAreSums(es: seq<LedgerEntry>)
    ensures var t := TotalsOf(es).times;
            && t.queueNs == TimeOf(es, Queue) && t.batchWaitNs == TimeOf(es, BatchWait)
            && t.recomputeNs == TimeOf(es, Recompute)
            && t.transferNs == TimeOf(es, TransferH2D) + TimeOf(es, TransferD2H) + TimeOf(es, TransferInterNode)
  {
    hide TotalsStep, DurationNs, Bump, Plus, MeterStep, Amount, Tokens, Joules, HeldBytes;
    if es == [] {
    } else {
      TimesAreSums(Front(es));
      StepIsContribution(TotalsOf(Front(es)), Last(es));
    }
  }

  lemma AmountStep(es: seq<LedgerEntry>, k: EventKind)
    ensures AmountOf(es, k)
         == if es == [] then 0.0 else Plus(AmountOf(Front(es), k), Last(es).eventKind == k, Amount(Last(es)))
  {
  }

  lemma {:induction false} AmountsAreSums(es: seq<LedgerEntry>)
    ensures var t := TotalsOf(es).amounts;
            && t.h2d == AmountOf(es, TransferH2D) && t.d2h == AmountOf(es, TransferD2H)
            && t.interNode == AmountOf(es, TransferInterNode)
            && t.kvReuse == AmountOf(es, KvReuse) && t.tensorReuse == AmountOf(es, TensorReuse)
            && t.reuseAvoided == AmountOf(es, ReuseAvoided)
  {
    hide TotalsStep, DurationNs, Bump, Plus, Later, MeterStep, Amount, Tokens, Joules, HeldBytes, AmountOf;
    AmountStep(es, TransferH2D);
    AmountStep(es, TransferD2H);
    AmountStep(es, TransferInterNode);
    AmountStep(es, KvReuse);
    AmountStep(es, TensorReuse);
    AmountStep(es, ReuseAvoided);
    if es == [] {
    } else {
      AmountsAreSums(Front(es));
      StepIsContribution(TotalsOf(Front(es)), Last(es));
    }
  }

  lemma {:induction false} DerivedAreSums(es: seq<LedgerEntry>)
    ensures var t := TotalsOf(es).derived;
            && t.modelByteSeconds == ByteSecondsOf(es, ModelResidency)
            && t.adapterByteSeconds == ByteSecondsOf(es, AdapterResidency)
            && t.energyJoules == JoulesOf(es)
  {
    hide TotalsStep, DurationNs, Bump, Plus, Later, MeterStep, Amount, Tokens, Joules, HeldBytes;
    if es == [] {
    } else {
      DerivedAreSums(Front(es));
      StepIsContribution(TotalsOf(Front(es)), Last(es));
    }
  }

  function Wrap(v: int): U64 { v % U64_MODULUS }

  lemma WrapAdds(v: int, hit: bool, w: int)
    ensures Bump(Wrap(v), hit, w) == Wrap(v + if hit then w else 0)
  {
    var q := v / U64_MODULUS;
    assert v == U64_MODULUS * q + v % U64_MODULUS;
    assert (v + w - U64_MODULUS * q) % U64_MODULUS == (v + w) % U64_MODULUS;
  }

  lemma CountStep(es: seq<LedgerEntry>, k: EventKind)
    ensures es == [] ==> Wrap(CountOf(es, k)) == 0 && Wrap(OccurrencesOf(es, k)) == 0
    ensures es != [] ==>
              && Wrap(CountOf(es, k)) == Bump(Wrap(CountOf(Front(es), k)), Last(es).eventKind == k, Tokens(Last(es)))
              && Wrap(OccurrencesOf(es, k)) == Bump(Wrap(OccurrencesOf(Front(es), k)), Last(es).eventKind == k, 1)
  {
    hide Bump, Wrap, Tokens;
    WrapZero();
    if es != [] {
      WrapAdds(CountOf(Front(es), k), Last(es).eventKind == k, Tokens(Last(es)));
      WrapAdds(OccurrencesOf(Front(es), k), Last(es).eventKind == k, 1);
    }
  }

  lemma WrapZero()
    ensures Wrap(0) == 0
  {
  }

  /** Counters are the rounded amounts of their kind, wrapped once at the end. */
  lemma {:induction false} CountsAreSums(es: seq<LedgerEntry>)
    ensures var t := TotalsOf(es);
            && t.counts.specProposed == Wrap(CountOf(es, SpeculationProposed))
            && t.counts.specAccepted == Wrap(CountOf(es, SpeculationAccepted))
            && t.counts.specRejected == Wrap(CountOf(es, SpeculationRejected))
            && t.counts.retries == Wrap(CountOf(es, Retry))
  {
    hide TotalsStep, DurationNs, Bump, MeterStep, Amount, Tokens, Joules, HeldBytes, Wrap, CountOf, OccurrencesOf;
    CountStep(es, SpeculationProposed);
    CountStep(es, SpeculationAccepted);
    CountStep(es, SpeculationRejected);
    CountStep(es, Retry);
    if es == [] {
    } else {
      CountsAreSums(Front(es));
      StepIsContribution(TotalsOf(Front(es)), Last(es));
    }
  }

  lemma {:induction false} ReservationsAreCounted(es: seq<LedgerEntry>)
    ensures TotalsOf(es).counts.reserved == Wrap(OccurrencesOf(es, Reserve))
    ensures TotalsOf(es).counts.released == Wrap(OccurrencesOf(es, Release))
  {
    hide TotalsStep, DurationNs, Bump, MeterStep, Amount, Tokens, Joules, HeldBytes, Wrap, CountOf, OccurrencesOf;
    CountStep(es, Reserve);
    CountStep(es, Release);
    if es == [] {
    } else {
      ReservationsAreCounted(Front(es));
      StepIsContribution(TotalsOf(Front(es)), Last(es));
    }
  }

  lemma {:induction false} HitsAreSums(es: seq<LedgerEntry>)
    ensures var t := TotalsOf(es);
            && t.hits.kernelHits == Wrap(CountOf(es, KernelHit)) && t.hits.kernelMisses == Wrap(CountOf(es, KernelMiss))
            && t.hits.graphHits == Wrap(CountOf(es, GraphHit)) && t.hits.graphMisses == Wrap(CountOf(es, GraphMiss))
            && t.hits.cacheReads == Wrap(CountOf(es, CacheRead)) && t.hits.cacheWrites == Wrap(CountOf(es, CacheWrite))
  {
    hide TotalsStep, DurationNs, Bump, MeterStep, Amount, Tokens, Joules, HeldBytes, Wrap, CountOf, OccurrencesOf;
    CountStep(es, KernelHit);
    CountStep(es, KernelMiss);
    CountStep(es, GraphHit);
    CountStep(es, GraphMiss);
    CountStep(es, CacheRead);
    CountStep(es, CacheWrite);
    if es == [] {
    } else {
      HitsAreSums(Front(es));
      StepIsContribution(TotalsOf(Front(es)), Last(es));
    }
  }

  /******* Latency *******/

  lemma {:induction false} EndsAreLast(es: seq<LedgerEntry>)
    ensures var t, s, f := TotalsOf(es), LastOf(es, RequestStart), LastOf(es, RequestEnd);
            && t.span.hasStart == s.Some? && (s.Some? ==> t.span.startNs == StartOf(s.value))
            && t.span.hasEnd == f.Some? && (f.Some? ==> t.span.endNs == f.value.startNs)
  {
    hide TotalsStep, DurationNs, Bump, MeterStep, Amount, Tokens, Joules, HeldBytes, StartOf;
    if es == [] {
    } else {
      EndsAreLast(Front(es));
      StepIsContribution(TotalsOf(Front(es)), Last(es));
    }
  }

  /** Wall latency runs from the last start to the last end, when in that order. */
  lemma WallLatencyIsLastToLast(es: seq<LedgerEntry>)
    ensures var s, f := LastOf(es, RequestStart), LastOf(es, RequestEnd);
            Reconcile(es).wallLatencyNs
            == if s.Some? && f.Some? && f.value.startNs >= StartOf(s.value)
               then f.value.startNs - StartOf(s.value) else 0
  {
    hide TotalsOf, AttemptsOf, Winner, WasteOf, LastOf;
    EndsAreLast(es);
  }
}
