/** Folding the entries of a request into its account. Times are exact
    nanoseconds and other quantities exact reals. */
module Account {
  import opened Base
  import opened Entry

  /******* What one entry contributes *******/

  function Amount(e: LedgerEntry): real {
    if IsFinite(e.quantity.bits) then Value(e.quantity.bits) else 0.0
  }

  /** `llround`: to the nearest integer, halves away from zero. */
  function Round(v: real): int {
    if v >= 0.0 then (v + 0.5).Floor else -((-v + 0.5).Floor)
  }

  /** Counters are unsigned 64-bit and wrap. */
  function AddWrapped(a: U64, v: int): U64 { (a + v) % U64_MODULUS }

  function Seconds(e: LedgerEntry): real { (DurationNs(e) as real) / 1000000000.0 }

  function HeldBytes(e: LedgerEntry): real { Amount(e) * Seconds(e) }

  function Tokens(e: LedgerEntry): int { Round(Amount(e)) }

  /******* Per-attempt state *******/

  datatype Attempt = Attempt(
    completed: bool, failed: bool, cancelled: bool, terminalNs: nat,
    execNs: nat, prefillNs: nat, decodeNs: nat, gpuNs: nat, cpuNs: nat, specRejectedNs: nat, tokens: U64)

  const NEW_ATTEMPT: Attempt := Attempt(false, false, false, 0, 0, 0, 0, 0, 0, 0, 0)

  function Max(a: nat, b: nat): nat { if a < b then b else a }

  function UpdateAttempt(a: Attempt, e: LedgerEntry): Attempt {
    var k, d := e.eventKind, DurationNs(e);
    if k.RequestEnd? then a.(completed := true, terminalNs := Max(a.terminalNs, e.startNs))
    else if k.Prefill? then a.(prefillNs := a.prefillNs + d, execNs := a.execNs + d, gpuNs := a.gpuNs + d)
    else if k.Decode? then
      a.(decodeNs := a.decodeNs + d, execNs := a.execNs + d, gpuNs := a.gpuNs + d,
         tokens := if e.quantity.unit.Count? then AddWrapped(a.tokens, Tokens(e)) else a.tokens)
    else if k.GpuExecution? then a.(execNs := a.execNs + d, gpuNs := a.gpuNs + d)
    else if k.CpuExecution? then a.(execNs := a.execNs + d, cpuNs := a.cpuNs + d)
    else if k.SpeculationAccepted? then a.(tokens := AddWrapped(a.tokens, Tokens(e)))
    else if k.SpeculationRejected? then a.(specRejectedNs := a.specRejectedNs + d)
    else if k.Failure? then a.(failed := true)
    else if k.Cancellation? then a.(cancelled := true)
    else a
  }

  function Lookup(m: map<Id, Attempt>, a: Id): Attempt {
    if a in m then m[a] else NEW_ATTEMPT
  }

  function AttemptsStep(m: map<Id, Attempt>, e: LedgerEntry): map<Id, Attempt> {
    m[e.attempt := UpdateAttempt(Lookup(m, e.attempt), e)]
  }

  function AttemptsOf(es: seq<LedgerEntry>): map<Id, Attempt> {
    if es == [] then map[] else AttemptsStep(AttemptsOf(es[..|es| - 1]), es[|es| - 1])
  }

  /******* A resource that is allocated and released *******/

  datatype Move = Grow(v: real) | Shrink(v: real) | Still

  datatype Meter = Meter(acquired: real, live: real, peak: real)

  function MaxReal(a: real, b: real): real { if a < b then b else a }

  function MeterStep(m: Meter, move: Move): Meter {
    match move
    case Grow(v) => Meter(m.acquired + v, m.live + v, MaxReal(m.peak, m.live + v))
    case Shrink(v) => m.(live := MaxReal(0.0, m.live - v))
    case Still => m
  }

  function KvMove(e: LedgerEntry): Move {
    if e.eventKind.KvAllocate? then Grow(Amount(e))
    else if e.eventKind.KvRelease? then Shrink(Amount(e))
    else Still
  }

  function TensorMove(e: LedgerEntry): Move {
    if e.eventKind.TensorAllocate? then Grow(Amount(e))
    else if e.eventKind.TensorRelease? then Shrink(Amount(e))
    else Still
  }

  /******* Request-wide totals *******/

  datatype Span = Span(hasStart: bool, hasEnd: bool, startNs: nat, endNs: nat)

  datatype Durations = Durations(queueNs: nat, batchWaitNs: nat, transferNs: nat, recomputeNs: nat)

  datatype Volumes = Volumes(
    h2d: real, d2h: real, interNode: real, kvReuse: real, tensorReuse: real, reuseAvoided: real)

  datatype Integrals = Integrals(modelByteSeconds: real, adapterByteSeconds: real, energyJoules: real)

  datatype Counts = Counts(
    reserved: U64, released: U64, specProposed: U64, specAccepted: U64, specRejected: U64, retries: U64)

  datatype Hits = Hits(
    kernelHits: U64, kernelMisses: U64, graphHits: U64, graphMisses: U64, cacheReads: U64, cacheWrites: U64)

  datatype Totals = Totals(
    span: Span, times: Durations, amounts: Volumes, derived: Integrals, kv: Meter, tensor: Meter,
    counts: Counts, hits: Hits)

  const NO_TOTALS: Totals := Totals(
    Span(false, false, 0, 0), Durations(0, 0, 0, 0), Volumes(0.0, 0.0, 0.0, 0.0, 0.0, 0.0), Integrals(0.0, 0.0, 0.0),
    Meter(0.0, 0.0, 0.0), Meter(0.0, 0.0, 0.0), Counts(0, 0, 0, 0, 0, 0), Hits(0, 0, 0, 0, 0, 0))

  function TotalsStep(t: Totals, e: LedgerEntry): Totals {
    var d, v, n := DurationNs(e), Amount(e), Tokens(e);
    var p, a, x, c, h := t.times, t.amounts, t.derived, t.counts, t.hits;
    match e.eventKind
    case RequestStart => t.(span := t.span.(startNs := if e.hasEnd then e.endNs else e.startNs, hasStart := true))
    case RequestEnd => t.(span := t.span.(endNs := e.startNs, hasEnd := true))
    case Queue => t.(times := p.(queueNs := p.queueNs + d))
    case BatchWait => t.(times := p.(batchWaitNs := p.batchWaitNs + d))
    case SpeculationProposed => t.(counts := c.(specProposed := AddWrapped(c.specProposed, n)))
    case SpeculationAccepted => t.(counts := c.(specAccepted := AddWrapped(c.specAccepted, n)))
    case SpeculationRejected => t.(counts := c.(specRejected := AddWrapped(c.specRejected, n)))
    case KvAllocate => t.(kv := MeterStep(t.kv, Grow(v)))
    case KvRelease => t.(kv := MeterStep(t.kv, Shrink(v)))
    case KvReuse => t.(amounts := a.(kvReuse := a.kvReuse + v))
    case TensorAllocate => t.(tensor := MeterStep(t.tensor, Grow(v)))
    case TensorRelease => t.(tensor := MeterStep(t.tensor, Shrink(v)))
    case TensorReuse => t.(amounts := a.(tensorReuse := a.tensorReuse + v))
    case ModelResidency => t.(derived := x.(modelByteSeconds := x.modelByteSeconds + HeldBytes(e)))
    case AdapterResidency => t.(derived := x.(adapterByteSeconds := x.adapterByteSeconds + HeldBytes(e)))
    case KernelHit => t.(hits := h.(kernelHits := AddWrapped(h.kernelHits, n)))
    case KernelMiss => t.(hits := h.(kernelMisses := AddWrapped(h.kernelMisses, n)))
    case GraphHit => t.(hits := h.(graphHits := AddWrapped(h.graphHits, n)))
    case GraphMiss => t.(hits := h.(graphMisses := AddWrapped(h.graphMisses, n)))
    case TransferH2D => t.(amounts := a.(h2d := a.h2d + v), times := p.(transferNs := p.transferNs + d))
    case TransferD2H => t.(amounts := a.(d2h := a.d2h + v), times := p.(transferNs := p.transferNs + d))
    case TransferInterNode =>
      t.(amounts := a.(interNode := a.interNode + v), times := p.(transferNs := p.transferNs + d))
    case CacheRead => t.(hits := h.(cacheReads := AddWrapped(h.cacheReads, n)))
    case CacheWrite => t.(hits := h.(cacheWrites := AddWrapped(h.cacheWrites, n)))
    case Reserve => t.(counts := c.(reserved := AddWrapped(c.reserved, 1)))
    case Release => t.(counts := c.(released := AddWrapped(c.released, 1)))
    case Retry => t.(counts := c.(retries := AddWrapped(c.retries, n)))
    case Recompute => t.(times := p.(recomputeNs := p.recomputeNs + d))
    case ReuseAvoided => t.(amounts := a.(reuseAvoided := a.reuseAvoided + v))
    case Energy =>
      t.(derived := x.(energyJoules := x.energyJoules + if e.quantity.unit.EnergyWh? then v * 3600.0 else v))
    case _ => t
  }

  function TotalsOf(es: seq<LedgerEntry>): Totals {
    if es == [] then NO_TOTALS else TotalsStep(TotalsOf(es[..|es| - 1]), es[|es| - 1])
  }

  /******* The winner *******/

  predicate Clean(a: Attempt) { a.completed && !a.failed && !a.cancelled }

  /** The scan over attempts in ascending identity, later ones winning ties. */
  function Best(keys: seq<Id>, m: map<Id, Attempt>): (w: Option<Id>)
    requires forall k :: k in keys ==> k in m
    ensures w.Some? ==> w.value in keys
  {
    if keys == [] then None else
    var n := |keys| - 1;
    var best, k := Best(keys[..n], m), keys[n];
    if Clean(m[k]) && (best.None? || m[k].terminalNs >= m[best.value].terminalNs) then Some(k) else best
  }

  function Winner(m: map<Id, Attempt>): (w: Option<Id>)
    ensures w.Some? ==> w.value in m
  {
    Best(SortedIds(m.Keys), m)
  }

  /******* Waste *******/

  datatype Waste = Waste(failedNs: nat, cancelledNs: nat, specNs: nat)

  function WasteStep(w: Waste, a: Attempt): Waste {
    Waste(w.failedNs + (if a.failed then a.execNs else 0),
          w.cancelledNs + (if a.cancelled then a.execNs else 0),
          w.specNs + a.specRejectedNs)
  }

  /** Work of every attempt but the winner. */
  function LosersWaste(keys: seq<Id>, m: map<Id, Attempt>, winner: Option<Id>): Waste
    requires forall k :: k in keys ==> k in m
  {
    if keys == [] then Waste(0, 0, 0) else
    var n := |keys| - 1;
    var w := LosersWaste(keys[..n], m, winner);
    if winner == Some(keys[n]) then w else WasteStep(w, m[keys[n]])
  }

  function WasteOf(m: map<Id, Attempt>): Waste {
    var winner := Winner(m);
    var w := LosersWaste(SortedIds(m.Keys), m, winner);
    if winner.Some? then w.(specNs := w.specNs + m[winner.value].specRejectedNs) else w
  }

  predicate AnyOnlyCancelled(m: map<Id, Attempt>) {
    exists k :: k in m && m[k].cancelled && !m[k].failed
  }

  /******* The account *******/

  datatype RequestAccount = RequestAccount(
    executionNs: nat, prefillNs: nat, decodeNs: nat, gpuNs: nat, cpuNs: nat, generatedTokens: U64,
    completed: bool, cancelled: bool, failed: bool,
    failedNs: nat, cancelledNs: nat, specWastedNs: nat,
    wallLatencyNs: nat, allocationPeak: real, totals: Totals, attemptCount: nat)

  function Latency(s: Span): nat {
    if s.hasStart && s.hasEnd && s.endNs >= s.startNs then s.endNs - s.startNs else 0
  }

  function AccountFrom(m: map<Id, Attempt>, t: Totals): RequestAccount {
    var winner, waste := Winner(m), WasteOf(m);
    var a := if winner.Some? then m[winner.value] else NEW_ATTEMPT;
    RequestAccount(
      a.execNs, a.prefillNs, a.decodeNs, a.gpuNs, a.cpuNs, a.tokens,
      winner.Some?, winner.None? && AnyOnlyCancelled(m), winner.None? && !AnyOnlyCancelled(m),
      waste.failedNs, waste.cancelledNs, waste.specNs,
      Latency(t.span),
      MaxReal(t.kv.peak, t.tensor.peak), t, |m|)
  }

  function Reconcile(es: seq<LedgerEntry>): RequestAccount {
    AccountFrom(AttemptsOf(es), TotalsOf(es))
  }

  /******* As it runs *******/

  method ReconcileRequest(es: seq<LedgerEntry>) returns (acc: RequestAccount)
    ensures acc == Reconcile(es)
  {
    hide AttemptsStep, TotalsStep, Winner, WasteOf;
    var m: map<Id, Attempt> := map[];
    var t := NO_TOTALS;
    for i := 0 to |es|
      invariant m == AttemptsOf(es[..i]) && t == TotalsOf(es[..i])
    {
      assert es[..i + 1][..i] == es[..i];
      m := AttemptsStep(m, es[i]);
      t := TotalsStep(t, es[i]);
    }
    assert es[..|es|] == es;
    acc := Settle(m, t);
  }

  lemma BestOfNone(m: map<Id, Attempt>)
    ensures Best([], m) == None
  {
  }

  lemma BestOfNext(keys: seq<Id>, m: map<Id, Attempt>, i: nat)
    requires i < |keys| && forall k :: k in keys ==> k in m
    ensures var best, a := Best(keys[..i], m), m[keys[i]];
            Best(keys[..i + 1], m)
            == if Clean(a) && (best.None? || a.terminalNs >= m[best.value].terminalNs) then Some(keys[i]) else best
  {
    assert keys[..i + 1][..i] == keys[..i];
  }

  method FindWinner(m: map<Id, Attempt>) returns (winning: Option<Id>)
    ensures winning == Winner(m)
  {
    hide SortedIds, Best;
    var keys := SortedIds(m.Keys);
    winning := None;
    var bestNs: nat := 0;
    BestOfNone(m);
    for i := 0 to |keys|
      invariant winning == Best(keys[..i], m)
      invariant winning.Some? ==> winning.value in m && bestNs == m[winning.value].terminalNs
    {
      BestOfNext(keys, m, i);
      var a := m[keys[i]];
      if a.completed && !a.failed && !a.cancelled {
        if winning.None? || a.terminalNs >= bestNs {
          winning := Some(keys[i]);
          bestNs := a.terminalNs;
        }
      }
    }
    assert keys[..|keys|] == keys;
  }

  method FindOnlyCancelled(m: map<Id, Attempt>) returns (any: bool)
    ensures any == AnyOnlyCancelled(m)
  {
    hide SortedIds;
    var keys := SortedIds(m.Keys);
    any := false;
    for i := 0 to |keys|
      invariant any <==> exists j :: 0 <= j < i && m[keys[j]].cancelled && !m[keys[j]].failed
    {
      if m[keys[i]].cancelled && !m[keys[i]].failed { any := true; }
    }
    if AnyOnlyCancelled(m) {
      var k :| k in m && m[k].cancelled && !m[k].failed;
      assert k in keys;
    }
  }

  method SumLosers(keys: seq<Id>, m: map<Id, Attempt>, winning: Option<Id>) returns (waste: Waste)
    requires forall k :: k in keys ==> k in m
    ensures waste == LosersWaste(keys, m, winning)
  {
    hide WasteStep;
    waste := Waste(0, 0, 0);
    for i := 0 to |keys|
      invariant waste == LosersWaste(keys[..i], m, winning)
    {
      assert keys[..i + 1][..i] == keys[..i];
      if winning != Some(keys[i]) { waste := WasteStep(waste, m[keys[i]]); }
    }
    assert keys[..|keys|] == keys;
  }

  method SumWaste(m: map<Id, Attempt>, winning: Option<Id>) returns (waste: Waste)
    requires winning == Winner(m)
    ensures waste == WasteOf(m)
  {
    hide Winner, LosersWaste, SortedIds;
    waste := SumLosers(SortedIds(m.Keys), m, winning);
    if winning.Some? { waste := waste.(specNs := waste.specNs + m[winning.value].specRejectedNs); }
  }

  /** Everything after the entry loop: the winner scan, the waste scan, the result. */
  method Settle(m: map<Id, Attempt>, t: Totals) returns (acc: RequestAccount)
    ensures acc == AccountFrom(m, t)
  {
    hide Winner, WasteOf, AnyOnlyCancelled;
    var winning := FindWinner(m);
    var anyCancelled := FindOnlyCancelled(m);
    var waste := SumWaste(m, winning);
    var won := if winning.Some? then m[winning.value] else NEW_ATTEMPT;
    acc := RequestAccount(
      won.execNs, won.prefillNs, won.decodeNs, won.gpuNs, won.cpuNs, won.tokens,
      winning.Some?, winning.None? && anyCancelled, winning.None? && !anyCancelled,
      waste.failedNs, waste.cancelledNs, waste.specNs,
      Latency(t.span),
      MaxReal(t.kv.peak, t.tensor.peak), t, |m|);
  }
}
