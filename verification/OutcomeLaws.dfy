/** What a reconciled account says, in terms of the entries alone: who wins, how the
    request ended, and which work is counted where. */
module OutcomeLaws {
  import opened Base
  import opened Entry
  import opened Account
  import opened AccountLaws
  import TotalsLaws

  /******* Reading the entries *******/

  predicate IsOf(e: LedgerEntry, a: Id, k: EventKind) { e.attempt == a && e.eventKind == k }

  /** Attempt `a` has an entry of kind `k`. */
  predicate Has(es: seq<LedgerEntry>, a: Id, k: EventKind) {
    exists i :: 0 <= i < |es| && IsOf(es[i], a, k)
  }

  /** The latest RequestEnd of attempt `a` starts at `t`. */
  predicate EndsAt(es: seq<LedgerEntry>, a: Id, t: nat) {
    && (exists i :: 0 <= i < |es| && IsOf(es[i], a, RequestEnd) && es[i].startNs == t)
    && forall i :: 0 <= i < |es| && IsOf(es[i], a, RequestEnd) ==> es[i].startNs <= t
  }

  /** Attempt `a` ended, and has neither failed nor been cancelled. */
  predicate EndedCleanly(es: seq<LedgerEntry>, a: Id) {
    Has(es, a, RequestEnd) && !Has(es, a, Failure) && !Has(es, a, Cancellation)
  }

  /** Attempt `b` ended before `a`, or at the same time with a smaller identity. */
  ghost predicate EndsBefore(es: seq<LedgerEntry>, b: Id, a: Id) {
    exists s, t :: EndsAt(es, b, s) && EndsAt(es, a, t) && (s < t || (s == t && IdLess(b, a)))
  }

  lemma HasStep(es: seq<LedgerEntry>, a: Id, k: EventKind)
    requires es != []
    ensures Has(es, a, k) <==> Has(es[..|es| - 1], a, k) || IsOf(es[|es| - 1], a, k)
  {
    hide IsOf;
    var n := |es| - 1;
    if Has(es[..n], a, k) {
      var i :| 0 <= i < n && IsOf(es[..n][i], a, k);
      assert IsOf(es[i], a, k);
    }
    if Has(es, a, k) && !IsOf(es[n], a, k) {
      var i :| 0 <= i < |es| && IsOf(es[i], a, k);
      assert IsOf(es[..n][i], a, k);
    }
  }

  /** An attempt's marks are what its entries say. */
  lemma {:induction false} MarksAreEntries(es: seq<LedgerEntry>, a: Id)
    ensures AttemptOf(es, a).completed <==> Has(es, a, RequestEnd)
    ensures AttemptOf(es, a).failed <==> Has(es, a, Failure)
    ensures AttemptOf(es, a).cancelled <==> Has(es, a, Cancellation)
  {
    hide UpdateAttempt, AddWrapped, Tokens, DurationNs, Has;
    if es == [] {
      NothingHad(a);
    } else {
      var n := |es| - 1;
      MarksAreEntries(es[..n], a);
      HasStep(es, a, RequestEnd);
      HasStep(es, a, Failure);
      HasStep(es, a, Cancellation);
      UpdateIsContribution(AttemptOf(es[..n], a), es[n]);
    }
  }

  lemma NothingHad(a: Id)
    ensures forall k :: !Has([], a, k)
  {
  }

  lemma {:induction false} TerminalIsLatest(es: seq<LedgerEntry>, a: Id)
    ensures Has(es, a, RequestEnd) ==> EndsAt(es, a, AttemptOf(es, a).terminalNs)
    ensures !Has(es, a, RequestEnd) ==> AttemptOf(es, a).terminalNs == 0
  {
    hide UpdateAttempt, AddWrapped, Tokens, DurationNs, Has;
    if es == [] {
      NothingHad(a);
    } else {
      var n := |es| - 1;
      var before, now := AttemptOf(es[..n], a).terminalNs, AttemptOf(es, a).terminalNs;
      TerminalIsLatest(es[..n], a);
      HasStep(es, a, RequestEnd);
      UpdateIsContribution(AttemptOf(es[..n], a), es[n]);
      LatestStep(es, a, before, now);
    }
  }

  lemma LatestStep(es: seq<LedgerEntry>, a: Id, before: nat, now: nat)
    requires es != []
    requires var e := es[|es| - 1]; now == if IsOf(e, a, RequestEnd) then Max(before, e.startNs) else before
    requires Has(es[..|es| - 1], a, RequestEnd) ==> EndsAt(es[..|es| - 1], a, before)
    requires !Has(es[..|es| - 1], a, RequestEnd) ==> before == 0
    ensures Has(es, a, RequestEnd) ==> EndsAt(es, a, now)
  {
    hide IsOf;
    var n := |es| - 1;
    var front := es[..n];
    HasStep(es, a, RequestEnd);
    forall i | 0 <= i < |es| && IsOf(es[i], a, RequestEnd) ensures es[i].startNs <= now {
      if i < n {
        assert IsOf(front[i], a, RequestEnd);
        assert Has(front, a, RequestEnd);
      }
    }
    if Has(front, a, RequestEnd) {
      var i :| 0 <= i < n && IsOf(front[i], a, RequestEnd) && front[i].startNs == before;
      assert IsOf(es[i], a, RequestEnd) && es[i].startNs == before;
    }
  }

  lemma EndsAtOnce(es: seq<LedgerEntry>, a: Id, s: nat, t: nat)
    requires EndsAt(es, a, s) && EndsAt(es, a, t)
    ensures s == t
  {
    hide IsOf;
    var i :| 0 <= i < |es| && IsOf(es[i], a, RequestEnd) && es[i].startNs == s;
    var j :| 0 <= j < |es| && IsOf(es[j], a, RequestEnd) && es[j].startNs == t;
  }

  /******* The winner *******/

  /** The state of an attempt that is mentioned, against its entries. */
  lemma AttemptStands(es: seq<LedgerEntry>, a: Id)
    ensures var m := AttemptsOf(es);
            && (a in m && Clean(m[a]) <==> EndedCleanly(es, a))
            && (EndedCleanly(es, a) ==> EndsAt(es, a, m[a].terminalNs))
            && (a in m && m[a].cancelled && !m[a].failed <==> Has(es, a, Cancellation) && !Has(es, a, Failure))
  {
    hide AttemptsOf, AttemptOf, EndsAt, Has;
    AttemptsAreSeparate(es, a);
    MarksAreEntries(es, a);
    TerminalIsLatest(es, a);
  }

  /** An attempt wins if and only if it ended cleanly and every other attempt that did
      so ended before it. */
  lemma WinnerExactlyWhen(es: seq<LedgerEntry>, a: Id)
    ensures Winner(AttemptsOf(es)) == Some(a) <==>
            EndedCleanly(es, a) && forall b :: b != a && EndedCleanly(es, b) ==> EndsBefore(es, b, a)
  {
    hide AttemptsOf, Winner, EndedCleanly, EndsAt, Clean;
    var m := AttemptsOf(es);
    WinnerIsGreatest(m);
    AttemptStands(es, a);
    if EndedCleanly(es, a) {
      forall b | b != a
        ensures (b in m && Clean(m[b])) <==> EndedCleanly(es, b)
        ensures EndedCleanly(es, b) ==>
                  (EndsBefore(es, b, a) <==>
                   m[b].terminalNs < m[a].terminalNs || (m[b].terminalNs == m[a].terminalNs && IdLess(b, a)))
      {
        AttemptStands(es, b);
        if EndedCleanly(es, b) { Compared(es, a, b, m[a].terminalNs, m[b].terminalNs); }
      }
      assert Winner(m) == Some(a) <==> IsWinner(m, a);
    }
  }

  lemma Compared(es: seq<LedgerEntry>, a: Id, b: Id, t: nat, s: nat)
    requires EndsAt(es, a, t) && EndsAt(es, b, s)
    ensures EndsBefore(es, b, a) <==> s < t || (s == t && IdLess(b, a))
  {
    hide EndsAt;
    if EndsBefore(es, b, a) {
      var s', t' :| EndsAt(es, b, s') && EndsAt(es, a, t') && (s' < t' || (s' == t' && IdLess(b, a)));
      EndsAtOnce(es, b, s, s');
      EndsAtOnce(es, a, t, t');
    }
  }

  /** A request completed exactly when some attempt ended cleanly; otherwise it was
      cancelled exactly when some attempt was cancelled without failing, and failed
      if none was. */
  lemma OutcomeExactlyWhen(es: seq<LedgerEntry>)
    ensures var acc := Reconcile(es);
            var stopped := exists a :: Has(es, a, Cancellation) && !Has(es, a, Failure);
            && (acc.completed <==> exists a :: EndedCleanly(es, a))
            && (acc.cancelled <==> !acc.completed && stopped)
            && (acc.failed <==> !acc.completed && !stopped)
  {
    hide AttemptsOf, TotalsOf, Winner, WasteOf, EndedCleanly, Has, Clean;
    var m := AttemptsOf(es);
    WinnerIsGreatest(m);
    forall a
      ensures (a in m && Clean(m[a])) <==> EndedCleanly(es, a)
      ensures (a in m && m[a].cancelled && !m[a].failed) <==> Has(es, a, Cancellation) && !Has(es, a, Failure)
    {
      AttemptStands(es, a);
    }
  }

  /******* The winner's work *******/

  /** Time of the entries of attempt `a` of kind `k`. */
  function AttemptTime(es: seq<LedgerEntry>, a: Id, k: EventKind): nat {
    if es == [] then 0 else
    var n := |es| - 1;
    AttemptTime(es[..n], a, k) + if IsOf(es[n], a, k) then DurationNs(es[n]) else 0
  }

  /** Tokens of attempt `a`: decoded tokens that are counted as such, and accepted
      speculation, added up without wrapping. */
  function AttemptTokens(es: seq<LedgerEntry>, a: Id): int {
    if es == [] then 0 else
    var n := |es| - 1;
    var e := es[n];
    AttemptTokens(es[..n], a) +
    if (IsOf(e, a, Decode) && e.quantity.unit == Count) || IsOf(e, a, SpeculationAccepted) then Tokens(e) else 0
  }

  lemma {:induction false} AttemptTimesAreSums(es: seq<LedgerEntry>, a: Id)
    ensures var x := AttemptOf(es, a);
            && x.prefillNs == AttemptTime(es, a, Prefill) && x.decodeNs == AttemptTime(es, a, Decode)
            && x.gpuNs == AttemptTime(es, a, Prefill) + AttemptTime(es, a, Decode) + AttemptTime(es, a, GpuExecution)
            && x.cpuNs == AttemptTime(es, a, CpuExecution)
  {
    hide UpdateAttempt, AddWrapped, Tokens, DurationNs;
    if es == [] {
    } else {
      var n := |es| - 1;
      AttemptTimesAreSums(es[..n], a);
      UpdateIsContribution(AttemptOf(es[..n], a), es[n]);
    }
  }

  lemma {:induction false} AttemptTokensAreSums(es: seq<LedgerEntry>, a: Id)
    ensures AttemptOf(es, a).tokens == TotalsLaws.Wrap(AttemptTokens(es, a))
  {
    hide UpdateAttempt, AddWrapped, Tokens, DurationNs, TotalsLaws.Wrap, TotalsLaws.Bump;
    if es == [] {
      TotalsLaws.WrapZero();
    } else {
      var n := |es| - 1;
      var e := es[n];
      AttemptTokensAreSums(es[..n], a);
      UpdateIsContribution(AttemptOf(es[..n], a), e);
      WrapStep(AttemptTokens(es[..n], a), e.attempt == a && CountsTokens(e), Tokens(e));
    }
  }

  lemma WrapStep(v: int, hit: bool, w: int)
    ensures (if hit then AddWrapped(TotalsLaws.Wrap(v), w) else TotalsLaws.Wrap(v))
         == TotalsLaws.Wrap(v + if hit then w else 0)
  {
    TotalsLaws.WrapAdds(v, hit, w);
  }

  /** The reported work is that of the winning attempt's own entries, kind by kind, and
      nothing when no attempt wins. */
  lemma ReportedWorkIsTheWinners(es: seq<LedgerEntry>)
    ensures var acc, w := Reconcile(es), Winner(AttemptsOf(es));
            match w
            case None =>
              && acc.executionNs == acc.prefillNs == acc.decodeNs == acc.gpuNs == acc.cpuNs == 0
              && acc.generatedTokens == 0
            case Some(a) =>
              var gpu := AttemptTime(es, a, Prefill) + AttemptTime(es, a, Decode) + AttemptTime(es, a, GpuExecution);
              && acc.prefillNs == AttemptTime(es, a, Prefill) && acc.decodeNs == AttemptTime(es, a, Decode)
              && acc.gpuNs == gpu && acc.cpuNs == AttemptTime(es, a, CpuExecution)
              && acc.executionNs == gpu + AttemptTime(es, a, CpuExecution)
              && acc.generatedTokens == TotalsLaws.Wrap(AttemptTokens(es, a))
  {
    hide AttemptsOf, AttemptOf, TotalsOf, Winner, WasteOf, AttemptTime, AttemptTokens, TotalsLaws.Wrap;
    var w := Winner(AttemptsOf(es));
    if w.Some? {
      AttemptsAreSeparate(es, w.value);
      AttemptTimesAreSums(es, w.value);
      AttemptTokensAreSums(es, w.value);
      ExecIsGpuPlusCpu(es, w.value);
    }
  }

  /******* Wasted work *******/

  /** Time of the executing entries whose attempt satisfies `p`. */
  function ExecutedBy(es: seq<LedgerEntry>, p: Id -> bool): nat {
    if es == [] then 0 else
    var n := |es| - 1;
    ExecutedBy(es[..n], p) + if Executes(es[n].eventKind) && p(es[n].attempt) then DurationNs(es[n]) else 0
  }

  function SumBy(keys: seq<Id>, es: seq<LedgerEntry>, p: Id -> bool): nat {
    if keys == [] then 0 else
    var n := |keys| - 1;
    SumBy(keys[..n], es, p) + if p(keys[n]) then AttemptOf(es, keys[n]).execNs else 0
  }

  lemma {:induction false} NoEntriesNoWork(keys: seq<Id>, p: Id -> bool)
    ensures SumBy(keys, [], p) == 0
  {
    if keys == [] {
    } else {
      NoEntriesNoWork(keys[..|keys| - 1], p);
    }
  }

  lemma {:induction false} OneMoreWorks(keys: seq<Id>, es: seq<LedgerEntry>, p: Id -> bool)
    requires es != [] && Distinct(keys)
    ensures var n := |es| - 1;
            var counts := es[n].attempt in keys && p(es[n].attempt) && Executes(es[n].eventKind);
            SumBy(keys, es, p) == SumBy(keys, es[..n], p) + if counts then DurationNs(es[n]) else 0
    decreases |keys|
  {
    hide UpdateAttempt, DurationNs;
    if keys == [] {
    } else {
      var last := |keys| - 1;
      OneMoreWorks(keys[..last], es, p);
      UpdateTimes(AttemptOf(es[..|es| - 1], keys[last]), es[|es| - 1]);
      assert forall k :: k in keys <==> k in keys[..last] || k == keys[last];
    }
  }

  lemma {:induction false} WorkIsPartitioned(keys: seq<Id>, es: seq<LedgerEntry>, p: Id -> bool)
    requires Distinct(keys) && forall i :: 0 <= i < |es| ==> es[i].attempt in keys
    ensures SumBy(keys, es, p) == ExecutedBy(es, p)
    decreases |es|
  {
    if es == [] {
      NoEntriesNoWork(keys, p);
    } else {
      WorkIsPartitioned(keys, es[..|es| - 1], p);
      OneMoreWorks(keys, es, p);
    }
  }

  lemma {:induction false} LosersAreMarked(keys: seq<Id>, m: map<Id, Attempt>, es: seq<LedgerEntry>, winner: Option<Id>)
    requires forall k :: k in keys ==> k in m && m[k] == AttemptOf(es, k)
    requires winner.Some? && winner.value in m ==> Clean(m[winner.value])
    ensures var w := LosersWaste(keys, m, winner);
            && w.failedNs == SumBy(keys, es, a => AttemptOf(es, a).failed)
            && w.cancelledNs == SumBy(keys, es, a => AttemptOf(es, a).cancelled)
    decreases |keys|
  {
    hide AttemptOf;
    if keys == [] {
    } else {
      LosersAreMarked(keys[..|keys| - 1], m, es, winner);
    }
  }

  lemma {:induction false} SameCondition(es: seq<LedgerEntry>, p: Id -> bool, q: Id -> bool)
    requires forall a :: p(a) == q(a)
    ensures ExecutedBy(es, p) == ExecutedBy(es, q)
  {
    if es == [] {
    } else {
      SameCondition(es[..|es| - 1], p, q);
    }
  }

  /** Failed work is the executing time of every attempt with a Failure entry, cancelled
      work that of every attempt with a Cancellation entry. */
  lemma WasteIsMarkedWork(es: seq<LedgerEntry>)
    ensures Reconcile(es).failedNs == ExecutedBy(es, a => Has(es, a, Failure))
    ensures Reconcile(es).cancelledNs == ExecutedBy(es, a => Has(es, a, Cancellation))
  {
    hide AttemptsOf, AttemptOf, TotalsOf, Winner, LosersWaste, SumBy, ExecutedBy, Has;
    var m := AttemptsOf(es);
    var keys := SortedIds(m.Keys);
    AscendingIsDistinct(keys);
    forall k ensures k in m <==> Mentions(es, k) { AttemptsAreSeparate(es, k); }
    forall k | k in keys ensures m[k] == AttemptOf(es, k) { AttemptsAreSeparate(es, k); }
    forall i | 0 <= i < |es| ensures es[i].attempt in keys { assert Mentions(es, es[i].attempt); }
    WinnerIsGreatest(m);
    LosersAreMarked(keys, m, es, Winner(m));
    WorkIsPartitioned(keys, es, a => AttemptOf(es, a).failed);
    WorkIsPartitioned(keys, es, a => AttemptOf(es, a).cancelled);
    forall a
      ensures AttemptOf(es, a).failed == Has(es, a, Failure)
      ensures AttemptOf(es, a).cancelled == Has(es, a, Cancellation)
    {
      MarksAreEntries(es, a);
    }
    SameCondition(es, a => AttemptOf(es, a).failed, a => Has(es, a, Failure));
    SameCondition(es, a => AttemptOf(es, a).cancelled, a => Has(es, a, Cancellation));
  }

  /******* The rest of the account *******/

  /** The account counts the attempts that occur, and its allocation peak is the greater
      of the two it reports. */
  lemma CountAndPeak(es: seq<LedgerEntry>)
    ensures var acc := Reconcile(es);
            && acc.attemptCount == |set i | 0 <= i < |es| :: es[i].attempt|
            && acc.allocationPeak >= acc.totals.kv.peak && acc.allocationPeak >= acc.totals.tensor.peak
            && (acc.allocationPeak == acc.totals.kv.peak || acc.allocationPeak == acc.totals.tensor.peak)
  {
    hide AttemptsOf, TotalsOf, Winner, WasteOf;
    var m := AttemptsOf(es);
    var ids := set i | 0 <= i < |es| :: es[i].attempt;
    forall a ensures a in m.Keys <==> a in ids { AttemptsAreSeparate(es, a); }
    assert m.Keys == ids;
  }

  /******* Small figures, by what defines them *******/

  /** The duration takes the start to the end; there is none without an end, or before the start. */
  lemma DurationMeans(e: LedgerEntry)
    ensures e.hasEnd && e.startNs <= e.endNs ==> e.startNs + DurationNs(e) == e.endNs
    ensures !(e.hasEnd && e.startNs <= e.endNs) ==> DurationNs(e) == 0
  {
  }

  /** The nearest integer; of two equally near, the one further from zero. */
  lemma RoundMeans(v: real, n: int)
    ensures Round(v) == n <==>
            (&& -0.5 <= n as real - v <= 0.5
             && (n as real - v == 0.5 ==> v > 0.0) && (n as real - v == -0.5 ==> v < 0.0))
  {
  }

  lemma HeldBytesMeans(e: LedgerEntry)
    ensures HeldBytes(e) * 1000000000.0 == Amount(e) * (DurationNs(e) as real)
  {
    var d := DurationNs(e) as real;
    assert Account.Seconds(e) * 1000000000.0 == d;
    Regroup(Amount(e), Account.Seconds(e), d);
  }

  lemma Regroup(a: real, s: real, d: real)
    requires s * 1000000000.0 == d
    ensures a * s * 1000000000.0 == a * d
  {
  }
}
