/** What a reconciled account guarantees about the entries it came from. */
module AccountLaws {
  import opened Base
  import opened Entry
  import opened Account

  /******* Each attempt sees only its own entries *******/

  /** Fold of the entries of attempt `a` alone. */
  function AttemptOf(es: seq<LedgerEntry>, a: Id): Attempt {
    if es == [] then NEW_ATTEMPT else
    var n := |es| - 1;
    if es[n].attempt == a then UpdateAttempt(AttemptOf(es[..n], a), es[n]) else AttemptOf(es[..n], a)
  }

  predicate Mentions(es: seq<LedgerEntry>, a: Id) {
    exists i :: 0 <= i < |es| && es[i].attempt == a
  }

  lemma {:induction false} AttemptsAreSeparate(es: seq<LedgerEntry>, a: Id)
    ensures a in AttemptsOf(es) <==> Mentions(es, a)
    ensures a in AttemptsOf(es) ==> AttemptsOf(es)[a] == AttemptOf(es, a)
    ensures a !in AttemptsOf(es) ==> AttemptOf(es, a) == NEW_ATTEMPT
  {
    hide UpdateAttempt;
    if es == [] {
    } else {
      var n := |es| - 1;
      AttemptsAreSeparate(es[..n], a);
      if Mentions(es[..n], a) {
        var i :| 0 <= i < |es[..n]| && es[..n][i].attempt == a;
        assert es[i].attempt == a;
      }
      if es[n].attempt == a { assert Mentions(es, a); }
      if Mentions(es, a) && es[n].attempt != a {
        var i :| 0 <= i < |es| && es[i].attempt == a;
        assert es[..n][i].attempt == a;
      }
    }
  }

  /******* Order does not matter to attempts *******/

  lemma AddWrappedCommutes(a: U64, v: int, w: int)
    ensures AddWrapped(AddWrapped(a, v), w) == AddWrapped(AddWrapped(a, w), v)
  {
    assert (a + v) % U64_MODULUS == a + v - U64_MODULUS * ((a + v) / U64_MODULUS);
    assert (a + w) % U64_MODULUS == a + w - U64_MODULUS * ((a + w) / U64_MODULUS);
    WrapShift(a + v + w, (a + v) / U64_MODULUS);
    WrapShift(a + v + w, (a + w) / U64_MODULUS);
  }

  lemma WrapShift(x: int, k: int)
    ensures (x - U64_MODULUS * k) % U64_MODULUS == x % U64_MODULUS
  {
  }

  predicate Executes(k: EventKind) { k.Prefill? || k.Decode? || k.GpuExecution? || k.CpuExecution? }

  predicate CountsTokens(e: LedgerEntry) {
    (e.eventKind.Decode? && e.quantity.unit.Count?) || e.eventKind.SpeculationAccepted?
  }

  /** What an entry does to its attempt, field by field instead of kind by kind. */
  function Contribution(a: Attempt, e: LedgerEntry): Attempt {
    var k, d := e.eventKind, DurationNs(e);
    Attempt(
      a.completed || k.RequestEnd?, a.failed || k.Failure?, a.cancelled || k.Cancellation?,
      if k.RequestEnd? then Max(a.terminalNs, e.startNs) else a.terminalNs,
      a.execNs + (if Executes(k) then d else 0),
      a.prefillNs + (if k.Prefill? then d else 0),
      a.decodeNs + (if k.Decode? then d else 0),
      a.gpuNs + (if Executes(k) && !k.CpuExecution? then d else 0),
      a.cpuNs + (if k.CpuExecution? then d else 0),
      a.specRejectedNs + (if k.SpeculationRejected? then d else 0),
      if CountsTokens(e) then AddWrapped(a.tokens, Tokens(e)) else a.tokens)
  }

  lemma UpdateIsContribution(a: Attempt, e: LedgerEntry)
    ensures UpdateAttempt(a, e) == Contribution(a, e)
  {
    hide UpdateAttempt, Contribution;
    if Executes(e.eventKind) { ExecutingContribution(a, e); } else { OtherContribution(a, e); }
  }

  lemma ExecutingContribution(a: Attempt, e: LedgerEntry)
    requires Executes(e.eventKind)
    ensures UpdateAttempt(a, e) == Contribution(a, e)
  {
    hide AddWrapped, Tokens, DurationNs;
  }

  lemma OtherContribution(a: Attempt, e: LedgerEntry)
    requires !Executes(e.eventKind)
    ensures UpdateAttempt(a, e) == Contribution(a, e)
  {
    hide AddWrapped, Tokens, DurationNs;
  }

  lemma UpdatesCommute(a: Attempt, x: LedgerEntry, y: LedgerEntry)
    ensures UpdateAttempt(UpdateAttempt(a, x), y) == UpdateAttempt(UpdateAttempt(a, y), x)
  {
    hide UpdateAttempt, AddWrapped, Tokens, DurationNs;
    UpdateIsContribution(a, x);
    UpdateIsContribution(a, y);
    UpdateIsContribution(UpdateAttempt(a, x), y);
    UpdateIsContribution(UpdateAttempt(a, y), x);
    AddWrappedCommutes(a.tokens, Tokens(x), Tokens(y));
  }

  lemma StepsCommute(m: map<Id, Attempt>, x: LedgerEntry, y: LedgerEntry)
    ensures AttemptsStep(AttemptsStep(m, x), y) == AttemptsStep(AttemptsStep(m, y), x)
  {
    hide UpdateAttempt;
    if x.attempt == y.attempt {
      UpdatesCommute(Lookup(m, x.attempt), x, y);
    }
    assert AttemptsStep(AttemptsStep(m, x), y) == AttemptsStep(AttemptsStep(m, y), x);
  }

  lemma {:induction false} AttemptsAreAFold(es: seq<LedgerEntry>)
    ensures AttemptsOf(es) == Fold(AttemptsStep, map[], es)
  {
    hide AttemptsStep;
    if es == [] {
    } else {
      AttemptsAreAFold(es[..|es| - 1]);
    }
  }

  /** Attempt state depends on which entries there are, not on their order. */
  lemma AttemptsIgnoreOrder(es: seq<LedgerEntry>, fs: seq<LedgerEntry>)
    requires multiset(es) == multiset(fs)
    ensures AttemptsOf(es) == AttemptsOf(fs)
  {
    hide AttemptsStep, AttemptsOf, Fold;
    assert Commutes(AttemptsStep) by {
      forall m, x, y ensures AttemptsStep(AttemptsStep(m, x), y) == AttemptsStep(AttemptsStep(m, y), x) {
        StepsCommute(m, x, y);
      }
    }
    FoldIgnoresOrder(AttemptsStep, map[], es, fs);
    AttemptsAreAFold(es);
    AttemptsAreAFold(fs);
  }

  /** Reordering the entries changes neither the outcome nor any attributed work. */
  lemma ReorderingChangesNothing(es: seq<LedgerEntry>, fs: seq<LedgerEntry>)
    requires multiset(es) == multiset(fs)
    ensures Winner(AttemptsOf(es)) == Winner(AttemptsOf(fs))
    ensures SameWork(Reconcile(es), Reconcile(fs))
    ensures var a, b := Reconcile(es), Reconcile(fs);
            && a.cancelled == b.cancelled && a.failed == b.failed && a.attemptCount == b.attemptCount
            && a.failedNs == b.failedNs && a.cancelledNs == b.cancelledNs && a.specWastedNs == b.specWastedNs
  {
    hide Winner, WasteOf, AttemptsOf, TotalsOf;
    AttemptsIgnoreOrder(es, fs);
  }

  /** The figures attributed to the winning attempt. */
  predicate SameWork(a: RequestAccount, b: RequestAccount) {
    && a.executionNs == b.executionNs && a.prefillNs == b.prefillNs && a.decodeNs == b.decodeNs
    && a.gpuNs == b.gpuNs && a.cpuNs == b.cpuNs && a.generatedTokens == b.generatedTokens
    && a.completed == b.completed
  }

  /******* The winner *******/

  /** `w` is clean and no clean attempt ends later, or as late with a greater identity. */
  ghost predicate IsWinner(m: map<Id, Attempt>, w: Id) {
    && w in m && Clean(m[w])
    && forall k :: k in m && Clean(m[k]) && k != w ==>
         m[k].terminalNs < m[w].terminalNs || (m[k].terminalNs == m[w].terminalNs && IdLess(k, w))
  }

  lemma {:induction false} BestIsGreatest(keys: seq<Id>, m: map<Id, Attempt>)
    requires (forall k :: k in keys ==> k in m) && StrictlyAscending(IdLess, keys)
    ensures match Best(keys, m)
            case None => forall k :: k in keys ==> !Clean(m[k])
            case Some(w) =>
              && w in keys && Clean(m[w])
              && forall k :: k in keys && Clean(m[k]) && k != w ==>
                   m[k].terminalNs < m[w].terminalNs || (m[k].terminalNs == m[w].terminalNs && IdLess(k, w))
  {
    if keys == [] {
    } else {
      var n := |keys| - 1;
      BestIsGreatest(keys[..n], m);
      assert forall k :: k in keys <==> k in keys[..n] || k == keys[n];
      assert forall k :: k in keys[..n] ==> IdLess(k, keys[n]);
    }
  }

  /** The winner is the clean attempt with the greatest (terminal time, identity),
      and there is one exactly when some attempt is clean. */
  lemma WinnerIsGreatest(m: map<Id, Attempt>)
    ensures forall w :: Winner(m) == Some(w) <==> IsWinner(m, w)
    ensures Winner(m).None? <==> forall k :: k in m ==> !Clean(m[k])
  {
    hide Best;
    var keys := SortedIds(m.Keys);
    BestIsGreatest(keys, m);
    assert forall k :: k in m <==> k in keys;
    forall w ensures Winner(m) == Some(w) <==> IsWinner(m, w) {
      if IsWinner(m, w) {
        assert w in keys && Clean(m[w]);
      }
    }
  }

  /******* Losing attempts do not count *******/

  function Without(es: seq<LedgerEntry>, a: Id): seq<LedgerEntry> {
    if es == [] then [] else
    var n := |es| - 1;
    Without(es[..n], a) + if es[n].attempt == a then [] else [es[n]]
  }

  lemma StepWithout(m: map<Id, Attempt>, e: LedgerEntry, a: Id)
    ensures AttemptsStep(m, e) - {a} == if e.attempt == a then m - {a} else AttemptsStep(m - {a}, e)
  {
    hide UpdateAttempt;
    assert AttemptsStep(m, e) - {a} == if e.attempt == a then m - {a} else AttemptsStep(m - {a}, e);
  }

  lemma {:induction false} AttemptsWithout(es: seq<LedgerEntry>, a: Id)
    ensures AttemptsOf(Without(es, a)) == AttemptsOf(es) - {a}
  {
    hide AttemptsStep;
    if es == [] {
    } else {
      var n := |es| - 1;
      var less := Without(es[..n], a);
      AttemptsWithout(es[..n], a);
      StepWithout(AttemptsOf(es[..n]), es[n], a);
      assert less + [] == less && (less + [es[n]])[..|less|] == less;
    }
  }

  /** Deleting every entry of an attempt that did not win leaves the winner, the
      completion and every figure attributed to it unchanged. */
  lemma LosersDoNotCount(es: seq<LedgerEntry>, a: Id)
    requires Winner(AttemptsOf(es)) != Some(a)
    ensures Winner(AttemptsOf(Without(es, a))) == Winner(AttemptsOf(es))
    ensures SameWork(Reconcile(Without(es, a)), Reconcile(es))
  {
    hide Winner, WasteOf, AttemptsOf, TotalsOf, Without;
    var m := AttemptsOf(es);
    AttemptsWithout(es, a);
    WinnerIsGreatest(m);
    WinnerIsGreatest(m - {a});
    if Winner(m).Some? {
      assert IsWinner(m - {a}, Winner(m).value);
    }
  }

  /******* Conservation of execution time *******/

  /** Time of all executing entries, whatever their attempt. */
  function ExecutedNs(es: seq<LedgerEntry>): nat {
    if es == [] then 0 else
    var n := |es| - 1;
    ExecutedNs(es[..n]) + if Executes(es[n].eventKind) then DurationNs(es[n]) else 0
  }

  /** Time of all rejected speculation. */
  function RejectedNs(es: seq<LedgerEntry>): nat {
    if es == [] then 0 else
    var n := |es| - 1;
    RejectedNs(es[..n]) + if es[n].eventKind.SpeculationRejected? then DurationNs(es[n]) else 0
  }

  function SumExec(keys: seq<Id>, es: seq<LedgerEntry>): nat {
    if keys == [] then 0 else SumExec(keys[..|keys| - 1], es) + AttemptOf(es, keys[|keys| - 1]).execNs
  }

  function SumRejected(keys: seq<Id>, es: seq<LedgerEntry>): nat {
    if keys == [] then 0 else SumRejected(keys[..|keys| - 1], es) + AttemptOf(es, keys[|keys| - 1]).specRejectedNs
  }

  ghost predicate Distinct(keys: seq<Id>) {
    forall i, j :: 0 <= i < j < |keys| ==> keys[i] != keys[j]
  }

  lemma UpdateTimes(a: Attempt, e: LedgerEntry)
    ensures UpdateAttempt(a, e).execNs == a.execNs + if Executes(e.eventKind) then DurationNs(e) else 0
    ensures UpdateAttempt(a, e).specRejectedNs
         == a.specRejectedNs + if e.eventKind.SpeculationRejected? then DurationNs(e) else 0
    ensures a.execNs == a.gpuNs + a.cpuNs ==>
              UpdateAttempt(a, e).execNs == UpdateAttempt(a, e).gpuNs + UpdateAttempt(a, e).cpuNs
  {
    hide UpdateAttempt, DurationNs, AddWrapped, Tokens;
    UpdateIsContribution(a, e);
  }

  lemma {:induction false} OneMoreEntry(keys: seq<Id>, es: seq<LedgerEntry>)
    requires es != [] && Distinct(keys)
    ensures var n := |es| - 1;
            var hit, k, d := es[n].attempt in keys, es[n].eventKind, DurationNs(es[n]);
            && SumExec(keys, es) == SumExec(keys, es[..n]) + (if hit && Executes(k) then d else 0)
            && SumRejected(keys, es) == SumRejected(keys, es[..n]) + (if hit && k.SpeculationRejected? then d else 0)
    decreases |keys|
  {
    hide UpdateAttempt, DurationNs;
    if keys == [] {
    } else {
      var last := |keys| - 1;
      OneMoreEntry(keys[..last], es);
      UpdateTimes(AttemptOf(es[..|es| - 1], keys[last]), es[|es| - 1]);
      assert forall k :: k in keys <==> k in keys[..last] || k == keys[last];
    }
  }

  lemma {:induction false} NoEntriesNoTime(keys: seq<Id>)
    ensures SumExec(keys, []) == 0 && SumRejected(keys, []) == 0
  {
    if keys == [] {
    } else {
      NoEntriesNoTime(keys[..|keys| - 1]);
    }
  }

  /** Summing over attempts loses and invents nothing. */
  lemma {:induction false} AttemptsPartitionTime(keys: seq<Id>, es: seq<LedgerEntry>)
    requires Distinct(keys) && forall i :: 0 <= i < |es| ==> es[i].attempt in keys
    ensures SumExec(keys, es) == ExecutedNs(es) && SumRejected(keys, es) == RejectedNs(es)
    decreases |es|
  {
    if es == [] {
      NoEntriesNoTime(keys);
    } else {
      AttemptsPartitionTime(keys, es[..|es| - 1]);
      OneMoreEntry(keys, es);
    }
  }

  /** Work of losing attempts marked both failed and cancelled, and of those marked neither. */
  datatype Misfits = Misfits(bothNs: nat, neitherNs: nat)

  function MisfitsOf(keys: seq<Id>, m: map<Id, Attempt>, winner: Option<Id>): Misfits
    requires forall k :: k in keys ==> k in m
  {
    if keys == [] then Misfits(0, 0) else
    var n := |keys| - 1;
    var x, a := MisfitsOf(keys[..n], m, winner), m[keys[n]];
    if winner == Some(keys[n]) then x
    else Misfits(x.bothNs + (if a.failed && a.cancelled then a.execNs else 0),
                 x.neitherNs + (if !a.failed && !a.cancelled then a.execNs else 0))
  }

  function WonNs(keys: seq<Id>, m: map<Id, Attempt>, winner: Option<Id>): nat
    requires winner.Some? ==> winner.value in m
  {
    if winner.Some? && winner.value in keys then m[winner.value].execNs else 0
  }

  lemma {:induction false} TimeIsClassified(keys: seq<Id>, m: map<Id, Attempt>, es: seq<LedgerEntry>,
                                            winner: Option<Id>)
    requires Distinct(keys) && (forall k :: k in keys ==> k in m && m[k] == AttemptOf(es, k))
    requires winner.Some? ==> winner.value in m
    ensures var w, x := LosersWaste(keys, m, winner), MisfitsOf(keys, m, winner);
            && SumExec(keys, es) + x.bothNs == WonNs(keys, m, winner) + w.failedNs + w.cancelledNs + x.neitherNs
            && SumRejected(keys, es)
               == w.specNs + (if winner.Some? && winner.value in keys then m[winner.value].specRejectedNs else 0)
    decreases |keys|
  {
    hide AttemptOf;
    if keys == [] {
    } else {
      var n := |keys| - 1;
      TimeIsClassified(keys[..n], m, es, winner);
      assert forall k :: k in keys <==> k in keys[..n] || k == keys[n];
      assert keys[n] !in keys[..n];
    }
  }

  /** Execution over all attempts is the winner's, plus failed, plus cancelled
      work, less what is counted in both, plus what is counted in neither; and
      `spec_wasted` is the rejected-speculation time of every attempt. */
  lemma ExecutionIsConserved(es: seq<LedgerEntry>)
    ensures var acc, m := Reconcile(es), AttemptsOf(es);
            var x := MisfitsOf(SortedIds(m.Keys), m, Winner(m));
            && ExecutedNs(es) + x.bothNs == acc.executionNs + acc.failedNs + acc.cancelledNs + x.neitherNs
            && acc.specWastedNs == RejectedNs(es)
  {
    hide AttemptsOf, AttemptOf, TotalsOf, Winner, LosersWaste, MisfitsOf, SumExec, SumRejected, ExecutedNs, RejectedNs;
    var m := AttemptsOf(es);
    var keys := SortedIds(m.Keys);
    AscendingIsDistinct(keys);
    forall k ensures k in m <==> Mentions(es, k) { AttemptsAreSeparate(es, k); }
    forall k | k in keys ensures m[k] == AttemptOf(es, k) { AttemptsAreSeparate(es, k); }
    forall i | 0 <= i < |es| ensures es[i].attempt in keys { assert Mentions(es, es[i].attempt); }
    AttemptsPartitionTime(keys, es);
    TimeIsClassified(keys, m, es, Winner(m));
  }

  lemma AscendingIsDistinct(keys: seq<Id>)
    requires StrictlyAscending(IdLess, keys)
    ensures Distinct(keys)
  {
  }

  /** So attempt totals reconcile to the request total exactly when the losing work
      counted twice equals the losing work not counted at all; in particular when
      every losing attempt is marked exactly one way. */
  lemma AttemptTotalsReconcile(es: seq<LedgerEntry>)
    ensures var acc, m := Reconcile(es), AttemptsOf(es);
            var x := MisfitsOf(SortedIds(m.Keys), m, Winner(m));
            acc.executionNs + acc.failedNs + acc.cancelledNs == ExecutedNs(es) <==> x.bothNs == x.neitherNs
    ensures var acc, m := Reconcile(es), AttemptsOf(es);
            (forall k :: k in m && Winner(m) != Some(k) ==> m[k].failed != m[k].cancelled) ==>
              acc.executionNs + acc.failedNs + acc.cancelledNs == ExecutedNs(es)
  {
    hide AttemptsOf, TotalsOf, Winner, ExecutedNs, WasteOf;
    ExecutionIsConserved(es);
    var m := AttemptsOf(es);
    if forall k :: k in m && Winner(m) != Some(k) ==> m[k].failed != m[k].cancelled {
      NoMisfits(SortedIds(m.Keys), m, Winner(m));
    }
  }

  /** Where the totals part: a request with one attempt that did not win has its
      work dropped when marked neither way, and counted twice when marked both. */
  lemma LoneLoserIsMiscounted(es: seq<LedgerEntry>, a: Id)
    requires es != [] && (forall i :: 0 <= i < |es| ==> es[i].attempt == a) && !Clean(AttemptOf(es, a))
    ensures var acc, work := Reconcile(es), ExecutedNs(es);
            && acc.executionNs == 0
            && acc.failedNs == (if AttemptOf(es, a).failed then work else 0)
            && acc.cancelledNs == (if AttemptOf(es, a).cancelled then work else 0)
  {
    hide AttemptsOf, AttemptOf, TotalsOf, Winner, ExecutedNs;
    var m := AttemptsOf(es);
    forall k ensures k in m <==> k == a {
      AttemptsAreSeparate(es, k);
      assert es[0].attempt == a;
    }
    assert m.Keys == {a};
    AttemptsAreSeparate(es, a);
    WinnerIsGreatest(m);
    OnlyKey(a);
    assert [a][..0] == [];
    AttemptsPartitionTime([a], es);
    assert SumExec([a], es) == SumExec([], es) + AttemptOf(es, a).execNs;
    assert LosersWaste([a], m, None) == WasteStep(LosersWaste([], m, None), m[a]);
  }

  lemma OnlyKey(a: Id)
    ensures SortedIds({a}) == [a]
  {
    var r := SortedIds({a});
    assert r[0] in r;
  }

  lemma {:induction false} NoMisfits(keys: seq<Id>, m: map<Id, Attempt>, winner: Option<Id>)
    requires forall k :: k in keys ==> k in m
    requires forall k :: k in keys && winner != Some(k) ==> m[k].failed != m[k].cancelled
    ensures MisfitsOf(keys, m, winner) == Misfits(0, 0)
  {
    if keys == [] {
    } else {
      NoMisfits(keys[..|keys| - 1], m, winner);
    }
  }

  lemma {:induction false} ExecIsGpuPlusCpu(es: seq<LedgerEntry>, a: Id)
    ensures AttemptOf(es, a).execNs == AttemptOf(es, a).gpuNs + AttemptOf(es, a).cpuNs
  {
    hide UpdateAttempt;
    if es == [] {
    } else {
      ExecIsGpuPlusCpu(es[..|es| - 1], a);
      UpdateTimes(AttemptOf(es[..|es| - 1], a), es[|es| - 1]);
    }
  }

  /** The reported execution is GPU plus CPU active time. */
  lemma ExecutionIsActiveTime(es: seq<LedgerEntry>)
    ensures Reconcile(es).executionNs == Reconcile(es).gpuNs + Reconcile(es).cpuNs
  {
    hide AttemptsOf, AttemptOf, TotalsOf, Winner, WasteOf;
    var w := Winner(AttemptsOf(es));
    if w.Some? {
      AttemptsAreSeparate(es, w.value);
      ExecIsGpuPlusCpu(es, w.value);
    }
  }
}
