/** Agreement of filtered, grouped and batch views of the same snapshot. */
module QueryLaws {
  import opened Base
  import opened Entry
  import opened Identity
  import opened Account
  import opened AccountLaws
  import opened Query

  /******* Filtering *******/

  /** `pos` lists, in order, exactly the places of `es` that satisfy `p`. */
  ghost predicate PlacesOf(pos: seq<nat>, es: seq<LedgerEntry>, p: LedgerEntry -> bool) {
    && (forall j, k :: 0 <= j < k < |pos| ==> pos[j] < pos[k])
    && (forall k :: 0 <= k < |pos| ==> pos[k] < |es| && p(es[pos[k]]))
    && (forall i :: 0 <= i < |es| && p(es[i]) ==> i in pos)
  }

  /** A query returns every matching entry once per occurrence, in ledger order, and nothing else. */
  lemma {:induction false} SelectInOrder(es: seq<LedgerEntry>, p: LedgerEntry -> bool) returns (pos: seq<nat>)
    ensures PlacesOf(pos, es, p)
    ensures |Select(es, p)| == |pos| && forall k :: 0 <= k < |pos| ==> Select(es, p)[k] == es[pos[k]]
  {
    if es == [] { return []; }
    var n := |es| - 1;
    var before := SelectInOrder(es[..n], p);
    if !p(es[n]) { return before; }
    pos := before + [n];
    forall i | 0 <= i < |es| && p(es[i]) ensures i in pos {
      if i < n { assert es[..n][i] == es[i]; assert i in before; } else { assert pos[|before|] == i; }
    }
  }

  lemma {:induction false} SelectCounts(es: seq<LedgerEntry>, p: LedgerEntry -> bool, e: LedgerEntry)
    ensures multiset(Select(es, p))[e] == if p(e) then multiset(es)[e] else 0
  {
    if es == [] {
    } else {
      var n := |es| - 1;
      SelectCounts(es[..n], p, e);
      assert es == es[..n] + [es[n]];
    }
  }

  lemma {:induction false} SelectAgrees(es: seq<LedgerEntry>, p: LedgerEntry -> bool, q: LedgerEntry -> bool)
    requires forall i :: 0 <= i < |es| ==> p(es[i]) == q(es[i])
    ensures Select(es, p) == Select(es, q)
  {
    if es == [] {
    } else {
      SelectAgrees(es[..|es| - 1], p, q);
    }
  }

  lemma {:induction false} SelectTwice(es: seq<LedgerEntry>, p: LedgerEntry -> bool, q: LedgerEntry -> bool,
                                       both: LedgerEntry -> bool)
    requires forall e :: both(e) == (p(e) && q(e))
    ensures Select(Select(es, p), q) == Select(es, both)
  {
    if es == [] {
    } else {
      var n := |es| - 1;
      SelectTwice(es[..n], p, q, both);
      var before := Select(es[..n], p);
      assert (before + [es[n]])[..|before|] == before;
      assert before + [] == before;
    }
  }

  /******* Queries, one condition at a time *******/

  /** The query that asks for nothing returns everything. */
  lemma {:induction false} EverythingMatches(es: seq<LedgerEntry>)
    ensures Selected(es, EVERYTHING) == es
  {
    if es == [] {
    } else {
      EverythingMatches(es[..|es| - 1]);
      assert Matches(EVERYTHING, es[|es| - 1]);
    }
  }

  /** What each field of a query asks for. */
  lemma OwnerConditions(q: LedgerQuery, e: LedgerEntry, x: Id)
    ensures Matches(q.(request := Some(x)), e) <==> Matches(q.(request := None), e) && e.request == x
    ensures Matches(q.(tenant := Some(x)), e) <==> Matches(q.(tenant := None), e) && e.tenant == x
    ensures Matches(q.(model := Some(x)), e) <==> Matches(q.(model := None), e) && e.model == x
    ensures Matches(q.(modelRevision := Some(x)), e) <==> Matches(q.(modelRevision := None), e) && e.modelRevision == x
    ensures Matches(q.(adapter := Some(x)), e) <==>
            Matches(q.(adapter := None), e) && e.hasAdapter && e.adapter == x
  {
    hide Labelled;
  }

  lemma OriginConditions(q: LedgerQuery, e: LedgerEntry, x: Id, k: EventKind, r: ResourceKind)
    ensures Matches(q.(attempt := Some(x)), e) <==> Matches(q.(attempt := None), e) && e.attempt == x
    ensures Matches(q.(worker := Some(x)), e) <==> Matches(q.(worker := None), e) && e.worker == x
    ensures Matches(q.(device := Some(x)), e) <==> Matches(q.(device := None), e) && e.device == x
    ensures Matches(q.(eventKind := Some(k)), e) <==> Matches(q.(eventKind := None), e) && e.eventKind == k
    ensures Matches(q.(resourceKind := Some(r)), e) <==> Matches(q.(resourceKind := None), e) && e.resourceKind == r
  {
    hide Labelled;
  }

  lemma TimeConditions(q: LedgerQuery, e: LedgerEntry, t: U64)
    ensures Matches(q.(startNs := Some(t)), e) <==> Matches(q.(startNs := None), e) && t <= e.startNs
    ensures Matches(q.(endNs := Some(t)), e) <==> Matches(q.(endNs := None), e) && e.startNs <= t
  {
    hide Labelled;
  }

  lemma LabelConditions(q: LedgerQuery, e: LedgerEntry, b: Id, o: Bytes)
    ensures Matches(q.(batch := Some(b)), e) <==>
            Matches(q.(batch := None), e) && BATCH in e.metadata && e.metadata[BATCH] == ToString(b)
    ensures o != [] ==>
              (Matches(q.(outcome := o), e) <==>
               Matches(q.(outcome := []), e) && OUTCOME in e.metadata && e.metadata[OUTCOME] == o)
  {
    hide ToString;
  }

  /** So setting one more field filters the answer without it by that field's condition. */
  lemma OneMoreCondition(es: seq<LedgerEntry>, q: LedgerQuery, more: LedgerQuery, p: LedgerEntry -> bool)
    requires forall e :: Matches(more, e) <==> Matches(q, e) && p(e)
    ensures Selected(es, more) == Select(Selected(es, q), p)
  {
    hide Matches, Select;
    SelectTwice(es, e => Matches(q, e), p, e => Matches(more, e));
  }

  /** The labels are spelled in ASCII. */
  lemma LabelsAreAscii()
    ensures |BATCH| == |"batch"| && forall i :: 0 <= i < |BATCH| ==> BATCH[i] == "batch"[i] as int
    ensures |OUTCOME| == |"outcome"| && forall i :: 0 <= i < |OUTCOME| ==> OUTCOME[i] == "outcome"[i] as int
  {
  }

  /******* Grouping *******/

  function ByRequest(id: Id): LedgerQuery { EVERYTHING.(request := Some(id)) }

  function Grouped(es: seq<LedgerEntry>): seq<Group> { GroupsOf(Select(es, HasRequest)) }

  lemma OfRequestIsQuery(es: seq<LedgerEntry>, id: Id)
    ensures OfRequest(es, id) == Selected(es, ByRequest(id))
    ensures id != ZERO_ID ==> OfRequest(Select(es, HasRequest), id) == Selected(es, ByRequest(id))
  {
    SelectAgrees(es, (e: LedgerEntry) => e.request == id, e => Matches(ByRequest(id), e));
    if id != ZERO_ID {
      SelectTwice(es, HasRequest, (e: LedgerEntry) => e.request == id, (e: LedgerEntry) => e.request == id);
    }
  }

  /** Every group is what a query for its request returns; the groups stand in strictly
      ascending order; and there is a group exactly for the requests that occur. */
  lemma GroupsAreQueries(es: seq<LedgerEntry>)
    ensures forall i :: 0 <= i < |Grouped(es)| ==>
              Grouped(es)[i].entries == Selected(es, ByRequest(Grouped(es)[i].request))
    ensures forall i, j :: 0 <= i < j < |Grouped(es)| ==> IdLess(Grouped(es)[i].request, Grouped(es)[j].request)
    ensures forall id :: id in KeysOf(Grouped(es)) <==> id != ZERO_ID && Selected(es, ByRequest(id)) != []
  {
    hide Selected, Select, OfRequest, RequestsOf, SortedIds;
    var named := Select(es, HasRequest);
    var ids := SortedIds(RequestsOf(named));
    forall i | 0 <= i < |named| ensures named[i].request != ZERO_ID { Survivors(es, HasRequest, i); }
    forall i | 0 <= i < |ids| ensures ids[i] != ZERO_ID { assert ids[i] in RequestsOf(named); }
    forall i | 0 <= i < |ids| ensures OfRequest(named, ids[i]) == Selected(es, ByRequest(ids[i])) {
      OfRequestIsQuery(es, ids[i]);
    }
    forall id ensures id in KeysOf(Grouped(es)) <==> id != ZERO_ID && Selected(es, ByRequest(id)) != [] {
      assert KeysOf(Grouped(es)) == ids;
      OfRequestIsQuery(es, id);
      OccursWhenSelected(named, id);
    }
  }

  function KeysOf(gs: seq<Group>): (ids: seq<Id>)
    ensures |ids| == |gs| && forall i :: 0 <= i < |gs| ==> ids[i] == gs[i].request
  {
    seq(|gs|, i requires 0 <= i < |gs| => gs[i].request)
  }

  lemma Survivors(es: seq<LedgerEntry>, p: LedgerEntry -> bool, i: nat)
    requires i < |Select(es, p)|
    ensures p(Select(es, p)[i]) && Select(es, p)[i] in es
  {
    hide Select;
    var pos := SelectInOrder(es, p);
  }

  lemma OccursWhenSelected(es: seq<LedgerEntry>, id: Id)
    ensures id in RequestsOf(es) <==> OfRequest(es, id) != []
  {
    hide Select, RequestsOf;
    var p := (e: LedgerEntry) => e.request == id;
    var pos := SelectInOrder(es, p);
    if id in RequestsOf(es) {
      var i :| 0 <= i < |es| && es[i].request == id;
      assert p(es[i]);
    } else {
      NoneOfRequest(es, id);
    }
  }

  /** `distinct_requests` lists the keys of the groups, each once. */
  lemma {:induction false} FirstSeenMembers(es: seq<LedgerEntry>)
    ensures forall id :: id in FirstSeen(es) <==> id != ZERO_ID && id in RequestsOf(es)
    ensures Distinct(FirstSeen(es))
  {
    hide RequestsOf;
    if es == [] {
    } else {
      var n := |es| - 1;
      FirstSeenMembers(es[..n]);
      forall id ensures id in RequestsOf(es) <==> id in RequestsOf(es[..n]) || id == es[n].request {
        if id in RequestsOf(es[..n]) {
          var i :| 0 <= i < n && es[..n][i].request == id;
          assert es[i].request == id;
        }
        if id in RequestsOf(es) && id != es[n].request {
          var i :| 0 <= i < |es| && es[i].request == id;
          assert es[..n][i].request == id;
        }
      }
    }
  }

  /** Each request stands where it first occurs: before it in the list are exactly the
      requests of earlier entries. */
  lemma {:induction false} FirstSeenInOrder(es: seq<LedgerEntry>, k: nat)
    requires k <= |es|
    ensures FirstSeen(es[..k]) <= FirstSeen(es)
    decreases |es|
  {
    if k == |es| {
      assert es[..k] == es;
    } else {
      FirstSeenInOrder(es[..|es| - 1], k);
      assert es[..|es| - 1][..k] == es[..k];
    }
  }

  lemma GroupKeysAreDistinctRequests(es: seq<LedgerEntry>)
    ensures forall id :: id in KeysOf(Grouped(es)) <==> id in FirstSeen(es)
    ensures StrictlyAscending(IdLess, KeysOf(Grouped(es)))
    ensures Distinct(FirstSeen(es))
    ensures KeysOf(Grouped(es)) == FirstSeen(es) <==> StrictlyAscending(IdLess, FirstSeen(es))
  {
    hide Selected, FirstSeen, RequestsOf, OfRequest, Grouped, Select;
    GroupsAreQueries(es);
    FirstSeenMembers(es);
    forall id ensures id in KeysOf(Grouped(es)) <==> id in FirstSeen(es) {
      OccursWhenSelected(es, id);
      OfRequestIsQuery(es, id);
    }
    IdTotalOrder();
    if StrictlyAscending(IdLess, FirstSeen(es)) {
      AscendingUnique(IdLess, KeysOf(Grouped(es)), FirstSeen(es));
    }
  }

  /** So the order is not that of first occurrence whenever a smaller request starts later. */
  lemma GroupsAreNotFirstSeen(a: LedgerEntry, b: LedgerEntry)
    requires a.request != ZERO_ID && b.request != ZERO_ID && IdLess(b.request, a.request)
    ensures FirstSeen([a, b]) == [a.request, b.request] && KeysOf(Grouped([a, b])) != FirstSeen([a, b])
  {
    hide Grouped, KeysOf, FirstSeen;
    TwoSeen(a, b);
    GroupKeysAreDistinctRequests([a, b]);
    if StrictlyAscending(IdLess, FirstSeen([a, b])) { FirstIsLeast(FirstSeen([a, b])); }
  }

  lemma FirstIsLeast(ids: seq<Id>)
    requires StrictlyAscending(IdLess, ids) && |ids| > 1
    ensures IdLess(ids[0], ids[1])
  {
    var less := IdLess;
    assert less(ids[0], ids[1]);
  }

  lemma TwoSeen(a: LedgerEntry, b: LedgerEntry)
    requires a.request != b.request && a.request != ZERO_ID && b.request != ZERO_ID
    ensures FirstSeen([a, b]) == [a.request, b.request]
  {
    assert [a][..0] == [];
    assert FirstSeen([a]) == [a.request];
    assert [a, b][..1] == [a];
  }

  /******* Groups partition the entries *******/

  function Concatenated(gs: seq<Group>): seq<LedgerEntry> {
    if gs == [] then [] else Concatenated(gs[..|gs| - 1]) + gs[|gs| - 1].entries
  }

  ghost predicate GroupsFrom(gs: seq<Group>, es: seq<LedgerEntry>) {
    forall i :: 0 <= i < |gs| ==> gs[i].entries == OfRequest(es, gs[i].request)
  }

  lemma OfRequestCounts(es: seq<LedgerEntry>, id: Id, e: LedgerEntry)
    ensures multiset(OfRequest(es, id))[e] == if e.request == id then multiset(es)[e] else 0
  {
    hide Select;
    SelectCounts(es, (x: LedgerEntry) => x.request == id, e);
  }

  lemma {:induction false} ConcatenatedCounts(gs: seq<Group>, es: seq<LedgerEntry>, e: LedgerEntry)
    requires GroupsFrom(gs, es) && Distinct(KeysOf(gs))
    ensures multiset(Concatenated(gs))[e] == if e.request in KeysOf(gs) then multiset(es)[e] else 0
    decreases |gs|
  {
    hide OfRequest;
    if gs == [] {
    } else {
      var n := |gs| - 1;
      var keys := KeysOf(gs);
      assert keys[..n] == KeysOf(gs[..n]);
      ConcatenatedCounts(gs[..n], es, e);
      OfRequestCounts(es, gs[n].request, e);
      assert forall k :: k in keys <==> k in keys[..n] || k == keys[n];
      assert keys[n] !in keys[..n];
    }
  }

  /** Together the groups hold every entry with a request exactly as often as the snapshot does. */
  lemma GroupsPartition(es: seq<LedgerEntry>)
    ensures multiset(Concatenated(Grouped(es))) == multiset(Select(es, HasRequest))
  {
    hide Concatenated, Select, OfRequest;
    AllGroupsPartition(Select(es, HasRequest));
  }

  lemma AllGroupsPartition(es: seq<LedgerEntry>)
    ensures multiset(Concatenated(GroupsOf(es))) == multiset(es)
  {
    hide Concatenated, Select, OfRequest, RequestsOf;
    var gs := GroupsOf(es);
    KeysOfGroups(es);
    forall e ensures multiset(Concatenated(gs))[e] == multiset(es)[e] {
      ConcatenatedCounts(gs, es, e);
      if multiset(es)[e] > 0 {
        assert e in es;
        var i :| 0 <= i < |es| && es[i] == e;
        assert e.request in RequestsOf(es);
      }
    }
  }

  lemma KeysOfGroups(es: seq<LedgerEntry>)
    ensures KeysOf(GroupsOf(es)) == SortedIds(RequestsOf(es)) && Distinct(KeysOf(GroupsOf(es)))
    ensures GroupsFrom(GroupsOf(es), es)
  {
    hide OfRequest, RequestsOf, SortedIds;
    AscendingIsDistinct(SortedIds(RequestsOf(es)));
  }

  /******* Batches *******/

  function SumExecution(accounts: seq<RequestAccount>): nat {
    if accounts == [] then 0 else SumExecution(accounts[..|accounts| - 1]) + accounts[|accounts| - 1].executionNs
  }

  function SumTokens(accounts: seq<RequestAccount>): nat {
    if accounts == [] then 0 else SumTokens(accounts[..|accounts| - 1]) + accounts[|accounts| - 1].generatedTokens
  }

  function SumGpu(accounts: seq<RequestAccount>): nat {
    if accounts == [] then 0 else SumGpu(accounts[..|accounts| - 1]) + accounts[|accounts| - 1].gpuNs
  }

  function CountCancelled(accounts: seq<RequestAccount>): nat {
    if accounts == [] then 0
    else CountCancelled(accounts[..|accounts| - 1]) + if accounts[|accounts| - 1].cancelled then 1 else 0
  }

  lemma {:induction false} BatchOfMembers(batch: Id, gs: seq<Group>)
    ensures var b := BatchOf(batch, gs);
            && b.members == KeysOf(gs) && |b.accounts| == |gs|
            && forall i :: 0 <= i < |gs| ==> b.accounts[i] == Reconcile(gs[i].entries)
  {
    hide Reconcile;
    if gs == [] {
    } else {
      BatchOfMembers(batch, gs[..|gs| - 1]);
      assert BatchOf(batch, gs).members == KeysOf(gs);
    }
  }

  lemma {:induction false} BatchOfTotals(batch: Id, gs: seq<Group>)
    ensures var b := BatchOf(batch, gs);
            && b.executionNs == SumExecution(b.accounts) && b.generatedTokens == SumTokens(b.accounts)
            && b.gpuNs == SumGpu(b.accounts) && b.cancelledMembers == CountCancelled(b.accounts)
  {
    hide Reconcile;
    if gs == [] {
    } else {
      var before, b := BatchOf(batch, gs[..|gs| - 1]), BatchOf(batch, gs);
      BatchOfTotals(batch, gs[..|gs| - 1]);
      assert b.accounts[..|b.accounts| - 1] == before.accounts;
    }
  }

  predicate AnyIncomplete(accounts: seq<RequestAccount>) {
    exists i :: 0 <= i < |accounts| && !accounts[i].completed
  }

  lemma OneMoreAccount(accounts: seq<RequestAccount>, acc: RequestAccount)
    ensures AnyIncomplete(accounts + [acc]) <==> AnyIncomplete(accounts) || !acc.completed
  {
    var after := accounts + [acc];
    assert after[|accounts|] == acc;
    if AnyIncomplete(accounts) {
      var i :| 0 <= i < |accounts| && !accounts[i].completed;
      assert !after[i].completed;
    }
  }

  lemma {:induction false} BatchOfCompletion(batch: Id, gs: seq<Group>)
    ensures BatchOf(batch, gs).partialCompletion <==> AnyIncomplete(BatchOf(batch, gs).accounts)
  {
    hide Reconcile, AnyIncomplete;
    if gs == [] {
      NoneIncomplete();
    } else {
      var n := |gs| - 1;
      BatchOfCompletion(batch, gs[..n]);
      OneMoreAccount(BatchOf(batch, gs[..n]).accounts, Reconcile(gs[n].entries));
    }
  }

  lemma NoneIncomplete()
    ensures !AnyIncomplete([])
  {
  }

  function MemberEntries(es: seq<LedgerEntry>, batch: Id, request: Id): seq<LedgerEntry> {
    Select(es, (e: LedgerEntry) => InBatch(e, batch) && e.request == request)
  }

  /** Batch totals are the sums of reconciling each member separately from the entries
      a filter finds for it; every request of the batch is a member, once, ascending. */
  lemma BatchTotalsAreMemberSums(es: seq<LedgerEntry>, batch: Id)
    ensures var b := BatchFor(es, batch);
            && StrictlyAscending(IdLess, b.members) && |b.accounts| == |b.members|
            && (forall i :: 0 <= i < |b.members| ==> b.accounts[i] == Reconcile(MemberEntries(es, batch, b.members[i])))
            && b.executionNs == SumExecution(b.accounts) && b.generatedTokens == SumTokens(b.accounts)
            && b.gpuNs == SumGpu(b.accounts) && b.cancelledMembers == CountCancelled(b.accounts)
    ensures var b := BatchFor(es, batch);
            forall id :: id in b.members <==> MemberEntries(es, batch, id) != []
    ensures var b := BatchFor(es, batch);
            b.partialCompletion <==> (b.members == [] && es != []) || AnyIncomplete(b.accounts)
  {
    hide Reconcile, BatchOf, RequestsOf, Select, SortedIds, InBatch;
    hide SumExecution, SumTokens, SumGpu, CountCancelled, AnyIncomplete;
    var mine := BatchEntries(es, batch);
    var gs := GroupsOf(mine);
    BatchOfMembers(batch, gs);
    BatchOfTotals(batch, gs);
    BatchOfCompletion(batch, gs);
    KeysOfGroups(mine);
    forall id ensures OfRequest(mine, id) == MemberEntries(es, batch, id) {
      SelectTwice(es, (e: LedgerEntry) => InBatch(e, batch), (e: LedgerEntry) => e.request == id,
                  (e: LedgerEntry) => InBatch(e, batch) && e.request == id);
    }
    forall id ensures id in RequestsOf(mine) <==> MemberEntries(es, batch, id) != [] {
      OccursWhenSelected(mine, id);
    }
  }

  /** A batch account and a query for the batch look at the same entries exactly when
      every entry names a batch: the account also takes in entries that name none. */
  lemma BatchIsQueryWhenLabelled(es: seq<LedgerEntry>, batch: Id)
    ensures BatchEntries(es, batch) == Selected(es, EVERYTHING.(batch := Some(batch))) <==>
            forall i :: 0 <= i < |es| ==> BATCH in es[i].metadata
  {
    hide Select, ToString;
    var q := EVERYTHING.(batch := Some(batch));
    var p := (e: LedgerEntry) => InBatch(e, batch);
    var r := e => Matches(q, e);
    if forall i :: 0 <= i < |es| ==> BATCH in es[i].metadata {
      SelectAgrees(es, p, r);
    } else {
      var i :| 0 <= i < |es| && BATCH !in es[i].metadata;
      SelectCounts(es, p, es[i]);
      SelectCounts(es, r, es[i]);
      assert es[i] in multiset(es);
    }
  }

  /** An entry that names a batch belongs to that batch alone. */
  lemma LabelledEntryHasOneBatch(e: LedgerEntry, a: Id, b: Id)
    requires BATCH in e.metadata && InBatch(e, a) && InBatch(e, b)
    ensures a == b
  {
    hide ToString;
    ToStringInjective(a, b);
  }

  /******* A batch is never charged more than was executed *******/

  lemma {:induction false} CountedTwiceIsFailed(keys: seq<Id>, m: map<Id, Attempt>, winner: Option<Id>)
    requires forall k :: k in keys ==> k in m
    ensures MisfitsOf(keys, m, winner).bothNs <= LosersWaste(keys, m, winner).failedNs
  {
    if keys == [] {
    } else {
      CountedTwiceIsFailed(keys[..|keys| - 1], m, winner);
    }
  }

  lemma ExecutionWasExecuted(es: seq<LedgerEntry>)
    ensures Reconcile(es).executionNs <= ExecutedNs(es)
  {
    hide AttemptsOf, TotalsOf, Winner, ExecutedNs, LosersWaste, MisfitsOf;
    ExecutionIsConserved(es);
    var m := AttemptsOf(es);
    CountedTwiceIsFailed(SortedIds(m.Keys), m, Winner(m));
  }

  lemma {:induction false} ExecutedConcat(a: seq<LedgerEntry>, b: seq<LedgerEntry>)
    ensures ExecutedNs(a + b) == ExecutedNs(a) + ExecutedNs(b)
    decreases |b|
  {
    if b == [] {
      assert a + b == a;
    } else {
      var n := |b| - 1;
      ExecutedConcat(a, b[..n]);
      assert (a + b)[..|a + b| - 1] == a + b[..n];
    }
  }

  function AddExecuted(ns: nat, e: LedgerEntry): nat {
    ns + if Executes(e.eventKind) then DurationNs(e) else 0
  }

  lemma {:induction false} ExecutedIsAFold(es: seq<LedgerEntry>)
    ensures ExecutedNs(es) == Fold(AddExecuted, 0, es)
  {
    if es == [] {
    } else {
      ExecutedIsAFold(es[..|es| - 1]);
    }
  }

  /** Executed time depends on which entries there are, not on their order. */
  lemma ExecutedIgnoresOrder(es: seq<LedgerEntry>, fs: seq<LedgerEntry>)
    requires multiset(es) == multiset(fs)
    ensures ExecutedNs(es) == ExecutedNs(fs)
  {
    hide ExecutedNs, Fold;
    assert Commutes(AddExecuted);
    FoldIgnoresOrder(AddExecuted, 0, es, fs);
    ExecutedIsAFold(es);
    ExecutedIsAFold(fs);
  }

  lemma {:induction false} MembersWereExecuted(batch: Id, gs: seq<Group>)
    ensures BatchOf(batch, gs).executionNs <= ExecutedNs(Concatenated(gs))
  {
    hide Reconcile, ExecutedNs;
    if gs == [] {
    } else {
      var g := gs[|gs| - 1];
      MembersWereExecuted(batch, gs[..|gs| - 1]);
      ExecutionWasExecuted(g.entries);
      ExecutedConcat(Concatenated(gs[..|gs| - 1]), g.entries);
    }
  }

  /** No executed time is charged to two members. */
  lemma BatchNeverOvercharges(es: seq<LedgerEntry>, batch: Id)
    ensures BatchFor(es, batch).executionNs <= ExecutedNs(BatchEntries(es, batch))
  {
    hide BatchOf, ExecutedNs, Concatenated, GroupsOf, BatchEntries;
    var mine := BatchEntries(es, batch);
    MembersWereExecuted(batch, GroupsOf(mine));
    AllGroupsPartition(mine);
    ExecutedIgnoresOrder(Concatenated(GroupsOf(mine)), mine);
  }

  /******* Two attempts in one entry *******/

  /** The entries of attempt `a`, as reconciliation groups them. */
  function OwnGroup(es: seq<LedgerEntry>, a: Id): seq<LedgerEntry> {
    Select(es, (e: LedgerEntry) => e.attempt == a)
  }

  /** The entries that were fenced as attempt `a`. */
  function FencedGroup(es: seq<LedgerEntry>, a: Id): seq<LedgerEntry> {
    Select(es, (e: LedgerEntry) => e.authority.attempt == a)
  }

  /** Grouping by the entry's attempt is grouping by the attempt it was fenced by
      exactly when the two agree on every entry. */
  lemma AttemptGroupsAgree(es: seq<LedgerEntry>)
    ensures (forall a :: OwnGroup(es, a) == FencedGroup(es, a)) <==>
            forall i :: 0 <= i < |es| ==> es[i].attempt == es[i].authority.attempt
  {
    hide Select;
    if forall i :: 0 <= i < |es| ==> es[i].attempt == es[i].authority.attempt {
      forall a ensures OwnGroup(es, a) == FencedGroup(es, a) {
        SelectAgrees(es, (e: LedgerEntry) => e.attempt == a, (e: LedgerEntry) => e.authority.attempt == a);
      }
    } else {
      var i :| 0 <= i < |es| && es[i].attempt != es[i].authority.attempt;
      var e, a := es[i], es[i].attempt;
      SelectCounts(es, (x: LedgerEntry) => x.attempt == a, e);
      SelectCounts(es, (x: LedgerEntry) => x.authority.attempt == a, e);
      assert e in multiset(es);
      assert OwnGroup(es, a) != FencedGroup(es, a);
    }
  }
}
