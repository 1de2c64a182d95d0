/** Queries over a snapshot, grouping by request, and batch accounts. */
module Query {
  import opened Base
  import opened Entry
  import opened Identity
  import opened Account

  /** A filter: an absent field, or an empty outcome, asks for nothing. */
  datatype LedgerQuery = LedgerQuery(
    request: Option<Id>, tenant: Option<Id>, model: Option<Id>, modelRevision: Option<Id>, adapter: Option<Id>,
    batch: Option<Id>, attempt: Option<Id>, worker: Option<Id>, device: Option<Id>,
    eventKind: Option<EventKind>, resourceKind: Option<ResourceKind>,
    startNs: Option<U64>, endNs: Option<U64>, outcome: Bytes)

  const EVERYTHING: LedgerQuery :=
    LedgerQuery(None, None, None, None, None, None, None, None, None, None, None, None, None, [])

  /** The metadata keys "batch" and "outcome". */
  const BATCH: Bytes := [98, 97, 116, 99, 104]
  const OUTCOME: Bytes := [111, 117, 116, 99, 111, 109, 101]

  predicate Labelled(e: LedgerEntry, key: Bytes, value: Bytes) {
    key in e.metadata && e.metadata[key] == value
  }

  predicate Matches(q: LedgerQuery, e: LedgerEntry) {
    && (q.request.Some? ==> e.request == q.request.value)
    && (q.tenant.Some? ==> e.tenant == q.tenant.value)
    && (q.model.Some? ==> e.model == q.model.value)
    && (q.modelRevision.Some? ==> e.modelRevision == q.modelRevision.value)
    && (q.adapter.Some? ==> e.hasAdapter && e.adapter == q.adapter.value)
    && (q.attempt.Some? ==> e.attempt == q.attempt.value)
    && (q.worker.Some? ==> e.worker == q.worker.value)
    && (q.device.Some? ==> e.device == q.device.value)
    && (q.eventKind.Some? ==> e.eventKind == q.eventKind.value)
    && (q.resourceKind.Some? ==> e.resourceKind == q.resourceKind.value)
    && (q.startNs.Some? ==> e.startNs >= q.startNs.value)
    && (q.endNs.Some? ==> e.startNs <= q.endNs.value)
    && (q.batch.Some? ==> Labelled(e, BATCH, ToString(q.batch.value)))
    && (q.outcome != [] ==> Labelled(e, OUTCOME, q.outcome))
  }

  /** The entries that satisfy `p`, in their order. */
  function Select(es: seq<LedgerEntry>, p: LedgerEntry -> bool): seq<LedgerEntry> {
    if es == [] then [] else
    var n := |es| - 1;
    Select(es[..n], p) + if p(es[n]) then [es[n]] else []
  }

  function Selected(es: seq<LedgerEntry>, q: LedgerQuery): seq<LedgerEntry> {
    Select(es, e => Matches(q, e))
  }

  method QueryLedger(es: seq<LedgerEntry>, q: LedgerQuery) returns (out: seq<LedgerEntry>)
    ensures out == Selected(es, q)
  {
    hide Matches;
    out := [];
    for i := 0 to |es|
      invariant out == Selected(es[..i], q)
    {
      assert es[..i + 1][..i] == es[..i];
      if Matches(q, es[i]) { out := out + [es[i]]; }
    }
    assert es[..|es|] == es;
  }

  /******* Requests *******/

  predicate HasRequest(e: LedgerEntry) { e.request != ZERO_ID }

  /** The requests of `es`; the zero identity is one like any other. */
  function RequestsOf(es: seq<LedgerEntry>): (ids: set<Id>)
    ensures forall id :: id in ids <==> exists i :: 0 <= i < |es| && es[i].request == id
  {
    set i | 0 <= i < |es| :: es[i].request
  }

  /** Non-zero requests in the order in which each first occurs. */
  function FirstSeen(es: seq<LedgerEntry>): seq<Id> {
    if es == [] then [] else
    var n := |es| - 1;
    var before := FirstSeen(es[..n]);
    if es[n].request == ZERO_ID || es[n].request in before then before else before + [es[n].request]
  }

  method DistinctRequests(es: seq<LedgerEntry>) returns (out: seq<Id>)
    ensures out == FirstSeen(es)
  {
    out := [];
    var seen: set<Id> := {};
    for i := 0 to |es|
      invariant out == FirstSeen(es[..i])
      invariant forall id :: id in seen <==> id in out
    {
      assert es[..i + 1][..i] == es[..i];
      if es[i].request != ZERO_ID && es[i].request !in seen {
        seen := seen + {es[i].request};
        out := out + [es[i].request];
      }
    }
    assert es[..|es|] == es;
  }

  function OfRequest(es: seq<LedgerEntry>, id: Id): seq<LedgerEntry> {
    Select(es, (e: LedgerEntry) => e.request == id)
  }

  datatype Group = Group(request: Id, entries: seq<LedgerEntry>)

  /** One group per request of `es`, ascending. */
  function GroupsOf(es: seq<LedgerEntry>): (gs: seq<Group>)
    ensures |gs| == |SortedIds(RequestsOf(es))|
    ensures forall i :: 0 <= i < |gs| ==>
              gs[i] == Group(SortedIds(RequestsOf(es))[i], OfRequest(es, SortedIds(RequestsOf(es))[i]))
  {
    var ids := SortedIds(RequestsOf(es));
    seq(|ids|, i requires 0 <= i < |ids| => Group(ids[i], OfRequest(es, ids[i])))
  }

  function Pushed(m: map<Id, seq<LedgerEntry>>, e: LedgerEntry): map<Id, seq<LedgerEntry>> {
    m[e.request := (if e.request in m then m[e.request] else []) + [e]]
  }

  /** The map holds the entries so far, by request. */
  ghost predicate HoldsGroups(m: map<Id, seq<LedgerEntry>>, es: seq<LedgerEntry>) {
    m.Keys == RequestsOf(es) && forall id :: id in m ==> m[id] == OfRequest(es, id)
  }

  lemma {:induction false} NoneOfRequest(es: seq<LedgerEntry>, id: Id)
    requires id !in RequestsOf(es)
    ensures OfRequest(es, id) == []
  {
    if es == [] {
    } else {
      var n := |es| - 1;
      assert es[n].request in RequestsOf(es);
      forall i | 0 <= i < n ensures es[..n][i].request != id { assert es[i].request in RequestsOf(es); }
      NoneOfRequest(es[..n], id);
    }
  }

  lemma OneMoreRequest(es: seq<LedgerEntry>, e: LedgerEntry)
    ensures RequestsOf(es + [e]) == RequestsOf(es) + {e.request}
  {
    hide RequestsOf;
    var after := es + [e];
    assert after[|es|] == e;
    forall id | id in RequestsOf(es) ensures id in RequestsOf(after) {
      var i :| 0 <= i < |es| && es[i].request == id;
      assert after[i].request == id;
    }
  }

  lemma PushKeepsGroups(m: map<Id, seq<LedgerEntry>>, es: seq<LedgerEntry>, e: LedgerEntry)
    requires HoldsGroups(m, es)
    ensures HoldsGroups(Pushed(m, e), es + [e])
  {
    hide RequestsOf;
    var after := es + [e];
    assert after[..|es|] == es;
    OneMoreRequest(es, e);
    if e.request !in m { NoneOfRequest(es, e.request); }
    forall id | id in Pushed(m, e) ensures Pushed(m, e)[id] == OfRequest(after, id) {
      if id != e.request { assert OfRequest(es, id) + [] == OfRequest(es, id); }
    }
  }

  method GroupByRequest(es: seq<LedgerEntry>) returns (out: seq<Group>)
    ensures out == GroupsOf(Select(es, HasRequest))
  {
    hide Pushed, RequestsOf, HoldsGroups, OfRequest;
    var m: map<Id, seq<LedgerEntry>> := map[];
    NothingHeld();
    for i := 0 to |es|
      invariant HoldsGroups(m, Select(es[..i], HasRequest))
    {
      assert es[..i + 1][..i] == es[..i];
      ghost var before := Select(es[..i], HasRequest);
      if es[i].request == ZERO_ID {
        assert before + [] == before;
      } else {
        PushKeepsGroups(m, before, es[i]);
        m := Pushed(m, es[i]);
      }
    }
    assert es[..|es|] == es;
    out := Listed(m, Select(es, HasRequest));
  }

  lemma NothingHeld()
    ensures HoldsGroups(map[], [])
  {
  }

  /** Walk a map of groups in ascending order. */
  method Listed(m: map<Id, seq<LedgerEntry>>, ghost es: seq<LedgerEntry>) returns (out: seq<Group>)
    requires HoldsGroups(m, es)
    ensures out == GroupsOf(es)
  {
    hide OfRequest, RequestsOf, SortedIds;
    var order := SortedIds(m.Keys);
    out := [];
    for i := 0 to |order|
      invariant out == GroupsOf(es)[..i]
    {
      out := out + [Group(order[i], m[order[i]])];
    }
  }

  /******* Batch accounts *******/

  /** An entry that names no batch counts towards every batch. */
  predicate InBatch(e: LedgerEntry, batch: Id) {
    BATCH in e.metadata ==> e.metadata[BATCH] == ToString(batch)
  }

  function BatchEntries(es: seq<LedgerEntry>, batch: Id): seq<LedgerEntry> {
    Select(es, (e: LedgerEntry) => InBatch(e, batch))
  }

  datatype BatchAccount = BatchAccount(
    batch: Id, members: seq<Id>, accounts: seq<RequestAccount>,
    executionNs: nat, generatedTokens: nat, gpuNs: nat, cancelledMembers: nat, partialCompletion: bool)

  function Included(b: BatchAccount, request: Id, acc: RequestAccount): BatchAccount {
    BatchAccount(b.batch, b.members + [request], b.accounts + [acc],
                 b.executionNs + acc.executionNs, b.generatedTokens + acc.generatedTokens, b.gpuNs + acc.gpuNs,
                 b.cancelledMembers + (if acc.cancelled then 1 else 0), b.partialCompletion || !acc.completed)
  }

  function BatchOf(batch: Id, gs: seq<Group>): BatchAccount {
    if gs == [] then BatchAccount(batch, [], [], 0, 0, 0, 0, false)
    else
      var g := gs[|gs| - 1];
      Included(BatchOf(batch, gs[..|gs| - 1]), g.request, Reconcile(g.entries))
  }

  function BatchFor(es: seq<LedgerEntry>, batch: Id): BatchAccount {
    var b := BatchOf(batch, GroupsOf(BatchEntries(es, batch)));
    if b.members == [] && es != [] then b.(partialCompletion := true) else b
  }

  method ReconcileBatch(es: seq<LedgerEntry>, batch: Id) returns (b: BatchAccount)
    ensures b == BatchFor(es, batch)
  {
    hide Pushed, RequestsOf, HoldsGroups, OfRequest, GroupsOf, InBatch, Included, Reconcile;
    var m: map<Id, seq<LedgerEntry>> := map[];
    NothingHeld();
    for i := 0 to |es|
      invariant HoldsGroups(m, BatchEntries(es[..i], batch))
    {
      assert es[..i + 1][..i] == es[..i];
      ghost var before := BatchEntries(es[..i], batch);
      if InBatch(es[i], batch) {
        PushKeepsGroups(m, before, es[i]);
        m := Pushed(m, es[i]);
      } else {
        assert before + [] == before;
      }
    }
    assert es[..|es|] == es;
    var gs := Listed(m, BatchEntries(es, batch));
    b := BatchAccount(batch, [], [], 0, 0, 0, 0, false);
    for i := 0 to |gs|
      invariant b == BatchOf(batch, gs[..i])
    {
      assert gs[..i + 1][..i] == gs[..i];
      var acc := ReconcileRequest(gs[i].entries);
      b := Included(b, gs[i].request, acc);
    }
    assert gs[..|gs|] == gs;
    if b.members == [] && es != [] { b := b.(partialCompletion := true); }
  }
}
