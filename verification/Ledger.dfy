/** Authority fencing and the append-only ledger. */
module Ledger {
  import opened Base
  import opened Entry

  /******* The coordinator's view, against which events are fenced *******/

  datatype AuthorityState = AuthorityState(
    epoch: U64, accountingGeneration: U64,
    requestGeneration: map<Id, U64>, currentAttempt: map<Id, Id>, attemptGeneration: map<Id, U64>,
    workerBoot: map<Id, Id>, requestRolled: map<Id, bool>, enforceRequestScope: bool)

  datatype Verdict = Accept | StaleEpoch | StaleWorker | StaleGeneration | UnknownWorker

  function ValidateAuthority(e: LedgerEntry, s: AuthorityState): Verdict {
    if e.authority.epoch != s.epoch then StaleEpoch
    else if e.authority.accountingGeneration != s.accountingGeneration then StaleGeneration
    else if e.worker !in s.workerBoot then UnknownWorker
    else if s.workerBoot[e.worker] != e.authority.workerBoot then StaleWorker
    else if !s.enforceRequestScope then Accept
    else if e.request in s.requestRolled && s.requestRolled[e.request] && !e.eventKind.RequestStart?
    then StaleGeneration
    else if e.request in s.requestGeneration && s.requestGeneration[e.request] != e.authority.requestGeneration
    then StaleGeneration
    else if e.request in s.currentAttempt && s.currentAttempt[e.request] != e.authority.attempt then StaleGeneration
    else if e.request in s.attemptGeneration && s.attemptGeneration[e.request] != e.authority.attemptGeneration
    then StaleGeneration
    else Accept
  }

  /******* Appending *******/

  datatype AppendStatus = Accepted | Duplicate | DuplicateConflict | Stale | Invalid

  /** Finite, non-negative when physical, integral when a count. */
  predicate ContentIsValid(e: LedgerEntry) {
    IsFinite(e.quantity.bits) &&
    var physical := e.resourceKind.Compute? || e.resourceKind.Memory? || e.resourceKind.Kv? ||
                    e.resourceKind.Tensor? || e.resourceKind.Transfer? || e.resourceKind.Residency? ||
                    e.resourceKind.Cache? || e.resourceKind == ResourceKind.Energy;
    && !(physical && IsNegative(e.quantity.bits))
    && !(e.quantity.unit.Count? && !IsIntegral(e.quantity.bits))
  }

  /** The position of the entry with identity `id`, by scanning from the front. */
  function Position(entries: seq<LedgerEntry>, id: Id): (p: Option<nat>)
    ensures p.Some? ==> p.value < |entries| && entries[p.value].id == id
    ensures p.None? ==> forall i :: 0 <= i < |entries| ==> entries[i].id != id
  {
    if entries == [] then None
    else if entries[|entries| - 1].id == id && Position(entries[..|entries| - 1], id).None? then Some(|entries| - 1)
    else Position(entries[..|entries| - 1], id)
  }

  /** Status of appending `e` to a ledger that holds `entries`, fenced by `fence` if attached. */
  function StatusOf(entries: seq<LedgerEntry>, fence: Option<AuthorityState>, e: LedgerEntry): AppendStatus {
    if !ContentIsValid(e) then Invalid
    else if fence.Some? && ValidateAuthority(e, fence.value) != Accept then Stale
    else match Position(entries, e.id)
         case Some(i) => if SameEntry(entries[i], e) then Duplicate else DuplicateConflict
         case None => Accepted
  }

  function Appended(entries: seq<LedgerEntry>, fence: Option<AuthorityState>, e: LedgerEntry): seq<LedgerEntry> {
    if StatusOf(entries, fence, e) == Accepted then entries + [e] else entries
  }

  ghost predicate UniqueIds(entries: seq<LedgerEntry>) {
    forall i, j :: 0 <= i < j < |entries| ==> entries[i].id != entries[j].id
  }

  ghost predicate AllValid(entries: seq<LedgerEntry>) {
    forall i :: 0 <= i < |entries| ==> ContentIsValid(entries[i])
  }

  /** The stored entries and the hash index from identity to position. */
  class LedgerLog {
    var entries: seq<LedgerEntry>
    var index: map<Id, nat>

    /** The index is exactly the position map of the entries, so identities are unique. */
    ghost predicate Valid()
      reads this
    {
      && (forall i :: 0 <= i < |entries| ==> entries[i].id in index && index[entries[i].id] == i)
      && (forall id :: id in index ==> index[id] < |entries| && entries[index[id]].id == id)
      && AllValid(entries)
    }

    constructor ()
      ensures Valid() && entries == []
    {
      entries := [];
      index := map[];
    }

    lemma IndexAgrees(id: Id)
      requires Valid()
      ensures Position(entries, id) == if id in index then Some(index[id]) else None
      ensures UniqueIds(entries)
    {
      var p := Position(entries, id);
      if p.Some? { assert entries[p.value].id in index; }
    }

    /** `fence` is the authority state the ledger points at, if one is attached. */
    method Append(e: LedgerEntry, fence: Option<AuthorityState>) returns (status: AppendStatus)
      requires Valid()
      modifies this
      ensures Valid()
      ensures status == StatusOf(old(entries), fence, e)
      ensures entries == Appended(old(entries), fence, e)
    {
      hide SameEntry, ContentIsValid, ValidateAuthority;
      IndexAgrees(e.id);
      if !ContentIsValid(e) { return Invalid; }
      if fence.Some? {
        var v := ValidateAuthority(e, fence.value);
        if v != Accept { return Stale; }
      }
      if e.id in index {
        return if SameEntry(entries[index[e.id]], e) then Duplicate else DuplicateConflict;
      }
      index := index[e.id := |entries|];
      entries := entries + [e];
      return Accepted;
    }

    /** Lookup by identity agrees with a linear scan. */
    method Find(id: Id) returns (found: Option<LedgerEntry>)
      requires Valid()
      ensures found.Some? ==> found.value in entries && found.value.id == id
      ensures found.None? ==> forall e :: e in entries ==> e.id != id
      ensures forall e :: e in entries && e.id == id ==> found == Some(e)
    {
      if id !in index { return None; }
      return Some(entries[index[id]]);
    }

    method Snapshot() returns (copy: seq<LedgerEntry>)
      requires Valid()
      ensures copy == entries && UniqueIds(copy) && AllValid(copy)
    {
      IndexAgrees(ZERO_ID);
      return entries;
    }
  }

  /******* Whole runs of appends *******/

  /** One append and the fence in force at that moment. */
  datatype Attempted = Attempted(entry: LedgerEntry, fence: Option<AuthorityState>)

  function AppendAll(entries: seq<LedgerEntry>, run: seq<Attempted>): seq<LedgerEntry>
    decreases |run|
  {
    if run == [] then entries else AppendAll(Appended(entries, run[0].fence, run[0].entry), run[1..])
  }

  function Unfenced(es: seq<LedgerEntry>): seq<Attempted> {
    seq(|es|, i requires 0 <= i < |es| => Attempted(es[i], None))
  }

  /** Whatever the run and however the fence moves: identities stay unique, every
      stored record is valid, and an earlier snapshot is a prefix of a later one. */
  lemma {:induction false} RunsOnlyExtend(entries: seq<LedgerEntry>, run: seq<Attempted>)
    requires UniqueIds(entries) && AllValid(entries)
    ensures UniqueIds(AppendAll(entries, run)) && AllValid(AppendAll(entries, run))
    ensures entries <= AppendAll(entries, run)
    decreases |run|
  {
    if run == [] {
    } else {
      RunsOnlyExtend(Appended(entries, run[0].fence, run[0].entry), run[1..]);
    }
  }

  /** An unfenced append can store `e` only once: from then on its identity is taken. */
  lemma SecondTimeRefused(entries: seq<LedgerEntry>, later: seq<LedgerEntry>, e: LedgerEntry)
    requires UniqueIds(entries) && UniqueIds(later)
    requires Appended(entries, None, e) <= later
    ensures StatusOf(later, None, e) != Accepted
  {
    var mid := Appended(entries, None, e);
    if ContentIsValid(e) {
      var p := Position(mid, e.id);
      assert p.Some? by {
        if StatusOf(entries, None, e) == Accepted { assert mid[|mid| - 1].id == e.id; }
      }
      assert later[p.value].id == e.id;
    }
  }

  lemma {:induction false} AppendAllSplit(entries: seq<LedgerEntry>, a: seq<Attempted>, b: seq<Attempted>)
    ensures AppendAll(entries, a + b) == AppendAll(AppendAll(entries, a), b)
    decreases |a|
  {
    if a == [] {
      assert a + b == b;
    } else {
      assert (a + b)[1..] == a[1..] + b;
      AppendAllSplit(Appended(entries, a[0].fence, a[0].entry), a[1..], b);
    }
  }

  lemma {:induction false} NoneAccepted(entries: seq<LedgerEntry>, es: seq<LedgerEntry>)
    requires forall e :: e in es ==> StatusOf(entries, None, e) != Accepted
    ensures AppendAll(entries, Unfenced(es)) == entries
    decreases |es|
  {
    if es == [] {
    } else {
      assert Unfenced(es)[1..] == Unfenced(es[1..]);
      NoneAccepted(entries, es[1..]);
    }
  }

  lemma ProcessedIsRefused(entries: seq<LedgerEntry>, es: seq<LedgerEntry>, i: nat)
    requires UniqueIds(entries) && AllValid(entries) && i < |es|
    ensures StatusOf(AppendAll(entries, Unfenced(es)), None, es[i]) != Accepted
  {
    hide StatusOf, Appended;
    var before, now, after := Unfenced(es)[..i], [Attempted(es[i], None)], Unfenced(es)[i + 1..];
    assert Unfenced(es) == before + (now + after);
    AppendAllSplit(entries, before, now + after);
    var mid := AppendAll(entries, before);
    assert (now + after)[1..] == after;
    RunsOnlyExtend(entries, before);
    RunsOnlyExtend(mid, now);
    assert AppendAll(mid, now) == Appended(mid, None, es[i]);
    RunsOnlyExtend(Appended(mid, None, es[i]), after);
    SecondTimeRefused(mid, AppendAll(entries, Unfenced(es)), es[i]);
  }

  /** With no fence, appending an already-processed stream again, or any
      reordering or part of it, changes nothing. */
  lemma ReplayIsNoOp(entries: seq<LedgerEntry>, es: seq<LedgerEntry>, again: seq<LedgerEntry>)
    requires UniqueIds(entries) && AllValid(entries)
    requires forall e :: e in again ==> e in es
    ensures var done := AppendAll(entries, Unfenced(es)); AppendAll(done, Unfenced(again)) == done
  {
    hide StatusOf;
    var done := AppendAll(entries, Unfenced(es));
    forall e | e in again ensures StatusOf(done, None, e) != Accepted {
      var i :| 0 <= i < |es| && es[i] == e;
      ProcessedIsRefused(entries, es, i);
    }
    NoneAccepted(done, again);
  }

  /** A stream of valid entries with new, distinct identities is stored whole and in order. */
  lemma {:induction false} FreshStreamStored(entries: seq<LedgerEntry>, es: seq<LedgerEntry>)
    requires UniqueIds(entries + es) && AllValid(es)
    ensures AppendAll(entries, Unfenced(es)) == entries + es
    decreases |es|
  {
    if es == [] {
      assert entries + es == entries;
    } else {
      var e := es[0];
      forall i | 0 <= i < |entries| ensures entries[i].id != e.id {
        assert (entries + es)[i].id != (entries + es)[|entries|].id;
      }
      assert (entries + [e]) + es[1..] == entries + es;
      FreshStreamStored(entries + [e], es[1..]);
      assert Unfenced(es)[1..] == Unfenced(es[1..]);
    }
  }
}
