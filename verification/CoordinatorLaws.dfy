/** What every run of the coordinator keeps, whatever the interleaving. */
module CoordinatorLaws {
  import opened Base
  import opened Entry
  import opened Ledger
  import opened Coordinator

  /******* The epoch *******/

  predicate IsAdvance(step: Step) { step.CallAdvanceEpoch? || step.AdvancesEpoch? }

  function Advances(run: Run): nat {
    if run == [] then 0 else Advances(Front(run)) + if IsAdvance(Last(run)) then 1 else 0
  }

  lemma StepEpoch(s: State, step: Step)
    requires Enabled(s, step)
    ensures var a, b := s.authority, Next(s, step).authority;
            && b.epoch == (if IsAdvance(step) then NextGeneration(a.epoch) else a.epoch)
            && b.accountingGeneration
               == (if IsAdvance(step) then NextGeneration(a.accountingGeneration) else a.accountingGeneration)
            && b.enforceRequestScope == a.enforceRequestScope
  {
    hide StatusOf, Appended;
  }

  /** Epoch and accounting generation move together and count the rolls. */
  lemma {:induction false} EpochCountsRolls(run: Run)
    requires Possible(run)
    ensures At(run).authority.epoch == At(run).authority.accountingGeneration == (1 + Advances(run)) % U64_MODULUS
  {
    hide Next, Enabled;
    if run == [] {
    } else {
      EpochCountsRolls(Front(run));
      StepEpoch(At(Front(run)), Last(run));
    }
  }

  /** The 64-bit counters have not wrapped. */
  predicate NoWrap(run: Run) { Advances(run) < U64_MODULUS - 1 }

  ghost predicate EpochsFenced(s: State) {
    && (forall i :: 0 <= i < |s.entries| ==> s.entries[i].authority.epoch <= s.authority.epoch)
    && (forall i, j :: 0 <= i <= j < |s.entries| ==>
          s.entries[i].authority.epoch <= s.entries[j].authority.epoch)
  }

  /** A stored entry passed the fence: it carries the epoch, generation and boot in force. */
  lemma AcceptedIsCurrent(entries: seq<LedgerEntry>, fence: AuthorityState, e: LedgerEntry)
    requires StatusOf(entries, Some(fence), e) == Accepted
    ensures e.authority.epoch == fence.epoch && e.authority.accountingGeneration == fence.accountingGeneration
    ensures e.worker in fence.workerBoot && fence.workerBoot[e.worker] == e.authority.workerBoot
    ensures fence.enforceRequestScope ==>
              var r, a := e.request, e.authority;
              && (r in fence.requestRolled && fence.requestRolled[r] ==> e.eventKind.RequestStart?)
              && (r in fence.requestGeneration ==> fence.requestGeneration[r] == a.requestGeneration)
              && (r in fence.currentAttempt ==> fence.currentAttempt[r] == a.attempt)
              && (r in fence.attemptGeneration ==> fence.attemptGeneration[r] == a.attemptGeneration)
  {
    hide ContentIsValid, SameEntry, Position;
  }

  /** An event of another epoch, or of a boot other than the one in force, is refused. */
  lemma StaleIsRefused(s: State, e: LedgerEntry)
    ensures e.authority.epoch != s.authority.epoch ==> EventStatus(s, e) != Accepted
    ensures e.worker in s.authority.workerBoot && s.authority.workerBoot[e.worker] != e.authority.workerBoot ==>
              EventStatus(s, e) != Accepted
  {
    hide StatusOf;
    if EventStatus(s, e) == Accepted { AcceptedIsCurrent(s.entries, FenceFor(s, e), e); }
  }

  /** Only handling an event touches the ledger, and then by at most one entry at the end. */
  lemma StepLedger(s: State, step: Step)
    requires Enabled(s, step)
    ensures Next(s, step).entries == s.entries ||
            (&& step.HandlesEvent? && EventStatus(s, step.entry) == Accepted
             && Next(s, step).entries == s.entries + [step.entry])
  {
    hide StatusOf;
  }

  /** In every run the epochs of stored entries never decrease in storage order
      and never exceed the current epoch. */
  lemma {:induction false} StoredEpochsFenced(run: Run)
    requires Possible(run) && NoWrap(run)
    ensures EpochsFenced(At(run))
  {
    hide Next, Enabled, StatusOf, Appended;
    if run == [] {
    } else {
      var s, step := At(Front(run)), Last(run);
      StoredEpochsFenced(Front(run));
      EpochCountsRolls(Front(run));
      EpochCountsRolls(run);
      StepLedger(s, step);
      if step.HandlesEvent? && EventStatus(s, step.entry) == Accepted {
        AcceptedIsCurrent(s.entries, FenceFor(s, step.entry), step.entry);
      }
    }
  }

  /** Later snapshots extend earlier ones. */
  lemma {:induction false} LedgerOnlyGrows(run: Run, k: nat)
    requires Possible(run) && k <= |run|
    ensures Possible(run[..k]) && At(run[..k]).entries <= At(run).entries
    decreases |run|
  {
    hide StatusOf, Appended, Next, Enabled;
    PrefixPossible(run, k);
    if k < |run| {
      LedgerOnlyGrows(Front(run), k);
      assert Front(run)[..k] == run[..k];
      StepLedger(At(Front(run)), Last(run));
    } else {
      assert run[..k] == run;
    }
  }

  lemma {:induction false} EpochOnlyGrows(run: Run, k: nat)
    requires Possible(run) && NoWrap(run) && k <= |run|
    ensures Possible(run[..k]) && At(run[..k]).authority.epoch <= At(run).authority.epoch
    decreases |run|
  {
    hide StatusOf, Appended, Next, Enabled;
    PrefixPossible(run, k);
    if k < |run| {
      EpochOnlyGrows(Front(run), k);
      assert Front(run)[..k] == run[..k];
      EpochCountsRolls(Front(run));
      EpochCountsRolls(run);
    } else {
      assert run[..k] == run;
    }
  }

  /** Once the epoch has reached `n`, no later step stores an entry of an earlier epoch. */
  lemma {:induction false} NoStaleEpochAfterwards(run: Run, k: nat, i: nat)
    requires Possible(run) && NoWrap(run) && k <= |run|
    requires Possible(run[..k]) && |At(run[..k]).entries| <= i < |At(run).entries|
    ensures At(run).entries[i].authority.epoch >= At(run[..k]).authority.epoch
    decreases |run|
  {
    hide StatusOf, Appended, Next, Enabled;
    assert run[..|run|] == run;
    if k < |run| {
      var s, step := At(Front(run)), Last(run);
      assert Front(run)[..k] == run[..k];
      StepLedger(s, step);
      if i < |s.entries| {
        NoStaleEpochAfterwards(Front(run), k, i);
      } else {
        AcceptedIsCurrent(s.entries, FenceFor(s, step.entry), step.entry);
        EpochOnlyGrows(Front(run), k);
      }
    }
  }

  /******* Boots and request authority, as the history of steps tells them *******/

  /** The boot most recently registered for worker `w`. */
  function LastBoot(run: Run, w: Id): Option<Id> {
    if run == [] then None
    else if Last(run).AdoptsBoot? && Last(run).worker == w then Some(Last(run).boot)
    else LastBoot(Front(run), w)
  }

  /** The step gives request `r` a new authority: a RequestStart is handled,
      whatever its status, or an outside caller sets it. */
  predicate Grants(step: Step, r: Id) {
    || (step.HandlesEvent? && step.entry.eventKind.RequestStart? && step.entry.request == r)
    || (step.CallSetRequestAuthority? && step.entry.request == r)
  }

  /** The envelope of the latest such step. */
  function LastGrant(run: Run, r: Id): Option<Envelope> {
    if run == [] then None
    else if Grants(Last(run), r) then Some(Last(run).entry.authority)
    else LastGrant(Front(run), r)
  }

  lemma StepBoots(s: State, step: Step)
    requires Enabled(s, step)
    ensures Next(s, step).authority.workerBoot
         == if step.AdoptsBoot? then s.authority.workerBoot[step.worker := step.boot] else s.authority.workerBoot
  {
    hide StatusOf, Appended;
  }

  lemma {:induction false} BootsAgree(run: Run, w: Id)
    requires Possible(run)
    ensures var boots := At(run).authority.workerBoot;
            LastBoot(run, w) == if w in boots then Some(boots[w]) else None
  {
    hide Next, Enabled;
    if run == [] {
    } else {
      BootsAgree(Front(run), w);
      StepBoots(At(Front(run)), Last(run));
    }
  }

  /** How request `r` stands in the four per-request maps. */
  ghost predicate Holds(a: AuthorityState, r: Id, grant: Option<Envelope>) {
    match grant
    case None =>
      && r !in a.requestGeneration && r !in a.currentAttempt
      && r !in a.attemptGeneration && r !in a.requestRolled
    case Some(g) =>
      && r in a.requestGeneration && a.requestGeneration[r] == g.requestGeneration
      && r in a.currentAttempt && a.currentAttempt[r] == g.attempt
      && r in a.attemptGeneration && a.attemptGeneration[r] == g.attemptGeneration
      && r in a.requestRolled
  }

  lemma StepGrants(s: State, step: Step, r: Id, grant: Option<Envelope>)
    requires Enabled(s, step) && Holds(s.authority, r, grant) && (r in s.inFlight ==> grant.Some?)
    ensures Holds(Next(s, step).authority, r, if Grants(step, r) then Some(step.entry.authority) else grant)
    ensures r in Next(s, step).inFlight ==> Grants(step, r) || grant.Some?
  {
    hide StatusOf, Appended;
    if !step.HandlesEvent? {
      hide Next, Enabled, Holds;
      OtherStepsKeepGrants(s, step, r, grant);
    }
  }

  lemma OtherStepsKeepGrants(s: State, step: Step, r: Id, grant: Option<Envelope>)
    requires Enabled(s, step) && !step.HandlesEvent?
    requires Holds(s.authority, r, grant) && (r in s.inFlight ==> grant.Some?)
    ensures Next(s, step).inFlight == s.inFlight
    ensures Holds(Next(s, step).authority, r, if Grants(step, r) then Some(step.entry.authority) else grant)
  {
    hide Survivors, Send;
    if !step.MarksRolled? && !step.CallSetRequestAuthority? {
      hide Next, Enabled, Holds;
      OtherStepsKeepMaps(s, step);
      SameMapsHoldTheSame(s.authority, Next(s, step).authority, r, grant);
    }
  }

  lemma OtherStepsKeepMaps(s: State, step: Step)
    requires Enabled(s, step) && !step.HandlesEvent? && !step.MarksRolled? && !step.CallSetRequestAuthority?
    ensures SameMaps(s.authority, Next(s, step).authority) && Next(s, step).inFlight == s.inFlight
  {
    hide Survivors, Send;
  }

  predicate SameMaps(a: AuthorityState, b: AuthorityState) {
    && a.requestGeneration == b.requestGeneration && a.currentAttempt == b.currentAttempt
    && a.attemptGeneration == b.attemptGeneration && a.requestRolled == b.requestRolled
  }

  lemma SameMapsHoldTheSame(a: AuthorityState, b: AuthorityState, r: Id, grant: Option<Envelope>)
    requires SameMaps(a, b) && Holds(a, r, grant)
    ensures Holds(b, r, grant)
  {
  }

  /** In every run the four per-request maps hold exactly the latest grant of
      each request, and every request in flight has one. */
  lemma {:induction false} GrantsAgree(run: Run, r: Id)
    requires Possible(run)
    ensures Holds(At(run).authority, r, LastGrant(run, r))
    ensures r in At(run).inFlight ==> LastGrant(run, r).Some?
  {
    hide Next, Enabled, Holds;
    if run == [] {
      NothingHeld(r);
    } else {
      GrantsAgree(Front(run), r);
      StepGrants(At(Front(run)), Last(run), r, LastGrant(Front(run), r));
    }
  }

  lemma NothingHeld(r: Id)
    ensures Holds(INITIAL.authority, r, None)
  {
  }

  lemma MapsShareOneDomain(run: Run)
    requires Possible(run)
    ensures var a := At(run).authority;
            && a.requestGeneration.Keys == a.currentAttempt.Keys == a.attemptGeneration.Keys == a.requestRolled.Keys
            && At(run).inFlight <= a.requestRolled.Keys
  {
    var a := At(run).authority;
    hide At, Possible;
    forall r ensures (r in a.requestGeneration <==> r in a.currentAttempt)
                  && (r in a.currentAttempt <==> r in a.attemptGeneration)
                  && (r in a.attemptGeneration <==> r in a.requestRolled)
                  && (r in At(run).inFlight ==> r in a.requestRolled) {
      GrantsAgree(run, r);
    }
  }

  lemma {:induction false} ScopeEnforced(run: Run)
    requires Possible(run)
    ensures At(run).authority.enforceRequestScope
  {
    hide Next, Enabled;
    if run == [] {
    } else {
      ScopeEnforced(Front(run));
      StepEpoch(At(Front(run)), Last(run));
    }
  }

  /** Step `t` of the run stores entry `e`. */
  ghost predicate Stores(run: Run, t: nat, e: LedgerEntry)
    requires Possible(run)
  {
    && t < |run| && Possible(run[..t]) && Possible(run[..t + 1])
    && At(run[..t + 1]).entries == At(run[..t]).entries + [e]
  }

  /** What holds of `e` when step `t` stores it. */
  ghost predicate CurrentWhenStored(run: Run, t: nat, e: LedgerEntry)
    requires Possible(run)
  {
    && t < |run| && Possible(run[..t]) && run[t].HandlesEvent? && run[t].entry == e
    && e.authority.epoch == At(run[..t]).authority.epoch
    && e.authority.accountingGeneration == At(run[..t]).authority.accountingGeneration
    && LastBoot(run[..t], e.worker) == Some(e.authority.workerBoot)
    && match LastGrant(run[..t + 1], e.request)
       case None => true
       case Some(g) => && g.requestGeneration == e.authority.requestGeneration
                       && g.attempt == e.authority.attempt
                       && g.attemptGeneration == e.authority.attemptGeneration
  }

  /** Each entry, as of the step that stores it, carries the epoch in force, the
      boot most recently registered for its worker and, once its request has been
      granted an authority, the generations and attempt of the latest grant. */
  lemma StoredEntryIsCurrent(run: Run, t: nat, e: LedgerEntry)
    requires Possible(run) && Stores(run, t, e)
    ensures CurrentWhenStored(run, t, e)
  {
    hide Next, Enabled, At, Possible, StatusOf, Appended, Holds;
    PrefixStep(run, t);
    var s, step := At(run[..t]), run[t];
    StepLedger(s, step);
    assert s.entries + [e] != s.entries;
    assert (s.entries + [e])[|s.entries|] == e;
    AcceptedIsCurrent(s.entries, FenceFor(s, e), e);
    BootsAgree(run[..t], e.worker);
    ScopeEnforced(run[..t]);
    GrantsAgree(run[..t], e.request);
    HeldGrantMatches(s, e, LastGrant(run[..t], e.request));
    assert Front(run[..t + 1]) == run[..t] && Last(run[..t + 1]) == step;
  }

  lemma HeldGrantMatches(s: State, e: LedgerEntry, grant: Option<Envelope>)
    requires Holds(s.authority, e.request, grant) && s.authority.enforceRequestScope
    requires EventStatus(s, e) == Accepted
    ensures grant.Some? && !e.eventKind.RequestStart? ==>
              && grant.value.requestGeneration == e.authority.requestGeneration
              && grant.value.attempt == e.authority.attempt
              && grant.value.attemptGeneration == e.authority.attemptGeneration
  {
    hide StatusOf;
    AcceptedIsCurrent(s.entries, FenceFor(s, e), e);
  }

  /** Every stored entry has exactly such a step. */
  lemma {:induction false} EveryEntryWasStored(run: Run, i: nat) returns (t: nat)
    requires Possible(run) && i < |At(run).entries|
    ensures Stores(run, t, At(run).entries[i]) && |At(run[..t]).entries| == i
    ensures CurrentWhenStored(run, t, At(run).entries[i])
    decreases |run|
  {
    hide Next, Enabled, StatusOf, Appended, CurrentWhenStored;
    var s, step := At(Front(run)), Last(run);
    StepLedger(s, step);
    if i < |s.entries| {
      t := EveryEntryWasStored(Front(run), i);
      assert Front(run)[..t] == run[..t] && Front(run)[..t + 1] == run[..t + 1];
    } else {
      t := |run| - 1;
      assert run[..t] == Front(run) && run[..t + 1] == run;
    }
    StoredEntryIsCurrent(run, t, At(run).entries[i]);
  }

  /******* Worker loss *******/

  lemma StepRolled(s: State, step: Step, r: Id)
    requires Enabled(s, step) && r in s.authority.requestRolled && s.authority.requestRolled[r] && !Grants(step, r)
    requires s.authority.enforceRequestScope
    ensures r in Next(s, step).authority.requestRolled && Next(s, step).authority.requestRolled[r]
    ensures Next(s, step).entries == s.entries ||
            (step.HandlesEvent? && step.entry.request != r && Next(s, step).entries == s.entries + [step.entry])
  {
    hide StatusOf, Appended;
    StepLedger(s, step);
    if step.HandlesEvent? && EventStatus(s, step.entry) == Accepted {
      AcceptedIsCurrent(s.entries, FenceFor(s, step.entry), step.entry);
    }
  }

  /** From the step that finds request `r` in flight while a worker is lost until
      the next grant for `r`, the request stays rolled and no entry of `r`
      enters the ledger, whatever else happens. */
  lemma {:induction false} LostRequestIsSealed(run: Run, k: nat, r: Id)
    requires Possible(run) && k < |run| && run[k].MarksRolled?
    requires Possible(run[..k]) && r in At(run[..k]).inFlight
    requires forall j :: k < j < |run| ==> !Grants(run[j], r)
    ensures r in At(run).authority.requestRolled && At(run).authority.requestRolled[r]
    ensures |At(run[..k]).entries| <= |At(run).entries|
    ensures forall i :: |At(run[..k]).entries| <= i < |At(run).entries| ==> At(run).entries[i].request != r
    decreases |run|
  {
    hide Next, Enabled, StatusOf, Appended;
    var s, step := At(Front(run)), Last(run);
    if k == |run| - 1 {
      assert run[..k] == Front(run);
      MarkSeals(s, step, r);
    } else {
      assert Front(run)[..k] == run[..k];
      LostRequestIsSealed(Front(run), k, r);
      ScopeEnforced(Front(run));
      StepRolled(s, step, r);
    }
  }

  lemma MarkSeals(s: State, step: Step, r: Id)
    requires Enabled(s, step) && step.MarksRolled? && r in s.inFlight
    ensures Next(s, step).entries == s.entries
    ensures r in Next(s, step).authority.requestRolled && Next(s, step).authority.requestRolled[r]
  {
  }

  /** And the seal ends there: the next grant lifts it even when the RequestStart
      that carries it is itself refused. */
  lemma GrantLiftsSeal(s: State, step: Step, r: Id)
    requires Enabled(s, step) && Grants(step, r)
    ensures Holds(Next(s, step).authority, r, Some(step.entry.authority))
    ensures !Next(s, step).authority.requestRolled[r]
  {
    hide StatusOf, Appended;
  }

  /******* Requests in flight *******/

  /** The last start or end of `r` among `entries` is a start. */
  predicate Open(entries: seq<LedgerEntry>, r: Id) {
    if entries == [] then false else
    var e := entries[|entries| - 1];
    if e.request == r && e.eventKind.RequestStart? then true
    else if e.request == r && e.eventKind.RequestEnd? then false
    else Open(entries[..|entries| - 1], r)
  }

  lemma StepInFlight(s: State, step: Step, r: Id)
    requires Enabled(s, step)
    ensures var n := Next(s, step);
            if n.entries == s.entries then n.inFlight == s.inFlight
            else
              && step.HandlesEvent? && n.entries == s.entries + [step.entry]
              && (r in n.inFlight <==>
                  (|| (step.entry.eventKind.RequestStart? && step.entry.request == r)
                   || (r in s.inFlight && !(step.entry.eventKind.RequestEnd? && step.entry.request == r))))
  {
    hide StatusOf;
  }

  /** `in_flight_` is exactly the set of requests whose last stored start or end is a start. */
  lemma {:induction false} InFlightIsOpen(run: Run, r: Id)
    requires Possible(run)
    ensures r in At(run).inFlight <==> Open(At(run).entries, r)
  {
    hide Next, Enabled;
    if run == [] {
    } else {
      var s, n := At(Front(run)), At(run);
      InFlightIsOpen(Front(run), r);
      StepInFlight(s, Last(run), r);
      if n.entries != s.entries {
        assert n.entries[..|n.entries| - 1] == s.entries;
      }
    }
  }

  /** An event that is not accepted leaves ledger, requests in flight, epoch,
      accounting generation and boots alone; it touches per-request records only
      if it is a RequestStart, and then only its own request's. */
  lemma RejectedEventLeavesNoTrace(s: State, c: nat, e: LedgerEntry)
    requires Enabled(s, HandlesEvent(c, e)) && EventStatus(s, e) != Accepted
    ensures var n := Next(s, HandlesEvent(c, e));
            && n.entries == s.entries && n.inFlight == s.inFlight
            && n.authority.epoch == s.authority.epoch
            && n.authority.accountingGeneration == s.authority.accountingGeneration
            && n.authority.workerBoot == s.authority.workerBoot
            && (!e.eventKind.RequestStart? ==> n.authority == s.authority)
            && SameElsewhere(s.authority, n.authority, e.request)
            && n.queue == s.queue && n.conns == s.conns
  {
    hide StatusOf;
  }

  /** The four records of every other request are the same. */
  ghost predicate SameElsewhere(a: AuthorityState, b: AuthorityState, except: Id) {
    && a.requestGeneration - {except} == b.requestGeneration - {except}
    && a.currentAttempt - {except} == b.currentAttempt - {except}
    && a.attemptGeneration - {except} == b.attemptGeneration - {except}
    && a.requestRolled - {except} == b.requestRolled - {except}
  }

  /** The request already stands as the event's envelope says, and is not rolled. */
  predicate AlreadyAdopted(a: AuthorityState, e: LedgerEntry) {
    && e.request in a.requestGeneration && a.requestGeneration[e.request] == e.authority.requestGeneration
    && e.request in a.currentAttempt && a.currentAttempt[e.request] == e.authority.attempt
    && e.request in a.attemptGeneration && a.attemptGeneration[e.request] == e.authority.attemptGeneration
    && e.request in a.requestRolled && !a.requestRolled[e.request]
  }

  /** A refused event leaves the authority alone exactly when it is not a RequestStart,
      or its request already has that authority and is not rolled. */
  lemma RefusedEventKeepsAuthority(s: State, c: nat, e: LedgerEntry)
    requires Enabled(s, HandlesEvent(c, e)) && EventStatus(s, e) != Accepted
    ensures Next(s, HandlesEvent(c, e)).authority == s.authority <==>
            (!e.eventKind.RequestStart? || AlreadyAdopted(s.authority, e))
  {
    hide StatusOf, Appended;
    var a, b := s.authority, Adopt(s.authority, e);
    if AlreadyAdopted(a, e) {
      assert a.requestGeneration == b.requestGeneration && a.currentAttempt == b.currentAttempt;
      assert a.attemptGeneration == b.attemptGeneration && a.requestRolled == b.requestRolled;
    } else if e.eventKind.RequestStart? {
      assert AlreadyAdopted(b, e);
    }
  }
}
