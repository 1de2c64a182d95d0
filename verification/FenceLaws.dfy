/** Exactly what the fence lets through, told by the history of the run, and the
    places where it lets through more than its documentation says. */
module FenceLaws {
  import opened Base
  import opened Entry
  import opened Codec
  import opened Ledger
  import opened Coordinator
  import opened CoordinatorLaws
  import opened ServiceLaws

  /******* Acceptance, by history *******/

  /** Since its last grant, request `r` was in flight when a worker was lost. */
  predicate Sealed(run: Run, r: Id)
    requires Possible(run)
  {
    if run == [] || Grants(Last(run), r) then false
    else if Last(run).MarksRolled? && r in At(Front(run)).inFlight then true
    else Sealed(Front(run), r)
  }

  predicate IsRolled(a: AuthorityState, r: Id) { r in a.requestRolled && a.requestRolled[r] }

  lemma StepSeal(s: State, step: Step, r: Id)
    requires Enabled(s, step)
    ensures IsRolled(Next(s, step).authority, r) <==>
            !Grants(step, r) && (IsRolled(s.authority, r) || (step.MarksRolled? && r in s.inFlight))
  {
    hide StatusOf, Appended, Send, Survivors;
  }

  lemma {:induction false} SealsAgree(run: Run, r: Id)
    requires Possible(run)
    ensures IsRolled(At(run).authority, r) <==> Sealed(run, r)
  {
    hide Next, Enabled;
    if run == [] {
    } else {
      SealsAgree(Front(run), r);
      StepSeal(At(Front(run)), Last(run), r);
    }
  }

  predicate SameScope(a: Envelope, b: Envelope) {
    && a.requestGeneration == b.requestGeneration && a.attempt == b.attempt
    && a.attemptGeneration == b.attemptGeneration
  }

  /** The request's history admits `e`: no grant yet, or `e` itself grants, or it
      agrees with the latest grant and the request is not sealed. */
  predicate HistoryAdmits(run: Run, e: LedgerEntry)
    requires Possible(run)
  {
    || e.eventKind.RequestStart?
    || (!Sealed(run, e.request) &&
        match LastGrant(run, e.request)
        case None => true
        case Some(g) => SameScope(g, e.authority))
  }

  /** An event handled after any run is stored if and only if its content is valid, its
      identity is new, it carries the epoch and accounting generation in force and the
      boot last registered for its worker, and its request's history admits it. */
  lemma AcceptedExactlyWhen(run: Run, e: LedgerEntry)
    requires Possible(run)
    ensures EventStatus(At(run), e) == Accepted <==>
            (&& ContentIsValid(e)
             && e.authority.epoch == At(run).authority.epoch
             && e.authority.accountingGeneration == At(run).authority.accountingGeneration
             && LastBoot(run, e.worker) == Some(e.authority.workerBoot)
             && HistoryAdmits(run, e)
             && forall i :: 0 <= i < |At(run).entries| ==> At(run).entries[i].id != e.id)
  {
    hide At, Possible, Sealed, LastGrant, LastBoot, ContentIsValid, SameEntry;
    BootsAgree(run, e.worker);
    GrantsAgree(run, e.request);
    SealsAgree(run, e.request);
    ScopeEnforced(run);
  }

  /** The fence lets `e` pass after the run. */
  predicate FenceAdmits(run: Run, e: LedgerEntry)
    requires Possible(run)
  {
    && e.authority.epoch == At(run).authority.epoch
    && e.authority.accountingGeneration == At(run).authority.accountingGeneration
    && LastBoot(run, e.worker) == Some(e.authority.workerBoot)
    && HistoryAdmits(run, e)
  }

  lemma {:induction false} StoredIdsAreUnique(run: Run)
    requires Possible(run)
    ensures UniqueIds(At(run).entries)
  {
    hide Next, Enabled, ContentIsValid, ValidateAuthority, SameEntry;
    if run == [] {
    } else {
      StoredIdsAreUnique(Front(run));
      StepLedger(At(Front(run)), Last(run));
    }
  }

  /** Which of the five answers an event gets after any run: content is judged first, then
      the fence, then whether the identity is taken, and by what. */
  lemma StatusExactlyWhen(run: Run, e: LedgerEntry)
    requires Possible(run)
    ensures var status, stored := EventStatus(At(run), e), At(run).entries;
            && (status == Invalid <==> !ContentIsValid(e))
            && (status == Stale <==> ContentIsValid(e) && !FenceAdmits(run, e))
            && (status == Accepted <==>
                ContentIsValid(e) && FenceAdmits(run, e) && forall i :: 0 <= i < |stored| ==> stored[i].id != e.id)
            && (status == Duplicate <==>
                && ContentIsValid(e) && FenceAdmits(run, e)
                && exists i :: 0 <= i < |stored| && stored[i].id == e.id && SameEntry(stored[i], e))
            && (status == DuplicateConflict <==>
                && ContentIsValid(e) && FenceAdmits(run, e)
                && exists i :: 0 <= i < |stored| && stored[i].id == e.id && !SameEntry(stored[i], e))
  {
    hide At, Possible, StatusOf, FenceAdmits, ContentIsValid, SameEntry, ValidateAuthority;
    StoredIdsAreUnique(run);
    FencePasses(run, e);
    StatusCases(At(run).entries, FenceFor(At(run), e), e);
  }

  lemma FencePasses(run: Run, e: LedgerEntry)
    requires Possible(run)
    ensures ValidateAuthority(e, FenceFor(At(run), e)) == Accept <==> FenceAdmits(run, e)
  {
    hide At, Possible, Sealed, LastGrant, LastBoot;
    BootsAgree(run, e.worker);
    GrantsAgree(run, e.request);
    SealsAgree(run, e.request);
    ScopeEnforced(run);
  }

  lemma StatusCases(stored: seq<LedgerEntry>, fence: AuthorityState, e: LedgerEntry)
    requires UniqueIds(stored)
    ensures var status, passes := StatusOf(stored, Some(fence), e), ValidateAuthority(e, fence) == Accept;
            && (status == Invalid <==> !ContentIsValid(e))
            && (status == Stale <==> ContentIsValid(e) && !passes)
            && (status == Accepted <==>
                ContentIsValid(e) && passes && forall i :: 0 <= i < |stored| ==> stored[i].id != e.id)
            && (status == Duplicate <==>
                && ContentIsValid(e) && passes
                && exists i :: 0 <= i < |stored| && stored[i].id == e.id && SameEntry(stored[i], e))
            && (status == DuplicateConflict <==>
                && ContentIsValid(e) && passes
                && exists i :: 0 <= i < |stored| && stored[i].id == e.id && !SameEntry(stored[i], e))
  {
    hide ContentIsValid, SameEntry, ValidateAuthority;
    var p := Position(stored, e.id);
    if p.Some? { assert stored[p.value].id == e.id; }
  }

  /** So an event of a request without a record is stored whatever generations and
      attempt it claims: nothing that speaks of its request is compared. */
  lemma UnrecordedAcceptedExactlyWhen(run: Run, e: LedgerEntry)
    requires Possible(run) && LastGrant(run, e.request).None?
    ensures EventStatus(At(run), e) == Accepted <==>
            (&& ContentIsValid(e)
             && e.authority.epoch == At(run).authority.epoch
             && e.authority.accountingGeneration == At(run).authority.accountingGeneration
             && LastBoot(run, e.worker) == Some(e.authority.workerBoot)
             && forall i :: 0 <= i < |At(run).entries| ==> At(run).entries[i].id != e.id)
  {
    hide At, Possible, EventStatus, ContentIsValid, LastBoot;
    AcceptedExactlyWhen(run, e);
    GrantsAgree(run, e.request);
    SealsAgree(run, e.request);
  }

  /** The dispatch, in the entry or in its envelope, plays no part. */
  lemma DispatchIsIgnored(s: State, e: LedgerEntry, a: Id, b: Id)
    ensures var other := e.(dispatch := a, authority := e.authority.(dispatch := b));
            && ValidateAuthority(other, s.authority) == ValidateAuthority(e, s.authority)
            && (EventStatus(s, other) == Accepted <==> EventStatus(s, e) == Accepted)
  {
    hide SameEntry;
  }

  /******* Runs that show it *******/

  /** A plain event of epoch one, whose own attempt is not the attempt it is fenced by. */
  const SAMPLE: LedgerEntry :=
    BLANK.(eventKind := EventKind.Queue, request := Id(0, 7), attempt := Id(0, 1),
           authority := BLANK.authority.(epoch := 1, accountingGeneration := 1, requestGeneration := 5))

  lemma SampleIsValid()
    ensures ContentIsValid(SAMPLE)
  {
  }

  /** One step after another. */
  lemma Then(run: Run, step: Step, end: State)
    requires Possible(run) && Enabled(At(run), step) && Next(At(run), step) == end
    ensures Possible(run + [step]) && At(run + [step]) == end
  {
    hide Next, Enabled;
    Extend(run, step);
  }

  /** A worker connects and its registration is queued. */
  function Knocked(w: Id, b: Id): State {
    INITIAL.(conns := [Conn(ZERO_ID, false, true, [])], queue := [RegisterItem(0, w, b)])
  }

  lemma Knock(w: Id, b: Id) returns (run: Run)
    ensures run == [Accepts, ReadsRegister(0, w, b)]
    ensures Possible(run) && At(run) == Knocked(w, b)
  {
    var s1 := INITIAL.(conns := [Conn(ZERO_ID, false, true, [])]);
    Then([], Accepts, s1);
    assert [] + [Accepts] == [Accepts];
    Then([Accepts], ReadsRegister(0, w, b), Knocked(w, b));
    run := [Accepts] + [ReadsRegister(0, w, b)];
  }

  /** The registration at the front of the queue is handled, the connection being
      read or not. */
  function Welcomed(w: Id, b: Id, reading: bool): State {
    INITIAL.(authority := INITIAL.authority.(workerBoot := map[w := b]),
             conns := [Conn(w, true, reading, [RegisterAck(1, 1)])])
  }

  function Welcoming(w: Id, b: Id): Run {
    [Takes(RegisterItem(0, w, b)), AdoptsBoot(0, w, b)] + [MarksRegistered, SendsRegisterAck]
  }

  lemma Welcome(run: Run, w: Id, b: Id, reading: bool)
    requires Possible(run) && At(run) == Knocked(w, b).(conns := [Conn(ZERO_ID, false, reading, [])])
    ensures Possible(run + Welcoming(w, b)) && At(run + Welcoming(w, b)) == Welcomed(w, b, reading)
  {
    hide Next, Enabled, At, Possible;
    var item := RegisterItem(0, w, b);
    var s := INITIAL.(conns := [Conn(ZERO_ID, false, reading, [])]);
    var s3 := s.(pc := Holding(item));
    var s4 := s.(authority := Welcomed(w, b, reading).authority, pc := Registering(0, w, 1, 1));
    var s5 := s4.(conns := [Conn(w, true, reading, [])], pc := AckingRegister(0, 1, 1));
    TakesStep(s.(queue := [item]), item);
    Then(run, Takes(item), s3);
    AdoptsStep(s3, 0, w, b);
    var run4 := run + [Takes(item)];
    Then(run4, AdoptsBoot(0, w, b), s4);
    RegistersSteps(s4, 0, w);
    FirstSend(Conn(w, true, reading, []), RegisterAck(1, 1));
    var run5 := run4 + [AdoptsBoot(0, w, b)];
    Then(run5, MarksRegistered, s5);
    Then(run5 + [MarksRegistered], SendsRegisterAck, Welcomed(w, b, reading));
    assert run5 + [MarksRegistered] + [SendsRegisterAck] == run + Welcoming(w, b);
  }

  lemma FirstSend(c: Conn, m: Outgoing)
    requires c.sent == []
    ensures Send([c], 0, m) == [c.(sent := [m])]
  {
    assert c.sent + [m] == [m];
  }

  lemma TakesStep(s: State, item: Item)
    requires s.pc.Idle? && s.queue == [item]
    ensures Enabled(s, Takes(item)) && Next(s, Takes(item)) == s.(queue := [], pc := Holding(item))
  {
  }

  lemma AdoptsStep(s: State, c: nat, w: Id, b: Id)
    requires s.pc == Holding(RegisterItem(c, w, b))
    ensures Enabled(s, AdoptsBoot(c, w, b))
    ensures var a := s.authority;
            Next(s, AdoptsBoot(c, w, b))
            == s.(authority := a.(workerBoot := a.workerBoot[w := b]),
                  pc := Registering(c, w, a.epoch, a.accountingGeneration))
  {
  }

  lemma RegistersSteps(s: State, c: nat, w: Id)
    requires s.pc.Registering? && s.pc.conn == c < |s.conns| && s.pc.worker == w
    ensures var marked := s.conns[c := s.conns[c].(worker := w, registered := true)];
            var s' := s.(conns := marked, pc := AckingRegister(c, s.pc.epoch, s.pc.generation));
            && Enabled(s, MarksRegistered) && Next(s, MarksRegistered) == s'
            && Enabled(s', SendsRegisterAck)
            && Next(s', SendsRegisterAck)
               == s'.(conns := Send(marked, c, RegisterAck(s.pc.epoch, s.pc.generation)), pc := Idle)
  {
  }

  /** An event comes in on the first connection and is handled. */
  lemma Submit(run: Run, e: LedgerEntry) returns (longer: Run)
    requires Possible(run) && At(run).pc.Idle? && At(run).queue == [] && Reading(At(run), 0)
    ensures longer == run + [ReadsEvent(0, e), Takes(EventItem(0, e)), HandlesEvent(0, e)]
    ensures Possible(longer)
    ensures At(longer) == Next(At(run).(pc := Holding(EventItem(0, e))), HandlesEvent(0, e))
  {
    hide Next, Enabled, At, Possible;
    var s, item := At(run), EventItem(0, e);
    ReadsStep(s, e);
    Then(run, ReadsEvent(0, e), s.(queue := [item]));
    TakesStep(s.(queue := [item]), item);
    var run2 := run + [ReadsEvent(0, e)];
    Then(run2, Takes(item), s.(pc := Holding(item)));
    HoldsStep(s, e);
    var run3 := run2 + [Takes(item)];
    Extend(run3, HandlesEvent(0, e));
    longer := run3 + [HandlesEvent(0, e)];
    assert longer == run + [ReadsEvent(0, e), Takes(item), HandlesEvent(0, e)];
  }

  lemma ReadsStep(s: State, e: LedgerEntry)
    requires Reading(s, 0) && s.queue == []
    ensures Enabled(s, ReadsEvent(0, e)) && Next(s, ReadsEvent(0, e)) == s.(queue := [EventItem(0, e)])
  {
  }

  lemma HoldsStep(s: State, e: LedgerEntry)
    ensures Enabled(s.(pc := Holding(EventItem(0, e))), HandlesEvent(0, e))
  {
  }

  /** An event of a request nobody ever started or granted is stored, and so is one
      whose own attempt is not the attempt it was fenced by. */
  lemma UnrecordedEntryIsStored() returns (run: Run)
    ensures Possible(run) && At(run).entries == [SAMPLE]
    ensures LastGrant(run, SAMPLE.request).None? && !SAMPLE.eventKind.RequestStart?
    ensures SAMPLE.attempt != SAMPLE.authority.attempt
  {
    hide Next, Enabled, At, Possible, LastGrant, Welcoming, EventStatus, ContentIsValid;
    var w, b := SAMPLE.worker, SAMPLE.authority.workerBoot;
    var greeting := Knock(w, b);
    Welcome(greeting, w, b, true);
    run := Submit(greeting + Welcoming(w, b), SAMPLE);
    SampleIsStored();
    GrantsAgree(run, SAMPLE.request);
  }

  lemma SampleIsStored()
    ensures var s := Welcomed(SAMPLE.worker, SAMPLE.authority.workerBoot, true).(pc := Holding(EventItem(0, SAMPLE)));
            var n := Next(s, HandlesEvent(0, SAMPLE));
            n.entries == [SAMPLE] && n.authority == s.authority
  {
    hide ContentIsValid, SameEntry;
    SampleIsValid();
  }

  /** A RequestStart of a wrong epoch is refused, yet lowers the generation its
      request was granted. */
  lemma RefusedStartLowersGeneration() returns (before: Run, run: Run)
    ensures Possible(before) && Possible(run) && before < run && run[|run| - 1].HandlesEvent?
    ensures var r, earlier, after := SAMPLE.request, At(before), At(run);
            && r in earlier.authority.requestGeneration && r in after.authority.requestGeneration
            && after.authority.requestGeneration[r] < earlier.authority.requestGeneration[r]
            && after.entries == earlier.entries == []
  {
    hide Next, Enabled, At, Possible;
    var start := SAMPLE.(eventKind := RequestStart,
                         authority := SAMPLE.authority.(epoch := 0, requestGeneration := 3));
    var granted := INITIAL.(authority := Adopt(INITIAL.authority, SAMPLE));
    var joined := granted.(conns := [Conn(ZERO_ID, false, true, [])]);
    OutsideSteps(SAMPLE);
    NothingYet();
    Then([], CallSetRequestAuthority(SAMPLE), granted);
    var run1: Run := [] + [CallSetRequestAuthority(SAMPLE)];
    Then(run1, Accepts, joined);
    before := run1 + [Accepts];
    run := Submit(before, start);
    StartIsRefused(joined, start);
  }

  lemma NothingYet()
    ensures Possible([]) && At([]) == INITIAL
  {
  }

  lemma OutsideSteps(e: LedgerEntry)
    ensures Enabled(INITIAL, CallSetRequestAuthority(e))
    ensures var s := INITIAL.(authority := Adopt(INITIAL.authority, e));
            && Next(INITIAL, CallSetRequestAuthority(e)) == s
            && Enabled(s, Accepts) && Next(s, Accepts) == s.(conns := [Conn(ZERO_ID, false, true, [])])
  {
  }

  lemma StartIsRefused(s: State, e: LedgerEntry)
    requires e.eventKind.RequestStart? && e.authority.epoch != s.authority.epoch
    ensures var n := Next(s.(pc := Holding(EventItem(0, e))), HandlesEvent(0, e));
            n.entries == s.entries && n.authority == Adopt(s.authority, e)
  {
    hide ContentIsValid, Position, SameEntry;
  }

  /** A connection that closes while its registration is still queued: the worker ends
      up registered, with its boot in force and nobody reading, and no continuation
      of the run ever counts it as lost. */
  lemma EarlyDisconnectGoesUnnoticed(w: Id, b: Id, more: Run) returns (run: Run)
    ensures Possible(run) && At(run) == Welcomed(w, b, false)
    ensures LastBoot(run, w) == Some(b) && OwnRolls(run) == 0
    ensures Possible(run + more) ==> NoLossOf(run + more, 0)
  {
    hide Next, Enabled, At, Possible, Welcoming, NoLossOf, LastBoot;
    var knock := Knock(w, b);
    Hangup(w, b);
    Then(knock, ReadsDisconnect(0), Knocked(w, b).(conns := [Conn(ZERO_ID, false, false, [])]));
    var gone := knock + [ReadsDisconnect(0)];
    Welcome(gone, w, b, false);
    run := gone + Welcoming(w, b);
    BootsAgree(run, w);
    NoRollsIn(w, b);
    if Possible(run + more) {
      assert (run + more)[..2] == knock && (run + more)[2] == ReadsDisconnect(0);
      EarlyDisconnectNeverRolls(run + more, 2, 0);
    }
  }

  lemma Hangup(w: Id, b: Id)
    ensures var s := Knocked(w, b);
            && Enabled(s, ReadsDisconnect(0))
            && Next(s, ReadsDisconnect(0)) == s.(conns := [Conn(ZERO_ID, false, false, [])])
  {
  }

  lemma {:induction false} OwnRollsAppend(a: Run, b: Run)
    ensures OwnRolls(a + b) == OwnRolls(a) + OwnRolls(b)
    decreases |b|
  {
    if b == [] {
      assert a + b == a;
    } else {
      OwnRollsAppend(a, Front(b));
      assert Front(a + b) == a + Front(b);
    }
  }

  lemma NoRollsIn(w: Id, b: Id)
    ensures OwnRolls([Accepts, ReadsRegister(0, w, b)] + [ReadsDisconnect(0)] + Welcoming(w, b)) == 0
  {
    OwnRollsAppend([Accepts, ReadsRegister(0, w, b)] + [ReadsDisconnect(0)], Welcoming(w, b));
    OwnRollsAppend([Accepts, ReadsRegister(0, w, b)], [ReadsDisconnect(0)]);
    TwoSteps(ReadsDisconnect(0), ReadsDisconnect(0));
    OwnRollsAppend([Takes(RegisterItem(0, w, b)), AdoptsBoot(0, w, b)], [MarksRegistered, SendsRegisterAck]);
    forall x: Step, y: Step ensures !x.AdvancesEpoch? && !y.AdvancesEpoch? ==> OwnRolls([x, y]) == 0 { TwoSteps(x, y); }
  }

  lemma TwoSteps(x: Step, y: Step)
    ensures !x.AdvancesEpoch? ==> OwnRolls([x]) == 0
    ensures !x.AdvancesEpoch? && !y.AdvancesEpoch? ==> OwnRolls([x, y]) == 0
  {
    assert Front([x]) == [] && Front([x, y]) == [x];
  }
}
