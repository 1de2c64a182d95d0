/** The coordinator object: its methods update the authority, the ledger, the
    requests in flight, the queue and the connections in place. Each method takes
    one step of the machine, so whatever is called in whatever order, the object
    stands where a possible run leads, and every law about runs is a law about it. */
module CoordinatorObject {
  import opened Base
  import opened Entry
  import opened Ledger
  import opened Coordinator
  import opened CoordinatorLaws
  import opened ServiceLaws
  import opened FenceLaws
  import opened RollLaws

  /** Set the flag of every request in the set. */
  method MarkAll(rolled: map<Id, bool>, requests: set<Id>) returns (out: map<Id, bool>)
    ensures out == rolled + map r | r in requests :: true
  {
    out := rolled;
    var todo := requests;
    while todo != {}
      invariant todo <= requests
      invariant forall r :: r in out <==> r in rolled || r in requests - todo
      invariant forall r :: r in out ==> out[r] == if r in requests - todo then true else rolled[r]
      decreases |todo|
    {
      var r :| r in todo;
      out := out[r := true];
      todo := todo - {r};
    }
  }

  class CoordinatorProcess {
    var authority: AuthorityState
    const log: LedgerLog
    var inFlight: set<Id>
    var queue: seq<Item>
    var conns: seq<Conn>
    var stopRequested: bool
    var pc: Pc
    /** Everything that has happened to this object. */
    ghost var run: Run

    ghost predicate Valid()
      reads this, log
    {
      log.Valid() && Possible(run) && Now() == At(run)
    }

    ghost function Now(): State
      reads this, log
    {
      State(authority, log.entries, inFlight, queue, conns, stopRequested, pc)
    }

    constructor ()
      ensures Valid() && run == [] && fresh(log)
    {
      authority := AuthorityState(1, 1, map[], map[], map[], map[], map[], true);
      log := new LedgerLog();
      inFlight := {};
      queue := [];
      conns := [];
      stopRequested := false;
      pc := Idle;
      run := [];
    }

    /******* What holds between any two calls *******/

    /** Stored epochs never decrease and never exceed the current one. */
    lemma LedgerIsFenced()
      requires Valid() && NoWrap(run)
      ensures forall i :: 0 <= i < |log.entries| ==> log.entries[i].authority.epoch <= authority.epoch
      ensures forall i, j :: 0 <= i <= j < |log.entries| ==>
                log.entries[i].authority.epoch <= log.entries[j].authority.epoch
    {
      hide At, Possible;
      StoredEpochsFenced(run);
    }

    /** The requests in flight are those whose last stored start or end is a start,
        and each has a record in all four maps. */
    lemma InFlightIsExact(r: Id)
      requires Valid()
      ensures r in inFlight <==> Open(log.entries, r)
      ensures r in inFlight ==>
                && r in authority.requestGeneration && r in authority.currentAttempt
                && r in authority.attemptGeneration && r in authority.requestRolled
    {
      hide At, Possible;
      InFlightIsOpen(run, r);
      GrantsAgree(run, r);
    }

    /** Connection `c` has been sent the answers to its events, in the order it
        submitted them, save those in hand or waiting. */
    lemma EventsAreAnswered(c: nat)
      requires Valid()
      ensures Entries(Answers(run, c)) + EventsOf(Held(Now()), c) + EventsOf(queue, c) == EventsOf(Enqueued(run), c)
      ensures AcksOn(Now(), c) <= Statuses(Answers(run, c))
      ensures !pc.AckingEvent? ==> AcksOn(Now(), c) == Statuses(Answers(run, c))
    {
      hide At, Possible;
      ConnectionIsServedInOrder(run, c);
    }

    /******* Called from outside *******/

    /** From now on every event of the epoch that was in force is refused. */
    method AdvanceEpoch()
      requires Valid()
      modifies this
      ensures Valid() && run == old(run) + [CallAdvanceEpoch]
      ensures forall e: LedgerEntry :: e.authority.epoch == old(authority.epoch) ==> EventStatus(Now(), e) != Accepted
    {
      hide At, Possible, EventStatus;
      Extend(run, CallAdvanceEpoch);
      run := run + [CallAdvanceEpoch];
      authority := authority.(epoch := NextGeneration(authority.epoch));
      authority := authority.(accountingGeneration := NextGeneration(authority.accountingGeneration));
      forall e: LedgerEntry | e.authority.epoch == old(authority.epoch) ensures EventStatus(Now(), e) != Accepted {
        StaleIsRefused(Now(), e);
      }
    }

    /** Whatever the request's record was, only events that agree with this envelope
        are accepted for it, apart from a new start. */
    method SetRequestAuthority(e: LedgerEntry)
      requires Valid()
      modifies this
      ensures Valid() && run == old(run) + [CallSetRequestAuthority(e)]
      ensures forall x: LedgerEntry :: x.request == e.request && EventStatus(Now(), x) == Accepted ==>
                x.eventKind.RequestStart? || SameScope(e.authority, x.authority)
    {
      hide At, Possible, EventStatus;
      ghost var step := CallSetRequestAuthority(e);
      Extend(run, step);
      run := run + [step];
      AdoptInPlace(e);
      GrantIsLast(old(run), step, e.request);
      forall x: LedgerEntry | x.request == e.request && EventStatus(Now(), x) == Accepted
        ensures x.eventKind.RequestStart? || SameScope(e.authority, x.authority)
      {
        AcceptedExactlyWhen(run, x);
      }
    }

    method AdoptInPlace(e: LedgerEntry)
      modifies this`authority
      ensures authority == Adopt(old(authority), e)
    {
      var r, a := e.request, e.authority;
      authority := authority.(requestGeneration := authority.requestGeneration[r := a.requestGeneration]);
      authority := authority.(currentAttempt := authority.currentAttempt[r := a.attempt]);
      authority := authority.(attemptGeneration := authority.attemptGeneration[r := a.attemptGeneration]);
      authority := authority.(requestRolled := authority.requestRolled[r := false]);
    }

    /** Nothing enqueued is lost by stopping: the accounting thread may leave only
        once all of it has been carried out. */
    method Stop()
      requires Valid()
      modifies this
      ensures Valid() && run == old(run) + [CallStop]
      ensures Handled(run) + Held(Now()) + queue == old(Enqueued(run))
      ensures Enabled(Now(), Exits) <==> pc.Idle? && Handled(run) == old(Enqueued(run))
    {
      hide At, Possible;
      Extend(run, CallStop);
      run := run + [CallStop];
      stopRequested := true;
      ServedInOrder(run);
      EnqueuedStep(old(run), CallStop);
    }

    /******* The accept and reader threads *******/

    /** The new connection is one that nothing enqueued so far refers to. */
    method Accept()
      requires Valid()
      modifies this
      ensures Valid() && run == old(run) + [Accepts]
      ensures |conns| == old(|conns|) + 1 && Reading(Now(), old(|conns|))
      ensures forall item :: item in Enqueued(run) ==> item.conn < old(|conns|)
    {
      hide At, Possible;
      Extend(run, Accepts);
      EnqueuedIsKnown(run);
      EnqueuedStep(run, Accepts);
      run := run + [Accepts];
      conns := conns + [Conn(ZERO_ID, false, true, [])];
    }

    method Enqueue(item: Item)
      modifies this`queue
      ensures queue == old(queue) + [item]
    {
      queue := queue + [item];
    }

    method SendTo(c: nat, m: Outgoing)
      requires c < |conns|
      modifies this`conns
      ensures conns == Send(old(conns), c, m)
    {
      conns := conns[c := conns[c].(sent := conns[c].sent + [m])];
    }

    /** A registration is queued; no worker's boot changes before it is handled. */
    method OnRegister(c: nat, worker: Id, boot: Id)
      requires Valid() && Reading(Now(), c)
      modifies this
      ensures Valid() && run == old(run) + [ReadsRegister(c, worker, boot)]
      ensures Handled(run) + Held(Now()) + queue == old(Enqueued(run)) + [RegisterItem(c, worker, boot)]
      ensures forall w :: LastBoot(run, w) == old(LastBoot(run, w))
    {
      hide At, Possible;
      ghost var step := ReadsRegister(c, worker, boot);
      Extend(run, step);
      EnqueuedStep(run, step);
      run := run + [step];
      Enqueue(RegisterItem(c, worker, boot));
      ServedInOrder(run);
      forall w ensures LastBoot(run, w) == LastBoot(old(run), w) { BootStep(old(run), step, w); }
    }

    /** An event is queued behind the connection's earlier ones; nothing is answered yet. */
    method OnEvent(c: nat, e: LedgerEntry)
      requires Valid() && Reading(Now(), c)
      modifies this
      ensures Valid() && run == old(run) + [ReadsEvent(c, e)]
      ensures Entries(Answers(run, c)) + EventsOf(Held(Now()), c) + EventsOf(queue, c)
           == old(EventsOf(Enqueued(run), c)) + [e]
      ensures log.entries == old(log.entries)
    {
      hide At, Possible, EventsOf, Enqueued, Answers, Entries, Held, StatusOf, Appended, Survivors, log.Valid;
      ghost var step := ReadsEvent(c, e);
      Extend(run, step);
      EnqueuedStep(run, step);
      KindsAppend(Enqueued(run), [EventItem(c, e)], c);
      KindsOfOne(EventItem(c, e), c);
      run := run + [step];
      Enqueue(EventItem(c, e));
      EventsAreAnswered(c);
    }

    /** A ping is answered at once, and disturbs no connection's acknowledgements. */
    method OnPing(c: nat)
      requires Valid() && Reading(Now(), c)
      modifies this
      ensures Valid() && run == old(run) + [ReadsPing(c)]
      ensures SentOn(Now(), c) == old(SentOn(Now(), c)) + [Pong]
      ensures forall d: nat :: AcksOn(Now(), d) == old(AcksOn(Now(), d))
      ensures forall d: nat :: RegisterAcks(SentOn(Now(), d)) == old(RegisterAcks(SentOn(Now(), d)))
    {
      hide At, Possible;
      Extend(run, ReadsPing(c));
      run := run + [ReadsPing(c)];
      SendTo(c, Pong);
      forall d: nat
        ensures AcksOn(Now(), d) == old(AcksOn(Now(), d))
        ensures RegisterAcks(SentOn(Now(), d)) == old(RegisterAcks(SentOn(Now(), d)))
      {
        PongIsNoAck(old(SentOn(Now(), d)));
      }
    }

    /** A loss is queued only if the connection was registered by now; its reader ends. */
    method OnDisconnect(c: nat)
      requires Valid() && Reading(Now(), c)
      modifies this
      ensures Valid() && run == old(run) + [ReadsDisconnect(c)]
      ensures queue == old(queue) + if old(conns[c].registered) then [LostItem(c, old(conns[c].worker))] else []
      ensures !Reading(Now(), c)
    {
      hide At, Possible;
      Extend(run, ReadsDisconnect(c));
      run := run + [ReadsDisconnect(c)];
      if conns[c].registered {
        Enqueue(LostItem(c, conns[c].worker));
      }
      conns := conns[c := conns[c].(reading := false)];
    }

    /******* The accounting thread *******/

    /** Wait is over: take the front item, or leave when stopped and drained. */
    method TakeOrExit()
      requires Valid() && pc.Idle? && (queue != [] || stopRequested)
      modifies this
      ensures Valid()
      ensures run == old(run) + [if old(queue) == [] then Exits else Takes(old(queue)[0])]
      ensures pc.Exited? ==> Handled(run) == Enqueued(run)
    {
      hide At, Possible;
      if stopRequested && queue == [] {
        Extend(run, Exits);
        run := run + [Exits];
        pc := Exited;
        ServedInOrder(run);
        return;
      }
      var w := queue[0];
      Extend(run, Takes(w));
      run := run + [Takes(w)];
      queue := queue[1..];
      pc := Holding(w);
    }

    /** The locked part of `handle_registration`: from now on events of the worker under
        any other boot are refused. */
    method AdoptBoot(c: nat, worker: Id, boot: Id)
      requires Valid() && pc == Holding(RegisterItem(c, worker, boot))
      modifies this
      ensures Valid() && run == old(run) + [AdoptsBoot(c, worker, boot)]
      ensures forall e: LedgerEntry :: e.worker == worker && e.authority.workerBoot != boot ==>
                EventStatus(Now(), e) != Accepted
    {
      hide At, Possible, EventStatus;
      Extend(run, AdoptsBoot(c, worker, boot));
      run := run + [AdoptsBoot(c, worker, boot)];
      authority := authority.(workerBoot := authority.workerBoot[worker := boot]);
      pc := Registering(c, worker, authority.epoch, authority.accountingGeneration);
      forall e: LedgerEntry | e.worker == worker && e.authority.workerBoot != boot
        ensures EventStatus(Now(), e) != Accepted
      {
        StaleIsRefused(Now(), e);
      }
    }

    /** From now on a disconnect of this connection counts as the loss of the worker. */
    method MarkRegistered()
      requires Valid() && pc.Registering?
      modifies this
      ensures Valid() && run == old(run) + [MarksRegistered]
      ensures var c, w := old(pc.conn), old(pc.worker); Enqueues(Now(), ReadsDisconnect(c)) == [LostItem(c, w)]
    {
      hide At, Possible;
      NeverStuck(run);
      Extend(run, MarksRegistered);
      run := run + [MarksRegistered];
      conns := conns[pc.conn := conns[pc.conn].(worker := pc.worker, registered := true)];
      pc := AckingRegister(pc.conn, pc.epoch, pc.generation);
    }

    /** Every registration handled so far has now been acknowledged, each with the
        epoch and generation in force when it was handled. */
    method AcknowledgeRegister()
      requires Valid() && pc.AckingRegister?
      modifies this
      ensures Valid() && run == old(run) + [SendsRegisterAck]
      ensures forall c: nat :: RegisterAcks(SentOn(Now(), c)) == Standings(run, c)
    {
      hide At, Possible;
      NeverStuck(run);
      Extend(run, SendsRegisterAck);
      run := run + [SendsRegisterAck];
      SendTo(pc.conn, RegisterAck(pc.epoch, pc.generation));
      pc := Idle;
      forall c: nat ensures RegisterAcks(SentOn(Now(), c)) == Standings(run, c) {
        RegistrationsAreAnswered(run, c);
      }
    }

    /** The locked part of `handle_event`: the event is stored if and only if the
        history of the run admits it. The acknowledgement is sent after the lock is
        released. */
    method HandleEvent(c: nat, e: LedgerEntry)
      requires Valid() && pc == Holding(EventItem(c, e))
      modifies this, log
      ensures Valid() && run == old(run) + [HandlesEvent(c, e)]
      ensures log.entries == old(log.entries) || log.entries == old(log.entries) + [e]
      ensures log.entries != old(log.entries) <==>
              (&& ContentIsValid(e)
               && e.authority.epoch == old(authority.epoch)
               && e.authority.accountingGeneration == old(authority.accountingGeneration)
               && old(LastBoot(run, e.worker)) == Some(e.authority.workerBoot)
               && old(HistoryAdmits(run, e))
               && forall i :: 0 <= i < old(|log.entries|) ==> old(log.entries[i].id) != e.id)
    {
      hide StatusOf, log.Valid, At, Possible, ContentIsValid, HistoryAdmits, LastBoot;
      ghost var s := Now();
      AcceptedExactlyWhen(run, e);
      Extend(run, HandlesEvent(c, e));
      run := run + [HandlesEvent(c, e)];
      if e.eventKind.RequestStart? { AdoptInPlace(e); }
      var status := log.Append(e, Some(authority));
      if status == Accepted {
        if e.eventKind.RequestStart? {
          inFlight := inFlight + {e.request};
        } else if e.eventKind.RequestEnd? {
          inFlight := inFlight - {e.request};
        }
      }
      pc := AckingEvent(c, status);
      assert Now() == Next(s, HandlesEvent(c, e));
    }

    /** Every event handled so far has now been acknowledged with its append result. */
    method AcknowledgeEvent()
      requires Valid() && pc.AckingEvent?
      modifies this
      ensures Valid() && run == old(run) + [SendsEventAck]
      ensures forall c: nat :: AcksOn(Now(), c) == Statuses(Answers(run, c))
    {
      hide At, Possible;
      NeverStuck(run);
      Extend(run, SendsEventAck);
      run := run + [SendsEventAck];
      SendTo(pc.conn, EventAck(pc.status));
      pc := Idle;
      forall c: nat ensures AcksOn(Now(), c) == Statuses(Answers(run, c)) { EventsAreAnswered(c); }
    }

    /** First section of `handle_worker_lost`: every request in flight is sealed, and
        no event of it other than a start is accepted. */
    method MarkRolled(c: nat, worker: Id)
      requires Valid() && pc == Holding(LostItem(c, worker))
      modifies this
      ensures Valid() && run == old(run) + [MarksRolled(c, worker)]
      ensures inFlight == old(inFlight)
      ensures forall e: LedgerEntry :: e.request in inFlight && !e.eventKind.RequestStart? ==>
                EventStatus(Now(), e) != Accepted
    {
      hide At, Possible, EventStatus, StatusOf, Appended, Survivors, HistoryAdmits, log.Valid;
      Extend(run, MarksRolled(c, worker));
      run := run + [MarksRolled(c, worker)];
      var rolled := MarkAll(authority.requestRolled, inFlight);
      authority := authority.(requestRolled := rolled);
      pc := Marked(worker);
      forall e: LedgerEntry | e.request in inFlight && !e.eventKind.RequestStart?
        ensures EventStatus(Now(), e) != Accepted
      {
        SealedIsRefused(run, e);
      }
    }

    /** Second section: every event of the epoch that was in force is refused from now
        on, and the rolls made match the losses carried out. */
    method RollEpoch()
      requires Valid() && pc.Marked?
      modifies this
      ensures Valid() && run == old(run) + [AdvancesEpoch]
      ensures forall e: LedgerEntry :: e.authority.epoch == old(authority.epoch) ==> EventStatus(Now(), e) != Accepted
      ensures OwnRolls(run) == |LossesOf(Handled(run))|
    {
      hide At, Possible, EventStatus;
      Extend(run, AdvancesEpoch);
      run := run + [AdvancesEpoch];
      authority := authority.(epoch := NextGeneration(authority.epoch));
      authority := authority.(accountingGeneration := NextGeneration(authority.accountingGeneration));
      pc := Advanced(pc.worker);
      EachLossRollsOnce(run);
      forall e: LedgerEntry | e.authority.epoch == old(authority.epoch) ensures EventStatus(Now(), e) != Accepted {
        StaleIsRefused(Now(), e);
      }
    }

    /** Gather the surviving sockets under the connection lock: those registered to
        other workers, each once, in connection order. */
    method GatherTargets()
      requires Valid() && pc.Advanced?
      modifies this
      ensures Valid() && run == old(run) + [GathersTargets]
      ensures pc.Gathered? && Climbs(pc.targets)
      ensures forall c: nat :: c in pc.targets <==>
                c < |conns| && conns[c].registered && conns[c].worker != old(pc.worker)
    {
      hide At, Possible;
      Extend(run, GathersTargets);
      var targets: seq<nat> := [];
      for c := 0 to |conns|
        invariant Now() == old(Now()) && run == old(run)
        invariant targets == Survivors(conns[..c], pc.worker)
      {
        assert conns[..c + 1][..c] == conns[..c];
        if conns[c].registered && conns[c].worker != pc.worker {
          targets := targets + [c];
        }
      }
      assert conns[..|conns|] == conns;
      SurvivorsAreSpared(conns, pc.worker);
      run := run + [GathersTargets];
      pc := Gathered(targets);
    }

    /** Third section: read the epoch to announce. No stored entry and no earlier
        announcement on any connection is ahead of it. */
    method ReadEpoch()
      requires Valid() && pc.Gathered?
      modifies this
      ensures Valid() && run == old(run) + [ReadsEpoch] && pc.Rolling?
      ensures NoWrap(run) ==> forall i :: 0 <= i < |log.entries| ==> log.entries[i].authority.epoch <= pc.epoch
      ensures NoWrap(run) ==> forall c: nat :: AscendsTo(Announced(SentOn(Now(), c)), pc.epoch)
    {
      hide At, Possible;
      Extend(run, ReadsEpoch);
      run := run + [ReadsEpoch];
      pc := Rolling(pc.targets, authority.epoch, authority.accountingGeneration);
      if NoWrap(run) {
        LedgerIsFenced();
        forall c: nat ensures AscendsTo(Announced(SentOn(Now(), c)), pc.epoch) { AnnouncementsAscend(run, c); }
      }
    }

    /** One Roll more, or none left to send: what each connection is told still ascends
        and stays within the current epoch. */
    method AnnounceRoll()
      requires Valid() && pc.Rolling?
      modifies this
      ensures Valid() && run == old(run) + [SendsRoll]
      ensures NoWrap(run) ==> forall c: nat :: AscendsTo(Announced(SentOn(Now(), c)), authority.epoch)
      ensures pc.Idle? || (pc.Rolling? && |pc.targets| < |old(pc.targets)|)
    {
      hide At, Possible, StatusOf, Appended, Survivors, Announced, SentOn, AscendsTo, log.Valid;
      NeverStuck(run);
      Extend(run, SendsRoll);
      run := run + [SendsRoll];
      if pc.targets == [] {
        pc := Idle;
      } else {
        SendTo(pc.targets[0], Roll(pc.epoch, pc.generation));
        pc := pc.(targets := pc.targets[1..]);
      }
      if NoWrap(run) {
        forall c: nat ensures AscendsTo(Announced(SentOn(Now(), c)), authority.epoch) {
          AnnouncementsWithinEpoch(run, c);
        }
      }
    }
  }

  /******* One step more, in the terms of the laws *******/

  lemma EnqueuedStep(run: Run, step: Step)
    requires Possible(run) && Enabled(At(run), step)
    ensures Possible(run + [step]) && Enqueued(run + [step]) == Enqueued(run) + Enqueues(At(run), step)
  {
    hide Next, Enabled;
    assert Front(run + [step]) == run;
  }

  lemma BootStep(run: Run, step: Step, w: Id)
    requires !step.AdoptsBoot?
    ensures LastBoot(run + [step], w) == LastBoot(run, w)
  {
    assert Front(run + [step]) == run;
  }

  lemma GrantIsLast(run: Run, step: Step, r: Id)
    requires Grants(step, r)
    ensures LastGrant(run + [step], r) == Some(step.entry.authority)
  {
    assert Last(run + [step]) == step;
  }

  lemma SealedIsRefused(run: Run, e: LedgerEntry)
    requires Possible(run) && IsRolled(At(run).authority, e.request) && !e.eventKind.RequestStart?
    ensures EventStatus(At(run), e) != Accepted
  {
    hide At, Possible, EventStatus, ContentIsValid;
    SealsAgree(run, e.request);
    AcceptedExactlyWhen(run, e);
  }

  lemma AnnouncementsWithinEpoch(run: Run, c: nat)
    requires Possible(run) && NoWrap(run)
    ensures AscendsTo(Announced(SentOn(At(run), c)), At(run).authority.epoch)
  {
    hide At, Possible, Announced, SentOn, Announcing;
    AnnouncementsAscend(run, c);
  }

  lemma PongIsNoAck(sent: seq<Outgoing>)
    ensures Acks(sent + [Pong]) == Acks(sent) && RegisterAcks(sent + [Pong]) == RegisterAcks(sent)
  {
    assert (sent + [Pong])[..|sent|] == sent;
  }
}
