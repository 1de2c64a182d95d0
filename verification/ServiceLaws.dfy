/** How the coordinator serves its connections, in every run: what is queued, handled,
    answered and announced. */
module ServiceLaws {
  import opened Base
  import opened Entry
  import opened Ledger
  import opened Coordinator
  import opened CoordinatorLaws

  /******* The work queue *******/

  /** The item a step puts on the queue, if any. */
  function Enqueues(s: State, step: Step): seq<Item> {
    match step
    case ReadsRegister(c, w, b) => [RegisterItem(c, w, b)]
    case ReadsEvent(c, e) => [EventItem(c, e)]
    case ReadsDisconnect(c) =>
      if c < |s.conns| && s.conns[c].registered then [LostItem(c, s.conns[c].worker)] else []
    case _ => []
  }

  function Enqueued(run: Run): seq<Item>
    requires Possible(run)
  {
    if run == [] then [] else Enqueued(Front(run)) + Enqueues(At(Front(run)), Last(run))
  }

  function Taken(run: Run): seq<Item> {
    if run == [] then [] else Taken(Front(run)) + if Last(run).Takes? then [Last(run).item] else []
  }

  lemma StepQueue(s: State, step: Step)
    requires Enabled(s, step)
    ensures (if step.Takes? then [step.item] else []) + Next(s, step).queue == s.queue + Enqueues(s, step)
  {
    hide StatusOf, Appended, Send, Survivors;
  }

  /** What has been taken, followed by what is waiting, is what was enqueued, in order. */
  lemma {:induction false} QueueIsFifo(run: Run)
    requires Possible(run)
    ensures Taken(run) + At(run).queue == Enqueued(run)
  {
    hide Next, Enabled, Enqueues;
    if run == [] {
    } else {
      var s, step := At(Front(run)), Last(run);
      QueueIsFifo(Front(run));
      StepQueue(s, step);
      var took := if step.Takes? then [step.item] else [];
      assert Taken(run) + At(run).queue == Taken(Front(run)) + (took + At(run).queue);
      assert Enqueued(run) == Taken(Front(run)) + (s.queue + Enqueues(s, step));
    }
  }

  /** The item a step carries out: the boot is adopted, the event is appended or
      refused, the requests in flight are marked. */
  function Handles(step: Step): seq<Item> {
    match step
    case AdoptsBoot(c, w, b) => [RegisterItem(c, w, b)]
    case HandlesEvent(c, e) => [EventItem(c, e)]
    case MarksRolled(c, w) => [LostItem(c, w)]
    case _ => []
  }

  function Handled(run: Run): seq<Item> {
    if run == [] then [] else Handled(Front(run)) + Handles(Last(run))
  }

  function Held(s: State): seq<Item> {
    if s.pc.Holding? then [s.pc.item] else []
  }

  lemma StepHeld(s: State, step: Step)
    requires Enabled(s, step)
    ensures Handles(step) + Held(Next(s, step)) == Held(s) + if step.Takes? then [step.item] else []
  {
    hide StatusOf, Appended, Send, Survivors;
  }

  /** Items are carried out in the order in which they are taken. */
  lemma {:induction false} HandledInOrder(run: Run)
    requires Possible(run)
    ensures Handled(run) + Held(At(run)) == Taken(run)
  {
    hide Next, Enabled, Handles, Held;
    if run == [] {
      NothingHeldYet();
    } else {
      var s, step := At(Front(run)), Last(run);
      HandledInOrder(Front(run));
      StepHeld(s, step);
      assert Handled(run) + Held(At(run)) == Handled(Front(run)) + (Handles(step) + Held(At(run)));
      assert Handled(run) + Held(At(run)) == Taken(Front(run)) + if step.Takes? then [step.item] else [];
    }
  }

  lemma NothingHeldYet()
    ensures Held(INITIAL) == []
  {
  }

  /** Carried out, in hand and waiting make up, in order, exactly what was enqueued. */
  lemma ServedInOrder(run: Run)
    requires Possible(run)
    ensures Handled(run) + Held(At(run)) + At(run).queue == Enqueued(run)
  {
    HandledInOrder(run);
    QueueIsFifo(run);
  }

  /******* Items by kind *******/

  /** The events that came from connection `c`. */
  function EventsOf(items: seq<Item>, c: nat): seq<LedgerEntry> {
    if items == [] then [] else
    var n := |items| - 1;
    EventsOf(items[..n], c) + if items[n].EventItem? && items[n].conn == c then [items[n].entry] else []
  }

  /** The registrations that came from connection `c`. */
  function RegistersOf(items: seq<Item>, c: nat): seq<Item> {
    if items == [] then [] else
    var n := |items| - 1;
    RegistersOf(items[..n], c) + if items[n].RegisterItem? && items[n].conn == c then [items[n]] else []
  }

  function LossesOf(items: seq<Item>): seq<Item> {
    if items == [] then [] else
    var n := |items| - 1;
    LossesOf(items[..n]) + if items[n].LostItem? then [items[n]] else []
  }

  lemma {:induction false} KindsAppend(a: seq<Item>, b: seq<Item>, c: nat)
    ensures EventsOf(a + b, c) == EventsOf(a, c) + EventsOf(b, c)
    ensures RegistersOf(a + b, c) == RegistersOf(a, c) + RegistersOf(b, c)
    ensures LossesOf(a + b) == LossesOf(a) + LossesOf(b)
    decreases |b|
  {
    if b == [] {
      assert a + b == a;
    } else {
      assert (a + b)[..|a + b| - 1] == a + b[..|b| - 1];
      KindsAppend(a, b[..|b| - 1], c);
    }
  }

  lemma KindsOfOne(item: Item, c: nat)
    ensures EventsOf([], c) == [] && RegistersOf([], c) == [] && LossesOf([]) == []
    ensures EventsOf([item], c) == if item.EventItem? && item.conn == c then [item.entry] else []
    ensures RegistersOf([item], c) == if item.RegisterItem? && item.conn == c then [item] else []
    ensures LossesOf([item]) == if item.LostItem? then [item] else []
  {
    assert [item][..0] == [];
  }

  /******* What is sent *******/

  function SentOn(s: State, c: nat): seq<Outgoing> {
    if c < |s.conns| then s.conns[c].sent else []
  }

  /** What a step sends on connection `c`. */
  function SentBy(s: State, step: Step, c: nat): seq<Outgoing> {
    match step
    case ReadsPing(d) => if d == c then [Pong] else []
    case SendsRegisterAck =>
      if s.pc.AckingRegister? && s.pc.conn == c then [RegisterAck(s.pc.epoch, s.pc.generation)] else []
    case SendsEventAck => if s.pc.AckingEvent? && s.pc.conn == c then [EventAck(s.pc.status)] else []
    case SendsRoll =>
      if s.pc.Rolling? && s.pc.targets != [] && s.pc.targets[0] == c then [Roll(s.pc.epoch, s.pc.generation)] else []
    case _ => []
  }

  lemma StepSent(s: State, step: Step, c: nat)
    requires Enabled(s, step)
    ensures SentOn(Next(s, step), c) == SentOn(s, c) + SentBy(s, step, c)
  {
    hide StatusOf, Appended, Survivors;
  }

  /******* Acknowledgements of events *******/

  /** The events of connection `c` handled so far, with what `append` answered. */
  function Answers(run: Run, c: nat): seq<(LedgerEntry, AppendStatus)>
    requires Possible(run)
  {
    if run == [] then [] else
    Answers(Front(run), c) +
    if Last(run).HandlesEvent? && Last(run).conn == c
    then [(Last(run).entry, EventStatus(At(Front(run)), Last(run).entry))]
    else []
  }

  function Statuses(answers: seq<(LedgerEntry, AppendStatus)>): (r: seq<AppendStatus>)
    ensures |r| == |answers|
  {
    seq(|answers|, i requires 0 <= i < |answers| => answers[i].1)
  }

  function Entries(answers: seq<(LedgerEntry, AppendStatus)>): (r: seq<LedgerEntry>)
    ensures |r| == |answers|
  {
    seq(|answers|, i requires 0 <= i < |answers| => answers[i].0)
  }

  /** The EventAcks among the messages sent on a connection. */
  function Acks(sent: seq<Outgoing>): seq<AppendStatus> {
    if sent == [] then [] else
    Acks(sent[..|sent| - 1]) + if sent[|sent| - 1].EventAck? then [sent[|sent| - 1].status] else []
  }

  function AcksOn(s: State, c: nat): seq<AppendStatus> { Acks(SentOn(s, c)) }

  /** The acknowledgement computed but not yet sent. */
  function PendingAck(s: State, c: nat): seq<AppendStatus> {
    if s.pc.AckingEvent? && s.pc.conn == c then [s.pc.status] else []
  }

  lemma {:induction false} AcksAppend(a: seq<Outgoing>, b: seq<Outgoing>)
    ensures Acks(a + b) == Acks(a) + Acks(b)
    decreases |b|
  {
    if b == [] {
      assert a + b == a;
    } else {
      assert (a + b)[..|a + b| - 1] == a + b[..|b| - 1];
      AcksAppend(a, b[..|b| - 1]);
    }
  }

  lemma StepAcks(s: State, step: Step, c: nat)
    requires Enabled(s, step)
    ensures Acks(SentBy(s, step, c)) + PendingAck(Next(s, step), c)
         == PendingAck(s, c) + if step.HandlesEvent? && step.conn == c then [EventStatus(s, step.entry)] else []
  {
    hide StatusOf, Appended, Send, Survivors;
    forall m: Outgoing ensures [m][..0] == [] {}
  }

  /** The EventAcks written to a connection are, in order, the append results of
      its handled events, save at most the one still being sent. */
  lemma {:induction false} AcksAnswerEvents(run: Run, c: nat)
    requires Possible(run)
    ensures AcksOn(At(run), c) + PendingAck(At(run), c) == Statuses(Answers(run, c))
  {
    hide Next, Enabled, EventStatus, SentOn, SentBy, PendingAck, Acks;
    if run == [] {
      NothingSentYet(c);
    } else {
      var s, step := At(Front(run)), Last(run);
      AcksAnswerEvents(Front(run), c);
      StepSent(s, step, c);
      AcksAppend(SentOn(s, c), SentBy(s, step, c));
      StepAcks(s, step, c);
      var did := if step.HandlesEvent? && step.conn == c then [EventStatus(s, step.entry)] else [];
      assert Statuses(Answers(run, c)) == Statuses(Answers(Front(run), c)) + did;
      assert AcksOn(At(run), c) + PendingAck(At(run), c)
          == AcksOn(s, c) + (Acks(SentBy(s, step, c)) + PendingAck(At(run), c));
    }
  }

  lemma NothingSentYet(c: nat)
    ensures SentOn(INITIAL, c) == [] && Acks([]) == [] && PendingAck(INITIAL, c) == []
    ensures RegisterAcks([]) == [] && PendingRegister(INITIAL, c) == []
  {
  }

  /** The events answered are the events carried out. */
  lemma {:induction false} AnsweredIsHandled(run: Run, c: nat)
    requires Possible(run)
    ensures Entries(Answers(run, c)) == EventsOf(Handled(run), c)
  {
    hide Next, Enabled, EventStatus, EventsOf, RegistersOf, LossesOf;
    KindsOfOne(LostItem(0, ZERO_ID), c);
    if run == [] {
    } else {
      AnsweredIsHandled(Front(run), c);
      KindsAppend(Handled(Front(run)), Handles(Last(run)), c);
      if Handles(Last(run)) != [] { KindsOfOne(Handles(Last(run))[0], c); }
    }
  }

  /** End to end: handled, in hand and waiting make up, in order, exactly the
      events the connection submitted, and the acknowledgements sent are the
      answers to the first of them. */
  lemma ConnectionIsServedInOrder(run: Run, c: nat)
    requires Possible(run)
    ensures Entries(Answers(run, c)) + EventsOf(Held(At(run)), c) + EventsOf(At(run).queue, c)
         == EventsOf(Enqueued(run), c)
    ensures AcksOn(At(run), c) <= Statuses(Answers(run, c))
    ensures !At(run).pc.AckingEvent? ==> AcksOn(At(run), c) == Statuses(Answers(run, c))
  {
    hide At, Possible, Answers, Statuses, Entries, AcksOn, Held, Handled, Enqueued, EventsOf;
    ServedInOrder(run);
    AnsweredIsHandled(run, c);
    KindsAppend(Handled(run), Held(At(run)), c);
    KindsAppend(Handled(run) + Held(At(run)), At(run).queue, c);
    AcksAnswerEvents(run, c);
  }

  /******* Acknowledgements of registrations *******/

  datatype Standing = Standing(epoch: U64, generation: U64)

  /** Epoch and generation in force when each registration of `c` was handled. */
  function Standings(run: Run, c: nat): seq<Standing>
    requires Possible(run)
  {
    if run == [] then [] else
    var a := At(Front(run)).authority;
    Standings(Front(run), c) +
    if Last(run).AdoptsBoot? && Last(run).conn == c then [Standing(a.epoch, a.accountingGeneration)] else []
  }

  function RegisterAcks(sent: seq<Outgoing>): seq<Standing> {
    if sent == [] then [] else
    var m := sent[|sent| - 1];
    RegisterAcks(sent[..|sent| - 1]) + if m.RegisterAck? then [Standing(m.epoch, m.accountingGeneration)] else []
  }

  function PendingRegister(s: State, c: nat): seq<Standing> {
    if (s.pc.Registering? || s.pc.AckingRegister?) && s.pc.conn == c
    then [Standing(s.pc.epoch, s.pc.generation)] else []
  }

  lemma {:induction false} RegisterAcksAppend(a: seq<Outgoing>, b: seq<Outgoing>)
    ensures RegisterAcks(a + b) == RegisterAcks(a) + RegisterAcks(b)
    decreases |b|
  {
    if b == [] {
      assert a + b == a;
    } else {
      assert (a + b)[..|a + b| - 1] == a + b[..|b| - 1];
      RegisterAcksAppend(a, b[..|b| - 1]);
    }
  }

  lemma StepRegisterAcks(s: State, step: Step, c: nat)
    requires Enabled(s, step)
    ensures RegisterAcks(SentBy(s, step, c)) + PendingRegister(Next(s, step), c)
         == PendingRegister(s, c) + if step.AdoptsBoot? && step.conn == c
                                    then [Standing(s.authority.epoch, s.authority.accountingGeneration)] else []
  {
    hide StatusOf, Appended, Send, Survivors;
    forall m: Outgoing ensures [m][..0] == [] {}
  }

  /** The RegisterAcks written to a connection are, in order, one for each of its
      registrations handled, with the standing at that moment, save at most the
      one still being sent. */
  lemma {:induction false} RegistrationsAreAnswered(run: Run, c: nat)
    requires Possible(run)
    ensures RegisterAcks(SentOn(At(run), c)) + PendingRegister(At(run), c) == Standings(run, c)
  {
    hide Next, Enabled, SentOn, SentBy, PendingRegister, RegisterAcks;
    if run == [] {
      NothingSentYet(c);
    } else {
      var s, step := At(Front(run)), Last(run);
      RegistrationsAreAnswered(Front(run), c);
      StepSent(s, step, c);
      RegisterAcksAppend(SentOn(s, c), SentBy(s, step, c));
      StepRegisterAcks(s, step, c);
      assert RegisterAcks(SentOn(At(run), c)) + PendingRegister(At(run), c)
          == RegisterAcks(SentOn(s, c)) + (RegisterAcks(SentBy(s, step, c)) + PendingRegister(At(run), c));
    }
  }

  lemma {:induction false} OneStandingEach(run: Run, c: nat)
    requires Possible(run)
    ensures |Standings(run, c)| == |RegistersOf(Handled(run), c)|
  {
    hide Next, Enabled, EventsOf, RegistersOf, LossesOf;
    KindsOfOne(LostItem(0, ZERO_ID), c);
    if run == [] {
    } else {
      OneStandingEach(Front(run), c);
      KindsAppend(Handled(Front(run)), Handles(Last(run)), c);
      if Handles(Last(run)) != [] { KindsOfOne(Handles(Last(run))[0], c); }
    }
  }

  /******* Losses and rolls *******/

  /** Rolls made by the accounting thread, as opposed to outside callers. */
  function OwnRolls(run: Run): nat {
    if run == [] then 0 else OwnRolls(Front(run)) + if Last(run).AdvancesEpoch? then 1 else 0
  }

  lemma StepRolls(s: State, step: Step)
    requires Enabled(s, step)
    ensures (if step.AdvancesEpoch? then 1 else 0) + (if Next(s, step).pc.Marked? then 1 else 0)
         == (if s.pc.Marked? then 1 else 0) + if step.MarksRolled? then 1 else 0
  {
    hide StatusOf, Appended, Send, Survivors;
  }

  /** Each loss carried out rolls the epoch exactly once. */
  lemma {:induction false} EachLossRollsOnce(run: Run)
    requires Possible(run)
    ensures OwnRolls(run) + (if At(run).pc.Marked? then 1 else 0) == |LossesOf(Handled(run))|
  {
    hide Next, Enabled, EventsOf, RegistersOf, LossesOf;
    KindsOfOne(LostItem(0, ZERO_ID), 0);
    if run == [] {
    } else {
      EachLossRollsOnce(Front(run));
      StepRolls(At(Front(run)), Last(run));
      KindsAppend(Handled(Front(run)), Handles(Last(run)), 0);
      if Handles(Last(run)) != [] { KindsOfOne(Handles(Last(run))[0], 0); }
    }
  }

  /** The losses of connections that were registered when they disconnected. */
  function Disconnects(run: Run): seq<Item>
    requires Possible(run)
  {
    if run == [] then [] else
    var s, step := At(Front(run)), Last(run);
    Disconnects(Front(run)) +
    if step.ReadsDisconnect? && s.conns[step.conn].registered
    then [LostItem(step.conn, s.conns[step.conn].worker)] else []
  }

  lemma {:induction false} LossesAreDisconnects(run: Run)
    requires Possible(run)
    ensures LossesOf(Enqueued(run)) == Disconnects(run)
  {
    hide Next, EventsOf, RegistersOf, LossesOf;
    KindsOfOne(LostItem(0, ZERO_ID), 0);
    if run == [] {
    } else {
      var more := Enqueues(At(Front(run)), Last(run));
      LossesAreDisconnects(Front(run));
      KindsAppend(Enqueued(Front(run)), more, 0);
      if more != [] { KindsOfOne(more[0], 0); }
    }
  }

  ghost predicate NoLossOf(run: Run, c: nat)
    requires Possible(run)
  {
    forall item :: item in Disconnects(run) ==> item.conn != c
  }

  /** A connection whose reader has ended is never read again. */
  lemma StepReading(s: State, step: Step, c: nat)
    requires Enabled(s, step)
    ensures c < |s.conns| && !s.conns[c].reading ==> c < |Next(s, step).conns| && !Next(s, step).conns[c].reading
    ensures step == ReadsDisconnect(c) ==>
              c < |s.conns| && s.conns[c].reading && c < |Next(s, step).conns| && !Next(s, step).conns[c].reading
  {
    hide StatusOf, Appended, Survivors;
  }

  /** Each connection is lost at most once: while it is read it has not been. */
  lemma {:induction false} LostOnce(run: Run, c: nat)
    requires Possible(run)
    ensures !(c < |At(run).conns| && !At(run).conns[c].reading) ==> NoLossOf(run, c)
    ensures forall i, j :: 0 <= i < j < |Disconnects(run)| ==> Disconnects(run)[i].conn != Disconnects(run)[j].conn
  {
    hide Next;
    if run == [] {
    } else {
      var s, step := At(Front(run)), Last(run);
      LostOnce(Front(run), c);
      StepReading(s, step, c);
      if step.ReadsDisconnect? {
        LostOnce(Front(run), step.conn);
        assert NoLossOf(Front(run), step.conn);
      }
    }
  }

  lemma {:induction false} DeadStaysDead(run: Run, k: nat, c: nat)
    requires Possible(run) && k <= |run| && Possible(run[..k])
    requires c < |At(run[..k]).conns| && !At(run[..k]).conns[c].reading && NoLossOf(run[..k], c)
    ensures c < |At(run).conns| && !At(run).conns[c].reading && NoLossOf(run, c)
    decreases |run|
  {
    hide Next;
    if k == |run| {
      assert run[..k] == run;
    } else {
      assert Front(run)[..k] == run[..k];
      DeadStaysDead(Front(run), k, c);
      StepReading(At(Front(run)), Last(run), c);
    }
  }

  /** A connection that disconnects before its registration is handled is never
      counted as lost, however the run goes on: no roll is made for it. */
  lemma EarlyDisconnectNeverRolls(run: Run, k: nat, c: nat)
    requires Possible(run) && k < |run| && run[k] == ReadsDisconnect(c)
    requires Possible(run[..k]) && c < |At(run[..k]).conns| && !At(run[..k]).conns[c].registered
    ensures NoLossOf(run, c) && forall item :: item in LossesOf(Enqueued(run)) ==> item.conn != c
  {
    hide Next, At, Possible, LossesOf;
    PrefixStep(run, k);
    LostOnce(run[..k], c);
    StepReading(At(run[..k]), run[k], c);
    assert Front(run[..k + 1]) == run[..k] && Last(run[..k + 1]) == run[k];
    DeadStaysDead(run, k + 1, c);
    LossesAreDisconnects(run);
  }

  /******* Leaving *******/

  /** When the accounting thread leaves, everything enqueued before has been carried
      out in order: every event appended or refused and acknowledged with that result,
      every registration adopted and acknowledged, every loss marked and rolled once. */
  lemma ExitDrainsQueue(run: Run, k: nat, c: nat)
    requires Possible(run) && k < |run| && run[k].Exits?
    ensures Possible(run[..k]) && At(run[..k]).stopRequested
    ensures Handled(run[..k]) == Enqueued(run[..k])
    ensures EventsOf(Enqueued(run[..k]), c) == Entries(Answers(run[..k], c))
    ensures AcksOn(At(run[..k]), c) == Statuses(Answers(run[..k], c))
    ensures RegisterAcks(SentOn(At(run[..k]), c)) == Standings(run[..k], c)
    ensures |Standings(run[..k], c)| == |RegistersOf(Enqueued(run[..k]), c)|
    ensures OwnRolls(run[..k]) == |LossesOf(Enqueued(run[..k]))|
  {
    hide At, Possible, Next, Answers, Statuses, Entries, Standings, RegisterAcks, AcksOn, SentOn;
    hide EventsOf, RegistersOf, LossesOf, OwnRolls;
    PrefixStep(run, k);
    var before := run[..k];
    ServedInOrder(before);
    assert Handled(before) + [] + [] == Handled(before);
    AnsweredIsHandled(before, c);
    AcksAnswerEvents(before, c);
    RegistrationsAreAnswered(before, c);
    OneStandingEach(before, c);
    EachLossRollsOnce(before);
  }

  /******* Announced epochs *******/

  /** The epochs that RegisterAcks and Rolls on a connection tell its worker. */
  function Announced(sent: seq<Outgoing>): seq<U64> {
    if sent == [] then [] else
    var m := sent[|sent| - 1];
    Announced(sent[..|sent| - 1]) + if m.RegisterAck? || m.Roll? then [m.epoch] else []
  }

  lemma {:induction false} AnnouncedAppend(a: seq<Outgoing>, b: seq<Outgoing>)
    ensures Announced(a + b) == Announced(a) + Announced(b)
    decreases |b|
  {
    if b == [] {
      assert a + b == a;
    } else {
      assert (a + b)[..|a + b| - 1] == a + b[..|b| - 1];
      AnnouncedAppend(a, b[..|b| - 1]);
    }
  }

  /** The epoch read for the announcement in progress, or else the current one. */
  function Announcing(s: State): U64 {
    if s.pc.Registering? || s.pc.AckingRegister? || s.pc.Rolling? then s.pc.epoch else s.authority.epoch
  }

  ghost predicate AscendsTo(xs: seq<U64>, limit: U64) {
    && (forall i, j :: 0 <= i < j < |xs| ==> xs[i] <= xs[j])
    && (forall i :: 0 <= i < |xs| ==> xs[i] <= limit)
  }

  lemma StepAnnounces(s: State, step: Step, c: nat)
    requires Enabled(s, step) && Announcing(s) <= s.authority.epoch
    requires s.authority.epoch <= Next(s, step).authority.epoch
    ensures Announced(SentBy(s, step, c)) == [] || Announced(SentBy(s, step, c)) == [Announcing(s)]
    ensures Announcing(s) <= Announcing(Next(s, step)) <= Next(s, step).authority.epoch
  {
    hide StatusOf, Appended, Send, Survivors;
    forall m: Outgoing ensures [m][..0] == [] {}
  }

  /** The epochs a worker is told never decrease, and never run ahead of the current one. */
  lemma {:induction false} AnnouncementsAscend(run: Run, c: nat)
    requires Possible(run) && NoWrap(run)
    ensures AscendsTo(Announced(SentOn(At(run), c)), Announcing(At(run)))
    ensures Announcing(At(run)) <= At(run).authority.epoch
  {
    hide Next, Enabled, Announced, SentOn, SentBy, Announcing;
    if run == [] {
      NothingAnnouncedYet(c);
    } else {
      var s, step := At(Front(run)), Last(run);
      AnnouncementsAscend(Front(run), c);
      EpochCountsRolls(Front(run));
      EpochCountsRolls(run);
      StepAnnounces(s, step, c);
      StepSent(s, step, c);
      AnnouncedAppend(SentOn(s, c), SentBy(s, step, c));
    }
  }

  lemma NothingAnnouncedYet(c: nat)
    ensures Announced(SentOn(INITIAL, c)) == [] && Announcing(INITIAL) == INITIAL.authority.epoch
  {
    NothingSentYet(c);
    assert Announced([]) == [];
  }

  /******* The accounting thread is never stuck inside an item *******/

  ghost predicate KnownConns(s: State) {
    var n := |s.conns|;
    && (forall i :: 0 <= i < |s.queue| ==> s.queue[i].conn < n)
    && match s.pc
       case Holding(item) => item.conn < n
       case Registering(c, _, _, _) => c < n
       case AckingRegister(c, _, _) => c < n
       case AckingEvent(c, _) => c < n
       case Gathered(ts) => forall i :: 0 <= i < |ts| ==> ts[i] < n
       case Rolling(ts, _, _) => forall i :: 0 <= i < |ts| ==> ts[i] < n
       case _ => true
  }

  lemma StepKnownConns(s: State, step: Step)
    requires Enabled(s, step) && KnownConns(s)
    ensures KnownConns(Next(s, step))
  {
    hide StatusOf, Appended, Survivors;
  }

  function OwnStep(pc: Pc): Step
    requires !pc.Idle? && !pc.Exited?
  {
    match pc
    case Holding(RegisterItem(c, w, b)) => AdoptsBoot(c, w, b)
    case Holding(EventItem(c, e)) => HandlesEvent(c, e)
    case Holding(LostItem(c, w)) => MarksRolled(c, w)
    case Registering(_, _, _, _) => MarksRegistered
    case AckingRegister(_, _, _) => SendsRegisterAck
    case AckingEvent(_, _) => SendsEventAck
    case Marked(_) => AdvancesEpoch
    case Advanced(_) => GathersTargets
    case Gathered(_) => ReadsEpoch
    case Rolling(_, _, _) => SendsRoll
  }

  /** Everything ever enqueued came from a connection that exists. */
  lemma {:induction false} EnqueuedIsKnown(run: Run)
    requires Possible(run)
    ensures forall item :: item in Enqueued(run) ==> item.conn < |At(run).conns|
  {
    hide Next;
    if run == [] {
    } else {
      EnqueuedIsKnown(Front(run));
      ConnsOnlyGrow(At(Front(run)), Last(run));
    }
  }

  lemma ConnsOnlyGrow(s: State, step: Step)
    requires Enabled(s, step)
    ensures |s.conns| <= |Next(s, step).conns|
  {
    hide StatusOf, Appended, Survivors;
  }

  lemma {:induction false} NeverStuck(run: Run)
    requires Possible(run)
    ensures KnownConns(At(run))
    ensures !At(run).pc.Idle? && !At(run).pc.Exited? ==> Enabled(At(run), OwnStep(At(run).pc))
    ensures At(run).pc.Idle? && At(run).queue != [] ==> Enabled(At(run), Takes(At(run).queue[0]))
  {
    hide Next;
    if run == [] {
    } else {
      NeverStuck(Front(run));
      StepKnownConns(At(Front(run)), Last(run));
    }
  }
}
