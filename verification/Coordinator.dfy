/** The coordinator as a state machine. Each step is one critical section, one
    queue operation or one send; reader threads, outside callers and the single
    accounting thread may interleave in any order between steps. */
module Coordinator {
  import opened Base
  import opened Entry
  import opened Ledger

  /******* State *******/

  datatype Item =
    | RegisterItem(conn: nat, worker: Id, boot: Id)
    | EventItem(conn: nat, entry: LedgerEntry)
    | LostItem(conn: nat, worker: Id)

  datatype Outgoing =
    | RegisterAck(epoch: U64, accountingGeneration: U64)
    | EventAck(status: AppendStatus)
    | Roll(epoch: U64, accountingGeneration: U64)
    | Pong

  /** `reading` while the connection's reader thread is alive; `sent` is what
      has been handed to its socket. */
  datatype Conn = Conn(worker: Id, registered: bool, reading: bool, sent: seq<Outgoing>)

  /** Where the accounting thread stands between two of its steps. */
  datatype Pc =
    | Idle
    | Holding(item: Item)
    | Registering(conn: nat, worker: Id, epoch: U64, generation: U64)
    | AckingRegister(conn: nat, epoch: U64, generation: U64)
    | AckingEvent(conn: nat, status: AppendStatus)
    | Marked(worker: Id)
    | Advanced(worker: Id)
    | Gathered(targets: seq<nat>)
    | Rolling(targets: seq<nat>, epoch: U64, generation: U64)
    | Exited

  datatype State = State(
    authority: AuthorityState, entries: seq<LedgerEntry>, inFlight: set<Id>,
    queue: seq<Item>, conns: seq<Conn>, stopRequested: bool, pc: Pc)

  const INITIAL: State := State(
    AuthorityState(1, 1, map[], map[], map[], map[], map[], true), [], {}, [], [], false, Idle)

  /******* Steps *******/

  datatype Step =
    // outside callers
    | CallAdvanceEpoch
    | CallSetRequestAuthority(entry: LedgerEntry)
    | CallStop
    // the accept thread and the reader threads
    | Accepts
    | ReadsRegister(conn: nat, worker: Id, boot: Id)
    | ReadsEvent(conn: nat, entry: LedgerEntry)
    | ReadsPing(conn: nat)
    | ReadsDisconnect(conn: nat)
    // the accounting thread
    | Takes(item: Item)
    | Exits
    | AdoptsBoot(conn: nat, worker: Id, boot: Id)
    | MarksRegistered
    | SendsRegisterAck
    | HandlesEvent(conn: nat, entry: LedgerEntry)
    | SendsEventAck
    | MarksRolled(conn: nat, worker: Id)
    | AdvancesEpoch
    | GathersTargets
    | ReadsEpoch
    | SendsRoll

  function NextGeneration(g: U64): U64 { (g + 1) % U64_MODULUS }

  function Advance(a: AuthorityState): AuthorityState {
    a.(epoch := NextGeneration(a.epoch), accountingGeneration := NextGeneration(a.accountingGeneration))
  }

  /** What a RequestStart, or an outside caller, makes the current authority of its request. */
  function Adopt(a: AuthorityState, e: LedgerEntry): AuthorityState {
    a.(requestGeneration := a.requestGeneration[e.request := e.authority.requestGeneration],
       currentAttempt := a.currentAttempt[e.request := e.authority.attempt],
       attemptGeneration := a.attemptGeneration[e.request := e.authority.attemptGeneration],
       requestRolled := a.requestRolled[e.request := false])
  }

  /** The authority in force when `append` validates the event: adopted first, then checked. */
  function FenceFor(s: State, e: LedgerEntry): AuthorityState {
    if e.eventKind.RequestStart? then Adopt(s.authority, e) else s.authority
  }

  function EventStatus(s: State, e: LedgerEntry): AppendStatus {
    StatusOf(s.entries, Some(FenceFor(s, e)), e)
  }

  function InFlightAfter(inFlight: set<Id>, status: AppendStatus, e: LedgerEntry): set<Id> {
    if !status.Accepted? then inFlight
    else if e.eventKind.RequestStart? then inFlight + {e.request}
    else if e.eventKind.RequestEnd? then inFlight - {e.request}
    else inFlight
  }

  /** The registered connections of other workers, in connection order. */
  function Survivors(conns: seq<Conn>, worker: Id): (r: seq<nat>)
    ensures forall i :: 0 <= i < |r| ==> r[i] < |conns|
  {
    if conns == [] then [] else
    var n := |conns| - 1;
    Survivors(conns[..n], worker) + if conns[n].registered && conns[n].worker != worker then [n] else []
  }

  function Send(conns: seq<Conn>, c: nat, m: Outgoing): seq<Conn>
    requires c < |conns|
  {
    conns[c := conns[c].(sent := conns[c].sent + [m])]
  }

  predicate Reading(s: State, c: nat) { c < |s.conns| && s.conns[c].reading }

  predicate Enabled(s: State, step: Step) {
    match step
    case CallAdvanceEpoch => true
    case CallSetRequestAuthority(_) => true
    case CallStop => true
    case Accepts => true
    case ReadsRegister(c, _, _) => Reading(s, c)
    case ReadsEvent(c, _) => Reading(s, c)
    case ReadsPing(c) => Reading(s, c)
    case ReadsDisconnect(c) => Reading(s, c)
    case Takes(item) => s.pc.Idle? && s.queue != [] && s.queue[0] == item
    case Exits => s.pc.Idle? && s.queue == [] && s.stopRequested
    case AdoptsBoot(c, w, b) => s.pc == Holding(RegisterItem(c, w, b))
    case MarksRegistered => s.pc.Registering? && s.pc.conn < |s.conns|
    case SendsRegisterAck => s.pc.AckingRegister? && s.pc.conn < |s.conns|
    case HandlesEvent(c, e) => s.pc == Holding(EventItem(c, e))
    case SendsEventAck => s.pc.AckingEvent? && s.pc.conn < |s.conns|
    case MarksRolled(c, w) => s.pc == Holding(LostItem(c, w))
    case AdvancesEpoch => s.pc.Marked?
    case GathersTargets => s.pc.Advanced?
    case ReadsEpoch => s.pc.Gathered?
    case SendsRoll => s.pc.Rolling? && (s.pc.targets != [] ==> s.pc.targets[0] < |s.conns|)
  }

  function Next(s: State, step: Step): State
    requires Enabled(s, step)
  {
    match step
    case CallAdvanceEpoch => s.(authority := Advance(s.authority))
    case CallSetRequestAuthority(e) => s.(authority := Adopt(s.authority, e))
    case CallStop => s.(stopRequested := true)
    case Accepts => s.(conns := s.conns + [Conn(ZERO_ID, false, true, [])])
    case ReadsRegister(c, w, b) => s.(queue := s.queue + [RegisterItem(c, w, b)])
    case ReadsEvent(c, e) => s.(queue := s.queue + [EventItem(c, e)])
    case ReadsPing(c) => s.(conns := Send(s.conns, c, Pong))
    case ReadsDisconnect(c) =>
      s.(conns := s.conns[c := s.conns[c].(reading := false)],
         queue := if s.conns[c].registered then s.queue + [LostItem(c, s.conns[c].worker)] else s.queue)
    case Takes(item) => s.(queue := s.queue[1..], pc := Holding(item))
    case Exits => s.(pc := Exited)
    case AdoptsBoot(c, w, b) =>
      s.(authority := s.authority.(workerBoot := s.authority.workerBoot[w := b]),
         pc := Registering(c, w, s.authority.epoch, s.authority.accountingGeneration))
    case MarksRegistered =>
      s.(conns := s.conns[s.pc.conn := s.conns[s.pc.conn].(worker := s.pc.worker, registered := true)],
         pc := AckingRegister(s.pc.conn, s.pc.epoch, s.pc.generation))
    case SendsRegisterAck =>
      s.(conns := Send(s.conns, s.pc.conn, RegisterAck(s.pc.epoch, s.pc.generation)), pc := Idle)
    case HandlesEvent(c, e) =>
      s.(authority := FenceFor(s, e),
         entries := Appended(s.entries, Some(FenceFor(s, e)), e),
         inFlight := InFlightAfter(s.inFlight, EventStatus(s, e), e),
         pc := AckingEvent(c, EventStatus(s, e)))
    case SendsEventAck => s.(conns := Send(s.conns, s.pc.conn, EventAck(s.pc.status)), pc := Idle)
    case MarksRolled(_, w) =>
      s.(authority := s.authority.(requestRolled := s.authority.requestRolled + map r | r in s.inFlight :: true),
         pc := Marked(w))
    case AdvancesEpoch => s.(authority := Advance(s.authority), pc := Advanced(s.pc.worker))
    case GathersTargets => s.(pc := Gathered(Survivors(s.conns, s.pc.worker)))
    case ReadsEpoch => s.(pc := Rolling(s.pc.targets, s.authority.epoch, s.authority.accountingGeneration))
    case SendsRoll =>
      if s.pc.targets == [] then s.(pc := Idle) else
      s.(conns := Send(s.conns, s.pc.targets[0], Roll(s.pc.epoch, s.pc.generation)),
         pc := s.pc.(targets := s.pc.targets[1..]))
  }

  /******* Runs *******/

  type Run = seq<Step>

  function Front(run: Run): Run requires run != [] { run[..|run| - 1] }
  function Last(run: Run): Step requires run != [] { run[|run| - 1] }

  /** `run` can happen: each step is enabled where the steps before it lead. */
  predicate Possible(run: Run)
    decreases |run|, 0
  {
    run == [] || (Possible(Front(run)) && Enabled(At(Front(run)), Last(run)))
  }

  /** The state a possible run leads to. */
  function At(run: Run): State
    requires Possible(run)
    decreases |run|, 1
  {
    if run == [] then INITIAL else Next(At(Front(run)), Last(run))
  }

  lemma {:induction false} PrefixPossible(run: Run, k: nat)
    requires Possible(run) && k <= |run|
    ensures Possible(run[..k])
    decreases |run|
  {
    if k < |run| {
      PrefixPossible(Front(run), k);
      assert Front(run)[..k] == run[..k];
    } else {
      assert run[..k] == run;
    }
  }

  /** A possible run may go on with any step enabled where it leads. */
  lemma Extend(run: Run, step: Step)
    requires Possible(run) && Enabled(At(run), step)
    ensures Possible(run + [step]) && At(run + [step]) == Next(At(run), step)
  {
    assert Front(run + [step]) == run && Last(run + [step]) == step;
  }

  /** Cutting a run after step `k` shows that step. */
  lemma PrefixStep(run: Run, k: nat)
    requires Possible(run) && k < |run|
    ensures Possible(run[..k]) && Possible(run[..k + 1])
    ensures Enabled(At(run[..k]), run[k])
    ensures At(run[..k + 1]) == Next(At(run[..k]), run[k])
  {
    PrefixPossible(run, k);
    PrefixPossible(run, k + 1);
    assert Front(run[..k + 1]) == run[..k] && Last(run[..k + 1]) == run[k];
  }
}
