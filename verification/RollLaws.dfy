/** Whom the coordinator tells about a lost worker. */
module RollLaws {
  import opened Entry
  import opened Ledger
  import opened Coordinator
  import opened ServiceLaws

  /** Connection `c` is registered to a worker other than `w`. */
  predicate Spared(conns: seq<Conn>, w: Id, c: nat) {
    c < |conns| && conns[c].registered && conns[c].worker != w
  }

  ghost predicate Climbs(targets: seq<nat>) {
    forall i, j :: 0 <= i < j < |targets| ==> targets[i] < targets[j]
  }

  /** The targets of a roll are exactly the connections registered to other workers,
      in connection order, each once. */
  lemma {:induction false} SurvivorsAreSpared(conns: seq<Conn>, w: Id)
    ensures forall c: nat :: c in Survivors(conns, w) <==> Spared(conns, w, c)
    ensures Climbs(Survivors(conns, w))
  {
    if conns == [] {
    } else {
      var n := |conns| - 1;
      SurvivorsAreSpared(conns[..n], w);
      forall c: nat ensures c in Survivors(conns, w) <==> Spared(conns, w, c) {
        assert c < n ==> (Spared(conns, w, c) <==> Spared(conns[..n], w, c));
        assert c in Survivors(conns[..n], w) ==> c < n;
      }
    }
  }

  /** The Rolls among the messages sent on a connection. */
  function Rolls(sent: seq<Outgoing>): seq<Standing> {
    if sent == [] then [] else
    var m := sent[|sent| - 1];
    Rolls(sent[..|sent| - 1]) + if m.Roll? then [Standing(m.epoch, m.accountingGeneration)] else []
  }

  lemma {:induction false} RollsAppend(a: seq<Outgoing>, b: seq<Outgoing>)
    ensures Rolls(a + b) == Rolls(a) + Rolls(b)
    decreases |b|
  {
    if b == [] {
      assert a + b == a;
    } else {
      assert (a + b)[..|a + b| - 1] == a + b[..|b| - 1];
      RollsAppend(a, b[..|b| - 1]);
    }
  }

  function RollsOn(s: State, c: nat): seq<Standing> { Rolls(SentOn(s, c)) }

  /** The Roll still owed to connection `c` by the round in progress. */
  function OwedTo(pc: Pc, c: nat): seq<Standing> {
    if pc.Rolling? && c in pc.targets then [Standing(pc.epoch, pc.generation)] else []
  }

  lemma StepRollsOn(s: State, step: Step, c: nat)
    requires Enabled(s, step) && (s.pc.Rolling? ==> Climbs(s.pc.targets))
    ensures Next(s, step).pc.Rolling? ==>
              (if step.ReadsEpoch? then s.pc.Gathered? && Next(s, step).pc.targets == s.pc.targets
               else s.pc.Rolling? && Climbs(Next(s, step).pc.targets))
    ensures !step.ReadsEpoch? ==>
              Rolls(SentBy(s, step, c)) + OwedTo(Next(s, step).pc, c) == OwedTo(s.pc, c)
    ensures step.ReadsEpoch? ==> SentBy(s, step, c) == []
  {
    hide StatusOf, Appended, Send, Survivors;
    forall m: Outgoing ensures [m][..0] == [] {}
  }

  lemma StepGathers(s: State, step: Step)
    requires Enabled(s, step)
    ensures step.GathersTargets? ==>
              s.pc.Advanced? && Next(s, step).pc == Gathered(Survivors(s.conns, s.pc.worker))
    ensures !step.GathersTargets? && Next(s, step).pc.Gathered? ==> s.pc == Next(s, step).pc
    ensures step.ReadsEpoch? ==>
              && s.pc.Gathered?
              && Next(s, step).pc == Rolling(s.pc.targets, s.authority.epoch, s.authority.accountingGeneration)
    ensures !step.ReadsEpoch? && Next(s, step).pc.Rolling? ==>
              && s.pc.Rolling? && s.pc.epoch == Next(s, step).pc.epoch && s.pc.generation == Next(s, step).pc.generation
    ensures step.GathersTargets? || step.ReadsEpoch? ==> Next(s, step).conns == s.conns
    ensures s.pc.Gathered? && !step.ReadsEpoch? ==> Next(s, step).pc == s.pc
  {
    hide StatusOf, Appended, Send;
  }

  /** Step `g` gathers the targets for a loss, and no later step of the run does. */
  predicate LastGathering(run: Run, g: nat)
    requires Possible(run)
  {
    && g < |run| && run[g].GathersTargets? && Possible(run[..g])
    && forall j :: g < j < |run| ==> !run[j].GathersTargets?
  }

  /** Where the round of Rolls that follows step `g` stands on connection `c`, `r` being
      the step that read the epoch, if it was taken. */
  ghost predicate RoundStands(run: Run, g: nat, r: nat, c: nat)
    requires Possible(run) && LastGathering(run, g)
  {
    var s, t := At(run[..g]), At(run);
    s.pc.Advanced? &&
    if t.pc.Gathered? then
      t.pc.targets == Survivors(s.conns, s.pc.worker) && RollsOn(t, c) == RollsOn(s, c)
    else
      && g < r < |run| && run[r].ReadsEpoch? && Possible(run[..r])
      && var a := At(run[..r]).authority;
         var told := Standing(a.epoch, a.accountingGeneration);
         && RollsOn(t, c) + OwedTo(t.pc, c)
            == RollsOn(s, c) + (if Spared(s.conns, s.pc.worker, c) then [told] else [])
         && (t.pc.Rolling? ==> Climbs(t.pc.targets) && told == Standing(t.pc.epoch, t.pc.generation))
  }

  lemma {:induction false} RoundOfRolls(run: Run, g: nat, c: nat) returns (r: nat)
    requires Possible(run) && LastGathering(run, g)
    ensures RoundStands(run, g, r, c)
    decreases |run|
  {
    hide Next, Enabled, Survivors, SentOn, SentBy, Rolls, Climbs;
    var s, step, t := At(Front(run)), Last(run), At(run);
    StepGathers(s, step);
    StepSent(s, step, c);
    RollsAppend(SentOn(s, c), SentBy(s, step, c));
    if g == |run| - 1 {
      r := 0;
      assert run[..g] == Front(run);
      GatheringSendsNothing(s, step, c);
    } else {
      assert Front(run)[..g] == run[..g];
      r := RoundOfRolls(Front(run), g, c);
      if step.ReadsEpoch? {
        r := |run| - 1;
        assert run[..r] == Front(run);
        ReadingOwes(s, step, c, At(run[..g]));
      } else {
        if s.pc.Gathered? {
          GatheredSendsNothing(s, step, c);
        } else {
          assert Front(run)[..r] == run[..r];
          StepRollsOn(s, step, c);
          Reassociate(RollsOn(s, c), Rolls(SentBy(s, step, c)), OwedTo(t.pc, c));
        }
      }
    }
  }

  lemma Reassociate(a: seq<Standing>, b: seq<Standing>, c: seq<Standing>)
    ensures (a + b) + c == a + (b + c)
  {
  }

  lemma GatheringSendsNothing(s: State, step: Step, c: nat)
    requires Enabled(s, step) && step.GathersTargets?
    ensures Rolls(SentBy(s, step, c)) == []
  {
  }

  lemma GatheredSendsNothing(s: State, step: Step, c: nat)
    requires Enabled(s, step) && s.pc.Gathered? && !step.ReadsEpoch?
    ensures Rolls(SentBy(s, step, c)) == []
  {
    hide StatusOf, Appended;
    forall m: Outgoing ensures [m][..0] == [] {}
  }

  lemma ReadingOwes(s: State, step: Step, c: nat, past: State)
    requires Enabled(s, step) && step.ReadsEpoch? && s.pc.Gathered? && past.pc.Advanced?
    requires s.pc.targets == Survivors(past.conns, past.pc.worker)
    ensures var told := Standing(s.authority.epoch, s.authority.accountingGeneration);
            && Rolls(SentBy(s, step, c)) == []
            && OwedTo(Next(s, step).pc, c) == (if Spared(past.conns, past.pc.worker, c) then [told] else [])
            && Climbs(s.pc.targets)
  {
    hide Survivors, Spared;
    SurvivorsAreSpared(past.conns, past.pc.worker);
  }

  /** When the thread is idle again after a loss, each connection that was registered to
      another worker when the targets were gathered has been sent exactly one Roll,
      with the epoch and accounting generation read for it; no other was sent any. */
  lemma RollsReachTheSpared(run: Run, g: nat, c: nat) returns (r: nat)
    requires Possible(run) && LastGathering(run, g) && At(run).pc.Idle?
    ensures At(run[..g]).pc.Advanced?
    ensures g < r < |run| && run[r].ReadsEpoch? && Possible(run[..r])
    ensures var s, a := At(run[..g]), At(run[..r]).authority;
            RollsOn(At(run), c) == RollsOn(s, c) +
              if Spared(s.conns, s.pc.worker, c) then [Standing(a.epoch, a.accountingGeneration)] else []
  {
    hide At, Possible, RollsOn, Spared;
    r := RoundOfRolls(run, g, c);
  }
}
