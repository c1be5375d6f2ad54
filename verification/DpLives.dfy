/**
 Every peripheral of a running DP master lives one of the lives of a single peripheral.

 Lives are kept beside a run of the master: a turn, a reply, and what the user does go into the life of the peripheral
 that they concern.  Of these lives it is proved that they can be lived, and that the peripheral in each slot is the one
 of its life; so everything that holds in every life of a peripheral holds for the master.
 */
module DpLives {
  import opened BusParameters
  import opened Telegrams
  import opened Peripherals
  import opened PeripheralSets
  import opened DpMasters
  import opened DpCycles
  import History = PeripheralHistory

  type Lives = seq<Option<History.Life>>

  /** The occupied slots have lives, whose peripherals are the ones in the slots. */
  ghost predicate Matches(slots: Slots, lives: Lives, fdl: Parameters) {
    && |lives| == |slots|
    && forall i | 0 <= i < |slots| ::
         && (lives[i].Some? <==> slots[i].Some?)
         && (slots[i].Some? ==> lives[i].value.p == slots[i].value && History.LifeOk(lives[i].value, fdl))
  }

  /** The lives after one of them has gone on by a step. */
  ghost function GoOn(lives: Lives, i: nat, fdl: Parameters, step: History.LifeStep): Lives
    requires i < |lives| && lives[i].Some? && History.LifeOk(lives[i].value, fdl)
    requires History.LifeStepOk(lives[i].value, step)
  {
    lives[i := Some(History.Do(lives[i].value, fdl, step))]
  }

  lemma GoingOnMatches(slots: Slots, lives: Lives, i: nat, fdl: Parameters, step: History.LifeStep, p: PeripheralView)
    requires Matches(slots, lives, fdl) && i < |slots| && slots[i].Some?
    requires History.LifeStepOk(lives[i].value, step) && p == History.Do(lives[i].value, fdl, step).p
    ensures Matches(slots[i := Some(p)], GoOn(lives, i, fdl, step), fdl)
  {
    hide History.LifeOk, History.Do;
    History.StepKeepsLife(lives[i].value, fdl, step);
  }

  // ---------------------------------------------------------------------------------------------
  // The lives beside a run
  // ---------------------------------------------------------------------------------------------

  /** One turn. */
  ghost function AfterTurn(m: MasterView, lives: Lives, fdl: Parameters): Lives
    requires MasterOk(m, fdl) && m.cycle.AtIndex? && Matches(m.slots, lives, fdl)
  {
    GoOn(lives, Current(m), fdl, History.AskToTransmit)
  }

  lemma TurnMatches(m: MasterView, lives: Lives, fdl: Parameters)
    requires MasterOk(m, fdl) && m.cycle.AtIndex? && Matches(m.slots, lives, fdl)
    ensures Matches(GiveTurn(m, fdl).0.slots, AfterTurn(m, lives, fdl), fdl)
    ensures var i, after := Current(m), AfterTurn(m, lives, fdl);
            && i < |after| && after[i].Some?
            && after[i].value.trace == lives[i].value.trace + [History.EntryOf(GiveTurn(m, fdl).1)]
  {
    hide TakeTurn, History.LifeOk, FirstFrom;
    GoingOnMatches(m.slots, lives, Current(m), fdl, History.AskToTransmit, TakeTurn(m.slots[Current(m)].value, fdl).0);
  }

  /** All turns of one call, up to the one that transmits. */
  ghost function AfterVisit(m: MasterView, lives: Lives, fdl: Parameters, pending: Option<(Handle, PeripheralEvent)>)
    : Lives
    requires MasterOk(m, fdl) && Matches(m.slots, lives, fdl)
    decreases if m.cycle.AtIndex? then |m.slots| - m.cycle.index else -1
  {
    if m.cycle.CycleCompleted? then lives
    else
      var (n, turn) := GiveTurn(m, fdl);
      var after := AfterTurn(m, lives, fdl);
      match turn
      case Transmits(_) => after
      case Declines(event) =>
        if event.Some? && pending.Some? then after
        else
          TurnKeepsOk(m, fdl);
          EndTurnKeepsOk(n, fdl);
          TurnMatches(m, lives, fdl);
          var o := EndTurn(n);
          if o.cycle.CycleCompleted? then after else AfterVisit(o, after, fdl, Known(m, event, pending))
  }

  /** The lives match, and a telegram that was sent is the latest entry in the life of the peripheral in turn. */
  ghost predicate Sends(n: MasterView, lives: Lives, fdl: Parameters, outcome: Outcome) {
    && Matches(n.slots, lives, fdl)
    && (outcome.Sent? ==>
          && n.cycle.AtIndex? && n.cycle.index <= |n.slots| && Current(n) < |lives| && lives[Current(n)].Some?
          && IsLatest(lives[Current(n)].value.trace, History.Requested(outcome.t)))
  }

  predicate IsLatest(trace: seq<History.Entry>, e: History.Entry) {
    trace != [] && trace[|trace| - 1] == e
  }

  lemma {:induction false} VisitMatches(m: MasterView, lives: Lives, fdl: Parameters,
                                        pending: Option<(Handle, PeripheralEvent)>)
    requires MasterOk(m, fdl) && Matches(m.slots, lives, fdl)
    ensures var (n, outcome) := Visit(m, fdl, pending); Sends(n, AfterVisit(m, lives, fdl, pending), fdl, outcome)
    decreases if m.cycle.AtIndex? then |m.slots| - m.cycle.index else -1
  {
    hide FirstFrom, NextIndex, GiveTurn, AfterTurn, Matches, EndTurn, Consistent;
    if m.cycle.AtIndex? {
      var (n, turn) := GiveTurn(m, fdl);
      var after := AfterTurn(m, lives, fdl);
      TurnKeepsOk(m, fdl);
      TurnMatches(m, lives, fdl);
      if turn.Declines? && !(turn.event.Some? && pending.Some?) {
        EndTurnKeepsOk(n, fdl);
        var o := EndTurn(n);
        if o.cycle.AtIndex? {
          VisitMatches(o, after, fdl, Known(m, turn.event, pending));
        }
      }
    }
  }

  /** What a step of the run adds to the lives. */
  ghost function AfterStep(r: Running, lives: Lives, fdl: Parameters, step: MasterStep): Lives
    requires RunningOk(r, fdl) && MasterStepOk(r, fdl, step) && Lived(r, lives, fdl)
  {
    match step
    case AskForTelegram(now, highPrioOnly) =>
      if GivesTurns(r.m, now, fdl, highPrioOnly) then AfterVisit(r.m, lives, fdl, None) else lives
    case ReplyArrives(t) => GoOn(lives, Current(r.m), fdl, History.ReplyArrives(t))
    case ReplyTimesOut => lives
    case UserWrites(slot, outputs) => GoOn(lives, slot, fdl, History.WriteOutputs(outputs))
    case UserWantsDiagnosis(slot) => GoOn(lives, slot, fdl, History.WantDiagnosis)
  }

  /** The lives match, and while a reply is awaited, the request of the peripheral in turn is waiting for it. */
  ghost predicate Lived(r: Running, lives: Lives, fdl: Parameters)
    requires RunningOk(r, fdl)
  {
    && Matches(r.m.slots, lives, fdl)
    && (r.awaiting.Some? ==>
          && Current(r.m) < |lives| && lives[Current(r.m)].Some?
          && History.Outstanding(lives[Current(r.m)].value.trace))
  }

  /** What the user does leaves a request waiting. */
  lemma UserLeavesOutstanding(trace: seq<History.Entry>, e: History.Entry)
    requires e.OutputsWritten? || e.DiagnosisWanted?
    ensures History.Outstanding(trace + [e]) == History.Outstanding(trace)
  {
    assert (trace + [e])[..|trace|] == trace;
  }

  lemma UserStepIsLived(r: Running, lives: Lives, fdl: Parameters, step: MasterStep)
    requires RunningOk(r, fdl) && MasterStepOk(r, fdl, step) && Lived(r, lives, fdl)
    requires step.UserWrites? || step.UserWantsDiagnosis?
    requires RunningOk(DoStep(r, fdl, step), fdl)
    ensures Lived(DoStep(r, fdl, step), AfterStep(r, lives, fdl, step), fdl)
  {
    hide FirstFrom, History.LifeOk, Consistent, Fair, MasterOk;
    var next := DoStep(r, fdl, step);
    var p, trace := next.m.slots[step.slot].value, lives[step.slot].value.trace;
    if step.UserWrites? {
      GoingOnMatches(r.m.slots, lives, step.slot, fdl, History.WriteOutputs(step.outputs), p);
      UserLeavesOutstanding(trace, History.OutputsWritten(step.outputs));
    } else {
      GoingOnMatches(r.m.slots, lives, step.slot, fdl, History.WantDiagnosis, p);
      UserLeavesOutstanding(trace, History.DiagnosisWanted);
    }
    if r.awaiting.Some? {
      SlotOfCycle(r, next, step.slot, fdl);
    }
  }

  lemma SlotOfCycle(r: Running, next: Running, slot: nat, fdl: Parameters)
    requires RunningOk(r, fdl) && RunningOk(next, fdl) && r.awaiting.Some?
    requires slot < |r.m.slots| == |next.m.slots| && r.m.slots[slot].Some? && next.m.slots[slot].Some?
    requires next.m.slots == r.m.slots[slot := next.m.slots[slot]] && next.m.cycle == r.m.cycle
    ensures Current(next.m) == Current(r.m)
  {
    SameFirstFrom(r.m.slots, next.m.slots, r.m.cycle.index);
  }

  lemma ReplyIsLived(r: Running, lives: Lives, fdl: Parameters, t: Telegram)
    requires RunningOk(r, fdl) && MasterStepOk(r, fdl, ReplyArrives(t)) && Lived(r, lives, fdl)
    requires RunningOk(DoStep(r, fdl, ReplyArrives(t)), fdl)
    ensures Lived(DoStep(r, fdl, ReplyArrives(t)), AfterStep(r, lives, fdl, ReplyArrives(t)), fdl)
  {
    hide FirstFrom, NextIndex, History.LifeOk, HearReply, Consistent, Fair;
    var i := Current(r.m);
    GoingOnMatches(r.m.slots, lives, i, fdl, History.ReplyArrives(t), HearReply(r.m.slots[i].value, t).0);
    ReplyKeepsOk(r.m, fdl, t);
  }

  lemma AskIsLived(r: Running, lives: Lives, fdl: Parameters, now: int, high: bool)
    requires RunningOk(r, fdl) && MasterStepOk(r, fdl, AskForTelegram(now, high)) && Lived(r, lives, fdl)
    requires RunningOk(DoStep(r, fdl, AskForTelegram(now, high)), fdl)
    ensures Lived(DoStep(r, fdl, AskForTelegram(now, high)), AfterStep(r, lives, fdl, AskForTelegram(now, high)), fdl)
  {
    hide FirstFrom, Visit, AfterVisit, Consistent, Fair, Fits, Matches;
    if GivesTurns(r.m, now, fdl, high) {
      VisitMatches(r.m, lives, fdl, None);
      var (n, outcome) := Visit(r.m, fdl, None);
      if outcome.Sent? && ExpectedReplier(outcome.t).Some? {
        RequestIsOutstanding(AfterVisit(r.m, lives, fdl, None)[Current(n)].value.trace, outcome.t);
      }
    }
  }

  lemma RequestIsOutstanding(trace: seq<History.Entry>, t: Telegram)
    requires IsLatest(trace, History.Requested(t)) && ExpectedReplier(t).Some?
    ensures History.Outstanding(trace)
  {
  }

  /** Every step of the run of a master is one in the lives of its peripherals. */
  lemma StepIsLived(r: Running, lives: Lives, fdl: Parameters, step: MasterStep)
    requires RunningOk(r, fdl) && MasterStepOk(r, fdl, step) && Lived(r, lives, fdl)
    ensures RunningOk(DoStep(r, fdl, step), fdl) && Lived(DoStep(r, fdl, step), AfterStep(r, lives, fdl, step), fdl)
  {
    hide RunningOk, MasterOk, Matches, Fair;
    StepKeepsRunning(r, fdl, step);
    match step
    case AskForTelegram(now, high) => AskIsLived(r, lives, fdl, now, high);
    case ReplyArrives(t) => ReplyIsLived(r, lives, fdl, t);
    case ReplyTimesOut => TimeoutIsLived(r, lives, fdl);
    case _ => UserStepIsLived(r, lives, fdl, step);
  }

  lemma TimeoutIsLived(r: Running, lives: Lives, fdl: Parameters)
    requires RunningOk(r, fdl) && MasterStepOk(r, fdl, ReplyTimesOut) && Lived(r, lives, fdl)
    requires RunningOk(DoStep(r, fdl, ReplyTimesOut), fdl)
    ensures Lived(DoStep(r, fdl, ReplyTimesOut), lives, fdl)
  {
  }

  // ---------------------------------------------------------------------------------------------
  // Whole runs
  // ---------------------------------------------------------------------------------------------

  /** The lives at the end of a run. */
  ghost function AfterRun(r: Running, lives: Lives, fdl: Parameters, steps: seq<MasterStep>): (after: Lives)
    requires RunningOk(r, fdl) && CanRun(r, fdl, steps) && Lived(r, lives, fdl)
    ensures Lived(RunAll(r, fdl, steps), after, fdl)
    decreases |steps|
  {
    if steps == [] then lives
    else
      StepKeepsRunning(r, fdl, steps[0]);
      StepIsLived(r, lives, fdl, steps[0]);
      AfterRun(DoStep(r, fdl, steps[0]), AfterStep(r, lives, fdl, steps[0]), fdl, steps[1..])
  }

  /** The life is one that a new peripheral `p` can have lived. */
  ghost predicate IsLifeOf(l: History.Life, p: PeripheralView, fdl: Parameters) {
    && History.LifeOk(History.NewLife(p), fdl)
    && exists steps ::
         History.CanLive(History.NewLife(p), fdl, steps) && History.Live(History.NewLife(p), fdl, steps) == l
  }

  lemma {:induction false} LifeGoesOn(l: History.Life, fdl: Parameters, steps: seq<History.LifeStep>,
                                      step: History.LifeStep)
    requires History.LifeOk(l, fdl) && History.CanLive(l, fdl, steps)
    requires History.LifeStepOk(History.Live(l, fdl, steps), step)
    ensures History.CanLive(l, fdl, steps + [step])
    ensures History.Live(l, fdl, steps + [step]) == History.Do(History.Live(l, fdl, steps), fdl, step)
    decreases |steps|
  {
    hide History.RequestMatches, History.AcceptedReplies, History.Unanswered, History.Validating, History.Do;
    if steps == [] {
      assert [step][1..] == [];
      History.StepKeepsLife(l, fdl, step);
      assert steps + [step] == [step];
    } else {
      History.StepKeepsLife(l, fdl, steps[0]);
      LifeGoesOn(History.Do(l, fdl, steps[0]), fdl, steps[1..], step);
      assert (steps + [step])[1..] == steps[1..] + [step];
    }
  }

  lemma StepKeepsLifeOf(l: History.Life, p: PeripheralView, fdl: Parameters, step: History.LifeStep)
    requires IsLifeOf(l, p, fdl) && History.LifeOk(l, fdl) && History.LifeStepOk(l, step)
    ensures IsLifeOf(History.Do(l, fdl, step), p, fdl)
  {
    hide History.LifeOk, History.Do;
    var n := History.NewLife(p);
    var steps :| History.CanLive(n, fdl, steps) && History.Live(n, fdl, steps) == l;
    LifeGoesOn(n, fdl, steps, step);
  }

  /** All lives are lives of the peripherals that were in the slots at the beginning. */
  ghost predicate AllLivesOf(lives: Lives, start: Slots, fdl: Parameters) {
    && |lives| == |start|
    && forall i | 0 <= i < |lives| && lives[i].Some? :: start[i].Some? && IsLifeOf(lives[i].value, start[i].value, fdl)
  }

  lemma GoingOnKeepsLives(lives: Lives, start: Slots, i: nat, fdl: Parameters, step: History.LifeStep)
    requires AllLivesOf(lives, start, fdl) && i < |lives| && lives[i].Some? && History.LifeOk(lives[i].value, fdl)
    requires History.LifeStepOk(lives[i].value, step)
    ensures AllLivesOf(GoOn(lives, i, fdl, step), start, fdl)
  {
    hide IsLifeOf, History.LifeOk, History.Do;
    StepKeepsLifeOf(lives[i].value, start[i].value, fdl, step);
  }

  lemma {:induction false} VisitKeepsLives(m: MasterView, lives: Lives, start: Slots, fdl: Parameters,
                                           pending: Option<(Handle, PeripheralEvent)>)
    requires MasterOk(m, fdl) && Matches(m.slots, lives, fdl) && AllLivesOf(lives, start, fdl)
    ensures AllLivesOf(AfterVisit(m, lives, fdl, pending), start, fdl)
    decreases if m.cycle.AtIndex? then |m.slots| - m.cycle.index else -1
  {
    hide FirstFrom, NextIndex, GiveTurn, EndTurn, Consistent, AllLivesOf, History.LifeOk;
    if m.cycle.AtIndex? {
      var (n, turn) := GiveTurn(m, fdl);
      TurnKeepsOk(m, fdl);
      TurnMatches(m, lives, fdl);
      GoingOnKeepsLives(lives, start, Current(m), fdl, History.AskToTransmit);
      if turn.Declines? && !(turn.event.Some? && pending.Some?) {
        EndTurnKeepsOk(n, fdl);
        var o := EndTurn(n);
        if o.cycle.AtIndex? {
          VisitKeepsLives(o, AfterTurn(m, lives, fdl), start, fdl, Known(m, turn.event, pending));
        }
      }
    }
  }

  lemma StepKeepsLives(r: Running, lives: Lives, start: Slots, fdl: Parameters, step: MasterStep)
    requires RunningOk(r, fdl) && MasterStepOk(r, fdl, step) && Lived(r, lives, fdl) && AllLivesOf(lives, start, fdl)
    ensures AllLivesOf(AfterStep(r, lives, fdl, step), start, fdl)
  {
    hide FirstFrom, Consistent, Fair, AllLivesOf, History.LifeOk, AfterVisit;
    match step
    case AskForTelegram(now, highPrioOnly) =>
      if GivesTurns(r.m, now, fdl, highPrioOnly) {
        VisitKeepsLives(r.m, lives, start, fdl, None);
      }
    case ReplyArrives(t) => GoingOnKeepsLives(lives, start, Current(r.m), fdl, History.ReplyArrives(t));
    case ReplyTimesOut =>
    case UserWrites(slot, outputs) => GoingOnKeepsLives(lives, start, slot, fdl, History.WriteOutputs(outputs));
    case UserWantsDiagnosis(slot) => GoingOnKeepsLives(lives, start, slot, fdl, History.WantDiagnosis);
  }

  lemma {:induction false} RunKeepsLives(r: Running, lives: Lives, start: Slots, fdl: Parameters,
                                         steps: seq<MasterStep>)
    requires RunningOk(r, fdl) && CanRun(r, fdl, steps) && Lived(r, lives, fdl) && AllLivesOf(lives, start, fdl)
    ensures AllLivesOf(AfterRun(r, lives, fdl, steps), start, fdl)
    decreases |steps|
  {
    hide RunningOk, AllLivesOf, Lived, AfterStep;
    if steps != [] {
      StepKeepsRunning(r, fdl, steps[0]);
      StepIsLived(r, lives, fdl, steps[0]);
      StepKeepsLives(r, lives, start, fdl, steps[0]);
      RunKeepsLives(DoStep(r, fdl, steps[0]), AfterStep(r, lives, fdl, steps[0]), start, fdl, steps[1..]);
    }
  }

  /** The lives before a run. */
  function NewLives(slots: Slots): Lives {
    seq(|slots|, i requires 0 <= i < |slots| =>
      if slots[i].Some? then Some(History.NewLife(slots[i].value)) else None)
  }

  predicate AllNew(slots: Slots) {
    forall i | 0 <= i < |slots| && slots[i].Some? :: History.IsNew(slots[i].value)
  }

  lemma NewLivesMatch(m: MasterView, fdl: Parameters)
    requires MasterOk(m, fdl) && IsNew(m) && RunningOk(Running(m, None), fdl) && AllNew(m.slots)
    ensures Lived(Running(m, None), NewLives(m.slots), fdl) && AllLivesOf(NewLives(m.slots), m.slots, fdl)
  {
    hide FirstFrom, Consistent, Fair, History.LifeOk;
    var lives := NewLives(m.slots);
    forall i | 0 <= i < |m.slots| && m.slots[i].Some?
      ensures History.LifeOk(lives[i].value, fdl) && IsLifeOf(lives[i].value, m.slots[i].value, fdl)
    {
      var p := m.slots[i].value;
      History.NewLifeIsOk(p, fdl);
      assert History.CanLive(History.NewLife(p), fdl, []);
      assert History.Live(History.NewLife(p), fdl, []) == History.NewLife(p);
    }
  }

  /** In every run of a new master with new peripherals, the peripheral in each slot is at any time one that has lived
      one of the lives of the peripheral that was put there; and while the master waits for a reply, the request of the
      peripheral in turn is the one that waits for it. */
  lemma PeripheralsLive(m: MasterView, fdl: Parameters, steps: seq<MasterStep>, i: nat)
    requires MasterOk(m, fdl) && IsNew(m) && RunningOk(Running(m, None), fdl) && CanRun(Running(m, None), fdl, steps)
    requires AllNew(m.slots) && i < |m.slots| && m.slots[i].Some?
    ensures Lived(Running(m, None), NewLives(m.slots), fdl)
    ensures var r := RunAll(Running(m, None), fdl, steps);
            var lives := AfterRun(Running(m, None), NewLives(m.slots), fdl, steps);
            && i < |r.m.slots| && r.m.slots[i].Some? && i < |lives| && lives[i].Some?
            && lives[i].value.p == r.m.slots[i].value
            && IsLifeOf(lives[i].value, m.slots[i].value, fdl)
            && (r.awaiting.Some? ==>
                  && Current(r.m) < |lives| && lives[Current(r.m)].Some?
                  && History.Outstanding(lives[Current(r.m)].value.trace))
  {
    hide CanRun, RunAll, AfterRun, Fair, Consistent, FirstFrom, IsLifeOf;
    NewLivesMatch(m, fdl);
    RunKeepsLives(Running(m, None), NewLives(m.slots), m.slots, fdl, steps);
    RunKeepsOccupied(Running(m, None), fdl, steps);
  }

  /** So a peripheral of a running master that exchanges data has been set up before, in this order: it has come online,
      confirmed its parameters, confirmed its configuration, and been found ready. */
  lemma ExchangingPeripheralIsSetUp(m: MasterView, fdl: Parameters, steps: seq<MasterStep>, i: nat)
    returns (o: nat, j: nat, k: nat, v: nat)
    requires MasterOk(m, fdl) && IsNew(m) && RunningOk(Running(m, None), fdl) && CanRun(Running(m, None), fdl, steps)
    requires AllNew(m.slots) && i < |m.slots| && m.slots[i].Some? && Lived(Running(m, None), NewLives(m.slots), fdl)
    ensures var lives := AfterRun(Running(m, None), NewLives(m.slots), fdl, steps);
            var slots := RunAll(Running(m, None), fdl, steps).m.slots;
            && i < |slots| && slots[i].Some? && i < |lives| && lives[i].Some?
            && (Exchanging(slots[i].value) ==>
                  var trace := lives[i].value.trace;
                  && o < j < k < v < |trace| && History.OnlineSince(trace, o)
                  && History.Confirmed(trace, j, 61) && History.Confirmed(trace, k, 62)
                  && History.ReadySince(trace, v))
  {
    hide CanRun, RunAll, AfterRun, Fair, Consistent, FirstFrom, History.LifeOk;
    PeripheralsLive(m, fdl, steps, i);
    var l := AfterRun(Running(m, None), NewLives(m.slots), fdl, steps)[i].value;
    var p := m.slots[i].value;
    var life :| History.CanLive(History.NewLife(p), fdl, life) && History.Live(History.NewLife(p), fdl, life) == l;
    o, j, k, v := History.ExchangeHasHistory(p, fdl, life);
  }
}
