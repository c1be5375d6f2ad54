/**
 The cycle of the DP master over whole runs: every peripheral gets its turn, replies find the peripheral
 that was asked, and there is room for the one event that a call can report.
 */
module DpCycles {
  import opened BusParameters
  import opened Telegrams
  import opened Peripherals
  import opened PeripheralSets
  import opened DpMasters

  // ---------------------------------------------------------------------------------------------
  // Fairness
  // ---------------------------------------------------------------------------------------------

  /** The slots whose turn ended since the last cycle was reported, in order. */
  function TurnsSinceReport(history: seq<Progress>): seq<nat> {
    if history == [] then []
    else
      match history[|history| - 1]
      case CycleReported => []
      case TurnEnded(slot) => TurnsSinceReport(history[..|history| - 1]) + [slot]
  }

  /** Every cycle that was reported as completed consists of exactly one turn of each peripheral, in the
      order of the slots. */
  ghost predicate CyclesAreFull(history: seq<Progress>, slots: Slots) {
    forall i | 0 <= i < |history| && history[i] == CycleReported ::
      TurnsSinceReport(history[..i]) == OccupiedBelow(slots, |slots|)
  }

  /** The present cycle has had the turns of all peripherals before the current one. */
  ghost predicate Fair(m: MasterView)
    requires m.cycle.AtIndex? ==> m.cycle.index <= |m.slots|
  {
    && CyclesAreFull(m.history, m.slots)
    && TurnsSinceReport(m.history) == if m.cycle.AtIndex? then OccupiedBelow(m.slots, Current(m)) else []
  }

  lemma HistoryGrows(history: seq<Progress>, e: Progress, slots: Slots)
    requires CyclesAreFull(history, slots)
    requires e.CycleReported? ==> TurnsSinceReport(history) == OccupiedBelow(slots, |slots|)
    ensures CyclesAreFull(history + [e], slots)
    ensures TurnsSinceReport(history + [e]) == if e.TurnEnded? then TurnsSinceReport(history) + [e.slot] else []
  {
    var longer := history + [e];
    assert longer[..|history|] == history;
    forall i | 0 <= i < |longer| && longer[i] == CycleReported
      ensures TurnsSinceReport(longer[..i]) == OccupiedBelow(slots, |slots|)
    {
      assert longer[..i] == history[..i];
    }
  }

  /** The turns before the next one are those before this one, and this one. */
  lemma TurnsBeforeNext(slots: Slots, index: nat)
    requires index <= |slots| && FirstFrom(slots, index) < |slots|
    ensures var turns := OccupiedBelow(slots, FirstFrom(slots, index)) + [FirstFrom(slots, index)];
            match NextIndex(slots, index)
            case Some(next) => turns == OccupiedBelow(slots, next) && FirstFrom(slots, next) == next
            case None => turns == OccupiedBelow(slots, |slots|)
  {
    var i := FirstFrom(slots, index);
    assert OccupiedBelow(slots, i + 1) == OccupiedBelow(slots, i) + [i];
    OccupiedAcrossGap(slots, i + 1, FirstFrom(slots, i + 1));
  }

  /** Ending a turn keeps the cycle fair. */
  lemma EndTurnIsFair(m: MasterView)
    requires m.cycle.AtIndex? && m.cycle.index <= |m.slots| && Current(m) < |m.slots| && Fair(m)
    ensures Fair(EndTurn(m)) && EndTurn(m).slots == m.slots
  {
    hide TurnsSinceReport, CyclesAreFull, OccupiedBelow, FirstFrom, NextIndex;
    var i := Current(m);
    TurnsBeforeNext(m.slots, m.cycle.index);
    HistoryGrows(m.history, TurnEnded(i), m.slots);
    if NextIndex(m.slots, m.cycle.index).None? {
      HistoryGrows(m.history + [TurnEnded(i)], CycleReported, m.slots);
    }
  }

  /** Starting over after a completed cycle keeps the cycle fair. */
  lemma RestartIsFair(m: MasterView)
    requires m.cycle.CycleCompleted? && Fair(m)
    ensures Fair(m.(cycle := AtIndex(0)))
  {
    OccupiedAcrossGap(m.slots, 0, FirstFrom(m.slots, 0));
  }

  lemma SlotChangeIsFair(m: MasterView, n: MasterView)
    requires m.cycle.AtIndex? ==> m.cycle.index <= |m.slots|
    requires Fair(m) && SameOccupied(m.slots, n.slots) && n == m.(slots := n.slots)
    ensures Fair(n)
  {
    SameOccupiedBelow(m.slots, n.slots, |m.slots|);
    if m.cycle.AtIndex? {
      SameFirstFrom(m.slots, n.slots, m.cycle.index);
      SameOccupiedBelow(m.slots, n.slots, Current(m));
    }
  }

  lemma FairIgnoresEvents(m: MasterView, events: DpEvents, lastGlobalControl: Option<int>)
    requires m.cycle.AtIndex? ==> m.cycle.index <= |m.slots|
    requires Fair(m)
    ensures Fair(m.(events := events, lastGlobalControl := lastGlobalControl))
  {
  }

  /** When a request is sent, the current peripheral is the one it is addressed to. */
  ghost predicate SentByCurrent(m: MasterView, outcome: Outcome) {
    outcome.Sent? && ExpectedReplier(outcome.t).Some? ==>
      m.cycle.AtIndex? && m.cycle.index <= |m.slots| && Expects(m, ExpectedReplier(outcome.t).value)
  }

  lemma {:induction false} VisitIsFair(m: MasterView, fdl: Parameters, pending: Option<(Handle, PeripheralEvent)>)
    requires MasterOk(m, fdl) && Fair(m)
    ensures var (n, outcome) := Visit(m, fdl, pending);
            MasterOk(n, fdl) && SameOccupied(m.slots, n.slots) && Fair(n) && SentByCurrent(n, outcome)
    decreases if m.cycle.AtIndex? then |m.slots| - m.cycle.index else -1
  {
    hide FirstFrom, NextIndex, MasterSound, Fair, GiveTurn, EndTurn;
    if m.cycle.CycleCompleted? {
      RestartIsFair(m);
      EventsKeepOk(m, fdl, DpEvents(false, pending));
      FairIgnoresEvents(m.(cycle := AtIndex(0)), DpEvents(false, pending), m.lastGlobalControl);
    } else {
      var (n, turn) := GiveTurn(m, fdl);
      TurnKeepsOk(m, fdl);
      SlotChangeIsFair(m, n);
      match turn
      case Transmits(_) =>
        EventsKeepOk(n, fdl, DpEvents(false, pending));
        FairIgnoresEvents(n, DpEvents(false, pending), n.lastGlobalControl);
      case Declines(event) =>
        EndTurnIsFair(n);
        EndTurnKeepsOk(n, fdl);
        var o, known := EndTurn(n), Known(m, event, pending);
        if o.cycle.CycleCompleted? {
          RestartIsFair(o);
          EventsKeepOk(o, fdl, DpEvents(true, known));
          FairIgnoresEvents(o.(cycle := AtIndex(0)), DpEvents(true, known), o.lastGlobalControl);
        } else if event.None? || pending.None? {
          VisitIsFair(o, fdl, known);
        }
    }
  }

  // ---------------------------------------------------------------------------------------------
  // Runs
  // ---------------------------------------------------------------------------------------------

  /** A master, and the address whose reply the active station is waiting for on its behalf. */
  datatype Running = Running(m: MasterView, awaiting: Option<Byte>)

  datatype MasterStep =
    | AskForTelegram(now: int, highPrioOnly: bool)
    | ReplyArrives(t: Telegram)
    | ReplyTimesOut
    | UserWrites(slot: nat, outputs: seq<Byte>)
    | UserWantsDiagnosis(slot: nat)

  ghost predicate RunningOk(r: Running, fdl: Parameters) {
    && MasterOk(r.m, fdl) && Fair(r.m)
    && (r.awaiting.Some? ==> Expects(r.m, r.awaiting.value))
  }

  /** The active station asks for telegrams only while it is not waiting for a reply, and hands on only
      the reply it is waiting for. */
  ghost predicate MasterStepOk(r: Running, fdl: Parameters, step: MasterStep) {
    match step
    case AskForTelegram(_, _) => r.awaiting.None?
    case ReplyArrives(t) => r.awaiting.Some? && IsReply(t)
    case ReplyTimesOut => r.awaiting.Some?
    case UserWrites(slot, outputs) =>
      slot < |r.m.slots| && r.m.slots[slot].Some? && |outputs| == |r.m.slots[slot].value.piQ|
    case UserWantsDiagnosis(slot) => slot < |r.m.slots| && r.m.slots[slot].Some?
  }

  /** The step does not end the program. */
  ghost predicate HasRoom(r: Running, fdl: Parameters, step: MasterStep)
    requires RunningOk(r, fdl)
  {
    step.AskForTelegram? ==> !AskMaster(r.m, step.now, fdl, step.highPrioOnly).1.NoRoomForEvent?
  }

  ghost function DoStep(r: Running, fdl: Parameters, step: MasterStep): Running
    requires RunningOk(r, fdl) && MasterStepOk(r, fdl, step)
  {
    match step
    case AskForTelegram(now, highPrioOnly) =>
      var (m, outcome) := AskMaster(r.m, now, fdl, highPrioOnly);
      Running(m, if outcome.Sent? then ExpectedReplier(outcome.t) else None)
    case ReplyArrives(t) => Running(TellMaster(r.m, fdl, r.awaiting.value, t), None)
    case ReplyTimesOut => r.(awaiting := None)
    case UserWrites(slot, outputs) =>
      var p := r.m.slots[slot].value.(piQ := outputs);
      r.(m := r.m.(slots := r.m.slots[slot := Some(p)]))
    case UserWantsDiagnosis(slot) =>
      var p := r.m.slots[slot].value.(diagNeeded := true);
      r.(m := r.m.(slots := r.m.slots[slot := Some(p)]))
  }

  lemma AskingKeepsRunning(r: Running, fdl: Parameters, step: MasterStep)
    requires RunningOk(r, fdl) && MasterStepOk(r, fdl, step) && step.AskForTelegram?
    ensures RunningOk(DoStep(r, fdl, step), fdl) && SameOccupied(r.m.slots, DoStep(r, fdl, step).m.slots)
  {
    hide Fair, Visit, Fits, Consistent, FirstFrom;
    VisitIsFair(r.m, fdl, None);
    FairIgnoresEvents(r.m, NO_EVENTS, r.m.lastGlobalControl);
    FairIgnoresEvents(r.m, NO_EVENTS, Some(step.now));
  }

  lemma TellingKeepsRunning(r: Running, fdl: Parameters, t: Telegram)
    requires RunningOk(r, fdl) && MasterStepOk(r, fdl, ReplyArrives(t))
    ensures var next := DoStep(r, fdl, ReplyArrives(t)); RunningOk(next, fdl) && SameOccupied(r.m.slots, next.m.slots)
  {
    hide Fair, Consistent, FirstFrom, HearReply, NextIndex;
    var i := Current(r.m);
    var n := r.m.(slots := r.m.slots[i := Some(HearReply(r.m.slots[i].value, t).0)]);
    ReplyKeepsOk(r.m, fdl, t);
    SlotChangeIsFair(r.m, n);
    EndTurnIsFair(n);
    EndTurnKeepsOk(n, fdl);
    var o := EndTurn(n);
    FairIgnoresEvents(o, TellMaster(r.m, fdl, r.awaiting.value, t).events, o.lastGlobalControl);
  }

  /** The user changes something about one peripheral that does not concern the cycle. */
  lemma UserKeepsRunning(r: Running, fdl: Parameters, slot: nat, p: PeripheralView)
    requires RunningOk(r, fdl) && slot < |r.m.slots| && r.m.slots[slot].Some?
    requires var q := r.m.slots[slot].value; Fits(p) && p.retryCount == q.retryCount && p.address == q.address
    ensures var next := r.(m := r.m.(slots := r.m.slots[slot := Some(p)]));
            RunningOk(next, fdl) && SameOccupied(r.m.slots, next.m.slots)
  {
    SlotChangeKeepsOk(r.m, fdl, slot, p);
    SlotChangeIsFair(r.m, r.m.(slots := r.m.slots[slot := Some(p)]));
  }

  /** Every step keeps the cycle fair and keeps the peripheral in turn the one whose reply is awaited. */
  lemma StepKeepsRunning(r: Running, fdl: Parameters, step: MasterStep)
    requires RunningOk(r, fdl) && MasterStepOk(r, fdl, step)
    ensures RunningOk(DoStep(r, fdl, step), fdl) && SameOccupied(r.m.slots, DoStep(r, fdl, step).m.slots)
  {
    match step
    case AskForTelegram(_, _) => AskingKeepsRunning(r, fdl, step);
    case ReplyArrives(t) => TellingKeepsRunning(r, fdl, t);
    case ReplyTimesOut =>
    case UserWrites(slot, outputs) => UserKeepsRunning(r, fdl, slot, r.m.slots[slot].value.(piQ := outputs));
    case UserWantsDiagnosis(slot) => UserKeepsRunning(r, fdl, slot, r.m.slots[slot].value.(diagNeeded := true));
  }

  /** The steps can be taken one after the other without ending the program. */
  ghost predicate CanRun(r: Running, fdl: Parameters, steps: seq<MasterStep>)
    requires RunningOk(r, fdl)
    decreases |steps|
  {
    steps != [] ==>
      && MasterStepOk(r, fdl, steps[0]) && HasRoom(r, fdl, steps[0])
      && (StepKeepsRunning(r, fdl, steps[0]); CanRun(DoStep(r, fdl, steps[0]), fdl, steps[1..]))
  }

  ghost function RunAll(r: Running, fdl: Parameters, steps: seq<MasterStep>): (s: Running)
    requires RunningOk(r, fdl) && CanRun(r, fdl, steps)
    ensures RunningOk(s, fdl)
    decreases |steps|
  {
    if steps == [] then r
    else
      StepKeepsRunning(r, fdl, steps[0]);
      RunAll(DoStep(r, fdl, steps[0]), fdl, steps[1..])
  }

  lemma {:induction false} RunKeepsOccupied(r: Running, fdl: Parameters, steps: seq<MasterStep>)
    requires RunningOk(r, fdl) && CanRun(r, fdl, steps)
    ensures SameOccupied(r.m.slots, RunAll(r, fdl, steps).m.slots)
    decreases |steps|
  {
    hide RunningOk, SameOccupied;
    if steps != [] {
      StepKeepsRunning(r, fdl, steps[0]);
      RunKeepsOccupied(DoStep(r, fdl, steps[0]), fdl, steps[1..]);
      SameOccupiedChain(r.m.slots, DoStep(r, fdl, steps[0]).m.slots, RunAll(r, fdl, steps).m.slots);
    } else {
      SameOccupiedChain(r.m.slots, r.m.slots, r.m.slots);
    }
  }

  lemma SameOccupiedChain(a: Slots, b: Slots, c: Slots)
    ensures SameOccupied(a, a)
    ensures SameOccupied(a, b) && SameOccupied(b, c) ==> SameOccupied(a, c)
  {
  }

  /** A new master that is operating. */
  predicate IsNew(m: MasterView) {
    m.cycle == AtIndex(0) && m.history == []
  }

  lemma NewMasterIsOk(m: MasterView, fdl: Parameters)
    requires MasterOk(m, fdl) && IsNew(m)
    ensures RunningOk(Running(m, None), fdl)
  {
    OccupiedAcrossGap(m.slots, 0, FirstFrom(m.slots, 0));
  }

  /** In every run of a new master, whenever a cycle is reported as completed, the turn of every peripheral
      has ended exactly once since the previous report, in the order of the slots; no other turn has
      ended; and the reply that is awaited is always one the master can take. */
  lemma EveryCycleIsFair(m: MasterView, fdl: Parameters, steps: seq<MasterStep>, i: nat)
    requires MasterOk(m, fdl) && IsNew(m) && RunningOk(Running(m, None), fdl) && CanRun(Running(m, None), fdl, steps)
    ensures var r := RunAll(Running(m, None), fdl, steps);
            && (i < |r.m.history| && r.m.history[i] == CycleReported ==>
                  TurnsSinceReport(r.m.history[..i]) == OccupiedBelow(m.slots, |m.slots|))
            && (r.awaiting.Some? ==> Expects(r.m, r.awaiting.value))
  {
    RunKeepsOccupied(Running(m, None), fdl, steps);
    var r := RunAll(Running(m, None), fdl, steps);
    SameOccupiedBelow(m.slots, r.m.slots, |m.slots|);
  }

  // ---------------------------------------------------------------------------------------------
  // Room for the event
  // ---------------------------------------------------------------------------------------------

  /** The peripheral in this slot goes offline when it gets the turn. */
  predicate GoesOffline(slots: Slots, k: nat, fdl: Parameters) {
    k < |slots| && slots[k].Some? && slots[k].value.retryCount > fdl.maxRetryLimit
  }

  /** All peripherals in the slots from `lo` up to `hi` decline when they get the turn. */
  ghost predicate AllDecline(slots: Slots, lo: nat, hi: nat, fdl: Parameters)
    requires Consistent(fdl) && forall i | 0 <= i < |slots| && slots[i].Some? :: Fits(slots[i].value)
  {
    hi <= |slots| && forall k | lo <= k < hi && slots[k].Some? :: TakeTurn(slots[k].value, fdl).1.Declines?
  }

  /** Slot `k` gets the turn in this call and goes offline. */
  ghost predicate DropsOut(m: MasterView, k: nat, fdl: Parameters)
    requires MasterOk(m, fdl) && m.cycle.AtIndex?
  {
    m.cycle.index <= k && GoesOffline(m.slots, k, fdl) && AllDecline(m.slots, m.cycle.index, k, fdl)
  }

  lemma TurnGoesOffline(m: MasterView, fdl: Parameters)
    requires MasterOk(m, fdl) && m.cycle.AtIndex?
    ensures var turn, i := GiveTurn(m, fdl).1, Current(m);
            && (turn == Declines(Some(PeripheralEvent.Offline)) <==> GoesOffline(m.slots, i, fdl))
            && (turn.Declines? && turn.event.Some? ==> turn.event.value == PeripheralEvent.Offline)
            && (GoesOffline(m.slots, i, fdl) <==> DropsOut(m, i, fdl))
            && (turn.Transmits? ==> !AllDecline(m.slots, m.cycle.index, i + 1, fdl))
            && (turn.Declines? <==> AllDecline(m.slots, m.cycle.index, i + 1, fdl))
  {
  }

  /** Once a peripheral transmits, nobody else drops out in this call. */
  lemma TransmissionEndsCall(m: MasterView, fdl: Parameters, k: nat)
    requires MasterOk(m, fdl) && m.cycle.AtIndex? && GiveTurn(m, fdl).1.Transmits?
    ensures !DropsOut(m, k, fdl)
  {
  }

  /** After a turn was declined, exactly the same peripherals drop out as before it, but for the one whose
      turn it was. */
  lemma DeclineLeavesOthers(m: MasterView, fdl: Parameters, k: nat)
    requires MasterOk(m, fdl) && m.cycle.AtIndex? && GiveTurn(m, fdl).1.Declines?
    requires MasterOk(EndTurn(GiveTurn(m, fdl).0), fdl)
    ensures var o := EndTurn(GiveTurn(m, fdl).0);
            if o.cycle.AtIndex? then
              && (DropsOut(m, k, fdl) && k != Current(m) <==> DropsOut(o, k, fdl))
              && (k > Current(m) && k < |m.slots| ==> o.slots[k] == m.slots[k])
            else DropsOut(m, k, fdl) ==> k == Current(m)
  {
    var i := Current(m);
    var (n, turn) := GiveTurn(m, fdl);
    TurnKeepsOk(m, fdl);
    var o := EndTurn(n);
    SameFirstFrom(m.slots, n.slots, i + 1);
    if o.cycle.AtIndex? {
      assert forall j | i < j < o.cycle.index :: m.slots[j].None?;
      assert forall j | i < j < |m.slots| :: n.slots[j] == m.slots[j];
    }
  }

  /** The call finds no room for an event exactly when two peripherals drop out in it (or one, while another
      event is pending). */
  lemma {:induction false} RoomExactly(m: MasterView, fdl: Parameters, pending: Option<(Handle, PeripheralEvent)>)
    requires MasterOk(m, fdl) && m.cycle.AtIndex?
    ensures Visit(m, fdl, pending).1.NoRoomForEvent? <==>
              exists k :: DropsOut(m, k, fdl) && (pending.Some? || exists j :: j < k && DropsOut(m, j, fdl))
    decreases |m.slots| - m.cycle.index
  {
    hide FirstFrom, NextIndex, Fits, Consistent, GiveTurn, GoesOffline, AllDecline, DropsOut;
    var i := Current(m);
    var (n, turn) := GiveTurn(m, fdl);
    TurnKeepsOk(m, fdl);
    TurnGoesOffline(m, fdl);
    if turn.Transmits? {
      forall k ensures !DropsOut(m, k, fdl) {
        TransmissionEndsCall(m, fdl, k);
      }
    } else {
      EndTurnKeepsOk(n, fdl);
      var o, known := EndTurn(n), Known(m, turn.event, pending);
      forall k: nat
        ensures if o.cycle.AtIndex? then DropsOut(m, k, fdl) && k != i <==> DropsOut(o, k, fdl)
                else DropsOut(m, k, fdl) ==> k == i
      {
        DeclineLeavesOthers(m, fdl, k);
      }
      if o.cycle.AtIndex? && !(turn.event.Some? && pending.Some?) {
        RoomExactly(o, fdl, known);
        NobodyDropsOutBefore(m, fdl);
      }
    }
  }

  lemma NobodyDropsOutBefore(m: MasterView, fdl: Parameters)
    requires MasterOk(m, fdl) && m.cycle.AtIndex?
    ensures forall k: nat | DropsOut(m, k, fdl) :: k >= Current(m)
  {
  }

  /** The event that a call reports is the one of the peripheral that dropped out in it. */
  lemma {:induction false} OfflineIsReported(m: MasterView, fdl: Parameters,
                                             pending: Option<(Handle, PeripheralEvent)>, k: nat)
    requires MasterOk(m, fdl) && m.cycle.AtIndex? && !Visit(m, fdl, pending).1.NoRoomForEvent?
    ensures DropsOut(m, k, fdl) ==>
              Visit(m, fdl, pending).0.events.peripheral
              == Some((Handle(k, m.slots[k].value.address), PeripheralEvent.Offline))
    ensures (forall j: nat :: !DropsOut(m, j, fdl)) ==> Visit(m, fdl, pending).0.events.peripheral == pending
    decreases |m.slots| - m.cycle.index
  {
    hide FirstFrom, NextIndex, Fits, Consistent, GiveTurn, GoesOffline, AllDecline, DropsOut;
    var i := Current(m);
    var (n, turn) := GiveTurn(m, fdl);
    TurnKeepsOk(m, fdl);
    TurnGoesOffline(m, fdl);
    if turn.Transmits? {
      TransmissionEndsCall(m, fdl, k);
    } else {
      EndTurnKeepsOk(n, fdl);
      var o, known := EndTurn(n), Known(m, turn.event, pending);
      forall j: nat
        ensures if o.cycle.AtIndex? then DropsOut(m, j, fdl) && j != i <==> DropsOut(o, j, fdl)
                else DropsOut(m, j, fdl) ==> j == i
      {
        DeclineLeavesOthers(m, fdl, j);
      }
      if o.cycle.AtIndex? {
        DeclineLeavesOthers(m, fdl, k);
        NobodyDropsOutBefore(m, fdl);
        DropsOutInRange(m, k, fdl);
        OfflineIsReported(o, fdl, known, k);
        if turn.event.Some? {
          RoomExactly(o, fdl, known);
        }
      }
    }
  }

  lemma DropsOutInRange(m: MasterView, k: nat, fdl: Parameters)
    requires MasterOk(m, fdl) && m.cycle.AtIndex?
    ensures DropsOut(m, k, fdl) ==> k < |m.slots| && m.slots[k].Some?
  {
  }

  /** Nobody but the peripheral in turn has unanswered requests. */
  ghost predicate OthersAnswered(m: MasterView)
    requires m.cycle.AtIndex? ==> m.cycle.index <= |m.slots|
  {
    forall k | 0 <= k < |m.slots| && m.slots[k].Some? && m.slots[k].value.retryCount > 0 ::
      m.cycle.AtIndex? && k == Current(m)
  }

  /** The reply resets the count of unanswered requests: everything does but a reply of the wrong kind
      to a diagnosis, parameter or configuration request. */
  ghost predicate Settles(r: Running, t: Telegram)
    requires r.m.cycle.AtIndex? && r.m.cycle.index <= |r.m.slots| && Current(r.m) < |r.m.slots|
    requires IsReply(t) && !r.m.slots[Current(r.m)].value.fcb.Inactive?
  {
    HearReply(r.m.slots[Current(r.m)].value, t).0.retryCount == 0
  }

  lemma EndTurnKeepsAnswered(m: MasterView, fdl: Parameters)
    requires MasterOk(m, fdl) && m.cycle.AtIndex? && OthersAnswered(m) && m.slots[Current(m)].value.retryCount == 0
    ensures OthersAnswered(EndTurn(m)) && OthersAnswered(EndTurn(m).(cycle := AtIndex(0)))
    ensures forall k | 0 <= k < |m.slots| && m.slots[k].Some? :: m.slots[k].value.retryCount == 0
  {
  }

  lemma TurnKeepsAnswered(m: MasterView, fdl: Parameters)
    requires MasterOk(m, fdl) && m.cycle.AtIndex? && OthersAnswered(m)
    ensures var (n, turn) := GiveTurn(m, fdl);
            && MasterOk(n, fdl) && OthersAnswered(n)
            && (turn.Declines? ==> n.slots[Current(n)].value.retryCount == 0)
  {
    TurnKeepsOk(m, fdl);
  }

  lemma {:induction false} VisitKeepsAnswered(m: MasterView, fdl: Parameters,
                                              pending: Option<(Handle, PeripheralEvent)>)
    requires MasterOk(m, fdl) && OthersAnswered(m)
    requires pending.Some? ==> forall k | 0 <= k < |m.slots| && m.slots[k].Some? :: m.slots[k].value.retryCount == 0
    ensures var (n, outcome) := Visit(m, fdl, pending);
            !outcome.NoRoomForEvent? && MasterOk(n, fdl) && OthersAnswered(n)
    decreases if m.cycle.AtIndex? then |m.slots| - m.cycle.index else -1
  {
    hide FirstFrom, NextIndex, MasterSound, GiveTurn, EndTurn;
    if m.cycle.CycleCompleted? {
      EventsKeepOk(m, fdl, DpEvents(false, pending));
      AllAnsweredAnywhere(m);
    } else {
      var (n, turn) := GiveTurn(m, fdl);
      TurnKeepsOk(m, fdl);
      TurnKeepsAnswered(m, fdl);
      TurnGoesOffline(m, fdl);
      if turn.Declines? {
        EndTurnKeepsAnswered(n, fdl);
        EndTurnKeepsOk(n, fdl);
        if EndTurn(n).cycle.AtIndex? {
          VisitKeepsAnswered(EndTurn(n), fdl, Known(m, turn.event, pending));
        } else {
          EventsKeepOk(EndTurn(n), fdl, DpEvents(true, Known(m, turn.event, pending)));
          AnsweredIgnoresEvents(EndTurn(n).(cycle := AtIndex(0)), DpEvents(true, Known(m, turn.event, pending)));
        }
      } else {
        EventsKeepOk(n, fdl, DpEvents(false, pending));
        AnsweredIgnoresEvents(n, DpEvents(false, pending));
      }
    }
  }

  lemma AnsweredIgnoresEvents(m: MasterView, events: DpEvents)
    requires m.cycle.AtIndex? ==> m.cycle.index <= |m.slots|
    requires OthersAnswered(m)
    ensures OthersAnswered(m.(events := events))
  {
  }

  lemma AllAnsweredAnywhere(m: MasterView)
    requires m.cycle.CycleCompleted? && OthersAnswered(m)
    ensures forall events :: OthersAnswered(m.(cycle := AtIndex(0), events := events))
  {
  }

  /** As long as nobody else has unanswered requests, every step has room for its event; and a step keeps
      it that way unless it is a reply that does not settle the request. */
  lemma StepLeavesRoom(r: Running, fdl: Parameters, step: MasterStep)
    requires RunningOk(r, fdl) && MasterStepOk(r, fdl, step) && OthersAnswered(r.m)
    requires step.ReplyArrives? ==> Settles(r, step.t)
    ensures HasRoom(r, fdl, step) && RunningOk(DoStep(r, fdl, step), fdl) && OthersAnswered(DoStep(r, fdl, step).m)
  {
    StepKeepsRunning(r, fdl, step);
    match step
    case AskForTelegram(now, _) => AskLeavesRoom(r, fdl, step);
    case ReplyArrives(t) => ReplyLeavesRoom(r, fdl, t);
    case ReplyTimesOut =>
    case UserWrites(slot, _) => UserLeavesRoom(r.m, fdl, slot, DoStep(r, fdl, step).m);
    case UserWantsDiagnosis(slot) => UserLeavesRoom(r.m, fdl, slot, DoStep(r, fdl, step).m);
  }

  lemma AskLeavesRoom(r: Running, fdl: Parameters, step: MasterStep)
    requires RunningOk(r, fdl) && MasterStepOk(r, fdl, step) && step.AskForTelegram? && OthersAnswered(r.m)
    requires RunningOk(DoStep(r, fdl, step), fdl)
    ensures HasRoom(r, fdl, step) && OthersAnswered(DoStep(r, fdl, step).m)
  {
    hide Visit, Fair, FirstFrom;
    VisitKeepsAnswered(r.m, fdl, None);
  }

  lemma ReplyLeavesRoom(r: Running, fdl: Parameters, t: Telegram)
    requires RunningOk(r, fdl) && MasterStepOk(r, fdl, ReplyArrives(t)) && OthersAnswered(r.m) && Settles(r, t)
    requires RunningOk(DoStep(r, fdl, ReplyArrives(t)), fdl)
    ensures OthersAnswered(DoStep(r, fdl, ReplyArrives(t)).m)
  {
    hide Fair, HearReply;
    ReplyKeepsOk(r.m, fdl, t);
    var i := Current(r.m);
    var n := r.m.(slots := r.m.slots[i := Some(HearReply(r.m.slots[i].value, t).0)]);
    EndTurnKeepsAnswered(n, fdl);
    AnsweredIgnoresEvents(EndTurn(n), DoStep(r, fdl, ReplyArrives(t)).m.events);
  }

  lemma UserLeavesRoom(m: MasterView, fdl: Parameters, slot: nat, n: MasterView)
    requires MasterOk(m, fdl) && MasterOk(n, fdl) && OthersAnswered(m) && slot < |m.slots| && m.slots[slot].Some?
    requires |n.slots| == |m.slots| && n.slots[slot].Some? && n == m.(slots := m.slots[slot := n.slots[slot]])
    requires n.slots[slot].value.retryCount == m.slots[slot].value.retryCount
    ensures OthersAnswered(n)
  {
    SameFirstFrom(m.slots, n.slots, if m.cycle.AtIndex? then m.cycle.index else 0);
  }

  /** The steps can be taken one after the other, and every reply settles its request. */
  ghost predicate WellAnswered(r: Running, fdl: Parameters, steps: seq<MasterStep>)
    requires RunningOk(r, fdl)
    decreases |steps|
  {
    steps != [] ==>
      && MasterStepOk(r, fdl, steps[0]) && (steps[0].ReplyArrives? ==> Settles(r, steps[0].t))
      && (StepKeepsRunning(r, fdl, steps[0]); WellAnswered(DoStep(r, fdl, steps[0]), fdl, steps[1..]))
  }

  /** When peripherals only answer acceptably or stay silent, at most one of them goes offline in each call,
      so the program never ends for want of room. */
  lemma {:induction false} SettledRepliesLeaveRoom(r: Running, fdl: Parameters, steps: seq<MasterStep>)
    requires RunningOk(r, fdl) && OthersAnswered(r.m) && WellAnswered(r, fdl, steps)
    ensures CanRun(r, fdl, steps)
    decreases |steps|
  {
    if steps != [] {
      StepLeavesRoom(r, fdl, steps[0]);
      SettledRepliesLeaveRoom(DoStep(r, fdl, steps[0]), fdl, steps[1..]);
    }
  }

  // ---------------------------------------------------------------------------------------------
  // When peripherals answer with something else
  // ---------------------------------------------------------------------------------------------

  const ASK: MasterStep := AskForTelegram(0, true)

  /** An operating master with two peripherals. */
  ghost predicate Pair(r: Running, fdl: Parameters, p: PeripheralView, q: PeripheralView, cycle: CycleState) {
    && RunningOk(r, fdl) && r.m.operatingState.Operate? && r.awaiting.None?
    && r.m.slots == [Some(p), Some(q)] && r.m.cycle == cycle
  }

  lemma FirstOfTwo(slots: Slots)
    requires |slots| == 2 && slots[0].Some? && slots[1].Some?
    ensures FirstFrom(slots, 0) == 0 && FirstFrom(slots, 1) == 1 && FirstFrom(slots, 2) == 2
    ensures NextIndex(slots, 0) == Some(1) && NextIndex(slots, 1) == None
  {
  }

  /** The peripheral in turn transmits. */
  lemma PairTransmits(r: Running, fdl: Parameters, p: PeripheralView, q: PeripheralView, i: nat)
    requires i < 2 && Pair(r, fdl, p, q, AtIndex(i)) && TakeTurn(if i == 0 then p else q, fdl).1.Transmits?
    ensures HasRoom(r, fdl, ASK)
    ensures var a := DoStep(r, fdl, ASK);
            && RunningOk(a, fdl) && a.awaiting.Some? && a.m.operatingState.Operate? && a.m.cycle == AtIndex(i)
            && a.m.slots == if i == 0 then [Some(TakeTurn(p, fdl).0), Some(q)] else [Some(p), Some(TakeTurn(q, fdl).0)]
  {
    hide Fair;
    StepKeepsRunning(r, fdl, ASK);
    FirstOfTwo(r.m.slots);
    RequestIsForPeripheral(if i == 0 then p else q, fdl);
  }

  lemma RequestIsForPeripheral(p: PeripheralView, fdl: Parameters)
    requires Fits(p) && Consistent(fdl)
    ensures TakeTurn(p, fdl).1.Transmits? ==> ExpectedReplier(TakeTurn(p, fdl).1.t) == Some(p.address)
  {
  }

  /** Its reply ends its turn. */
  lemma PairAnswers(r: Running, fdl: Parameters, p: PeripheralView, q: PeripheralView, i: nat, t: Telegram)
    requires i < 2 && RunningOk(r, fdl) && r.m.operatingState.Operate? && r.awaiting.Some? && r.m.cycle == AtIndex(i)
    requires r.m.slots == [Some(p), Some(q)] && IsReply(t)
    ensures Fits(p) && Fits(q)
    ensures Pair(DoStep(r, fdl, ReplyArrives(t)), fdl,
                 if i == 0 then HearReply(p, t).0 else p, if i == 0 then q else HearReply(q, t).0,
                 if i == 0 then AtIndex(1) else CycleCompleted)
  {
    hide Fair, HearReply;
    assert r.m.slots[0] == Some(p) && r.m.slots[1] == Some(q);
    StepKeepsRunning(r, fdl, ReplyArrives(t));
    FirstOfTwo(r.m.slots);
    var b := DoStep(r, fdl, ReplyArrives(t));
    assert b.m.slots == r.m.slots[i := Some(HearReply(if i == 0 then p else q, t).0)];
    FirstOfTwo(b.m.slots);
  }

  /** After a completed cycle the next one begins. */
  lemma PairStartsOver(r: Running, fdl: Parameters, p: PeripheralView, q: PeripheralView)
    requires Pair(r, fdl, p, q, CycleCompleted)
    ensures HasRoom(r, fdl, ASK) && Pair(DoStep(r, fdl, ASK), fdl, p, q, AtIndex(0))
  {
    hide Fair, FirstFrom, NextIndex;
    StepKeepsRunning(r, fdl, ASK);
  }

  lemma {:induction false} StepFirst(r: Running, fdl: Parameters, step: MasterStep, rest: seq<MasterStep>)
    requires RunningOk(r, fdl) && MasterStepOk(r, fdl, step) && HasRoom(r, fdl, step)
    requires RunningOk(DoStep(r, fdl, step), fdl) && CanRun(DoStep(r, fdl, step), fdl, rest)
    ensures CanRun(r, fdl, [step] + rest) && RunAll(r, fdl, [step] + rest) == RunAll(DoStep(r, fdl, step), fdl, rest)
  {
    assert ([step] + rest)[1..] == rest;
  }

  /** One cycle in which both peripherals are asked and answer. */
  function Round(t: Telegram): seq<MasterStep> {
    [ASK, ReplyArrives(t), ASK, ReplyArrives(t), ASK]
  }

  lemma RoundOfPair(r: Running, fdl: Parameters, p: PeripheralView, q: PeripheralView, t: Telegram,
                    rest: seq<MasterStep>)
    returns (next: Running)
    requires Pair(r, fdl, p, q, AtIndex(0)) && Fits(p) && Fits(q) && IsReply(t)
    requires TakeTurn(p, fdl).1.Transmits? && TakeTurn(q, fdl).1.Transmits?
    ensures Fits(TakeTurn(p, fdl).0) && Fits(TakeTurn(q, fdl).0)
    ensures Pair(next, fdl, HearReply(TakeTurn(p, fdl).0, t).0, HearReply(TakeTurn(q, fdl).0, t).0, AtIndex(0))
    ensures CanRun(next, fdl, rest) ==>
              CanRun(r, fdl, Round(t) + rest) && RunAll(r, fdl, Round(t) + rest) == RunAll(next, fdl, rest)
  {
    hide HasRoom, DoStep, TakeTurn, HearReply, Fair;
    var p1, q1 := TakeTurn(p, fdl).0, TakeTurn(q, fdl).0;
    PairTransmits(r, fdl, p, q, 0);
    var a := DoStep(r, fdl, ASK);
    PairAnswers(a, fdl, p1, q, 0, t);
    var b := DoStep(a, fdl, ReplyArrives(t));
    PairTransmits(b, fdl, HearReply(p1, t).0, q, 1);
    var c := DoStep(b, fdl, ASK);
    PairAnswers(c, fdl, HearReply(p1, t).0, q1, 1, t);
    var d := DoStep(c, fdl, ReplyArrives(t));
    PairStartsOver(d, fdl, HearReply(p1, t).0, HearReply(q1, t).0);
    next := DoStep(d, fdl, ASK);
    if CanRun(next, fdl, rest) {
      StepFirst(d, fdl, ASK, rest);
      StepFirst(c, fdl, ReplyArrives(t), [ASK] + rest);
      StepFirst(b, fdl, ASK, [ReplyArrives(t)] + ([ASK] + rest));
      StepFirst(a, fdl, ReplyArrives(t), [ASK] + ([ReplyArrives(t)] + ([ASK] + rest)));
      StepFirst(r, fdl, ASK, [ReplyArrives(t)] + ([ASK] + ([ReplyArrives(t)] + ([ASK] + rest))));
      assert Round(t) + rest == [ASK] + ([ReplyArrives(t)] + ([ASK] + ([ReplyArrives(t)] + ([ASK] + rest))));
    }
  }

  /** A peripheral that waits for its parameters to be confirmed. */
  function Stubborn(p: PeripheralView, retries: nat): PeripheralView {
    p.(state := WaitForParam, retryCount := retries)
  }

  /** It is sent the parameters until the limit is exceeded, and a response leaves it as it is. */
  lemma StubbornRepeats(p: PeripheralView, fdl: Parameters, retries: nat, t: Telegram)
    requires Fits(p) && Consistent(fdl) && p.options.userParameters.Some?
    requires retries <= fdl.maxRetryLimit && t.IsResponse()
    ensures TakeTurn(Stubborn(p, retries), fdl).0 == Stubborn(p, retries + 1)
    ensures TakeTurn(Stubborn(p, retries), fdl).1.Transmits?
    ensures HearReply(Stubborn(p, retries + 1), t).0 == Stubborn(p, retries + 1)
  {
  }

  /** A new peripheral that answers its first request with a diagnosis comes online. */
  lemma NewcomerComesOnline(p: PeripheralView, fdl: Parameters, d: Telegram)
    requires Fits(p) && Consistent(fdl) && p.state.Offline? && p.retryCount == 0
    requires IsReply(d) && DiagnosisIn(d).Some?
    ensures TakeTurn(p, fdl).1.Transmits? && Fits(TakeTurn(p, fdl).0)
    ensures HearReply(TakeTurn(p, fdl).0, d).0 == Stubborn(StoreDiagnosis(p, d), 0)
    ensures Fits(StoreDiagnosis(p, d)) && StoreDiagnosis(p, d).options == p.options
  {
  }

  function Rounds(count: nat, t: Telegram): seq<MasterStep> {
    if count == 0 then [] else Round(t) + Rounds(count - 1, t)
  }

  /** One round after the other, until both have exceeded the limit. */
  lemma {:induction false} RoundsUntilLimit(r: Running, fdl: Parameters, p: PeripheralView, q: PeripheralView,
                                            n: nat, t: Telegram)
    requires Pair(r, fdl, Stubborn(p, n), Stubborn(q, n), AtIndex(0)) && Fits(p) && Fits(q)
    requires p.options.userParameters.Some? && q.options.userParameters.Some?
    requires n <= fdl.maxRetryLimit + 1 && t.IsResponse()
    ensures CanRun(r, fdl, Rounds(fdl.maxRetryLimit + 1 - n, t))
    ensures Pair(RunAll(r, fdl, Rounds(fdl.maxRetryLimit + 1 - n, t)), fdl,
                 Stubborn(p, fdl.maxRetryLimit + 1), Stubborn(q, fdl.maxRetryLimit + 1), AtIndex(0))
    decreases fdl.maxRetryLimit + 1 - n
  {
    hide Fair, TakeTurn, HearReply, Round;
    if n <= fdl.maxRetryLimit {
      StubbornRepeats(p, fdl, n, t);
      StubbornRepeats(q, fdl, n, t);
      var next := RoundOfPair(r, fdl, Stubborn(p, n), Stubborn(q, n), t, Rounds(fdl.maxRetryLimit - n, t));
      RoundsUntilLimit(next, fdl, p, q, n + 1, t);
    }
  }

  /** From a new master, two peripherals that come online and then answer every parameter telegram with a response
      of the wrong kind end the program, whatever the retry limit is: after one request more than the limit
      to each of them, both go offline in the same call. */
  lemma UnsettledRepliesEndProgram(m: MasterView, fdl: Parameters, p: PeripheralView, q: PeripheralView,
                                   d: Telegram, t: Telegram)
    returns (steps: seq<MasterStep>)
    requires MasterOk(m, fdl) && IsNew(m) && m.operatingState.Operate? && m.slots == [Some(p), Some(q)]
    requires p.state.Offline? && p.retryCount == 0 && p.options.userParameters.Some?
    requires q.state.Offline? && q.retryCount == 0 && q.options.userParameters.Some?
    requires IsReply(d) && DiagnosisIn(d).Some? && t.IsResponse()
    ensures RunningOk(Running(m, None), fdl) && CanRun(Running(m, None), fdl, steps)
    ensures var r := RunAll(Running(m, None), fdl, steps); MasterStepOk(r, fdl, ASK) && !HasRoom(r, fdl, ASK)
  {
    hide Fair, TakeTurn, HearReply, Round, StoreDiagnosis;
    var r := Running(m, None);
    NewMasterIsOk(m, fdl);
    assert m.slots[0] == Some(p) && m.slots[1] == Some(q);
    NewcomerComesOnline(p, fdl, d);
    NewcomerComesOnline(q, fdl, d);
    var rest := Rounds(fdl.maxRetryLimit + 1, t);
    var online := RoundOfPair(r, fdl, p, q, d, rest);
    RoundsUntilLimit(online, fdl, StoreDiagnosis(p, d), StoreDiagnosis(q, d), 0, t);
    steps := Round(d) + rest;
    BothDropOut(RunAll(r, fdl, steps), fdl, StoreDiagnosis(p, d), StoreDiagnosis(q, d));
  }

  lemma BothDropOut(r: Running, fdl: Parameters, p: PeripheralView, q: PeripheralView)
    requires Pair(r, fdl, Stubborn(p, fdl.maxRetryLimit + 1), Stubborn(q, fdl.maxRetryLimit + 1), AtIndex(0))
    ensures MasterStepOk(r, fdl, ASK) && !HasRoom(r, fdl, ASK)
  {
    FirstOfTwo(r.m.slots);
    RoomExactly(r.m, fdl, None);
    assert DropsOut(r.m, 0, fdl) && DropsOut(r.m, 1, fdl);
  }
}
