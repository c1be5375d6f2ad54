/**
 A station falls silent when the token is passed to it.

 Its predecessor offers the token three times, drops it from the LAS and offers the token to the next station,
 which does not know the new sender yet.  All others learn of the loss from that pass.
 */
module Leaving {
  import opened BusParameters
  import opened CyclicOrder
  import opened Telegrams
  import opened PhysicalLayer
  import opened TokenRings
  import opened Stabilisation
  import opened Stations
  import opened GapSweep
  import opened BusDiscipline
  import opened Buses
  import opened TokenBus
  import opened Joining

  /** How far the ring `r` has come in forgetting the lost station.  `h` is its predecessor. */
  datatype LossPhase =
    | Offering(h: nat)
    | Redirected(h: nat)
    | Closed(h: nat, holder: nat)

  /** A member of the ring whose sweep meets no other member. */
  ghost predicate ClearMember(f: Fdl, x: nat, s: set<nat>) {
    Member(f, x, s) && Clear(f, s)
  }

  /** The ring without the lost station `a`, whose place is between `h` and the successor of `h`. */
  ghost predicate LossSetting(bus: map<nat, Fdl>, r: set<nat>, a: nat, h: nat) {
    IsRing(r) && a <= MAX_ADDRESS && a !in r && h in r && bus.Keys == r && InArc(h, Next(r, h), a)
  }

  ghost predicate InLossPhase(bus: map<nat, Fdl>, r: set<nat>, a: nat, phase: LossPhase) {
    var h := phase.h;
    && LossSetting(bus, r, a, h)
    && match phase
       case Offering(_) =>
         && (forall x | x in r :: ClearMember(bus[x], x, r + {a}) && IsWaiting(bus[x]))
         && bus[h].state.CheckTokenPass?
       case Redirected(_) =>
         && Next(r, h) != h
         && (forall x | x in r && x != Next(r, h) :: ClearMember(bus[x], x, r) && IsWaiting(bus[x]))
         && bus[h].state == CheckTokenPass(Attempt.First)
         && var b := Next(r, h);
            && ClearMember(bus[b], b, r + {a}) && IsWaiting(bus[b])
            && bus[b].state.ActiveIdle? && bus[b].state.newPreviousStation == Some(h)
       case Closed(_, holder) => holder == Next(r, h) && Steady(bus, r, holder)
  }

  /** The predecessor is polled when its turn comes, and everyone may be polled while idle. */
  ghost predicate LossAllowed(bus: map<nat, Fdl>, r: set<nat>, a: nat, phase: LossPhase, step: BusStep)
    requires InLossPhase(bus, r, a, phase)
  {
    match step
    case PollOf(x, input, heard) => !phase.Closed? && x == phase.h && InputOk(bus[x], input) && input.rx == []
    case PollIdle(x, input) => !phase.Closed? && x in bus && Idle(bus[x], input)
    case PassiveHeard(_, _) => false
  }

  /** The phase after a step, read off the new states. */
  ghost function LossPhaseAfter(r: set<nat>, phase: LossPhase, bus: map<nat, Fdl>): LossPhase
    requires phase.h in bus && Next(r, phase.h) in bus
  {
    var h, b := phase.h, Next(r, phase.h);
    if phase.Closed? then phase
    else if HasToken(bus[b]) then Closed(h, b)
    else if bus[h].ring.las == r then Redirected(h)
    else Offering(h)
  }

  // ---------------------------------------------------------------------------------------------
  // One station at a time
  // ---------------------------------------------------------------------------------------------

  /** A sweep that is clear of the ring with the lost station is clear of the ring without it, also when it now
      ends at the station behind. */
  lemma SweepFitsLargerGap(hsa: nat, ts: nat, lost: nat, r: set<nat>, current: nat)
    requires ts < hsa && lost < hsa && current < hsa && ts in r && lost !in r && AllBelow(r, hsa)
    requires InArc(ts, Next(r, ts), lost) && RestIsClear(hsa, ts, lost, current, r + {lost})
    ensures RestIsClear(hsa, ts, Next(r, ts), current, r)
  {
    var ns := Next(r, ts);
    assert FollowsIn(r, ts, ns);
    var next := NextGap(hsa, ts, ns, current);
    if next.DoPoll? {
      forall y | y in r && InArc(next.currentAddress, ns, y) ensures y == ts {
      }
    }
  }

  /** Dropping the lost station leaves exactly the others. */
  lemma DropLeavesOthers(f: Fdl, h: nat, r: set<nat>, a: nat)
    requires ClearMember(f, h, r + {a}) && h in r && a !in r && InArc(h, Next(r, h), a)
    ensures f.ring.ns == a && ClearMember(f.(ring := Remove(f.ring, a)), h, r)
  {
    hide FollowsIn, PrecedesIn, StateOk, RestIsClear;
    NeighboursOfKnowing(f, h, r + {a});
    NewcomerSplitsArc(r, h, a, h);
    OperationsKeepWellFormed(f.ring, 0, 0, a);
    assert r + {a} - {a} == r;
    if f.gap.DoPoll? {
      SweepFitsLargerGap(f.p.highestStationAddress, h, a, r, f.gap.currentAddress);
    }
    DropKeepsInv(f, r, a);
  }

  /** The sweep does not move, and stays clear of the ring. */
  lemma StaysClearMember(f: Fdl, g: Fdl, x: nat, s: set<nat>)
    requires ClearMember(f, x, s) && Member(g, x, s) && g.p == f.p && g.gap == f.gap
    ensures ClearMember(g, x, s)
  {
    hide Clear;
    SweepCarriesOver(f, g, x, s, s);
  }

  /** Who is a member can be read off its LAS. */
  lemma LasTellsRing(f: Fdl, x: nat, r: set<nat>, a: nat)
    requires a !in r
    ensures ClearMember(f, x, r) ==> f.ring.las == r
    ensures ClearMember(f, x, r + {a}) ==> f.ring.las != r
  {
    hide Clear, Inv;
    assert r + {a} != r;
  }

  lemma RingIsClosed(bus: map<nat, Fdl>, r: set<nat>, b: nat)
    requires IsRing(r) && bus.Keys == r && b in r && forall x | x in r :: ClearMember(bus[x], x, r)
    requires forall x | x in r :: if x == b then bus[x].state.UseToken? else IsWaiting(bus[x])
    ensures Steady(bus, r, b)
  {
    hide Clear, Knows;
  }

  lemma TokenIsTaken(bus: map<nat, Fdl>, r: set<nat>, a: nat, h: nat)
    requires LossSetting(bus, r, a, h) && Next(r, h) in bus && forall x | x in r :: ClearMember(bus[x], x, r)
    requires forall x | x in r :: if x == Next(r, h) then bus[x].state.UseToken? else IsWaiting(bus[x])
    ensures LossPhaseAfter(r, Redirected(h), bus) == Closed(h, Next(r, h))
    ensures InLossPhase(bus, r, a, Closed(h, Next(r, h)))
  {
    hide ClearMember, Steady, IsWaiting;
    RingIsClosed(bus, r, Next(r, h));
  }

  /** Repeating an offer keeps the sweep clear. */
  lemma ClearMemberChecks(f: Fdl, x: nat, s: set<nat>, input: Input)
    requires ClearMember(f, x, s) && f.state.CheckTokenPass? && !f.state.attempt.Third? && Next(s, x) != x
    requires InputOk(f, input) && input.rx == [] && Inv(f)
    ensures var g := Poll(f, input);
            && ClearMember(g, x, s)
            && if Sends(f, input).Some? then
                 && Sends(f, input).value == Token(Next(s, x) % 256, x % 256)
                 && g.state == CheckTokenPass(NextAttempt(f.state.attempt))
               else g.state == f.state
    ensures MayAct(f, input) && SlotExpired(f, input.now) ==> Sends(f, input).Some?
  {
    hide Poll;
    CheckerPolls(f, x, s, input);
    StaysClearMember(f, Poll(f, input), x, s);
  }

  lemma ClearMemberHearsPass(f: Fdl, x: nat, s: set<nat>, now: int, h: nat)
    requires ClearMember(f, x, s) && IsWaiting(f) && IsRing(s) && h in s && h != x && Inv(f) && x != Next(s, h)
    ensures var g := Receive(f, now, Token(Next(s, h), h)); ClearMember(g, x, s) && IsWaiting(g)
  {
    HearPass(f, x, s, now, h);
    StaysClearMember(f, Receive(f, now, Token(Next(s, h), h)), x, s);
  }

  lemma DropKeepsInv(f: Fdl, r: set<nat>, a: nat)
    requires Inv(f) && f.ring.las == r + {a}
    ensures Inv(f.(ring := Remove(f.ring, a)))
  {
    hide WellFormed, Remove, AllBelow;
    OperationsKeepWellFormed(f.ring, 0, 0, a);
    OperationsKeepAddresses(f.ring, 0, 0, a, MAX_ADDRESS + 1);
  }

  /** After the third attempt the lost station is dropped and the token goes to the station behind it. */
  lemma ThirdAttemptRedirects(f: Fdl, h: nat, r: set<nat>, a: nat, input: Input)
    requires ClearMember(f, h, r + {a}) && h in r && a !in r && InArc(h, Next(r, h), a)
    requires f.state == CheckTokenPass(Third) && InputOk(f, input) && input.rx == []
    ensures var g := Poll(f, input);
            if Sends(f, input).Some? then
              && ClearMember(g, h, r) && Sends(f, input).value == Token(Next(r, h) % 256, h % 256)
              && if Next(r, h) == h then g.state.UseToken? else g.state == CheckTokenPass(Attempt.First)
            else ClearMember(g, h, r + {a}) && g.state == f.state
    ensures MayAct(f, input) && SlotExpired(f, input.now) ==> Sends(f, input).Some?
  {
    hide WellFormed, AllBelow, SendToken;
    PollIsDisciplined(f, input);
    if !(input.phyBusy || Transmitting(f, input.now)) {
      var g := Touch(CheckForBusActivity(f, input.now, 0), input.now);
      assert Drain([]).deliveries == [];
      if SlotExpired(g, input.now) {
        SlotCoversSyncPause(f.p);
        DropLeavesOthers(g, h, r, a);
        HolderSendsToken(RetryPass(g), h, r, r, input.now);
        StaysClearMember(RetryPass(g), SendToken(RetryPass(g), input.now), h, r);
      }
    }
  }

  /** Witnessing the redirected pass teaches exactly the loss. */
  lemma RedirectTeachesLoss(ring: RingView, r: set<nat>, h: nat, a: nat)
    requires WellFormed(ring) && ring.las == r + {a} && ring.lasState == Valid && ring.ts in r && ring.ts != h
    requires IsRing(r) && h in r && a !in r && a <= MAX_ADDRESS && InArc(h, Next(r, h), a)
    ensures var w := Witness(ring, h, Next(r, h));
            && WellFormed(w) && w.las == r && w.lasState == Valid && w.ts == ring.ts && w.ns == ring.ns
  {
    NewcomerSplitsArc(r, h, a, ring.ts);
    OperationsKeepWellFormed(ring, h, Next(r, h), 0);
    assert InArc(h, Next(r, h), h);
    assert Learn(r + {a}, h, Next(r, h)) == r;
  }

  lemma OtherHearsRedirect(f: Fdl, x: nat, r: set<nat>, now: int, h: nat, a: nat)
    requires ClearMember(f, x, r + {a}) && IsWaiting(f) && x in r && x != h && x != Next(r, h)
    requires IsRing(r) && h in r && a !in r && a <= MAX_ADDRESS && InArc(h, Next(r, h), a)
    ensures var g := Receive(f, now, Token(Next(r, h), h)); ClearMember(g, x, r) && IsWaiting(g)
  {
    hide NeighboursAgree, Witness;
    HearIsHandle(f, now, Token(Next(r, h), h));
    RedirectTeachesLoss(f.ring, r, h, a);
  }

  /** The station behind the lost one does not know the new sender: it takes the token only when it is offered
      again. */
  lemma SuccessorHearsRedirect(f: Fdl, b: nat, r: set<nat>, now: int, h: nat, a: nat)
    requires ClearMember(f, b, r + {a}) && IsWaiting(f) && b == Next(r, h) && b != h
    requires IsRing(r) && h in r && a !in r && a <= MAX_ADDRESS && InArc(h, Next(r, h), a)
    ensures var g := Receive(f, now, Token(b, h));
            || (ClearMember(g, b, r) && g.state.UseToken?)
            || (&& ClearMember(g, b, r + {a}) && IsWaiting(g)
                && g.state.ActiveIdle? && g.state.newPreviousStation == Some(h))
    ensures f.state.ActiveIdle? && f.state.newPreviousStation == Some(h) ==>
              Receive(f, now, Token(b, h)).state.UseToken?
  {
    hide NeighboursAgree, Witness;
    HearIsHandle(f, now, Token(b, h));
    RedirectTeachesLoss(f.ring, r, h, a);
    NeighboursOfKnowing(f, b, r + {a});
    NewcomerSplitsArc(r, h, a, b);
    PreviousOfNext(r + {a}, a);
  }

  // ---------------------------------------------------------------------------------------------
  // One step of the bus
  // ---------------------------------------------------------------------------------------------

  lemma LossPhaseIsSound(bus: map<nat, Fdl>, r: set<nat>, a: nat, phase: LossPhase)
    requires InLossPhase(bus, r, a, phase)
    ensures AllSound(bus) && forall x | x in bus :: bus[x].online
    ensures phase.h in bus && Next(r, phase.h) in bus
  {
    hide Inv;
    forall x | x in bus ensures Inv(bus[x]) && bus[x].online {
      if phase.Closed? {
        assert ClearMember(bus[x], x, r);
      }
    }
  }

  ghost function AfterLoss(bus: map<nat, Fdl>, r: set<nat>, a: nat, phase: LossPhase, step: BusStep): map<nat, Fdl>
    requires InLossPhase(bus, r, a, phase) && LossAllowed(bus, r, a, phase, step)
  {
    LossPhaseIsSound(bus, r, a, phase);
    BusNext(bus, phase.h, step)
  }

  /** The offer is repeated, and nobody learns anything from it. */
  lemma OfferIsRepeated(bus: map<nat, Fdl>, r: set<nat>, a: nat, h: nat, input: Input, heard: nat -> int)
    requires InLossPhase(bus, r, a, Offering(h)) && LossAllowed(bus, r, a, Offering(h), PollOf(h, input, heard))
    requires !bus[h].state.attempt.Third?
    ensures var next := AfterLoss(bus, r, a, Offering(h), PollOf(h, input, heard));
            && next.Keys == r && InLossPhase(next, r, a, Offering(h))
            && LossPhaseAfter(r, Offering(h), next) == Offering(h)
  {
    hide Poll, Receive, Inv, ClearMember, LossPhaseAfter;
    LossPhaseIsSound(bus, r, a, Offering(h));
    NewcomerSplitsArc(r, h, a, h);
    var next := AfterLoss(bus, r, a, Offering(h), PollOf(h, input, heard));
    ClearMemberChecks(bus[h], h, r + {a}, input);
    if Sends(bus[h], input).Some? {
      forall x | x in r && x != h ensures ClearMember(next[x], x, r + {a}) && IsWaiting(next[x]) {
        ClearMemberHearsPass(bus[x], x, r + {a}, heard(x), h);
      }
    }
    StillOffering(next, r, a, h);
  }

  lemma StillOffering(bus: map<nat, Fdl>, r: set<nat>, a: nat, h: nat)
    requires LossSetting(bus, r, a, h) && Next(r, h) in bus && bus[h].state.CheckTokenPass?
    requires forall x | x in r :: ClearMember(bus[x], x, r + {a}) && IsWaiting(bus[x])
    ensures InLossPhase(bus, r, a, Offering(h)) && LossPhaseAfter(r, Offering(h), bus) == Offering(h)
  {
    hide ClearMember;
    LasTellsRing(bus[h], h, r, a);
  }

  lemma RedirectIsHeard(bus: map<nat, Fdl>, r: set<nat>, a: nat, h: nat, now: int, x: nat)
    requires InLossPhase(bus, r, a, Offering(h)) && x in r && x != h
    ensures AllSound(bus)
    ensures var b, g := Next(r, h), Receive(bus[x], now, Token(Next(r, h), h));
            if x != b then ClearMember(g, x, r) && IsWaiting(g)
            else
              || (ClearMember(g, x, r) && g.state.UseToken?)
              || (&& ClearMember(g, x, r + {a}) && IsWaiting(g)
                  && g.state.ActiveIdle? && g.state.newPreviousStation == Some(h))
  {
    hide Inv, ClearMember, Receive;
    LossPhaseIsSound(bus, r, a, Offering(h));
    if x == Next(r, h) {
      SuccessorHearsRedirect(bus[x], x, r, now, h, a);
    } else {
      OtherHearsRedirect(bus[x], x, r, now, h, a);
    }
  }

  lemma TokenIsRedirected(bus: map<nat, Fdl>, r: set<nat>, a: nat, h: nat, input: Input, heard: nat -> int)
    requires InLossPhase(bus, r, a, Offering(h)) && LossAllowed(bus, r, a, Offering(h), PollOf(h, input, heard))
    requires bus[h].state.attempt.Third?
    ensures var next := AfterLoss(bus, r, a, Offering(h), PollOf(h, input, heard));
            next.Keys == r && InLossPhase(next, r, a, LossPhaseAfter(r, Offering(h), next))
  {
    hide Poll, Receive, Inv, ClearMember;
    LossPhaseIsSound(bus, r, a, Offering(h));
    var next := AfterLoss(bus, r, a, Offering(h), PollOf(h, input, heard));
    ThirdAttemptRedirects(bus[h], h, r, a, input);
    if Sends(bus[h], input).Some? {
      forall x | x in r && x != h
        ensures next[x] == Receive(bus[x], heard(x), Token(Next(r, h), h))
        ensures x != Next(r, h) ==> ClearMember(next[x], x, r) && IsWaiting(next[x])
      {
        RedirectIsHeard(bus, r, a, h, heard(x), x);
      }
      if Next(r, h) != h {
        RedirectIsHeard(bus, r, a, h, heard(Next(r, h)), Next(r, h));
      }
    }
    if HasToken(next[Next(r, h)]) {
      RingIsClosed(next, r, Next(r, h));
    }
    LasTellsRing(next[h], h, r, a);
  }

  lemma RepeatIsHeard(bus: map<nat, Fdl>, r: set<nat>, a: nat, h: nat, now: int, x: nat)
    requires InLossPhase(bus, r, a, Redirected(h)) && x in r && x != h
    ensures AllSound(bus)
    ensures var g := Receive(bus[x], now, Token(Next(r, h), h));
            ClearMember(g, x, r) && if x == Next(r, h) then g.state.UseToken? else IsWaiting(g)
  {
    hide Inv, ClearMember, Receive;
    LossPhaseIsSound(bus, r, a, Redirected(h));
    if x == Next(r, h) {
      SuccessorHearsRedirect(bus[x], x, r, now, h, a);
    } else {
      ClearMemberHearsPass(bus[x], x, r, now, h);
    }
  }

  lemma RedirectIsRepeated(bus: map<nat, Fdl>, r: set<nat>, a: nat, h: nat, input: Input, heard: nat -> int)
    requires InLossPhase(bus, r, a, Redirected(h)) && LossAllowed(bus, r, a, Redirected(h), PollOf(h, input, heard))
    ensures var next := AfterLoss(bus, r, a, Redirected(h), PollOf(h, input, heard));
            next.Keys == r && InLossPhase(next, r, a, LossPhaseAfter(r, Redirected(h), next))
  {
    hide Poll, Receive, Inv, ClearMember, Steady;
    LossPhaseIsSound(bus, r, a, Redirected(h));
    var next := AfterLoss(bus, r, a, Redirected(h), PollOf(h, input, heard));
    ClearMemberChecks(bus[h], h, r, input);
    if Sends(bus[h], input).Some? {
      forall x | x in r && x != h
        ensures ClearMember(next[x], x, r) && if x == Next(r, h) then next[x].state.UseToken? else IsWaiting(next[x])
      {
        RepeatIsHeard(bus, r, a, h, heard(x), x);
      }
      TokenIsTaken(next, r, a, h);
    } else {
      LasTellsRing(next[h], h, r, a);
    }
  }

  lemma LossIgnoresClock(bus: map<nat, Fdl>, r: set<nat>, a: nat, phase: LossPhase, x: nat, clock: Option<int>)
    requires InLossPhase(bus, r, a, phase) && !phase.Closed? && x in bus
    ensures var next := bus[x := bus[x].(lastBusActivity := clock)];
            next.Keys == r && InLossPhase(next, r, a, phase) && LossPhaseAfter(r, phase, next) == phase
  {
    hide Knows, Steady;
    ClockDoesNotMatter(bus[x], clock, x, r);
    ClockDoesNotMatter(bus[x], clock, x, r + {a});
    assert r + {a} != r;
  }

  /** Every allowed step keeps the bus in a phase of the loss, and the phases follow one another. */
  lemma LossStepAdvances(bus: map<nat, Fdl>, r: set<nat>, a: nat, phase: LossPhase, step: BusStep)
    requires InLossPhase(bus, r, a, phase) && LossAllowed(bus, r, a, phase, step)
    ensures var next := AfterLoss(bus, r, a, phase, step);
            next.Keys == r && Next(r, phase.h) in r && InLossPhase(next, r, a, LossPhaseAfter(r, phase, next))
  {
    hide Poll, Inv, ClearMember, Receive, Steady;
    LossPhaseIsSound(bus, r, a, phase);
    match step
    case PollOf(x, input, heard) =>
      match phase {
        case Offering(h) =>
          if bus[h].state.attempt.Third? {
            TokenIsRedirected(bus, r, a, h, input, heard);
          } else {
            OfferIsRepeated(bus, r, a, h, input, heard);
          }
        case Redirected(h) => RedirectIsRepeated(bus, r, a, h, input, heard);
      }
    case PollIdle(x, input) =>
      IdlePollWaits(bus[x], input);
      LossIgnoresClock(bus, r, a, phase, x, Poll(bus[x], input).lastBusActivity);
  }

  // ---------------------------------------------------------------------------------------------
  // Runs
  // ---------------------------------------------------------------------------------------------

  datatype LossMoment = LossMoment(bus: map<nat, Fdl>, phase: LossPhase)

  /** `n` follows `m` by one allowed step. */
  ghost predicate LossFollows(r: set<nat>, a: nat, m: LossMoment, step: BusStep, n: LossMoment) {
    InLossPhase(m.bus, r, a, m.phase) ==>
      && LossAllowed(m.bus, r, a, m.phase, step)
      && (LossStepAdvances(m.bus, r, a, m.phase, step);
          n.bus == AfterLoss(m.bus, r, a, m.phase, step) && n.phase == LossPhaseAfter(r, m.phase, n.bus))
  }

  ghost predicate IsLossRun(r: set<nat>, a: nat, run: seq<LossMoment>, steps: seq<BusStep>) {
    && |run| == |steps| + 1
    && forall i | 0 <= i < |steps| :: LossFollows(r, a, run[i], steps[i], run[i + 1])
  }

  lemma LossPhaseIsSafe(bus: map<nat, Fdl>, r: set<nat>, a: nat, phase: LossPhase)
    requires InLossPhase(bus, r, a, phase)
    ensures bus.Keys == r
    ensures forall x | x in bus :: r <= bus[x].ring.las <= r + {a}
    ensures forall x, y | x in bus && y in bus && HasToken(bus[x]) && HasToken(bus[y]) :: x == y
    ensures phase.Closed? ==> Steady(bus, r, phase.holder)
  {
    hide Inv, Knows, Clear, Agreed;
    if phase.Closed? {
      HoldersOfAgreed(bus, r, phase.holder);
    }
  }

  /** In every run that begins with the token offered to a station that has fallen silent, no other station is
      ever dropped, there is never a second token, and when the loop is closed again, the bus is a
      steady ring of the remaining stations. */
  lemma {:induction false} LossIsSafe(r: set<nat>, a: nat, run: seq<LossMoment>, steps: seq<BusStep>, i: nat)
    requires IsLossRun(r, a, run, steps) && i < |run|
    requires InLossPhase(run[0].bus, r, a, run[0].phase)
    ensures InLossPhase(run[i].bus, r, a, run[i].phase)
    ensures var bus := run[i].bus;
            && bus.Keys == r
            && (forall x | x in bus :: r <= bus[x].ring.las <= r + {a})
            && (forall x, y | x in bus && y in bus && HasToken(bus[x]) && HasToken(bus[y]) :: x == y)
            && (run[i].phase.Closed? ==> Steady(bus, r, run[i].phase.holder))
  {
    hide InLossPhase, LossAllowed, AfterLoss, LossPhaseAfter, HasToken, Steady;
    if i > 0 {
      LossIsSafe(r, a, run, steps, i - 1);
      var m := run[i - 1];
      assert LossFollows(r, a, m, steps[i - 1], run[i]);
      LossStepAdvances(m.bus, r, a, m.phase, steps[i - 1]);
    }
    LossPhaseIsSafe(run[i].bus, r, a, run[i].phase);
  }

  /** The first poll after an expired slot repeats the offer, or redirects it after the third attempt. */
  lemma ExpiredOfferAdvances(bus: map<nat, Fdl>, r: set<nat>, a: nat, h: nat, input: Input, heard: nat -> int)
    requires InLossPhase(bus, r, a, Offering(h)) && LossAllowed(bus, r, a, Offering(h), PollOf(h, input, heard))
    requires MayAct(bus[h], input) && SlotExpired(bus[h], input.now)
    ensures var next := AfterLoss(bus, r, a, Offering(h), PollOf(h, input, heard));
            next.Keys == r && Next(r, h) in r &&
            if bus[h].state.attempt.Third? then !LossPhaseAfter(r, Offering(h), next).Offering?
            else next[h].state == CheckTokenPass(NextAttempt(bus[h].state.attempt))
  {
    hide Poll, Inv, ClearMember, Receive, Steady;
    LossPhaseIsSound(bus, r, a, Offering(h));
    LasTellsRing(Poll(bus[h], input), h, r, a);
    if bus[h].state.attempt.Third? {
      ThirdAttemptRedirects(bus[h], h, r, a, input);
    } else {
      NewcomerSplitsArc(r, h, a, h);
      ClearMemberChecks(bus[h], h, r + {a}, input);
    }
  }

  /** The first poll after an expired slot hands over the redirected token. */
  lemma ExpiredRedirectCloses(bus: map<nat, Fdl>, r: set<nat>, a: nat, h: nat, input: Input, heard: nat -> int)
    requires InLossPhase(bus, r, a, Redirected(h)) && LossAllowed(bus, r, a, Redirected(h), PollOf(h, input, heard))
    requires MayAct(bus[h], input) && SlotExpired(bus[h], input.now)
    ensures var next := AfterLoss(bus, r, a, Redirected(h), PollOf(h, input, heard));
            next.Keys == r && Next(r, h) in r && LossPhaseAfter(r, Redirected(h), next) == Closed(h, Next(r, h))
  {
    hide Poll, Inv, ClearMember, Receive, Steady;
    LossPhaseIsSound(bus, r, a, Redirected(h));
    ClearMemberChecks(bus[h], h, r, input);
    RepeatIsHeard(bus, r, a, h, heard(Next(r, h)), Next(r, h));
  }

  /** A station that falls silent with the token, before it has transmitted anything, while its predecessor
      still checks whether the pass succeeded, is where the loss begins. */
  lemma SilentHolderBeginsLoss(bus: map<nat, Fdl>, r: set<nat>, a: nat, h: nat)
    requires Steady(bus, r + {a}, a) && a !in r && h in r && Next(r + {a}, h) == a && bus[h].state.CheckTokenPass?
    ensures InLossPhase(bus - {a}, r, a, Offering(h))
  {
    hide Inv;
    NextIsUnique(r, h, Next(r, h));
    assert InArc(h, Next(r, h), a) by {
      assert FollowsIn(r + {a}, h, a) && Next(r, h) in r + {a};
    }
    assert (bus - {a}).Keys == r;
  }
}
