/**
 A newcomer that listens is found.

 As long as the holder is polled again and again after its slots are over, the GAP sweep of the station before the
 newcomer gets to it, and from there every phase of joining follows.
 */
module JoinProgress {
  import opened BusParameters
  import opened CyclicOrder
  import opened Telegrams
  import opened PhysicalLayer
  import opened TokenRings
  import opened Stabilisation
  import opened Stations
  import opened BusDiscipline
  import opened GapSweep
  import opened Buses
  import opened TokenBus
  import opened RingStability
  import opened Joining

  // ---------------------------------------------------------------------------------------------
  // Listening
  // ---------------------------------------------------------------------------------------------

  /** After `k` more GAP steps the station will ask `a`. */
  ghost predicate AsksAfter(f: Fdl, a: nat, k: nat) {
    GapSteps(f.p.highestStationAddress, f.p.address, f.ring.ns, f.p.gapWaitRotations, f.gap, k) == DoPoll(a)
  }

  lemma HearingKeepsSweep(f: Fdl, now: int, t: Telegram)
    requires Inv(f) && IsWaiting(f)
    ensures var g := Receive(f, now, t); g.gap == f.gap && g.p == f.p
  {
    HearIsHandle(f, now, t);
  }

  lemma LatePollAllowed(bus: map<nat, Fdl>, s: set<nat>, a: nat, h: nat)
    requires InPhase(bus, s, a, Listening(h))
    ensures h in bus && Allowed(bus, s, a, Listening(h), LatePollOf(bus, h))
    ensures Inv(bus[h]) && InputOk(bus[h], LateInput(bus[h]))
  {
    hide Inv, Undisturbed, Clear;
    LatePoll(bus[h], h, s);
    LatePollIsUndisturbed(bus[h], s + {a});
  }

  lemma LatePollIsUndisturbed(f: Fdl, quiet: set<nat>)
    ensures Undisturbed(f, LateInput(f), quiet)
  {
  }

  ghost function JoinMomentAfter(m: JoinMoment, s: set<nat>, a: nat, step: BusStep): JoinMoment
    requires InPhase(m.bus, s, a, m.phase) && Allowed(m.bus, s, a, m.phase, step)
  {
    JoinStepAdvances(m.bus, s, a, m.phase, step);
    PhaseIsSound(m.bus, s, a, m.phase);
    var next := After(m.bus, s, a, m.phase, step);
    JoinMoment(next, PhaseAfter(s, a, m.phase, next))
  }

  /** The late poll passes the token on. */
  ghost predicate PassesLate(f: Fdl)
    requires Inv(f) && InputOk(f, LateInput(f))
  {
    var t := Sends(f, LateInput(f)); t.Some? && t.value.Token?
  }

  /** What a late poll leads to: the newcomer is asked, or the holder has less to do, or it has passed the token. */
  ghost predicate Searches(bus: map<nat, Fdl>, s: set<nat>, a: nat, h: nat, next: map<nat, Fdl>, phase: Phase)
    requires s <= bus.Keys && s <= next.Keys && h in s && Inv(bus[h]) && InputOk(bus[h], LateInput(bus[h]))
  {
    var f := bus[h];
    && InPhase(next, s, a, phase)
    && (forall x | x in s :: next[x].p == bus[x].p &&
          next[x].gap == if x == h && DoesGap(f) then AdvanceGap(f).gap else bus[x].gap)
    && (phase == RequestHeard(h) ||
        (&& (DoesGap(f) ==> next[h].gap != DoPoll(a))
         && (Work(f) >= 2 && !DoesGap(f) ==> !PassesLate(f) && Work(next[h]) >= 2)
         && if PassesLate(f) then
              phase == Listening(Next(s, h)) && Next(s, h) in next && next[Next(s, h)].state.UseToken?
            else phase == Listening(h) && Work(next[h]) < Work(f)))
  }

  lemma LatePollInListening(bus: map<nat, Fdl>, s: set<nat>, a: nat, h: nat)
    requires InPhase(bus, s, a, Listening(h)) && h in bus && Inv(bus[h]) && InputOk(bus[h], LateInput(bus[h]))
    requires Allowed(bus, s, a, Listening(h), LatePollOf(bus, h))
    ensures var next := After(bus, s, a, Listening(h), LatePollOf(bus, h));
            && next.Keys == s + {a} && Next(s, h) in next
            && Searches(bus, s, a, h, next, PhaseAfter(s, a, Listening(h), next))
  {
    hide Inv, Poll, Receive, Undisturbed, Clear, InPhase, Allowed, Work, DoesGap, AdvanceGap;
    JoinStepAdvances(bus, s, a, Listening(h), LatePollOf(bus, h));
    PhaseIsSound(bus, s, a, Listening(h));
    SweepsAfterLatePoll(bus, s, a, h);
    TokenAfterLatePoll(bus, s, a, h);
  }

  lemma SweepsAfterLatePoll(bus: map<nat, Fdl>, s: set<nat>, a: nat, h: nat)
    requires InPhase(bus, s, a, Listening(h)) && h in bus
    requires Allowed(bus, s, a, Listening(h), LatePollOf(bus, h))
    ensures var next := After(bus, s, a, Listening(h), LatePollOf(bus, h));
            forall x | x in s :: x in next && x in bus && next[x].p == bus[x].p &&
              next[x].gap == if x == h && DoesGap(bus[h]) then AdvanceGap(bus[h]).gap else bus[x].gap
  {
    hide Inv, Poll, Receive, Undisturbed, Clear, Work, DoesGap, AdvanceGap;
    PhaseIsSound(bus, s, a, Listening(h));
    LatePoll(bus[h], h, s);
    HolderPolls(bus[h], h, s, s, LateInput(bus[h]));
    var step := LatePollOf(bus, h);
    forall x | x in s && x != h && Sends(bus[h], step.input).Some?
      ensures var g := Receive(bus[x], step.heard(x), Sends(bus[h], step.input).value);
              g.gap == bus[x].gap && g.p == bus[x].p
    {
      HearingKeepsSweep(bus[x], step.heard(x), Sends(bus[h], step.input).value);
    }
  }

  lemma LatePass(bus: map<nat, Fdl>, s: set<nat>, a: nat, h: nat)
    requires InPhase(bus, s, a, Listening(h)) && h in bus && Inv(bus[h]) && InputOk(bus[h], LateInput(bus[h]))
    requires Allowed(bus, s, a, Listening(h), LatePollOf(bus, h)) && PassesLate(bus[h])
    ensures var next, b := After(bus, s, a, Listening(h), LatePollOf(bus, h)), Next(s, h);
            && next.Keys == s + {a} && b in next && next[b].state.UseToken?
            && PhaseAfter(s, a, Listening(h), next) == Listening(b)
  {
    hide Inv, Poll, Receive, Undisturbed, Clear;
    PhaseIsSound(bus, s, a, Listening(h));
    var step, b := LatePollOf(bus, h), Next(s, h);
    ListeningHolderPolls(bus[h], h, s, a, step.input);
    NewcomerHearsPass(bus[a], a, s, step.heard(a), h);
    if b == h {
      HolderPolls(bus[h], h, s, s + {a}, step.input);
    } else {
      OpenHearsToken(bus[b], b, s, a, step.heard(b), h);
    }
  }

  lemma OpenHearsToken(f: Fdl, x: nat, s: set<nat>, a: nat, now: int, h: nat)
    requires Open(f, x, s, a) && IsWaiting(f) && IsRing(s) && h in s && h != x && x == Next(s, h) && Inv(f)
    ensures Receive(f, now, Token(x, h)).state.UseToken?
  {
    HearPass(f, x, s, now, h);
  }

  lemma LateStay(bus: map<nat, Fdl>, s: set<nat>, a: nat, h: nat, t: Option<Telegram>)
    requires h in bus && Inv(bus[h]) && InputOk(bus[h], LateInput(bus[h]))
    requires t == Sends(bus[h], LateInput(bus[h])) && (t.Some? ==> !t.value.Token?)
    requires InPhase(bus, s, a, Listening(h)) && Allowed(bus, s, a, Listening(h), LatePollOf(bus, h))
    ensures var next := After(bus, s, a, Listening(h), LatePollOf(bus, h));
            && next.Keys == s + {a} && Next(s, h) in next
            && var phase := PhaseAfter(s, a, Listening(h), next);
               && (phase == RequestHeard(h) || phase == Listening(h))
               && (t.Some? && t.value.IsStatusRequest() && t.value.h.da == a ==> phase == RequestHeard(h))
  {
    hide Inv, Poll, Receive, Undisturbed, Clear;
    PhaseIsSound(bus, s, a, Listening(h));
    var step := LatePollOf(bus, h);
    ListeningHolderPolls(bus[h], h, s, a, step.input);
    if t.Some? {
      NewcomerHears(bus[a], a, s, step.heard(a), t.value);
    }
  }

  lemma TokenAfterLatePoll(bus: map<nat, Fdl>, s: set<nat>, a: nat, h: nat)
    requires InPhase(bus, s, a, Listening(h)) && h in bus && Inv(bus[h]) && InputOk(bus[h], LateInput(bus[h]))
    requires Allowed(bus, s, a, Listening(h), LatePollOf(bus, h))
    ensures var next, f := After(bus, s, a, Listening(h), LatePollOf(bus, h)), bus[h];
            && next.Keys == s + {a} && Next(s, h) in next
            && var phase := PhaseAfter(s, a, Listening(h), next);
               phase == RequestHeard(h) ||
               (&& (DoesGap(f) ==> next[h].gap != DoPoll(a))
                && (Work(f) >= 2 && !DoesGap(f) ==> !PassesLate(f) && Work(next[h]) >= 2)
                && if PassesLate(f) then phase == Listening(Next(s, h)) && next[Next(s, h)].state.UseToken?
                   else phase == Listening(h) && Work(next[h]) < Work(f))
  {
    hide Inv, Poll, Receive, InPhase, Allowed, PhaseAfter, Work, DoesGap, AdvanceGap;
    RingKnows(bus, s, a, h);
    HolderInListening(bus, s, a, h);
    PhaseIsSound(bus, s, a, Listening(h));
    LatePoll(bus[h], h, s);
    if PassesLate(bus[h]) {
      LatePass(bus, s, a, h);
    } else {
      LateStay(bus, s, a, h, Sends(bus[h], LateInput(bus[h])));
    }
  }

  lemma HolderInListening(bus: map<nat, Fdl>, s: set<nat>, a: nat, h: nat)
    requires InPhase(bus, s, a, Listening(h))
    ensures h in bus && HasToken(bus[h]) && a <= MAX_ADDRESS
  {
    hide Inv, Clear;
  }

  lemma JoinRunExtends(s: set<nat>, a: nat, m: JoinMoment, step: BusStep, run: seq<JoinMoment>, steps: seq<BusStep>)
    requires InPhase(m.bus, s, a, m.phase) && Allowed(m.bus, s, a, m.phase, step)
    requires IsJoinRun(s, a, run, steps) && run[0] == JoinMomentAfter(m, s, a, step)
    ensures IsJoinRun(s, a, [m] + run, [step] + steps)
  {
    hide InPhase, Allowed, After, PhaseAfter;
    forall i | 0 <= i <= |steps| ensures JoinFollows(s, a, ([m] + run)[i], ([step] + steps)[i], ([m] + run)[i + 1]) {
      if i > 0 {
        assert JoinFollows(s, a, run[i - 1], steps[i - 1], run[i]);
      }
    }
  }

  lemma RingKnows(bus: map<nat, Fdl>, s: set<nat>, a: nat, h: nat)
    requires InPhase(bus, s, a, Listening(h))
    ensures h in s && s <= bus.Keys && forall x | x in s :: Knows(bus[x], x, s)
  {
    hide Inv, Clear;
  }

  /** A GAP step is one of the steps that are left. */
  lemma CourseIsKept(f: Fdl, g: Fdl, p: nat, s: set<nat>, a: nat, k: nat, does: bool)
    requires Knows(f, p, s) && Knows(g, p, s) && g.p == f.p && k > 0 && AsksAfter(f, a, k)
    requires g.gap == if does then AdvanceGap(f).gap else f.gap
    ensures AsksAfter(g, a, if does then k - 1 else k)
    ensures does && k == 1 ==> g.gap == DoPoll(a)
  {
    NeighboursOfKnowing(f, p, s);
    NeighboursOfKnowing(g, p, s);
  }

  /** A late poll takes the ring closer to asking the newcomer: the GAP steps of its predecessor, the way of the
      token to that station, and what the holder still does. */
  lemma SearchApproaches(bus: map<nat, Fdl>, s: set<nat>, a: nat, h: nat, next: map<nat, Fdl>, after: nat,
                         p: nat, k: nat, j: nat)
    returns (rest: nat, way: nat)
    requires s <= bus.Keys && s <= next.Keys && h in s && p in s && after in s
    requires Inv(bus[h]) && InputOk(bus[h], LateInput(bus[h])) && Searches(bus, s, a, h, next, Listening(after))
    requires Knows(bus[p], p, s) && Knows(next[p], p, s)
    requires k > 0 && AsksAfter(bus[p], a, k) && Walk(s, h, j) == p && (j == 0 ==> Work(bus[p]) >= 2)
    ensures rest > 0 && AsksAfter(next[p], a, rest) && Walk(s, after, way) == p && (way == 0 ==> Work(next[p]) >= 2)
    ensures rest <= k
    ensures rest == k ==> way < j || (way == j && after == h && Work(next[h]) < Work(bus[h]))
  {
    hide InPhase, DoesGap, AdvanceGap, Inv, InputOk, PassesLate, Knows, AsksAfter;
    var does := h == p && DoesGap(bus[h]);
    CourseIsKept(bus[p], next[p], p, s, a, k, does);
    rest, way := k, j;
    if does {
      WalkCloses(s, p);
      rest, way := k - 1, |s|;
    }
    if PassesLate(bus[h]) {
      way := way - 1;
      WalkFromNext(s, h, way);
    }
  }

  /** The token comes round to the predecessor of the newcomer, and its sweep gets to the newcomer. */
  lemma {:induction false} NewcomerIsAsked(s: set<nat>, a: nat, m: JoinMoment, k: nat, j: nat)
    returns (run: seq<JoinMoment>, steps: seq<BusStep>)
    requires InPhase(m.bus, s, a, m.phase) && m.phase.Listening? && s <= m.bus.Keys
    requires Previous(s, a) in s && k > 0 && AsksAfter(m.bus[Previous(s, a)], a, k)
    requires Walk(s, m.phase.h, j) == Previous(s, a) && (j == 0 ==> Work(m.bus[Previous(s, a)]) >= 2)
    requires m.phase.h in m.bus
    ensures IsJoinRun(s, a, run, steps) && run[0] == m && run[|run| - 1].phase.RequestHeard?
    ensures var last := run[|run| - 1]; InPhase(last.bus, s, a, last.phase)
    decreases k, j, Work(m.bus[m.phase.h])
  {
    hide InPhase, Allowed, Work, DoesGap, After, PhaseAfter, AdvanceGap, Inv, Poll, AsksAfter, Walk;
    var h, p := m.phase.h, Previous(s, a);
    PhaseIsSound(m.bus, s, a, m.phase);
    LatePollAllowed(m.bus, s, a, h);
    RingKnows(m.bus, s, a, h);
    LatePollInListening(m.bus, s, a, h);
    var step := LatePollOf(m.bus, h);
    var next := JoinMomentAfter(m, s, a, step);
    if next.phase.RequestHeard? {
      run, steps := [m, next], [step];
      assert JoinFollows(s, a, m, step, next);
    } else {
      RingKnows(next.bus, s, a, next.phase.h);
      var rest, way := SearchApproaches(m.bus, s, a, h, next.bus, next.phase.h, p, k, j);
      var later, others := NewcomerIsAsked(s, a, next, rest, way);
      JoinRunExtends(s, a, m, step, later, others);
      run, steps := [m] + later, [step] + others;
      assert run[|run| - 1] == later[|later| - 1];
    }
  }

  // ---------------------------------------------------------------------------------------------
  // From the request to the ring
  // ---------------------------------------------------------------------------------------------

  /** The station whose turn it is after the newcomer has been asked. */
  function Actor(phase: Phase, a: nat): nat {
    if phase.Adopted? then phase.h else a
  }

  /** A poll when the pause is over, or the slot when an offer is checked. */
  function DueInput(f: Fdl, phase: Phase): Input {
    if phase.RequestHeard? && f.lastBusActivity.Some? then AnswerInput(f)
    else if phase.RequestHeard? then Input(0, false, 0, [], [])
    else LateInput(f)
  }

  function DuePollOf(m: JoinMoment, a: nat): BusStep
    requires Actor(m.phase, a) in m.bus
  {
    var x := Actor(m.phase, a);
    PollOf(x, DueInput(m.bus[x], m.phase), _ => DueInput(m.bus[x], m.phase).now)
  }

  function Stage(phase: Phase): nat {
    match phase
    case Listening(_) => 5
    case RequestHeard(_) => 4
    case Adopted(_) => 3
    case FirstHold(_) => 2
    case HandedOver(_) => 1
    case Joined(_, _) => 0
  }

  /** What the station whose turn it is still does before it takes the newcomer to the next phase. */
  function Left(m: JoinMoment, a: nat): nat
    requires Actor(m.phase, a) in m.bus
  {
    var f := m.bus[Actor(m.phase, a)];
    if m.phase.FirstHold? then Work(f) else if f.lastBusActivity.None? then 1 else 0
  }

  lemma DuePollAllowed(s: set<nat>, a: nat, m: JoinMoment)
    requires InPhase(m.bus, s, a, m.phase) && !m.phase.Listening? && !m.phase.Joined?
    ensures Actor(m.phase, a) in m.bus && Allowed(m.bus, s, a, m.phase, DuePollOf(m, a))
  {
    hide Inv, Clear, Informed, Open, Newcomer;
    PhaseIsSound(m.bus, s, a, m.phase);
    var f := m.bus[Actor(m.phase, a)];
    LatePollIsUndisturbed(f, s + {a});
    TimeoutAfterPause(f);
  }

  lemma TimeoutAfterPause(f: Fdl)
    requires Inv(f)
    ensures var input := if f.lastBusActivity.Some? then AnswerInput(f) else Input(0, false, 0, [], []);
            !TokenLost(Touch(f, input.now), input.now)
  {
    TimeoutOutlastsPause(f.p);
  }

  lemma DueIsTimely(f: Fdl, phase: Phase)
    requires Inv(f) && f.lastBusActivity.Some?
    requires phase.RequestHeard? || phase.Adopted? || phase.HandedOver?
    ensures MayAct(f, DueInput(f, phase))
    ensures if phase.HandedOver? then SlotExpired(f, DueInput(f, phase).now) else PauseOver(f, DueInput(f, phase).now)
  {
    SlotCoversSyncPause(f.p);
  }

  /** The newcomer has less to do, or has passed the token on for the first time. */
  lemma FirstHoldEnds(s: set<nat>, a: nat, m: JoinMoment)
    requires InPhase(m.bus, s, a, m.phase) && m.phase.FirstHold?
    requires a in m.bus && Allowed(m.bus, s, a, m.phase, DuePollOf(m, a))
    ensures var next := JoinMomentAfter(m, s, a, DuePollOf(m, a));
            && a in next.bus
            && (Stage(next.phase) < 2 || (next.phase == m.phase && Work(next.bus[a]) < Work(m.bus[a])))
  {
    hide Inv, Poll, Receive, Undisturbed, Clear, Work, DoesGap, AdvanceGap;
    PhaseIsSound(m.bus, s, a, m.phase);
    LatePoll(m.bus[a], a, s + {a});
    FirstHoldPolls(m.bus[a], a, s, m.phase.h, LateInput(m.bus[a]));
  }

  lemma FirstPollSendsNothing(f: Fdl, input: Input)
    requires Inv(f) && f.online && InputOk(f, input) && f.lastBusActivity.None? && input.rx == [] && !input.phyBusy
    requires f.state.ListenToken? || f.state.PassToken? || f.state.CheckTokenPass?
    ensures Sends(f, input).None?
    ensures !TokenLost(Touch(f, input.now), input.now) ==> Poll(f, input).lastBusActivity.Some?
  {
    hide WellFormed, AllBelow, Consistent, DoClaimToken;
    PollIsDisciplined(f, input);
    assert Drain([]).deliveries == [];
  }

  /** A station that knows nothing of the bus yet starts its clock. */
  lemma FirstPollStartsClock(s: set<nat>, a: nat, m: JoinMoment)
    requires InPhase(m.bus, s, a, m.phase) && (m.phase.RequestHeard? || m.phase.Adopted? || m.phase.HandedOver?)
    requires Actor(m.phase, a) in m.bus && Allowed(m.bus, s, a, m.phase, DuePollOf(m, a))
    requires m.bus[Actor(m.phase, a)].lastBusActivity.None?
    ensures var next := JoinMomentAfter(m, s, a, DuePollOf(m, a));
            next.phase == m.phase && Actor(m.phase, a) in next.bus &&
            next.bus[Actor(m.phase, a)].lastBusActivity.Some?
  {
    hide Inv, Poll, Receive, Open, Newcomer, Informed, TokenLost;
    PhaseIsSound(m.bus, s, a, m.phase);
    var x := Actor(m.phase, a);
    var f, input := m.bus[x], DueInput(m.bus[x], m.phase);
    TimeoutAfterFirstPoll(f, input.now);
    FirstPollSendsNothing(f, input);
    var h := m.phase.h;
    match m.phase
    case RequestHeard(_) =>
      NewcomerSplitsArc(s, h, a, h);
      NewcomerAnswers(f, a, s, h, input);
    case Adopted(_) => AdopterOffers(f, h, s, a, input);
    case HandedOver(_) => NewcomerOffersAgain(f, s, a, h, input);
  }

  lemma TimeoutAfterFirstPoll(f: Fdl, now: int)
    requires Inv(f) && f.lastBusActivity.None?
    ensures !TokenLost(Touch(f, now), now)
  {
    TimeoutIsPositive(f.p);
  }

  /** A due poll takes the newcomer to a later phase, or leaves less to be done in this one. */
  lemma DuePollAdvances(s: set<nat>, a: nat, m: JoinMoment)
    requires InPhase(m.bus, s, a, m.phase) && !m.phase.Listening? && !m.phase.Joined?
    requires Actor(m.phase, a) in m.bus && Allowed(m.bus, s, a, m.phase, DuePollOf(m, a))
    ensures var next := JoinMomentAfter(m, s, a, DuePollOf(m, a));
            && InPhase(next.bus, s, a, next.phase) && Actor(next.phase, a) in next.bus
            && (Stage(next.phase) < Stage(m.phase) ||
                (Stage(next.phase) == Stage(m.phase) && Left(next, a) < Left(m, a)))
  {
    hide InPhase, Allowed, After, PhaseAfter, Inv, Poll, Work;
    var x, input := Actor(m.phase, a), DueInput(m.bus[Actor(m.phase, a)], m.phase);
    PhaseIsSound(m.bus, s, a, m.phase);
    JoinStepAdvances(m.bus, s, a, m.phase, DuePollOf(m, a));
    var next := JoinMomentAfter(m, s, a, DuePollOf(m, a));
    PhaseIsSound(next.bus, s, a, next.phase);
    if m.phase.FirstHold? {
      FirstHoldEnds(s, a, m);
    } else if m.bus[x].lastBusActivity.Some? {
      DueIsTimely(m.bus[x], m.phase);
      TimelyPollAdvances(m.bus, s, a, m.phase, x, input, DuePollOf(m, a).heard);
    } else {
      FirstPollStartsClock(s, a, m);
    }
  }

  /** A newcomer that has been asked joins. */
  lemma {:induction false} AskedNewcomerJoins(s: set<nat>, a: nat, m: JoinMoment)
    returns (run: seq<JoinMoment>, steps: seq<BusStep>)
    requires InPhase(m.bus, s, a, m.phase) && !m.phase.Listening? && Actor(m.phase, a) in m.bus
    ensures IsJoinRun(s, a, run, steps) && run[0] == m
    ensures var last := run[|run| - 1]; last.phase.Joined? && InPhase(last.bus, s, a, last.phase)
    decreases Stage(m.phase), Left(m, a)
  {
    hide InPhase, Allowed, After, PhaseAfter, Left, JoinMomentAfter;
    if m.phase.Joined? {
      run, steps := [m], [];
    } else {
      DuePollAllowed(s, a, m);
      DuePollAdvances(s, a, m);
      var step := DuePollOf(m, a);
      var next := JoinMomentAfter(m, s, a, step);
      var later, others := AskedNewcomerJoins(s, a, next);
      JoinRunExtends(s, a, m, step, later, others);
      run, steps := [m] + later, [step] + others;
      assert run[|run| - 1] == later[|later| - 1];
    }
  }

  lemma RunsCompose(s: set<nat>, a: nat, run: seq<JoinMoment>, steps: seq<BusStep>,
                    later: seq<JoinMoment>, others: seq<BusStep>)
    requires IsJoinRun(s, a, run, steps) && IsJoinRun(s, a, later, others) && run[|run| - 1] == later[0]
    ensures IsJoinRun(s, a, run + later[1..], steps + others)
  {
    hide JoinFollows;
    var all, taken := run + later[1..], steps + others;
    forall i | 0 <= i < |taken| ensures JoinFollows(s, a, all[i], taken[i], all[i + 1]) {
      if i < |steps| {
        assert JoinFollows(s, a, run[i], steps[i], run[i + 1]);
      } else {
        var j := i - |steps|;
        assert JoinFollows(s, a, later[j], others[j], later[j + 1]);
        assert all[i] == later[j];
      }
    }
  }

  /** The station before the newcomer will ask it. */
  lemma PredecessorWillAsk(bus: map<nat, Fdl>, s: set<nat>, a: nat, h: nat) returns (k: nat)
    requires InPhase(bus, s, a, Listening(h)) && s <= bus.Keys
    ensures Previous(s, a) in s && k > 0 && AsksAfter(bus[Previous(s, a)], a, k)
  {
    hide NeighboursAgree, StateOk, Clear, FollowsIn, PrecedesIn;
    var p := Previous(s, a);
    PreviousHasInGap(s, a);
    var f := bus[p];
    assert Open(f, p, s, a);
    NeighboursOfKnowing(f, p, s);
    k := GapStepsGetTo(f.p.highestStationAddress, p, f.ring.ns, f.p.gapWaitRotations, f.gap, a);
  }

  /** Wherever the sweeps and the token stand when a newcomer begins to listen to a steady ring, there is a run in
      which it joins: late polls of whoever has the token get there. */
  lemma ListenerJoins(s: set<nat>, a: nat, m: JoinMoment) returns (run: seq<JoinMoment>, steps: seq<BusStep>)
    requires InPhase(m.bus, s, a, m.phase) && m.phase.Listening?
    ensures IsJoinRun(s, a, run, steps) && run[0] == m
    ensures var last := run[|run| - 1]; last.phase.Joined? && InPhase(last.bus, s, a, last.phase)
  {
    hide InPhase, JoinFollows, Work, AsksAfter, Walk;
    var h := m.phase.h;
    PhaseIsSound(m.bus, s, a, m.phase);
    RingKnows(m.bus, s, a, h);
    var k := PredecessorWillAsk(m.bus, s, a, h);
    var p := Previous(s, a);
    var j := TourReaches(s, h, p);
    if j == 0 {
      WalkCloses(s, p);
      j := |s|;
      assert Walk(s, h, 0) == h by { WalkStart(s, h); }
    }
    var first, asks := NewcomerIsAsked(s, a, m, k, j);
    var asked := first[|first| - 1];
    PhaseIsSound(asked.bus, s, a, asked.phase);
    var later, others := AskedNewcomerJoins(s, a, asked);
    RunsCompose(s, a, first, asks, later, others);
    run, steps := first + later[1..], asks + others;
    assert run[|run| - 1] == later[|later| - 1];
  }

  lemma WalkStart(s: set<nat>, x: nat)
    ensures Walk(s, x, 0) == x
  {
  }
}
