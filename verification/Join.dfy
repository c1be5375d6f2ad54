/**
 A new station joins a running ring.

 A station that listens and knows the ring is asked for its status by the station before it, answers
 that it is ready for the token, is adopted as the next station, receives the token, and hands it on to
 a successor that has not heard of it yet.  Everything any station transmits is heard by all others.
 */
module Joining {
  import opened BusParameters
  import opened CyclicOrder
  import opened Telegrams
  import opened PhysicalLayer
  import opened TokenRings
  import opened Stabilisation
  import opened Stations
  import opened BusDiscipline
  import opened Buses
  import opened TokenBus

  // ---------------------------------------------------------------------------------------------
  // The phases of joining
  // ---------------------------------------------------------------------------------------------

  /** How far the newcomer has come.  `h` is a station of the old ring: the holder, and from `Asked` on
      the one that adopts the newcomer. */
  datatype Phase =
    | Listening(h: nat)
    | RequestHeard(h: nat)
    | Adopted(h: nat)
    | FirstHold(h: nat)
    | HandedOver(h: nat)
    | Joined(h: nat, holder: nat)

  /** A member of the old ring which can take in the newcomer `a`.  Its sweep meets no other member, nor the
      newcomer, unless it is the station whose GAP the newcomer is in. */
  ghost predicate Open(f: Fdl, x: nat, s: set<nat>, a: nat) {
    && Member(f, x, s) && a < f.p.highestStationAddress
    && Clear(f, if x == Previous(s, a) then s else s + {a})
  }

  /** A member of the new ring.  The sweep of `h`, which adopted the newcomer, stands at the newcomer; all
      others are clear. */
  ghost predicate Informed(f: Fdl, x: nat, s: set<nat>, a: nat, h: nat) {
    && Member(f, x, s + {a}) && a < f.p.highestStationAddress
    && if x == h then f.gap == DoPoll(a) else Clear(f, s + {a})
  }

  /** The newcomer knows exactly the old ring, and not itself yet. */
  ghost predicate Newcomer(f: Fdl, a: nat, s: set<nat>) {
    Knows(f, a, s + {a}) && f.ring.las == s && Clear(f, s + {a})
  }

  ghost predicate OldRing(bus: map<nat, Fdl>, s: set<nat>, a: nat, h: nat)
    requires s <= bus.Keys
  {
    forall x | x in s :: Open(bus[x], x, s, a) && if x == h then HasToken(bus[x]) else IsWaiting(bus[x])
  }

  /** All but `h` still know the old ring and wait. */
  ghost predicate OthersWait(bus: map<nat, Fdl>, s: set<nat>, a: nat, h: nat)
    requires s <= bus.Keys
  {
    forall x | x in s && x != h :: Open(bus[x], x, s, a) && IsWaiting(bus[x])
  }

  ghost predicate Setting(bus: map<nat, Fdl>, s: set<nat>, a: nat, h: nat) {
    IsRing(s) && a <= MAX_ADDRESS && a !in s && h in s && bus.Keys == s + {a}
  }

  ghost predicate InPhase(bus: map<nat, Fdl>, s: set<nat>, a: nat, phase: Phase) {
    var h := phase.h;
    && Setting(bus, s, a, h)
    && (!phase.Listening? ==> InArc(h, Next(s, h), a))
    && match phase
       case Listening(_) =>
         && OldRing(bus, s, a, h)
         && Newcomer(bus[a], a, s) && bus[a].state.ListenToken? && bus[a].state.statusRequest.None?
       case RequestHeard(_) =>
         && OldRing(bus, s, a, h) && bus[h].state == AwaitStatusResponse(a)
         && Newcomer(bus[a], a, s) && bus[a].state.ListenToken? && bus[a].state.statusRequest == Some(h)
       case Adopted(_) =>
         && OthersWait(bus, s, a, h)
         && Informed(bus[h], h, s, a, h) && bus[h].state == PassToken(false, Attempt.First)
         && Newcomer(bus[a], a, s) && bus[a].state == ActiveIdle(None, None, 0)
       case FirstHold(_) =>
         && OthersWait(bus, s, a, h)
         && Informed(bus[h], h, s, a, h) && IsWaiting(bus[h])
         && Knows(bus[a], a, s + {a}) && Clear(bus[a], s + {a}) && HasToken(bus[a]) && AttemptOf(bus[a]).First?
       case HandedOver(_) =>
         && Next(s, h) != h
         && (forall x | x in s + {a} && x != Next(s, h) :: Informed(bus[x], x, s, a, h) && IsWaiting(bus[x]))
         && bus[a].state == CheckTokenPass(Attempt.First)
         && var b := Next(s, h);
            && Open(bus[b], b, s, a) && IsWaiting(bus[b])
            && bus[b].state.ActiveIdle? && bus[b].state.newPreviousStation == Some(a)
       case Joined(_, holder) =>
         && holder == Next(s, h) && Agreed(bus, s + {a}, holder)
         && (forall x | x in s + {a} :: Informed(bus[x], x, s, a, h))
         && (bus[a].state.CheckTokenPass? ==> !bus[a].state.attempt.Third?)
  }

  /** What may happen in each phase: the station whose turn it is gets polled in time, and only slaves
      that were asked are heard besides. */
  ghost predicate Allowed(bus: map<nat, Fdl>, s: set<nat>, a: nat, phase: Phase, step: BusStep)
    requires InPhase(bus, s, a, phase)
  {
    match step
    case PollOf(x, input, heard) =>
      && x in bus && InputOk(bus[x], input)
      && (match phase
          case Listening(h) => x == h && Undisturbed(bus[h], input, s + {a})
          case RequestHeard(_) => x == a && input.rx == [] && !TokenLost(Touch(bus[a], input.now), input.now)
          case Adopted(h) => x == h
          case FirstHold(_) => x == a && Undisturbed(bus[a], input, s + {a})
          case HandedOver(_) => x == a && input.rx == []
          case Joined(_, _) => false)
    case PollIdle(x, input) => !phase.Joined? && x in bus && Idle(bus[x], input)
    case PassiveHeard(_, t) =>
      && (phase.Listening? || phase.FirstHold?)
      && Harmless(t, s + {a}) && t.SourceAddress() != Some(a % 256)
  }

  /** Who cannot hear a passive station because it has the token. */
  function TokenHolder(phase: Phase, a: nat): nat {
    if phase.FirstHold? then a else phase.h
  }

  /** The phase after a step, read off the new states. */
  ghost function PhaseAfter(s: set<nat>, a: nat, phase: Phase, bus: map<nat, Fdl>): Phase
    requires phase.h in bus && a in bus && Next(s, phase.h) in bus
  {
    var h, b := phase.h, Next(s, phase.h);
    match phase
    case Listening(_) =>
      if bus[a].state.ListenToken? && bus[a].state.statusRequest.Some? then RequestHeard(h)
      else if HasToken(bus[h]) then Listening(h)
      else Listening(b)
    case RequestHeard(_) => if bus[a].state.ListenToken? then phase else Adopted(h)
    case Adopted(_) => if HasToken(bus[h]) then phase else FirstHold(h)
    case FirstHold(_) =>
      if HasToken(bus[a]) then phase else if HasToken(bus[b]) then Joined(h, b) else HandedOver(h)
    case HandedOver(_) => if HasToken(bus[b]) then Joined(h, b) else phase
    case Joined(_, _) => phase
  }

  // ---------------------------------------------------------------------------------------------
  // One station at a time
  // ---------------------------------------------------------------------------------------------

  lemma NewcomerHearsPass(f: Fdl, a: nat, s: set<nat>, now: int, h: nat)
    requires Newcomer(f, a, s) && f.state.ListenToken? && IsRing(s) && h in s && h != a
    ensures var g := Receive(f, now, Token(Next(s, h), h)); Newcomer(g, a, s) && g.state == f.state
  {
    ListeningToOne(f, now, Token(Next(s, h), h));
    WitnessOfRing(f.ring, s, h);
  }

  lemma NewcomerHears(f: Fdl, a: nat, s: set<nat>, now: int, t: Telegram)
    requires Newcomer(f, a, s) && f.state.ListenToken? && !t.Token? && t.SourceAddress() != Some(a % 256)
    ensures var g := Receive(f, now, t);
            && Newcomer(g, a, s) && g.state.ListenToken?
            && g.state.statusRequest
               == if t.IsStatusRequest() && t.h.da == a then Some(t.h.sa) else f.state.statusRequest
  {
    ListeningToOne(f, now, t);
  }

  /** The newcomer answers the status request of its predecessor and enters the ring. */
  lemma NewcomerAnswers(f: Fdl, a: nat, s: set<nat>, h: nat, input: Input)
    requires Newcomer(f, a, s) && f.state.ListenToken? && f.state.statusRequest == Some(h) && h == Previous(s, a)
    requires InputOk(f, input) && input.rx == [] && !TokenLost(Touch(f, input.now), input.now) && a < 256
    ensures var g := Poll(f, input);
            && Newcomer(g, a, s)
            && if Sends(f, input).Some? then
                 && Sends(f, input).value == StatusResponse(h, a, MasterWithoutToken)
                 && g.state == ActiveIdle(None, None, 0)
               else g.state == f.state
    ensures MayAct(f, input) && PauseOver(f, input.now) ==> Sends(f, input).Some?
  {
    hide WellFormed, AllBelow, Consistent, DoClaimToken;
    PollIsDisciplined(f, input);
    NeighboursOfKnowing(f, a, s + {a});
    NextIgnoresSelf(s, a);
    assert s - {a} + {a} == s + {a};
  }

  /** Any other station is told that the listener is not ready, although the listener enters the ring by that. */
  lemma NewcomerRefusesOthers(f: Fdl, a: nat, s: set<nat>, h: nat, input: Input)
    requires Newcomer(f, a, s) && f.state.ListenToken? && f.state.statusRequest == Some(h) && h != Previous(s, a)
    requires InputOk(f, input) && input.rx == [] && !TokenLost(Touch(f, input.now), input.now) && a < 256
    ensures var g := Poll(f, input);
            && Newcomer(g, a, s)
            && if Sends(f, input).Some? then
                 Sends(f, input).value == StatusResponse(h, a, MasterNotReady) && g.state == ActiveIdle(None, None, 0)
               else g.state == f.state
    ensures MayAct(f, input) && PauseOver(f, input.now) ==> Sends(f, input).Some?
  {
    hide WellFormed, AllBelow, Consistent, DoClaimToken;
    PollIsDisciplined(f, input);
    NeighboursOfKnowing(f, a, s + {a});
    NextIgnoresSelf(s, a);
    assert s - {a} + {a} == s + {a};
  }

  /** Who is answered like that adopts nobody and passes the token on. */
  lemma RefusedHolderGoesOn(f: Fdl, h: nat, s: set<nat>, a: nat, now: int)
    requires Member(f, h, s) && f.state == AwaitStatusResponse(a) && a < 256 && h < 256
    ensures var g := Receive(f, now, StatusResponse(h, a, MasterNotReady));
            Member(g, h, s) && g.state == PassToken(false, Attempt.First) && g.gap == f.gap
  {
  }

  lemma AdoptionAddsNewcomer(r: RingView, h: nat, s: set<nat>, a: nat)
    requires r.las == s && r.ts == h && h in s && a !in s && InArc(h, Next(s, h), a)
    ensures var w := SetNext(r, a);
            w.las == s + {a} && w.ts == h && w.ns == a && w.lasState == r.lasState
  {
    NewcomerSplitsArc(s, h, a, h);
    AgreeingPassTeachesNothing(s + {a}, h, a);
  }

  /** The holder adopts the newcomer as its next station. */
  lemma HolderAdopts(f: Fdl, h: nat, s: set<nat>, a: nat, now: int)
    requires Open(f, h, s, a) && f.state == AwaitStatusResponse(a) && h in s && a !in s && InArc(h, Next(s, h), a)
    requires a < 256 && h < 256
    ensures var g := Receive(f, now, StatusResponse(h, a, MasterWithoutToken));
            Informed(g, h, s, a, h) && g.state == PassToken(false, Attempt.First)
  {
    hide FollowsIn, PrecedesIn, WellFormed, Refresh, Clear;
    NewcomerSplitsArc(s, h, a, h);
    AdoptionAddsNewcomer(f.ring, h, s, a);
    OperationsKeepWellFormed(f.ring, 0, 0, a);
  }

  /** The holder offers the token to the newcomer. */
  lemma PasserPolls(f: Fdl, x: nat, s: set<nat>, attempt: Attempt, input: Input)
    requires Member(f, x, s) && f.state == PassToken(false, attempt) && InputOk(f, input) && Next(s, x) != x
    ensures var g := Poll(f, input);
            && Member(g, x, s) && g.p == f.p && g.gap == f.gap
            && if Sends(f, input).Some? then
                 Sends(f, input).value == Token(Next(s, x) % 256, x % 256) && g.state == CheckTokenPass(attempt)
               else g.state == f.state
    ensures MayAct(f, input) && PauseOver(f, input.now) ==> Sends(f, input).Some?
  {
    hide WellFormed, AllBelow, Consistent, SendToken;
    PollIsDisciplined(f, input);
    if !(input.phyBusy || Transmitting(f, input.now)) {
      var g := Touch(CheckForBusActivity(f, input.now, input.counted), input.now);
      HolderSendsToken(g, x, s, s, input.now);
    }
  }

  function NextAttempt(attempt: Attempt): Attempt {
    if attempt.First? then Attempt.Second else Attempt.Third
  }

  /** Who has offered the token waits for a sign of its successor; when none comes within a slot, it repeats
      its offer. */
  lemma CheckerPolls(f: Fdl, x: nat, s: set<nat>, input: Input)
    requires Member(f, x, s) && f.state.CheckTokenPass? && !f.state.attempt.Third? && Next(s, x) != x
    requires InputOk(f, input) && input.rx == []
    ensures var g := Poll(f, input);
            && Member(g, x, s) && g.p == f.p && g.gap == f.gap
            && if Sends(f, input).Some? then
                 && Sends(f, input).value == Token(Next(s, x) % 256, x % 256)
                 && g.state == CheckTokenPass(NextAttempt(f.state.attempt))
               else g.state == f.state
    ensures MayAct(f, input) && SlotExpired(f, input.now) ==> Sends(f, input).Some?
  {
    hide WellFormed, AllBelow, SendToken;
    PollIsDisciplined(f, input);
    if !(input.phyBusy || Transmitting(f, input.now)) {
      var g := Touch(CheckForBusActivity(f, input.now, 0), input.now);
      assert Drain([]).deliveries == [];
      if SlotExpired(g, input.now) {
        SlotCoversSyncPause(f.p);
        HolderSendsToken(RetryPass(g), x, s, s, input.now);
      }
    }
  }

  lemma OldHearsPass(f: Fdl, x: nat, s: set<nat>, a: nat, now: int, h: nat)
    requires Open(f, x, s, a) && IsWaiting(f) && IsRing(s) && h in s && h != x
    ensures var g := Receive(f, now, Token(Next(s, h), h));
            Open(g, x, s, a) && if x == Next(s, h) then HasToken(g) else IsWaiting(g)
  {
    hide Clear;
    HearPass(f, x, s, now, h);
    SweepCarriesOver(f, Receive(f, now, Token(Next(s, h), h)), x, s, s);
    SweepCarriesOver(f, Receive(f, now, Token(Next(s, h), h)), x, s, s + {a});
  }

  /** Whether a sweep is clear depends on the neighbours and the sweep only. */
  lemma SweepCarriesOver(f: Fdl, g: Fdl, x: nat, s: set<nat>, q: set<nat>)
    requires Knows(f, x, s) && Knows(g, x, s) && g.p == f.p && g.gap == f.gap
    ensures Clear(g, q) == Clear(f, q)
  {
    NeighboursOfKnowing(f, x, s);
    NeighboursOfKnowing(g, x, s);
  }

  lemma StaysInformed(f: Fdl, g: Fdl, x: nat, s: set<nat>, a: nat, h: nat)
    requires Informed(f, x, s, a, h) && Member(g, x, s + {a}) && g.p == f.p && g.gap == f.gap
    ensures Informed(g, x, s, a, h)
  {
    hide Clear;
    SweepCarriesOver(f, g, x, s + {a}, s + {a});
  }

  lemma OldHearsHarmless(f: Fdl, x: nat, s: set<nat>, a: nat, now: int, t: Telegram)
    requires Open(f, x, s, a) && IsWaiting(f) && Harmless(t, {x}) && Inv(f)
    ensures Open(Receive(f, now, t), x, s, a) && IsWaiting(Receive(f, now, t))
  {
    hide Clear;
    MemberHearsHarmless(f, x, s, now, t);
    SweepCarriesOver(f, Receive(f, now, t), x, s, s);
    SweepCarriesOver(f, Receive(f, now, t), x, s, s + {a});
  }

  lemma InformedHearsHarmless(f: Fdl, x: nat, s: set<nat>, a: nat, h: nat, now: int, t: Telegram)
    requires Informed(f, x, s, a, h) && IsWaiting(f) && Harmless(t, {x}) && Inv(f)
    ensures Informed(Receive(f, now, t), x, s, a, h) && IsWaiting(Receive(f, now, t))
  {
    MemberHearsHarmless(f, x, s + {a}, now, t);
    StaysInformed(f, Receive(f, now, t), x, s, a, h);
  }

  lemma InformedHearsPass(f: Fdl, x: nat, s: set<nat>, a: nat, h: nat, now: int, y: nat)
    requires Informed(f, x, s, a, h) && IsWaiting(f) && IsRing(s + {a}) && y in s + {a} && y != x && Inv(f)
    ensures var g := Receive(f, now, Token(Next(s + {a}, y), y));
            Informed(g, x, s, a, h) && if x == Next(s + {a}, y) then g.state.UseToken? else IsWaiting(g)
  {
    HearPass(f, x, s + {a}, now, y);
    StaysInformed(f, Receive(f, now, Token(Next(s + {a}, y), y)), x, s, a, h);
  }

  lemma OldHearsOffer(f: Fdl, x: nat, s: set<nat>, now: int, h: nat, a: nat)
    requires Open(f, x, s, a) && IsWaiting(f) && IsRing(s) && x != h && h in s && a !in s && a <= MAX_ADDRESS
    requires InArc(h, Next(s, h), a)
    ensures var g := Receive(f, now, Token(a, h)); Open(g, x, s, a) && IsWaiting(g)
  {
    HearIsHandle(f, now, Token(a, h));
    assert Learn(s, h, a) == s by {
      assert InArc(h, a, h);
    }
  }

  lemma NewcomerTakesToken(f: Fdl, a: nat, s: set<nat>, now: int, h: nat)
    requires Newcomer(f, a, s) && f.state == ActiveIdle(None, None, 0)
    requires h == Previous(s, a) && h != a && a < 256 && h < 256
    ensures var g := Receive(f, now, Token(a, h)); Newcomer(g, a, s) && g.state.UseToken?
  {
    HearIsHandle(f, now, Token(a, h));
    NeighboursOfKnowing(f, a, s + {a});
    NextIgnoresSelf(s, a);
  }

  /** Witnessing the newcomer's first pass teaches exactly the newcomer. */
  lemma FirstPassTeachesNewcomer(r: RingView, s: set<nat>, h: nat, a: nat)
    requires WellFormed(r) && r.las == s && r.lasState == Valid && r.ts in s && r.ts != h
    requires IsRing(s) && h in s && a !in s && a <= MAX_ADDRESS && InArc(h, Next(s, h), a)
    ensures var w := Witness(r, a, Next(s, a));
            && WellFormed(w) && w.las == s + {a} && w.lasState == Valid && w.ts == r.ts && w.ns == r.ns
            && (r.ts != Next(s, a) ==> w.ps == r.ps)
  {
    NewcomerSplitsArc(s, h, a, r.ts);
    OperationsKeepWellFormed(r, a, Next(s, a), 0);
    assert Learn(s, a, Next(s, a)) == s + {a};
  }

  lemma OldHearsHandover(f: Fdl, x: nat, s: set<nat>, now: int, h: nat, a: nat)
    requires Open(f, x, s, a) && IsWaiting(f) && IsRing(s) && x != h && h in s && a !in s && a <= MAX_ADDRESS
    requires InArc(h, Next(s, h), a) && x != Next(s, h)
    ensures var g := Receive(f, now, Token(Next(s, h), a)); Informed(g, x, s, a, h) && IsWaiting(g)
  {
    hide NeighboursAgree, Witness;
    HearIsHandle(f, now, Token(Next(s, h), a));
    NewcomerSplitsArc(s, h, a, x);
    FirstPassTeachesNewcomer(f.ring, s, h, a);
  }

  /** The successor does not know the newcomer: it takes the token only when it is offered again. */
  lemma SuccessorHearsHandover(f: Fdl, b: nat, s: set<nat>, now: int, h: nat, a: nat)
    requires Open(f, b, s, a) && IsWaiting(f) && IsRing(s) && h in s && a !in s && a <= MAX_ADDRESS
    requires InArc(h, Next(s, h), a) && b == Next(s, h) && b != h
    ensures var g := Receive(f, now, Token(b, a));
            || (Informed(g, b, s, a, h) && g.state.UseToken?)
            || (Open(g, b, s, a) && IsWaiting(g) && g.state.ActiveIdle? && g.state.newPreviousStation == Some(a))
    ensures f.state.ActiveIdle? && f.state.newPreviousStation == Some(a) ==>
              Receive(f, now, Token(b, a)).state.UseToken?
  {
    hide NeighboursAgree, Witness;
    HearIsHandle(f, now, Token(b, a));
    NewcomerSplitsArc(s, h, a, b);
    FirstPassTeachesNewcomer(f.ring, s, h, a);
    NeighboursOfKnowing(f, b, s);
    PreviousOfNext(s, h);
  }

  // ---------------------------------------------------------------------------------------------
  // One step of the bus
  // ---------------------------------------------------------------------------------------------

  lemma PhaseIsSound(bus: map<nat, Fdl>, s: set<nat>, a: nat, phase: Phase)
    requires InPhase(bus, s, a, phase)
    ensures AllSound(bus) && forall x | x in bus :: bus[x].online
    ensures phase.h in bus && a in bus && Next(s, phase.h) in bus
  {
    hide Inv;
    forall x | x in bus ensures Inv(bus[x]) && bus[x].online {
      assert x in s || x == a;
      if phase.Joined? {
        assert Member(bus[x], x, s + {a});
      }
    }
  }

  /** The bus after an allowed step. */
  ghost function After(bus: map<nat, Fdl>, s: set<nat>, a: nat, phase: Phase, step: BusStep): map<nat, Fdl>
    requires InPhase(bus, s, a, phase) && Allowed(bus, s, a, phase, step)
  {
    PhaseIsSound(bus, s, a, phase);
    BusNext(bus, TokenHolder(phase, a), step)
  }

  /** What the polled holder of the old ring can transmit. */
  lemma ListeningHolderPolls(f: Fdl, h: nat, s: set<nat>, a: nat, input: Input)
    requires Open(f, h, s, a) && HasToken(f) && InputOk(f, input) && Undisturbed(f, input, s + {a})
    requires IsRing(s) && h in s && a !in s
    ensures var g, t := Poll(f, input), Sends(f, input);
            && Open(g, h, s, a)
            && (t.None? ==> HasToken(g))
            && (t.Some? && t.value.Token? ==>
                  t.value == Token(Next(s, h), h) && if Next(s, h) == h then HasToken(g) else IsWaiting(g))
            && (t.Some? && !t.value.Token? ==>
                  && HasToken(g) && Harmless(t.value, s - {h}) && t.value.SourceAddress() == Some(h)
                  && (t.value.IsStatusRequest() && t.value.h.da == a ==>
                        g.state == AwaitStatusResponse(a) && InArc(h, Next(s, h), a)))
  {
    hide WellFormed, AllBelow, Poll, Clear, Undisturbed;
    PollIsDisciplined(f, input);
    HolderPolls(f, h, s, s + {a}, input);
    HolderStaysOpen(f, Poll(f, input), h, s, a);
  }

  /** The sweep of the holder meets nobody but the newcomer, and only when the newcomer is in its GAP. */
  lemma HolderStaysOpen(f: Fdl, g: Fdl, h: nat, s: set<nat>, a: nat)
    requires Open(f, h, s, a) && HolderStep(f, g, h, s, s + {a}) && h in s && a !in s
    ensures Open(g, h, s, a)
    ensures |g.log.sent| != |f.log.sent| && g.state.AwaitStatusResponse? ==>
              g.state.address !in s - {h} && (g.state.address == a ==> InArc(h, Next(s, h), a))
  {
    hide WellFormed, AllBelow, Clear, Harmless, AdvanceGap;
    if h == Previous(s, a) {
      PreviousHasInGap(s, a);
      StepStaysClear(f, g, h, s, s + {a}, s);
    } else {
      if InArc(h, Next(s, h), a) {
        NewcomerSplitsArc(s, h, a, h);
      }
      StepStaysClear(f, g, h, s, s + {a}, s + {a});
    }
  }

  /** The newcomer lies in the GAP of its predecessor. */
  lemma PreviousHasInGap(s: set<nat>, a: nat)
    requires s != {} && a !in s
    ensures InArc(Previous(s, a), Next(s, Previous(s, a)), a)
  {
    var h := Previous(s, a);
    assert FollowsIn(s, h, Next(s, h)) && PrecedesIn(s, a, h);
  }

  lemma ListeningPoll(bus: map<nat, Fdl>, s: set<nat>, a: nat, h: nat, input: Input, heard: nat -> int)
    requires InPhase(bus, s, a, Listening(h)) && Allowed(bus, s, a, Listening(h), PollOf(h, input, heard))
    ensures var next := After(bus, s, a, Listening(h), PollOf(h, input, heard));
            && next.Keys == s + {a}
            && InPhase(next, s, a, PhaseAfter(s, a, Listening(h), next))
  {
    hide Open, Newcomer, Poll, Undisturbed, Receive, Inv;
    PhaseIsSound(bus, s, a, Listening(h));
    var next := After(bus, s, a, Listening(h), PollOf(h, input, heard));
    var t := Sends(bus[h], input);
    ListeningHolderPolls(bus[h], h, s, a, input);
    if t.Some? {
      forall x | x in s && x != h
        ensures Open(next[x], x, s, a)
        ensures if t.value == Token(Next(s, h), h) && x == Next(s, h) then HasToken(next[x]) else IsWaiting(next[x])
      {
        if t.value.Token? {
          OldHearsPass(bus[x], x, s, a, heard(x), h);
        } else {
          OldHearsHarmless(bus[x], x, s, a, heard(x), t.value);
        }
      }
      if t.value.Token? {
        NewcomerHearsPass(bus[a], a, s, heard(a), h);
      } else {
        NewcomerHears(bus[a], a, s, heard(a), t.value);
      }
    }
  }

  lemma PassiveKeepsPhase(bus: map<nat, Fdl>, s: set<nat>, a: nat, phase: Phase, heard: nat -> int, t: Telegram)
    requires InPhase(bus, s, a, phase) && Allowed(bus, s, a, phase, PassiveHeard(heard, t))
    ensures var next := After(bus, s, a, phase, PassiveHeard(heard, t));
            next.Keys == s + {a} && InPhase(next, s, a, phase) && PhaseAfter(s, a, phase, next) == phase
  {
    hide Open, Newcomer, Receive, Inv, Member, Knows;
    PhaseIsSound(bus, s, a, phase);
    var h := phase.h;
    var next := After(bus, s, a, phase, PassiveHeard(heard, t));
    assert Harmless(t, s);
    forall x | x in s && x != h ensures Open(next[x], x, s, a) && IsWaiting(next[x]) {
      OldHearsHarmless(bus[x], x, s, a, heard(x), t);
    }
    if phase.Listening? {
      NewcomerHears(bus[a], a, s, heard(a), t);
    } else {
      InformedHearsHarmless(bus[h], h, s, a, h, heard(h), t);
    }
  }

  lemma RequestHeardPoll(bus: map<nat, Fdl>, s: set<nat>, a: nat, h: nat, input: Input, heard: nat -> int)
    requires InPhase(bus, s, a, RequestHeard(h)) && Allowed(bus, s, a, RequestHeard(h), PollOf(a, input, heard))
    ensures var next := After(bus, s, a, RequestHeard(h), PollOf(a, input, heard));
            && next.Keys == s + {a}
            && InPhase(next, s, a, PhaseAfter(s, a, RequestHeard(h), next))
  {
    hide Open, Newcomer, Poll, Receive, Inv, Member, TokenLost;
    PhaseIsSound(bus, s, a, RequestHeard(h));
    var next := After(bus, s, a, RequestHeard(h), PollOf(a, input, heard));
    NewcomerSplitsArc(s, h, a, h);
    NewcomerAnswers(bus[a], a, s, h, input);
    var t := Sends(bus[a], input);
    if t.Some? {
      HolderAdopts(bus[h], h, s, a, heard(h));
      forall x | x in s && x != h ensures Open(next[x], x, s, a) && IsWaiting(next[x]) {
        OldHearsHarmless(bus[x], x, s, a, heard(x), t.value);
      }
    }
  }

  lemma AdopterOffers(f: Fdl, h: nat, s: set<nat>, a: nat, input: Input)
    requires Informed(f, h, s, a, h) && f.state == PassToken(false, Attempt.First) && InputOk(f, input) && Inv(f)
    requires IsRing(s) && a <= MAX_ADDRESS && a !in s && h in s && InArc(h, Next(s, h), a)
    ensures var g := Poll(f, input);
            && Informed(g, h, s, a, h)
            && if Sends(f, input).Some? then
                 Sends(f, input).value == Token(a, h) && g.state == CheckTokenPass(Attempt.First)
               else g.state == f.state
    ensures MayAct(f, input) && PauseOver(f, input.now) ==> Sends(f, input).Some?
  {
    hide Poll, Inv, Knows, Clear;
    NewcomerSplitsArc(s, h, a, h);
    AddressesFit(s, h, a);
    PasserPolls(f, h, s + {a}, Attempt.First, input);
    StaysInformed(f, Poll(f, input), h, s, a, h);
  }

  lemma AdoptedPoll(bus: map<nat, Fdl>, s: set<nat>, a: nat, h: nat, input: Input, heard: nat -> int)
    requires InPhase(bus, s, a, Adopted(h)) && Allowed(bus, s, a, Adopted(h), PollOf(h, input, heard))
    ensures var next := After(bus, s, a, Adopted(h), PollOf(h, input, heard));
            && next.Keys == s + {a}
            && InPhase(next, s, a, PhaseAfter(s, a, Adopted(h), next))
  {
    hide Open, Newcomer, Informed, Poll, Receive, Inv, Member, Knows;
    PhaseIsSound(bus, s, a, Adopted(h));
    var next := After(bus, s, a, Adopted(h), PollOf(h, input, heard));
    NewcomerSplitsArc(s, h, a, h);
    AdopterOffers(bus[h], h, s, a, input);
    var t := Sends(bus[h], input);
    if t.Some? {
      forall x | x in s && x != h ensures Open(next[x], x, s, a) && IsWaiting(next[x]) {
        OldHearsOffer(bus[x], x, s, heard(x), h, a);
      }
      NewcomerTakesToken(bus[a], a, s, heard(a), h);
    }
  }

  lemma AddressesFit(s: set<nat>, h: nat, a: nat)
    requires IsRing(s) && h in s && a <= MAX_ADDRESS
    ensures Next(s, h) % 256 == Next(s, h) && a % 256 == a
  {
  }

  /** What the newcomer can transmit while it has the token for the first time. */
  lemma FirstHoldPolls(f: Fdl, a: nat, s: set<nat>, h: nat, input: Input)
    requires Knows(f, a, s + {a}) && Clear(f, s + {a}) && HasToken(f) && AttemptOf(f).First?
    requires InputOk(f, input) && Undisturbed(f, input, s + {a})
    requires IsRing(s) && a <= MAX_ADDRESS && a !in s && h in s && InArc(h, Next(s, h), a)
    ensures var g, t := Poll(f, input), Sends(f, input);
            && Clear(g, s + {a})
            && (t.None? || !t.value.Token? ==> Knows(g, a, s + {a}) && HasToken(g) && AttemptOf(g).First?)
            && (t.Some? && !t.value.Token? ==> Harmless(t.value, s))
            && (t.Some? && t.value.Token? ==>
                  && t.value == Token(Next(s, h), a) && Member(g, a, s + {a}) && a < g.p.highestStationAddress
                  && g.state == CheckTokenPass(Attempt.First))
  {
    hide WellFormed, AllBelow, Poll, FollowsIn, Clear, Undisturbed, AdvanceGap;
    PollIsDisciplined(f, input);
    StepStaysClearInRing(f, a, s + {a}, input);
    HolderPolls(f, a, s + {a}, s + {a}, input);
    NewcomerSplitsArc(s, h, a, h);
    AddressesFit(s, h, a);
  }

  lemma FirstHandover(bus: map<nat, Fdl>, s: set<nat>, a: nat, h: nat, now: int, x: nat)
    requires InPhase(bus, s, a, FirstHold(h)) && x in s
    ensures AllSound(bus)
    ensures var b, g := Next(s, h), Receive(bus[x], now, Token(Next(s, h), a));
            if x != b then Informed(g, x, s, a, h) && IsWaiting(g)
            else
              || (Informed(g, x, s, a, h) && g.state.UseToken?)
              || (&& b != h && Open(g, x, s, a) && IsWaiting(g)
                  && g.state.ActiveIdle? && g.state.newPreviousStation == Some(a))
  {
    hide Inv, Knows;
    PhaseIsSound(bus, s, a, FirstHold(h));
    NewcomerSplitsArc(s, h, a, h);
    if x == h {
      InformedHearsPass(bus[h], h, s, a, h, now, a);
    } else if x == Next(s, h) {
      SuccessorHearsHandover(bus[x], x, s, now, h, a);
    } else {
      OldHearsHandover(bus[x], x, s, now, h, a);
    }
  }

  lemma FirstHoldPoll(bus: map<nat, Fdl>, s: set<nat>, a: nat, h: nat, input: Input, heard: nat -> int)
    requires InPhase(bus, s, a, FirstHold(h)) && Allowed(bus, s, a, FirstHold(h), PollOf(a, input, heard))
    ensures var next := After(bus, s, a, FirstHold(h), PollOf(a, input, heard));
            && next.Keys == s + {a}
            && InPhase(next, s, a, PhaseAfter(s, a, FirstHold(h), next))
  {
    hide Open, Informed, Poll, Receive, Inv, Member, Knows, Clear, Undisturbed, InPhase;
    PhaseIsSound(bus, s, a, FirstHold(h));
    var t := Sends(bus[a], input);
    if t.Some? && t.value.Token? {
      FirstPass(bus, s, a, h, input, heard);
    } else {
      FirstHoldGoesOn(bus, s, a, h, input, heard);
    }
  }

  lemma FirstPass(bus: map<nat, Fdl>, s: set<nat>, a: nat, h: nat, input: Input, heard: nat -> int)
    requires InPhase(bus, s, a, FirstHold(h)) && Allowed(bus, s, a, FirstHold(h), PollOf(a, input, heard))
    requires Inv(bus[a]) && Sends(bus[a], input).Some? && Sends(bus[a], input).value.Token?
    ensures var next := After(bus, s, a, FirstHold(h), PollOf(a, input, heard));
            && next.Keys == s + {a}
            && InPhase(next, s, a, PhaseAfter(s, a, FirstHold(h), next))
  {
    hide Open, Informed, Poll, Receive, Inv, Knows, Member, Clear, Undisturbed, PhaseAfter;
    PhaseIsSound(bus, s, a, FirstHold(h));
    var next := After(bus, s, a, FirstHold(h), PollOf(a, input, heard));
    FirstHoldPolls(bus[a], a, s, h, input);
    NewcomerIsInformed(Poll(bus[a], input), s, a, h);
    forall x | x in s
      ensures next[x] == Receive(bus[x], heard(x), Token(Next(s, h), a))
      ensures x != Next(s, h) ==> Informed(next[x], x, s, a, h) && IsWaiting(next[x])
    {
      FirstHandover(bus, s, a, h, heard(x), x);
    }
    FirstHandover(bus, s, a, h, heard(Next(s, h)), Next(s, h));
    FirstPassIsHeard(next, s, a, h);
  }

  lemma NewcomerIsInformed(f: Fdl, s: set<nat>, a: nat, h: nat)
    requires Member(f, a, s + {a}) && Clear(f, s + {a}) && a < f.p.highestStationAddress && a != h
    ensures Informed(f, a, s, a, h)
  {
  }

  /** When the newcomer has passed the token, its successor has it or waits for the next offer. */
  lemma FirstPassIsHeard(bus: map<nat, Fdl>, s: set<nat>, a: nat, h: nat)
    requires Setting(bus, s, a, h) && InArc(h, Next(s, h), a) && Next(s, h) in bus
    requires Informed(bus[a], a, s, a, h) && bus[a].state == CheckTokenPass(Attempt.First)
    requires forall x | x in s && x != Next(s, h) :: Informed(bus[x], x, s, a, h) && IsWaiting(bus[x])
    requires var b := Next(s, h);
             || (Informed(bus[b], b, s, a, h) && bus[b].state.UseToken?)
             || (&& b != h && Open(bus[b], b, s, a) && IsWaiting(bus[b])
                 && bus[b].state.ActiveIdle? && bus[b].state.newPreviousStation == Some(a))
    ensures InPhase(bus, s, a, PhaseAfter(s, a, FirstHold(h), bus))
  {
    hide Open, Informed, Member;
    InformedAgree(bus, s, a, h);
  }

  /** Who is informed is a member of the new ring. */
  lemma InformedAgree(bus: map<nat, Fdl>, s: set<nat>, a: nat, h: nat)
    ensures forall x | x in bus && Informed(bus[x], x, s, a, h) :: Member(bus[x], x, s + {a})
  {
    hide Member, Clear;
  }

  lemma FirstHoldGoesOn(bus: map<nat, Fdl>, s: set<nat>, a: nat, h: nat, input: Input, heard: nat -> int)
    requires InPhase(bus, s, a, FirstHold(h)) && Allowed(bus, s, a, FirstHold(h), PollOf(a, input, heard))
    requires Inv(bus[a]) && (Sends(bus[a], input).Some? ==> !Sends(bus[a], input).value.Token?)
    ensures var next := After(bus, s, a, FirstHold(h), PollOf(a, input, heard));
            && next.Keys == s + {a}
            && InPhase(next, s, a, PhaseAfter(s, a, FirstHold(h), next))
  {
    hide Open, Informed, Poll, Receive, Inv, Member, Knows, Clear, Undisturbed, Harmless;
    PhaseIsSound(bus, s, a, FirstHold(h));
    var next := After(bus, s, a, FirstHold(h), PollOf(a, input, heard));
    FirstHoldPolls(bus[a], a, s, h, input);
    var t := Sends(bus[a], input);
    if t.Some? {
      forall x | x in s && x != h ensures Open(next[x], x, s, a) && IsWaiting(next[x]) {
        HarmlessToOne(t.value, s, x);
        OldHearsHarmless(bus[x], x, s, a, heard(x), t.value);
      }
      HarmlessToOne(t.value, s, h);
      InformedHearsHarmless(bus[h], h, s, a, h, heard(h), t.value);
    }
  }

  lemma HarmlessToOne(t: Telegram, s: set<nat>, x: nat)
    requires Harmless(t, s) && x in s
    ensures Harmless(t, {x})
  {
  }

  lemma SecondHandover(bus: map<nat, Fdl>, s: set<nat>, a: nat, h: nat, now: int, x: nat)
    requires InPhase(bus, s, a, HandedOver(h)) && x in s
    ensures AllSound(bus)
    ensures var b, g := Next(s, h), Receive(bus[x], now, Token(Next(s, h), a));
            Informed(g, x, s, a, h) && if x == b then g.state.UseToken? else IsWaiting(g)
  {
    hide Inv, Knows, Receive;
    PhaseIsSound(bus, s, a, HandedOver(h));
    NewcomerSplitsArc(s, h, a, h);
    if x == Next(s, h) {
      SuccessorHearsHandover(bus[x], x, s, now, h, a);
    } else {
      InformedHearsPass(bus[x], x, s, a, h, now, a);
    }
  }

  lemma NewcomerOffersAgain(f: Fdl, s: set<nat>, a: nat, h: nat, input: Input)
    requires Informed(f, a, s, a, h) && f.state == CheckTokenPass(Attempt.First) && InputOk(f, input) && input.rx == []
    requires IsRing(s) && a <= MAX_ADDRESS && a !in s && h in s && InArc(h, Next(s, h), a) && Inv(f)
    ensures var g := Poll(f, input);
            && Informed(g, a, s, a, h)
            && if Sends(f, input).Some? then
                 Sends(f, input).value == Token(Next(s, h), a) && g.state == CheckTokenPass(Attempt.Second)
               else g.state == f.state
    ensures MayAct(f, input) && SlotExpired(f, input.now) ==> Sends(f, input).Some?
  {
    hide Poll, Inv, Knows, Clear;
    NewcomerSplitsArc(s, h, a, h);
    CheckerPolls(f, a, s + {a}, input);
    AddressesFit(s, h, a);
    StaysInformed(f, Poll(f, input), a, s, a, h);
  }

  lemma HandedOverPoll(bus: map<nat, Fdl>, s: set<nat>, a: nat, h: nat, input: Input, heard: nat -> int)
    requires InPhase(bus, s, a, HandedOver(h)) && Allowed(bus, s, a, HandedOver(h), PollOf(a, input, heard))
    ensures var next := After(bus, s, a, HandedOver(h), PollOf(a, input, heard));
            && next.Keys == s + {a}
            && InPhase(next, s, a, PhaseAfter(s, a, HandedOver(h), next))
  {
    hide Open, Poll, Receive, Inv, Knows, Member, Informed;
    PhaseIsSound(bus, s, a, HandedOver(h));
    var next, b := After(bus, s, a, HandedOver(h), PollOf(a, input, heard)), Next(s, h);
    NewcomerOffersAgain(bus[a], s, a, h, input);
    if Sends(bus[a], input).Some? {
      forall x | x in s
        ensures Informed(next[x], x, s, a, h) && if x == b then next[x].state.UseToken? else IsWaiting(next[x])
      {
        SecondHandover(bus, s, a, h, heard(x), x);
      }
      InformedAgree(next, s, a, h);
    }
  }

  lemma OpenIgnoresClock(f: Fdl, clock: Option<int>, x: nat, s: set<nat>, a: nat)
    ensures Open(f, x, s, a) ==> Open(f.(lastBusActivity := clock), x, s, a)
    ensures Newcomer(f, a, s) ==> Newcomer(f.(lastBusActivity := clock), a, s)
    ensures forall h :: Informed(f, x, s, a, h) ==> Informed(f.(lastBusActivity := clock), x, s, a, h)
  {
    ClockDoesNotMatter(f, clock, x, s);
    ClockDoesNotMatter(f, clock, x, s + {a});
    ClockDoesNotMatter(f, clock, a, s + {a});
  }

  lemma PhaseIgnoresClock(bus: map<nat, Fdl>, s: set<nat>, a: nat, phase: Phase, x: nat, clock: Option<int>)
    requires InPhase(bus, s, a, phase) && !phase.Joined? && x in bus
    ensures var next := bus[x := bus[x].(lastBusActivity := clock)];
            next.Keys == s + {a} && InPhase(next, s, a, phase)
  {
    hide Open, Newcomer, Informed, Member, Knows, Clear, HasToken, IsWaiting, AttemptOf, Agreed;
    OpenIgnoresClock(bus[x], clock, x, s, a);
    ClockDoesNotMatter(bus[x], clock, x, s + {a});
  }

  lemma IdleStaysInPhase(bus: map<nat, Fdl>, s: set<nat>, a: nat, phase: Phase, x: nat, input: Input)
    requires InPhase(bus, s, a, phase) && Allowed(bus, s, a, phase, PollIdle(x, input))
    ensures var next := After(bus, s, a, phase, PollIdle(x, input));
            next.Keys == s + {a} && InPhase(next, s, a, phase)
  {
    hide Poll, Inv, Open, Newcomer, Knows;
    PhaseIsSound(bus, s, a, phase);
    IdlePollWaits(bus[x], input);
    PhaseIgnoresClock(bus, s, a, phase, x, Poll(bus[x], input).lastBusActivity);
  }

  /** The phase can be read off the bus. */
  lemma PhaseIsReadOff(bus: map<nat, Fdl>, s: set<nat>, a: nat, phase: Phase)
    requires InPhase(bus, s, a, phase) && a in bus && phase.h in bus && Next(s, phase.h) in bus
    ensures PhaseAfter(s, a, phase, bus) == phase
  {
    hide Inv, Open, Newcomer, Knows;
  }

  /** Every allowed step keeps the newcomer in a phase, and the phases follow one another. */
  lemma JoinStepAdvances(bus: map<nat, Fdl>, s: set<nat>, a: nat, phase: Phase, step: BusStep)
    requires InPhase(bus, s, a, phase) && Allowed(bus, s, a, phase, step)
    ensures var next := After(bus, s, a, phase, step);
            next.Keys == s + {a} && InPhase(next, s, a, PhaseAfter(s, a, phase, next))
  {
    hide InPhase;
    match step
    case PassiveHeard(heard, t) =>
      PassiveKeepsPhase(bus, s, a, phase, heard, t);
    case PollIdle(x, input) =>
      IdleStaysInPhase(bus, s, a, phase, x, input);
      var next := After(bus, s, a, phase, step);
      PhaseIsSound(next, s, a, phase);
      PhaseIsReadOff(next, s, a, phase);
    case PollOf(x, input, heard) =>
      match phase
      case Listening(h) => ListeningPoll(bus, s, a, h, input, heard);
      case RequestHeard(h) => RequestHeardPoll(bus, s, a, h, input, heard);
      case Adopted(h) => AdoptedPoll(bus, s, a, h, input, heard);
      case FirstHold(h) => FirstHoldPoll(bus, s, a, h, input, heard);
      case HandedOver(h) => HandedOverPoll(bus, s, a, h, input, heard);
  }

  /** A poll that comes when the pause is over, or after an expired slot when the successor did not answer,
      takes the newcomer to the next phase. */
  lemma TimelyPollAdvances(bus: map<nat, Fdl>, s: set<nat>, a: nat, phase: Phase, x: nat, input: Input,
                           heard: nat -> int)
    requires InPhase(bus, s, a, phase) && Allowed(bus, s, a, phase, PollOf(x, input, heard)) && MayAct(bus[x], input)
    requires if phase.HandedOver? then SlotExpired(bus[x], input.now) else PauseOver(bus[x], input.now)
    ensures var next := After(bus, s, a, phase, PollOf(x, input, heard));
            next.Keys == s + {a} &&
            var p := PhaseAfter(s, a, phase, next);
            && (phase.RequestHeard? ==> p == Adopted(phase.h))
            && (phase.Adopted? ==> p == FirstHold(phase.h))
            && (phase.HandedOver? ==> p == Joined(phase.h, Next(s, phase.h)))
  {
    hide Open, Poll, Inv, Member, Knows, Receive, Newcomer;
    PhaseIsSound(bus, s, a, phase);
    match phase
    case RequestHeard(h) =>
      NewcomerSplitsArc(s, h, a, h);
      NewcomerAnswers(bus[a], a, s, h, input);
    case Adopted(h) =>
      NewcomerSplitsArc(s, h, a, h);
      AddressesFit(s, h, a);
      PasserPolls(bus[h], h, s + {a}, Attempt.First, input);
    case HandedOver(h) =>
      NewcomerSplitsArc(s, h, a, h);
      CheckerPolls(bus[a], a, s + {a}, input);
      AddressesFit(s, h, a);
      SecondHandover(bus, s, a, h, heard(Next(s, h)), Next(s, h));
    case _ =>
  }

  // ---------------------------------------------------------------------------------------------
  // Runs
  // ---------------------------------------------------------------------------------------------

  datatype JoinMoment = JoinMoment(bus: map<nat, Fdl>, phase: Phase)

  /** `n` follows `m` by one allowed step. */
  ghost predicate JoinFollows(s: set<nat>, a: nat, m: JoinMoment, step: BusStep, n: JoinMoment) {
    InPhase(m.bus, s, a, m.phase) ==>
      && Allowed(m.bus, s, a, m.phase, step)
      && (JoinStepAdvances(m.bus, s, a, m.phase, step);
          n.bus == After(m.bus, s, a, m.phase, step) && n.phase == PhaseAfter(s, a, m.phase, n.bus))
  }

  ghost predicate IsJoinRun(s: set<nat>, a: nat, run: seq<JoinMoment>, steps: seq<BusStep>) {
    && |run| == |steps| + 1
    && forall i | 0 <= i < |steps| :: JoinFollows(s, a, run[i], steps[i], run[i + 1])
  }

  /** What every phase has in common: nobody has dropped a station or learned of one that is not there,
      and there is at most one token. */
  lemma PhaseIsSafe(bus: map<nat, Fdl>, s: set<nat>, a: nat, phase: Phase)
    requires InPhase(bus, s, a, phase)
    ensures bus.Keys == s + {a}
    ensures forall x | x in bus :: s <= bus[x].ring.las <= s + {a}
    ensures forall x, y | x in bus && y in bus && HasToken(bus[x]) && HasToken(bus[y]) :: x == y
    ensures phase.Joined? ==> Agreed(bus, s + {a}, phase.holder)
  {
    hide Inv, Clear, AllBelow, Agreed;
    if phase.Joined? {
      HoldersOfAgreed(bus, s + {a}, phase.holder);
    } else {
      forall x | x in bus ensures s <= bus[x].ring.las <= s + {a} {
        assert x in s || x == a;
      }
    }
  }

  /** In every run that begins with a newcomer listening to a steady ring, no station is ever dropped,
      there is never a second token, and when the newcomer has joined, the bus is a steady ring of
      all stations.  Each handover takes at most two of the three attempts. */
  lemma {:induction false} JoinIsSafe(s: set<nat>, a: nat, run: seq<JoinMoment>, steps: seq<BusStep>, i: nat)
    requires IsJoinRun(s, a, run, steps) && i < |run|
    requires InPhase(run[0].bus, s, a, run[0].phase)
    ensures InPhase(run[i].bus, s, a, run[i].phase)
    ensures var bus := run[i].bus;
            && bus.Keys == s + {a}
            && (forall x | x in bus :: s <= bus[x].ring.las <= s + {a})
            && (forall x, y | x in bus && y in bus && HasToken(bus[x]) && HasToken(bus[y]) :: x == y)
            && (run[i].phase.Joined? ==> Agreed(bus, s + {a}, run[i].phase.holder))
  {
    hide InPhase, Allowed, After, PhaseAfter, HasToken, Agreed;
    if i > 0 {
      JoinIsSafe(s, a, run, steps, i - 1);
      var m := run[i - 1];
      assert JoinFollows(s, a, m, steps[i - 1], run[i]);
      JoinStepAdvances(m.bus, s, a, m.phase, steps[i - 1]);
    }
    PhaseIsSafe(run[i].bus, s, a, run[i].phase);
  }

  /** A steady ring and a station that listens to it and knows it are the first phase. */
  lemma SteadyRingCanBeJoined(ring: map<nat, Fdl>, s: set<nat>, h: nat, f: Fdl, a: nat)
    requires Steady(ring, s, h) && a !in s && Inv(f) && f.online && f.p.address == a
    requires f.ring.las == s && f.ring.lasState == Valid && Clear(f, s + {a})
    requires f.state.ListenToken? && f.state.statusRequest.None?
    requires AllBelow(s, f.p.highestStationAddress)
    requires forall x | x in s ::
               a < ring[x].p.highestStationAddress && (x != Previous(s, a) ==> Clear(ring[x], s + {a}))
    ensures InPhase(ring[a := f], s, a, Listening(h))
  {
    hide NeighboursAgree, FollowsIn, PrecedesIn, StateOk;
    var bus := ring[a := f];
    assert forall x | x in s :: bus[x] == ring[x];
  }

  /** A sweep that is about to start, at this station itself, is clear. */
  lemma FreshSweepIsClear(f: Fdl, x: nat, s: set<nat>)
    requires Knows(f, x, s) && f.gap == DoPoll(x)
    ensures Clear(f, s)
  {
    NeighboursOfKnowing(f, x, s);
  }

  lemma ListenerIsSound(q: Parameters, ring: RingView, log: Log)
    requires Consistent(q) && ring.ts == q.address && AllBelow(ring.las, MAX_ADDRESS + 1)
    requires ring.ns == Next(ring.las, ring.ts) && ring.ps == Previous(ring.las, ring.ts)
    ensures Inv(NewFdl(q, log).(online := true, state := ListenToken(None, 0), ring := ring))
  {
    hide FollowsIn, PrecedesIn;
  }

  /** A station that is alone with its token, and a station that has been online long enough to witness three
      rotations of that ring, are such a ring and such a listener. */
  lemma TwoStationsCanMeet(f: Fdl, q: Parameters, log: Log) returns (g: Fdl)
    requires Inv(f) && f.online && HasToken(f) && f.ring.las == {f.p.address}
    requires Consistent(q) && q.address != f.p.address
    requires q.address < f.p.highestStationAddress && f.p.address < q.highestStationAddress
    ensures InPhase(map[f.p.address := f][q.address := g], {f.p.address}, q.address, Listening(f.p.address))
  {
    hide Feed, Agreed, InPhase, WellFormed, FollowsIn, PrecedesIn, StateOk, InArc;
    var x, s := f.p.address, {f.p.address};
    ThreeRotationsStabilise(NewRing(q.address), s, x, 3);
    g := NewFdl(q, log).(online := true, state := ListenToken(None, 0), ring := Feed(NewRing(q.address), s, x, 3));
    ListenerIsSound(q, g.ring, log);
    LoneStationIsSteady(f);
    FreshSweepIsClear(g, q.address, s + {q.address});
    SteadyRingCanBeJoined(map[x := f], s, x, g, q.address);
  }

  /** Whoever is in the ring without the token takes it at the latest when the same station offers it for
      the second time in a row, whether it knew that station or not. */
  lemma HandoverTakesTwoTokens(f: Fdl, sa: Byte, first: int, second: int)
    requires f.state.ActiveIdle? && f.p.address < 256 && sa != f.p.address
    ensures var t := Token(f.p.address, sa);
            var g := Hear(f, first, t);
            if sa == f.ring.ps || f.state.newPreviousStation == Some(sa) then g.state.UseToken?
            else g.state.ActiveIdle? && g.ring == f.ring && Hear(g, second, t).state.UseToken?
  {
    var t := Token(f.p.address, sa);
    HearIsHandle(f, first, t);
    var g := Hear(f, first, t);
    if g.state.ActiveIdle? {
      HearIsHandle(g, second, t);
    }
  }
}
