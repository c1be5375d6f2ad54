/**
 A stable ring of active stations on one bus.

 Every waiting station is polled often enough to hear a telegram before a slot or the token timeout
 expires.
 */
module TokenBus {
  import opened BusParameters
  import opened CyclicOrder
  import opened Telegrams
  import opened PhysicalLayer
  import opened TokenRings
  import opened Stabilisation
  import opened Stations
  import opened GapSweep
  import opened BusDiscipline
  import opened Buses

  // ---------------------------------------------------------------------------------------------
  // The ring
  // ---------------------------------------------------------------------------------------------

  predicate HasToken(f: Fdl) {
    f.state.UseToken? || f.state.AwaitDataResponse? || f.state.PassToken? || f.state.AwaitStatusResponse?
  }

  predicate IsWaiting(f: Fdl) {
    f.state.CheckTokenPass? || (f.state.ActiveIdle? && f.state.statusRequest.None?)
  }

  /** What is left of a GAP sweep in progress meets no station of `s` other than this one. */
  ghost predicate Clear(f: Fdl, s: set<nat>) {
    f.gap.DoPoll? ==> RestIsClear(f.p.highestStationAddress, f.p.address, f.ring.ns, f.gap.currentAddress, s)
  }

  /** The station has asked another station of `s` for its status. */
  ghost predicate AsksMember(f: Fdl, s: set<nat>) {
    f.state.AwaitStatusResponse? && f.state.address in s - {f.p.address}
  }

  /** A station of the ring `s` that knows everybody else in it; a newcomer lists itself only after it
      has passed the token on for the first time. */
  ghost predicate Knows(f: Fdl, x: nat, s: set<nat>) {
    && Inv(f) && f.online && f.p.address == x && x in s
    && f.ring.las + {x} == s && f.ring.lasState == Valid
    && AllBelow(s, f.p.highestStationAddress)
  }

  /** A station of the ring `s` that knows exactly this ring. */
  ghost predicate Member(f: Fdl, x: nat, s: set<nat>) {
    Knows(f, x, s) && f.ring.las == s
  }

  lemma NeighboursOfKnowing(f: Fdl, x: nat, s: set<nat>)
    requires Knows(f, x, s)
    ensures f.ring.ns == Next(s, x) && f.ring.ps == Previous(s, x)
  {
    NextIgnoresSelf(f.ring.las, x);
  }

  /** All stations of the ring `s` agree on it, exactly `h` has the token, and nobody waits to answer. */
  ghost predicate Agreed(bus: map<nat, Fdl>, s: set<nat>, h: nat) {
    && IsRing(s) && h in s && bus.Keys == s
    && (forall x | x in s :: Member(bus[x], x, s))
    && (forall x | x in s :: if x == h then HasToken(bus[x]) && !AsksMember(bus[x], s) else IsWaiting(bus[x]))
  }

  /** A ring in agreement whose GAP sweeps meet no member any more. */
  ghost predicate Steady(bus: map<nat, Fdl>, s: set<nat>, h: nat) {
    Agreed(bus, s, h) && forall x | x in s :: Clear(bus[x], s)
  }

  /** A telegram that says nothing to a station of the ring: no token, not from one of the waiting
      stations, and not a status request to a member. */
  ghost predicate Harmless(t: Telegram, s: set<nat>) {
    match t
    case Data(h, _) => t.IsStatusRequest() ==> h.da as nat !in s
    case Token(_, _) => false
    case ShortConfirmation => true
  }

  // ---------------------------------------------------------------------------------------------
  // One station at a time
  // ---------------------------------------------------------------------------------------------

  lemma HearHarmless(f: Fdl, x: nat, s: set<nat>, now: int, t: Telegram)
    requires Member(f, x, s) && IsWaiting(f) && Harmless(t, {x})
    ensures var g := Hear(f, now, t);
            Member(g, x, s) && IsWaiting(g) && g.state.ActiveIdle? && g.p == f.p && g.gap == f.gap
  {
    HearIsHandle(f, now, t);
  }

  lemma MemberHearsHarmless(f: Fdl, x: nat, s: set<nat>, now: int, t: Telegram)
    requires Member(f, x, s) && IsWaiting(f) && Harmless(t, {x}) && Inv(f)
    ensures var g := Receive(f, now, t); Member(g, x, s) && IsWaiting(g) && g.p == f.p && g.gap == f.gap
  {
    HearHarmless(f, x, s, now, t);
  }

  /** A pass between two neighbours of the ring changes nobody's LAS. */
  lemma WitnessOfRing(r: RingView, s: set<nat>, h: nat)
    requires WellFormed(r) && r.las == s && r.lasState == Valid && IsRing(s) && h in s
    ensures Witness(r, h, Next(s, h)) == r
  {
    RingIsSettled(s, h);
    AgreeingPassTeachesNothing(s, h, Next(s, h));
  }

  lemma HearPass(f: Fdl, x: nat, s: set<nat>, now: int, h: nat)
    requires Member(f, x, s) && IsWaiting(f) && IsRing(s) && h in s && h != x
    ensures var g := Hear(f, now, Token(Next(s, h), h));
            && Member(g, x, s) && g.p == f.p && g.gap == f.gap
            && if x == Next(s, h) then g.state.UseToken? else g.state.ActiveIdle? && IsWaiting(g)
  {
    HearIsHandle(f, now, Token(Next(s, h), h));
    WitnessOfRing(f.ring, s, h);
    if x == Next(s, h) {
      PreviousOfNext(s, h);
    }
  }

  /** The applications send data telegrams in the name of their station and ask none of the stations in
      `quiet` for its FDL status. */
  ghost predicate AppsAreHarmless(f: Fdl, answers: seq<Option<Telegram>>, quiet: set<nat>) {
    forall a | a in answers && a.Some? :: a.value.Data? && a.value.h.sa == f.p.address && Harmless(a.value, quiet)
  }

  /** The holder hears nothing that would make it doubt its token or meet a new station, and its
      applications do not concern the stations in `quiet`. */
  ghost predicate Undisturbed(f: Fdl, input: Input, quiet: set<nat>) {
    && AppsAreHarmless(f, input.answers, quiet)
    && (var first := TakeFirst(input.rx).telegram;
        first.Some? ==>
          && (f.state.AwaitDataResponse? ==> IsValidReply(f, first.value, f.state.replier))
          && (f.state.AwaitStatusResponse? ==>
                AnswersPoll(f, first.value, f.state.address) && !WantsToken(first.value)))
  }

  /** The station now waits for the answer to its GAP poll `t`, which was the next one of the sweep of `f`. */
  ghost predicate IsGapPoll(f: Fdl, g: Fdl, t: Telegram) {
    && g.state.AwaitStatusResponse? && AdvanceGap(f).gap == g.gap == DoPoll(g.state.address)
    && t == StatusRequest(g.state.address % 256, f.p.address % 256)
  }

  /** What a poll of the holder can lead to: it keeps the token and transmits at most one telegram, a
      harmless one of an application or the next GAP poll of its sweep, or it hands the token to its
      successor. */
  ghost predicate HolderStep(f: Fdl, g: Fdl, x: nat, s: set<nat>, quiet: set<nat>) {
    && Knows(g, x, s) && g.p == f.p && f.ring.las <= g.ring.las && f.log.sent <= g.log.sent
    && (g.gap == f.gap || g.gap == AdvanceGap(f).gap)
    && if |g.log.sent| == |f.log.sent| then
         && HasToken(g) && (AttemptOf(g).First? || g.state == f.state)
         && (g.state.AwaitStatusResponse? ==> g.state == f.state)
       else
         && |g.log.sent| == |f.log.sent| + 1
         && var t := g.log.sent[|f.log.sent|].telegram;
            if t.Token? then
              && t == Token(Next(s, x) % 256, x % 256) && g.ring.las == s
              && if Next(s, x) == x then g.state.UseToken? else g.state == CheckTokenPass(AttemptOf(f))
            else HasToken(g) && !g.state.PassToken? && t.SourceAddress() == Some(x % 256) &&
                 if g.state.AwaitStatusResponse? then IsGapPoll(f, g, t) else Harmless(t, quiet)
  }

  /** The attempt with which a holder will hand on the token. */
  function AttemptOf(f: Fdl): Attempt {
    if f.state.PassToken? then f.state.attempt else Attempt.First
  }

  /** A sweep that is clear of the stations in `q` asks none of them, and stays clear of them. */
  lemma StepStaysClear(f: Fdl, g: Fdl, x: nat, s: set<nat>, quiet: set<nat>, q: set<nat>)
    requires Knows(f, x, s) && HolderStep(f, g, x, s, quiet) && Clear(f, q)
    requires forall y | y in q && InArc(x, Next(s, x), y) :: y == x
    ensures Clear(g, q)
    ensures |g.log.sent| != |f.log.sent| && g.state.AwaitStatusResponse? ==> g.state.address !in q - {x}
  {
    hide WellFormed, Harmless;
    NeighboursOfKnowing(f, x, s);
    NeighboursOfKnowing(g, x, s);
    var hsa, ns := f.p.highestStationAddress, f.ring.ns;
    match f.gap
    case Waiting(_) => AdvanceStaysClear(hsa, x, ns, x, q);
    case DoPoll(a) => AdvanceStaysClear(hsa, x, ns, a, q);
  }

  /** Its own pass to its successor completes the LAS of a station that knows the others. */
  lemma OwnPassCompletes(f: Fdl, x: nat, s: set<nat>)
    requires Knows(f, x, s)
    ensures var r := Witness(f.ring, x, f.ring.ns);
            r == f.ring.(las := s) && WellFormed(r)
  {
    NextIgnoresSelf(f.ring.las, x);
    OwnPassAddsOnlyThisStation(f.ring);
    OperationsKeepWellFormed(f.ring, x, f.ring.ns, 0);
  }

  lemma HolderSendsToken(f: Fdl, x: nat, s: set<nat>, quiet: set<nat>, now: int)
    requires Knows(f, x, s) && f.state.PassToken?
    ensures HolderStep(f, SendToken(f, now), x, s, quiet)
    ensures var g := SendToken(f, now);
            |g.log.sent| == |f.log.sent| + 1 && g.log.sent[|f.log.sent|].telegram.Token? && g.gap == f.gap
  {
    hide NeighboursAgree, Witness;
    OwnPassCompletes(f, x, s);
    NeighboursOfKnowing(f, x, s);
  }

  lemma HolderPollsGap(f: Fdl, x: nat, s: set<nat>, quiet: set<nat>, now: int)
    requires Knows(f, x, s) && f.state.PassToken? && AdvanceGap(f).gap.DoPoll?
    ensures var g := AdvanceGap(f);
            HolderStep(f, ToAwaitStatusResponse(TransmitGapPoll(g, now), g.gap.currentAddress), x, s, quiet)
  {
    hide NeighboursAgree;
    AdvanceGapStaysSane(f);
  }

  lemma HolderPasses(f: Fdl, x: nat, s: set<nat>, quiet: set<nat>, now: int)
    requires Knows(f, x, s) && f.state.PassToken?
    ensures HolderStep(f, DoPassToken(f, now), x, s, quiet)
  {
    hide WellFormed, SendToken;
    var g := Touch(f, now);
    if PauseOver(g, now) {
      if g.state.doGap {
        AdvanceGapStaysSane(g);
        var h := AdvanceGap(g);
        if h.gap.Waiting? {
          HolderSendsToken(h, x, s, quiet, now);
        } else {
          HolderPollsGap(g, x, s, quiet, now);
        }
      } else {
        HolderSendsToken(g, x, s, quiet, now);
      }
    }
  }

  lemma {:induction false} HolderAsks(f: Fdl, x: nat, s: set<nat>, quiet: set<nat>, now: int,
                                      answers: seq<Option<Telegram>>, high: bool, asks: nat)
    requires Knows(f, x, s) && f.state.UseToken? && (|answers| > 0 ==> f.nextApplication < |answers|)
    requires AppsAreHarmless(f, answers, quiet)
    ensures HolderStep(f, AskApplications(f, now, answers, high, asks).0, x, s, quiet)
    ensures !AskApplications(f, now, answers, high, asks).1 ==>
              AskApplications(f, now, answers, high, asks).0.log.sent == f.log.sent
    decreases asks
  {
    hide WellFormed, AllBelow, Consistent;
    if asks > 0 && answers != [] {
      assert answers[f.nextApplication] in answers;
      if answers[f.nextApplication].None? {
        hide HolderStep, AppsAreHarmless;
        var g := Decline(f, high, |answers|);
        DeclineStaysHarmless(f, g, answers, quiet);
        HolderAsks(g, x, s, quiet, now, answers, high, asks - 1);
        DeclineIsNoStep(f, g, AskApplications(f, now, answers, high, asks).0, x, s, quiet);
        DeclineIsNoStep(f, g, g, x, s, quiet);
      }
    }
  }

  lemma DeclineStaysHarmless(f: Fdl, g: Fdl, answers: seq<Option<Telegram>>, quiet: set<nat>)
    requires g.p == f.p && AppsAreHarmless(f, answers, quiet)
    ensures AppsAreHarmless(g, answers, quiet)
  {
  }

  /** An application that declines does not change what the holder can do next. */
  lemma DeclineIsNoStep(f: Fdl, g: Fdl, h: Fdl, x: nat, s: set<nat>, quiet: set<nat>)
    requires g.p == f.p && g.ring == f.ring && g.gap == f.gap && g.log.sent == f.log.sent
    requires f.state.UseToken? && g.state.UseToken?
    ensures HolderStep(g, h, x, s, quiet) ==> HolderStep(f, h, x, s, quiet)
    ensures Knows(g, x, s) ==> HolderStep(f, g, x, s, quiet)
  {
    hide Inv, Harmless;
  }

  lemma HolderUses(f: Fdl, x: nat, s: set<nat>, quiet: set<nat>, now: int, answers: seq<Option<Telegram>>)
    requires Knows(f, x, s) && f.state.UseToken? && (|answers| > 0 ==> f.nextApplication < |answers|)
    requires AppsAreHarmless(f, answers, quiet)
    ensures HolderStep(f, DoUseToken(f, now, answers), x, s, quiet)
  {
    hide WellFormed, AllBelow, Consistent;
    var g := Touch(StartHold(f), now);
    var asked := g.(state := UseToken(g.state.data, true));
    HolderAsks(asked, x, s, quiet, now, answers, now >= g.endTokenHoldTime, |answers|);
  }

  lemma HolderAwaitsData(f: Fdl, x: nat, s: set<nat>, quiet: set<nat>, input: Input)
    requires Knows(f, x, s) && f.state.AwaitDataResponse? && InputOk(f, input) && Undisturbed(f, input, quiet)
    ensures HolderStep(f, DoAwaitDataResponse(f, input.now, input.rx, input.answers), x, s, quiet)
  {
    hide WellFormed, AllBelow, Consistent, DoUseToken;
    if TakeFirst(input.rx).telegram.None? {
      var g := Touch(f, input.now);
      HolderUses(GiveUpOnReply(g), x, s, quiet,
                 input.now, input.answers);
    }
  }

  lemma HolderAwaitsStatus(f: Fdl, x: nat, s: set<nat>, quiet: set<nat>, input: Input)
    requires Knows(f, x, s) && f.state.AwaitStatusResponse? && Undisturbed(f, input, quiet)
    ensures HolderStep(f, DoAwaitStatusResponse(f, input.now, input.rx), x, s, quiet)
  {
    hide WellFormed, AllBelow, Consistent, DoPassToken;
    var (g, response) := AwaitGapPollResponse(f, input.now, input.rx, f.state.address);
    assert g.ring == f.ring && g.gap == f.gap;
    if response == NoResponse {
      HolderPasses(ToPassToken(g, false, Attempt.First), x, s, quiet, input.now);
    }
  }

  lemma HolderPolls(f: Fdl, x: nat, s: set<nat>, quiet: set<nat>, input: Input)
    requires Knows(f, x, s) && HasToken(f) && InputOk(f, input) && Undisturbed(f, input, quiet)
    ensures HolderStep(f, Poll(f, input), x, s, quiet)
  {
    if !(input.phyBusy || Transmitting(f, input.now)) {
      hide WellFormed, AllBelow, Consistent, DoPassToken, DoUseToken, DoAwaitDataResponse, DoAwaitStatusResponse;
      var g := CheckForBusActivity(f, input.now, input.counted);
      match g.state
      case UseToken(_, _) => HolderUses(g, x, s, quiet, input.now, input.answers);
      case AwaitDataResponse(_, _) => HolderAwaitsData(g, x, s, quiet, input);
      case PassToken(_, _) => HolderPasses(g, x, s, quiet, input.now);
      case AwaitStatusResponse(_) => HolderAwaitsStatus(g, x, s, quiet, input);
    }
  }

  // ---------------------------------------------------------------------------------------------
  // Steps of the bus
  // ---------------------------------------------------------------------------------------------

  /** The station has been asked for its status by the holder, which still waits for the answer. */
  ghost predicate IsAsked(bus: map<nat, Fdl>, h: nat, x: nat)
    requires h in bus && x in bus
  {
    && bus[x].state.ActiveIdle? && bus[x].state.statusRequest.Some? && bus[x].state.statusRequest.value == h
    && bus[h].state == AwaitStatusResponse(x)
  }

  /** What may happen: the holder is polled, a station that it has asked is polled and may answer, another
      station is polled while it has nothing to do, or a passive station is heard. */
  ghost predicate StepOk(bus: map<nat, Fdl>, s: set<nat>, h: nat, step: BusStep)
    requires h in bus
  {
    match step
    case PollOf(x, input, heard) =>
      && x in bus && InputOk(bus[x], input)
      && if x == h then Undisturbed(bus[h], input, s)
         else IsAsked(bus, h, x) && input.rx == [] && !TokenLost(Touch(bus[x], input.now), input.now)
    case PollIdle(x, input) => x in bus && x != h && Idle(bus[x], input)
    case PassiveHeard(_, t) => Harmless(t, s)
  }

  /** Whether the holder hands over the token in this step. */
  ghost predicate Passes(bus: map<nat, Fdl>, h: nat, step: BusStep)
    requires AllSound(bus)
    requires step.PollOf? ==> step.station in bus && InputOk(bus[step.station], step.input)
  {
    step.PollOf? && step.station == h && var t := Sends(bus[h], step.input); t.Some? && t.value.Token?
  }

  /** Who has the token after the step. */
  ghost function HolderAfter(bus: map<nat, Fdl>, h: nat, step: BusStep): nat
    requires AllSound(bus)
    requires step.PollOf? ==> step.station in bus && InputOk(bus[step.station], step.input)
  {
    if Passes(bus, h, step) then Sends(bus[h], step.input).value.da as nat else h
  }

  lemma AgreedIsSound(bus: map<nat, Fdl>, s: set<nat>, h: nat)
    requires Agreed(bus, s, h)
    ensures AllSound(bus) && h in bus && bus.Keys == s && forall x | x in s :: bus[x].online
  {
    hide Inv;
  }

  /** What a waiting member becomes when the holder was polled. */
  lemma OtherAfterPoll(f: Fdl, x: nat, s: set<nat>, h: nat, now: int, t: Telegram)
    requires Member(f, x, s) && IsWaiting(f) && IsRing(s) && h in s && x != h && Inv(f)
    requires if t.Token? then t == Token(Next(s, h), h) else Harmless(t, s - {h})
    ensures var g := Receive(f, now, t);
            && Member(g, x, s) && g.gap == f.gap && g.p == f.p
            && if t.Token? && x == Next(s, h) then HasToken(g) && g.state.UseToken? else IsWaiting(g)
  {
    if t.Token? {
      HearPass(f, x, s, now, h);
    } else {
      MemberHearsHarmless(f, x, s, now, t);
    }
  }

  /** A polled holder that asks no member keeps the ring in agreement, and only its own sweep moves. */
  lemma PollKeepsAgreed(bus: map<nat, Fdl>, s: set<nat>, h: nat, input: Input, heard: nat -> int)
    requires Agreed(bus, s, h) && InputOk(bus[h], input) && Undisturbed(bus[h], input, s)
    requires !AsksMember(Poll(bus[h], input), s)
    ensures AllSound(bus)
    ensures var step := PollOf(h, input, heard);
            && Agreed(BusNext(bus, h, step), s, HolderAfter(bus, h, step))
            && HolderAfter(bus, h, step) == (if Passes(bus, h, step) then Next(s, h) else h)
            && (Passes(bus, h, step) && Next(s, h) != h ==> BusNext(bus, h, step)[Next(s, h)].state.UseToken?)
            && OthersKeepGap(bus, BusNext(bus, h, step), h)
  {
    hide Inv, IsWaiting, HasToken, Poll, Receive, Undisturbed, Member, Knows, Harmless;
    AgreedIsSound(bus, s, h);
    var t := Sends(bus[h], input);
    HolderOutcome(bus[h], h, s, input);
    var next := BusNext(bus, h, PollOf(h, input, heard));
    forall x | x in s && x != h
      ensures Member(next[x], x, s) && next[x].gap == bus[x].gap && next[x].p == bus[x].p
      ensures if t.Some? && t.value.Token? && x == Next(s, h)
              then HasToken(next[x]) && next[x].state.UseToken? else IsWaiting(next[x])
    {
      if t.Some? {
        OtherAfterPoll(bus[x], x, s, h, heard(x), t.value);
      }
    }
  }

  ghost predicate OthersKeepGap(bus: map<nat, Fdl>, next: map<nat, Fdl>, h: nat) {
    bus.Keys == next.Keys && forall x | x in bus && x != h :: next[x].gap == bus[x].gap && next[x].p == bus[x].p
  }

  lemma StepStaysClearInRing(f: Fdl, x: nat, s: set<nat>, input: Input)
    requires Knows(f, x, s) && HasToken(f) && InputOk(f, input) && Undisturbed(f, input, s) && Clear(f, s)
    ensures var g := Poll(f, input);
            && Clear(g, s)
            && (|g.log.sent| != |f.log.sent| && g.state.AwaitStatusResponse? ==> g.state.address !in s - {x})
  {
    hide WellFormed, Poll, Undisturbed;
    HolderPolls(f, x, s, s, input);
    NeighboursOfKnowing(f, x, s);
    StepStaysClear(f, Poll(f, input), x, s, s, s);
  }

  lemma HolderOutcome(f: Fdl, x: nat, s: set<nat>, input: Input)
    requires Member(f, x, s) && HasToken(f) && InputOk(f, input) && Undisturbed(f, input, s) && IsRing(s)
    requires !AsksMember(Poll(f, input), s)
    ensures var g, t := Poll(f, input), Sends(f, input);
            && Member(g, x, s) && g.p == f.p
            && (t.Some? && !t.value.Token? ==> Harmless(t.value, s - {x}))
            && (t.Some? && t.value.Token? ==> t.value == Token(Next(s, x), x))
            && (t.Some? && t.value.Token? ==> if Next(s, x) != x then IsWaiting(g) else g.state.UseToken?)
            && (t.None? || !t.value.Token? || Next(s, x) == x ==> HasToken(g))
  {
    hide WellFormed, Poll, Undisturbed;
    PollIsDisciplined(f, input);
    HolderPolls(f, x, s, s, input);
  }

  /** A clear sweep asks no member, and stays clear. */
  lemma HolderStaysClear(f: Fdl, x: nat, s: set<nat>, input: Input)
    requires Member(f, x, s) && HasToken(f) && InputOk(f, input) && Undisturbed(f, input, s)
    requires Clear(f, s) && !AsksMember(f, s)
    ensures var g := Poll(f, input); Clear(g, s) && !AsksMember(g, s)
  {
    hide WellFormed, Poll, Undisturbed, Clear;
    HolderPolls(f, x, s, s, input);
    StepStaysClearInRing(f, x, s, input);
  }

  lemma PollKeepsSteady(bus: map<nat, Fdl>, s: set<nat>, h: nat, input: Input, heard: nat -> int)
    requires Steady(bus, s, h) && InputOk(bus[h], input) && Undisturbed(bus[h], input, s)
    ensures AllSound(bus)
    ensures var step := PollOf(h, input, heard);
            && Steady(BusNext(bus, h, step), s, HolderAfter(bus, h, step))
            && HolderAfter(bus, h, step) == (if Passes(bus, h, step) then Next(s, h) else h)
  {
    hide Inv, IsWaiting, HasToken, Poll, Receive, Undisturbed;
    AgreedIsSound(bus, s, h);
    HolderStaysClear(bus[h], h, s, input);
    PollKeepsAgreed(bus, s, h, input, heard);
    ClearCarriesOver(bus, BusNext(bus, h, PollOf(h, input, heard)), s, h, HolderAfter(bus, h, PollOf(h, input, heard)));
  }

  /** Clearness depends on the sweep and the ring only. */
  lemma ClearCarriesOver(bus: map<nat, Fdl>, next: map<nat, Fdl>, s: set<nat>, h: nat, after: nat)
    requires Agreed(bus, s, h) && Agreed(next, s, after) && OthersKeepGap(bus, next, h)
    ensures forall x | x in s && x != h :: Clear(next[x], s) <==> Clear(bus[x], s)
  {
    hide Inv;
    forall x | x in s && x != h ensures Clear(next[x], s) <==> Clear(bus[x], s) {
      NeighboursOfKnowing(bus[x], x, s);
      NeighboursOfKnowing(next[x], x, s);
    }
  }

  lemma PassiveKeepsSteady(bus: map<nat, Fdl>, s: set<nat>, h: nat, heard: nat -> int, t: Telegram)
    requires Steady(bus, s, h) && Harmless(t, s)
    ensures AllSound(bus) && Steady(BusNext(bus, h, PassiveHeard(heard, t)), s, h)
  {
    hide Inv, Receive, Member, Knows;
    AgreedIsSound(bus, s, h);
    var next := BusNext(bus, h, PassiveHeard(heard, t));
    forall x | x in s && x != h
      ensures Member(next[x], x, s) && IsWaiting(next[x]) && next[x].gap == bus[x].gap && next[x].p == bus[x].p
    {
      OtherAfterPoll(bus[x], x, s, h, heard(x), t);
    }
    ClearCarriesOver(bus, next, s, h, h);
  }

  lemma WaitingKeepsSteady(bus: map<nat, Fdl>, s: set<nat>, h: nat, x: nat, input: Input)
    requires Steady(bus, s, h) && x in s && x != h && Idle(bus[x], input)
    ensures AllSound(bus) && Steady(BusNext(bus, h, PollIdle(x, input)), s, h)
  {
    hide Poll, Inv, Knows;
    AgreedIsSound(bus, s, h);
    var f := bus[x];
    IdlePollWaits(f, input);
    ClockDoesNotMatter(f, Poll(f, input).lastBusActivity, x, s);
  }

  lemma ClockDoesNotMatter(f: Fdl, clock: Option<int>, x: nat, s: set<nat>)
    ensures Member(f, x, s) ==> Member(f.(lastBusActivity := clock), x, s)
    ensures Knows(f, x, s) ==> Knows(f.(lastBusActivity := clock), x, s)
    ensures Inv(f) ==> Inv(f.(lastBusActivity := clock))
    ensures Clear(f.(lastBusActivity := clock), s) == Clear(f, s)
    ensures var g := f.(lastBusActivity := clock);
            HasToken(g) == HasToken(f) && IsWaiting(g) == IsWaiting(f) && AttemptOf(g) == AttemptOf(f)
  {
  }

  /** A station with the token and nobody else in its LAS is a ring of its own. */
  lemma LoneStationIsSteady(f: Fdl)
    requires Inv(f) && f.online && HasToken(f) && f.ring.las == {f.p.address}
    ensures Steady(map[f.p.address := f], {f.p.address}, f.p.address)
  {
  }

  /** Every step keeps the ring steady: one token holder, everybody's LAS equal to the ring, every sweep
      clear. */
  lemma StepKeepsSteady(bus: map<nat, Fdl>, s: set<nat>, h: nat, step: BusStep)
    requires Steady(bus, s, h) && StepOk(bus, s, h, step)
    ensures AllSound(bus) && Steady(BusNext(bus, h, step), s, HolderAfter(bus, h, step))
    ensures HolderAfter(bus, h, step) == if Passes(bus, h, step) then Next(s, h) else h
  {
    hide Inv, Poll, Receive, Undisturbed;
    AgreedIsSound(bus, s, h);
    match step
    case PollOf(x, input, heard) =>
      if x == h {
        PollKeepsSteady(bus, s, h, input, heard);
      }
    case PollIdle(x, input) => WaitingKeepsSteady(bus, s, h, x, input);
    case PassiveHeard(heard, t) => PassiveKeepsSteady(bus, s, h, heard, t);
  }

  // ---------------------------------------------------------------------------------------------
  // Runs of the bus
  // ---------------------------------------------------------------------------------------------

  /** The bus, its holder, and how often the token was handed over so far. */
  datatype Moment = Moment(bus: map<nat, Fdl>, holder: nat, passes: nat)

  /** `b` follows `a` by one allowed step. */
  ghost predicate Follows(s: set<nat>, a: Moment, step: BusStep, b: Moment) {
    && AllSound(a.bus) && a.holder in a.bus && StepOk(a.bus, s, a.holder, step)
    && b.bus == BusNext(a.bus, a.holder, step)
    && b.holder == HolderAfter(a.bus, a.holder, step)
    && b.passes == a.passes + if Passes(a.bus, a.holder, step) then 1 else 0
  }

  ghost predicate IsRun(s: set<nat>, run: seq<Moment>, steps: seq<BusStep>) {
    && |run| == |steps| + 1
    && forall i | 0 <= i < |steps| :: Follows(s, run[i], steps[i], run[i + 1])
  }

  /** Over every run the ring stays steady, and the holder is found by following as many successors as
      there were passes. */
  lemma {:induction false} RunKeepsSteady(s: set<nat>, run: seq<Moment>, steps: seq<BusStep>, i: nat)
    requires IsRun(s, run, steps) && i < |run|
    requires Steady(run[0].bus, s, run[0].holder) && run[0].passes == 0
    ensures Steady(run[i].bus, s, run[i].holder) && run[i].holder == Walk(s, run[0].holder, run[i].passes)
  {
    hide Steady, BusNext, HolderAfter, Passes, StepOk, AllSound;
    if i > 0 {
      RunKeepsSteady(s, run, steps, i - 1);
      var m := run[i - 1];
      assert Follows(s, m, steps[i - 1], run[i]);
      StepKeepsSteady(m.bus, s, m.holder, steps[i - 1]);
    }
  }

  lemma HoldersOfAgreed(bus: map<nat, Fdl>, s: set<nat>, h: nat)
    requires Agreed(bus, s, h)
    ensures h in s && bus.Keys == s
    ensures forall x | x in s :: bus[x].ring.las == s && (HasToken(bus[x]) <==> x == h)
  {
    hide Inv;
  }

  /** In a stable ring, every run keeps exactly one token holder and every LAS, and the holder is as many
      places around the ring as there were passes.  (That each round of passes meets every member
      exactly once is `TourMeetsEachOnce`.) */
  lemma StableRing(s: set<nat>, run: seq<Moment>, steps: seq<BusStep>, i: nat)
    requires IsRun(s, run, steps) && i < |run|
    requires Steady(run[0].bus, s, run[0].holder) && run[0].passes == 0
    ensures run[i].bus.Keys == s
    ensures forall x | x in s ::
              && run[i].bus[x].ring.las == s
              && (HasToken(run[i].bus[x]) <==> MeetsAt(s, run[0].holder, run[i].passes, x))
  {
    hide Agreed, Clear, BusNext, HolderAfter, Passes;
    RunKeepsSteady(s, run, steps, i);
    HoldersOfAgreed(run[i].bus, s, run[i].holder);
  }
}
