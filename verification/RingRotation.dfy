/**
 How long the token needs to go around a ring, from runs of the bus.

 A ledger is kept beside the run: whenever the token arrives at a station, a new hold is opened, and whenever the
 holder transmits a telegram of an application, the time is noted.  Of this ledger it is proved that every station
 computes its hold time from its own previous arrival and begins only its first telegram later than that.
 */
module RingRotation {
  import opened BusParameters
  import opened CyclicOrder
  import opened Telegrams
  import opened TokenRings
  import opened Stabilisation
  import opened Stations
  import opened Scheduling
  import opened BusDiscipline
  import opened TokenRotation
  import opened Buses
  import opened TokenBus

  /** One hold of the token: when the token arrived, which earlier arrival the station remembered then, and when
      the telegrams of its applications began. */
  datatype Hold = Hold(station: nat, arrival: int, previous: int, starts: seq<int>)

  // ---------------------------------------------------------------------------------------------
  // One station
  // ---------------------------------------------------------------------------------------------

  /** The station is in this hold. */
  ghost predicate InHold(f: Fdl, hold: Hold) {
    && Holding(f) && f.state.data.tokenTime == hold.arrival && |hold.starts| <= |f.log.sent|
    && (f.lastTokenTime != hold.arrival ==> f.lastTokenTime == hold.previous && hold.starts == [] && f.state.UseToken?)
    && hold.starts == StartsOf(f, |f.log.sent| - |hold.starts|)
    && (hold.previous != hold.arrival ==>
          HoldsByTheRule(f, hold.arrival, hold.previous, |f.log.sent| - |hold.starts|))
  }

  /** Only the first telegram begins later than a rotation time after the previous arrival. */
  ghost predicate KeepsRule(hold: Hold, ttr: nat) {
    hold.previous != hold.arrival ==> forall i | 0 < i < |hold.starts| :: hold.starts[i] < hold.previous + ttr
  }

  lemma InHoldKeepsRule(f: Fdl, hold: Hold)
    requires InHold(f, hold)
    ensures KeepsRule(hold, f.p.TokenRotationTime())
  {
    var first := |f.log.sent| - |hold.starts|;
    forall i | 0 < i < |hold.starts| && hold.previous != hold.arrival
      ensures hold.starts[i] < hold.previous + f.p.TokenRotationTime()
    {
      assert StartsOf(f, first)[i] == f.log.sent[first + i].at;
    }
  }

  /** The hold after a poll: a telegram that was sent without letting go of the token is noted. */
  ghost function Noted(hold: Hold, f: Fdl, g: Fdl, now: int): Hold {
    if Holding(g) && |g.log.sent| != |f.log.sent| then hold.(starts := hold.starts + [now]) else hold
  }

  /** What using the token does to the times that the station remembers. */
  lemma UsingRemembersArrival(f: Fdl, now: int, answers: seq<Option<Telegram>>)
    requires f.state.UseToken? && (|answers| > 0 ==> f.nextApplication < |answers|)
    ensures var g, time := DoUseToken(f, now, answers), f.state.data.tokenTime;
            && g.lastTokenTime == time
            && (Holding(g) ==> g.state.data.tokenTime == time) && (Holding(g) || g.state.PassToken?)
            && (!Holding(g) ==> g.log.sent == f.log.sent)
  {
    var g := Touch(StartHold(f), now);
    var asked := g.(state := UseToken(g.state.data, true));
    AskingTransmitsOnce(asked, now, answers, now >= g.endTokenHoldTime, |answers|);
  }

  /** When a station lets go of the token, it remembers the arrival of the token. */
  lemma HoldingRemembersArrival(f: Fdl, input: Input)
    requires Inv(f) && f.online && InputOk(f, input) && Holding(f)
    requires f.state.AwaitDataResponse? ==> f.lastTokenTime == f.state.data.tokenTime
    ensures var g, time := Poll(f, input), f.state.data.tokenTime;
            && (g.lastTokenTime == time || (g.lastTokenTime == f.lastTokenTime && g.state == f.state && g.log == f.log))
            && (Holding(g) || g.state.PassToken? || g.state.ActiveIdle?)
            && (Holding(g) ==> g.state.data.tokenTime == time)
            && (g.state.PassToken? ==> g.lastTokenTime == time && g.log.sent == f.log.sent)
  {
    if !(input.phyBusy || Transmitting(f, input.now)) {
      hide WellFormed, AllBelow, Consistent, DoUseToken;
      var h := CheckForBusActivity(f, input.now, input.counted);
      if h.state.UseToken? {
        UsingRemembersArrival(h, input.now, input.answers);
      } else {
        UsingRemembersArrival(GiveUpOnReply(Touch(h, input.now)), input.now, input.answers);
      }
    }
  }

  /** A poll during a hold leaves the station in the same hold, or it has passed through it by the rule. */
  lemma HoldGoesOn(f: Fdl, input: Input, hold: Hold)
    requires Inv(f) && f.online && InputOk(f, input) && InHold(f, hold) && !Poll(f, input).state.ActiveIdle?
    ensures var g := Poll(f, input);
            && (Holding(g) ==> InHold(g, Noted(hold, f, g, input.now)))
            && (!Holding(g) ==> g.state.PassToken? && g.lastTokenTime == hold.arrival && g.log.sent == f.log.sent)
  {
    hide Sane, StateOk, AnswersOk, Poll, Disciplined;
    var g, first := Poll(f, input), |f.log.sent| - |hold.starts|;
    HoldingRemembersArrival(f, input);
    SentGrows(f, input);
    if hold.previous != hold.arrival {
      PollFollowsTheRule(f, input, hold.arrival, hold.previous, first);
    }
  }

  lemma SentGrows(f: Fdl, input: Input)
    requires Inv(f) && InputOk(f, input)
    ensures var g := Poll(f, input);
            && f.log.sent <= g.log.sent && |g.log.sent| <= |f.log.sent| + 1 && g.p == f.p
            && (|g.log.sent| != |f.log.sent| ==> g.log.sent[|f.log.sent|].at == input.now)
  {
    hide Inv, InputOk, Poll;
    PollIsDisciplined(f, input);
  }

  lemma {:induction false} AskingSendsAnswer(f: Fdl, now: int, answers: seq<Option<Telegram>>, high: bool, asks: nat)
    requires f.state.UseToken? && (|answers| > 0 ==> f.nextApplication < |answers|)
    ensures var g := AskApplications(f, now, answers, high, asks).0;
            g.log.sent == f.log.sent ||
            (&& |g.log.sent| == |f.log.sent| + 1 && f.log.sent <= g.log.sent
             && Some(g.log.sent[|f.log.sent|].telegram) in answers)
    decreases asks
  {
    if asks > 0 && answers != [] && answers[f.nextApplication].None? {
      AskingSendsAnswer(Decline(f, high, |answers|), now, answers, high, asks - 1);
    }
  }

  lemma UsingSendsAnswer(f: Fdl, now: int, answers: seq<Option<Telegram>>)
    requires f.state.UseToken? && (|answers| > 0 ==> f.nextApplication < |answers|)
    ensures var g := DoUseToken(f, now, answers);
            g.log.sent == f.log.sent ||
            (&& |g.log.sent| == |f.log.sent| + 1 && f.log.sent <= g.log.sent
             && Some(g.log.sent[|f.log.sent|].telegram) in answers)
  {
    var g := Touch(StartHold(f), now);
    AskingSendsAnswer(g.(state := UseToken(g.state.data, true)), now, answers, now >= g.endTokenHoldTime, |answers|);
  }

  /** During a hold a station transmits what its applications want, and never the token. */
  lemma HoldingSendsNoToken(f: Fdl, input: Input, quiet: set<nat>)
    requires Inv(f) && f.online && InputOk(f, input) && Holding(f) && AppsAreHarmless(f, input.answers, quiet)
    ensures Sends(f, input).Some? ==> !Sends(f, input).value.Token?
  {
    PollIsDisciplined(f, input);
    if !(input.phyBusy || Transmitting(f, input.now)) {
      hide WellFormed, AllBelow, Consistent, DoUseToken, Harmless;
      var h := CheckForBusActivity(f, input.now, input.counted);
      if h.state.UseToken? {
        UsingSendsAnswer(h, input.now, input.answers);
      } else {
        UsingSendsAnswer(GiveUpOnReply(Touch(h, input.now)), input.now, input.answers);
      }
    }
  }

  lemma PassingKeepsTime(f: Fdl, now: int)
    requires Sane(f) && f.state.PassToken?
    ensures var g := DoPassToken(f, now);
            && g.lastTokenTime == f.lastTokenTime
            && (Holding(g) ==> g.state == UseToken(UseTokenData(now, None), false) && g.lastBusActivity.Some?)
            && (Holding(g) ==> g.lastBusActivity.value >= now)
            && (Holding(g) ==> |g.log.sent| == |f.log.sent| + 1 && g.log.sent[|f.log.sent|].telegram.Token?)
  {
    hide WellFormed, Witness;
    AdvanceGapStaysSane(Touch(f, now));
  }

  /** Between two holds the remembered time does not change; a station that is alone opens its next hold with its
      own token. */
  lemma BetweenHolds(f: Fdl, input: Input)
    requires Inv(f) && f.online && InputOk(f, input) && (f.state.PassToken? || f.state.AwaitStatusResponse?)
    ensures var g := Poll(f, input);
            && g.lastTokenTime == f.lastTokenTime
            && (Holding(g) ==> InHold(g, Hold(f.p.address, input.now, f.lastTokenTime, [])))
            && (Holding(g) ==> g.lastBusActivity.Some? && g.lastBusActivity.value >= input.now)
            && (Holding(g) ==> |g.log.sent| == |f.log.sent| + 1 && g.log.sent[|f.log.sent|].telegram.Token?)
  {
    if !(input.phyBusy || Transmitting(f, input.now)) {
      hide WellFormed, AllBelow, Consistent, DoPassToken;
      var h := CheckForBusActivity(f, input.now, input.counted);
      if h.state.PassToken? {
        PassingKeepsTime(h, input.now);
      } else {
        var (a, response) := AwaitGapPollResponse(h, input.now, input.rx, h.state.address);
        if response == NoResponse {
          PassingKeepsTime(ToPassToken(a, false, Attempt.First), input.now);
        }
      }
    }
  }

  lemma HearingKeepsTime(f: Fdl, now: int, t: Telegram)
    requires Inv(f) && IsWaiting(f)
    ensures var g := Receive(f, now, t); g.lastTokenTime == f.lastTokenTime && g.p == f.p
  {
    HearIsHandle(f, now, t);
  }

  /** A station that takes the token opens a hold. */
  lemma TakingOpensHold(f: Fdl, x: nat, s: set<nat>, now: int, h: nat)
    requires Member(f, x, s) && IsWaiting(f) && IsRing(s) && h in s && h != x && x == Next(s, h) && Inv(f)
    ensures var g := Receive(f, now, Token(x, h));
            && InHold(g, Hold(x, now, f.lastTokenTime, []))
            && g.lastBusActivity.Some? && g.lastBusActivity.value >= now
  {
    HearIsHandle(f, now, Token(x, h));
    PreviousOfNext(s, h);
    var g := MarkRx(EnterActiveIdle(f, Token(x, h)), now);
    var idle := g.(state := ActiveIdle(g.state.statusRequest, g.state.newPreviousStation, 0));
    if f.lastTokenTime != now {
      NewHoldFollowsTheRule(idle, now);
    }
  }

  // ---------------------------------------------------------------------------------------------
  // The ledger
  // ---------------------------------------------------------------------------------------------

  /** When the token arrives at `to` that `from` passes on in this step. */
  ghost function Arrival(step: BusStep, from: nat, to: nat): int {
    if !step.PollOf? then 0 else if from == to then step.input.now else step.heard(to)
  }

  ghost function Remembered(bus: map<nat, Fdl>, x: nat): int {
    if x in bus then bus[x].lastTokenTime else 0
  }

  /** The ledger after a step: a pass opens a hold, a poll of the holder may add a telegram to the last one. */
  ghost function Booked(holds: seq<Hold>, m: Moment, step: BusStep, next: Moment): seq<Hold> {
    var h, k := m.holder, |holds|;
    if next.passes != m.passes then
      holds + [Hold(next.holder, Arrival(step, h, next.holder), Remembered(m.bus, next.holder), [])]
    else if holds != [] && step.PollOf? && step.station == h && h in m.bus && h in next.bus then
      holds[..k - 1] + [Noted(holds[k - 1], m.bus[h], next.bus[h], step.input.now)]
    else holds
  }

  ghost function Ledger(run: seq<Moment>, steps: seq<BusStep>, i: nat): seq<Hold>
    requires i <= |steps| < |run|
  {
    if i == 0 then [] else Booked(Ledger(run, steps, i - 1), run[i - 1], steps[i - 1], run[i])
  }

  // ---------------------------------------------------------------------------------------------
  // What the ledger says
  // ---------------------------------------------------------------------------------------------

  /** The holds go around the ring, one after the other. */
  ghost predicate GoAround(holds: seq<Hold>, s: set<nat>, origin: nat) {
    && (forall j | 0 <= j < |holds| :: holds[j].station == Walk(s, origin, j + 1))
    && (forall j | 0 <= j < |holds| - 1 :: ArrivesBeforeNext(holds, j))
  }

  predicate ArrivesBeforeNext(holds: seq<Hold>, j: nat)
    requires j < |holds| - 1
  {
    holds[j].arrival < holds[j + 1].arrival
  }

  predicate KnowsRotation(holds: seq<Hold>, n: nat, j: nat)
    requires n <= j < |holds|
  {
    holds[j].previous == holds[j - n].arrival
  }

  /** What a station remembers when the token arrives is its previous arrival, one rotation before, and it keeps
      its hold time. */
  ghost predicate FollowRule(holds: seq<Hold>, n: nat, ttr: nat) {
    && (forall j | n <= j < |holds| :: KnowsRotation(holds, n, j))
    && (forall j | 0 <= j < |holds| :: KeepsRule(holds[j], ttr))
  }

  /** The holder is in the last hold, or has let go of the token. */
  ghost predicate Current(f: Fdl, hold: Hold) {
    && f.lastBusActivity.Some? && f.lastBusActivity.value >= hold.arrival
    && if Holding(f) then InHold(f, hold) else f.lastTokenTime == hold.arrival
  }

  /** Everyone who had the token during the last rotation remembers when it arrived. */
  ghost predicate AllRemember(holds: seq<Hold>, n: nat, bus: map<nat, Fdl>) {
    forall j | 0 <= j < |holds| - 1 && |holds| - n <= j :: Remembered(bus, holds[j].station) == holds[j].arrival
  }

  ghost predicate SameRotationTime(bus: map<nat, Fdl>, ttr: nat) {
    forall x | x in bus :: bus[x].p.TokenRotationTime() == ttr
  }

  ghost predicate Booking(s: set<nat>, origin: nat, m: Moment, holds: seq<Hold>, ttr: nat) {
    && |holds| == m.passes && m.holder == Walk(s, origin, m.passes) && m.holder in m.bus
    && GoAround(holds, s, origin) && FollowRule(holds, |s|, ttr) && AllRemember(holds, |s|, m.bus)
    && SameRotationTime(m.bus, ttr)
    && (holds != [] ==> Current(m.bus[m.holder], holds[|holds| - 1]))
  }

  /** Nobody hears a telegram before its transmission has begun. */
  ghost predicate HeardInTime(step: BusStep) {
    step.PollOf? ==> forall x: nat :: step.input.now <= step.heard(x)
  }

  // ---------------------------------------------------------------------------------------------
  // One step
  // ---------------------------------------------------------------------------------------------

  /** A step changes nobody's memory but that of the holder, and nobody's parameters. */
  lemma StepKeepsTimes(s: set<nat>, m: Moment, step: BusStep, next: Moment, x: nat)
    requires Steady(m.bus, s, m.holder) && Follows(s, m, step, next) && x in s
    ensures x in m.bus && x in next.bus && next.bus.Keys == m.bus.Keys
    ensures next.bus[x].p == m.bus[x].p
    ensures x != m.holder ==> next.bus[x].lastTokenTime == m.bus[x].lastTokenTime
    ensures x == m.holder && !step.PollOf? ==> next.bus[x] == m.bus[x]
  {
    hide Poll, Receive, Undisturbed, Member, Knows, Clear, Walk;
    AgreedIsSound(m.bus, s, m.holder);
    match step
    case PollOf(y, input, heard) =>
      var t := Sends(m.bus[y], input);
      if x == y {
        SentGrows(m.bus[x], input);
      } else if t.Some? {
        HearingKeepsTime(m.bus[x], heard(x), t.value);
      }
    case PollIdle(y, input) =>
      if x == y {
        IdlePollWaits(m.bus[x], input);
      }
    case PassiveHeard(heard, t) =>
      if x != m.holder {
        HearingKeepsTime(m.bus[x], heard(x), t);
      }
  }

  /** A poll of the holder that does not pass the token on. */
  lemma HolderStaysCurrent(f: Fdl, x: nat, s: set<nat>, input: Input, hold: Hold)
    requires Member(f, x, s) && HasToken(f) && InputOk(f, input) && Undisturbed(f, input, s)
    requires Current(f, hold) && (Sends(f, input).Some? ==> !Sends(f, input).value.Token?)
    ensures Current(Poll(f, input), Noted(hold, f, Poll(f, input), input.now))
  {
    hide Sane, StateOk, Poll, Undisturbed, InHold;
    PollIsDisciplined(f, input);
    HolderPolls(f, x, s, s, input);
    if Holding(f) {
      HoldGoesOn(f, input, hold);
    } else {
      BetweenHolds(f, input);
    }
  }

  /** A pass comes after the hold: the holder keeps its memory, and waited for the pause since the arrival. */
  lemma PassEndsHold(f: Fdl, x: nat, s: set<nat>, input: Input)
    requires Member(f, x, s) && HasToken(f) && InputOk(f, input) && Undisturbed(f, input, s)
    requires Sends(f, input).Some? && Sends(f, input).value.Token?
    ensures !Holding(f) && Poll(f, input).lastTokenTime == f.lastTokenTime
    ensures f.lastBusActivity.Some? && input.now > f.lastBusActivity.value
  {
    hide Sane, StateOk, Poll;
    PollIsDisciplined(f, input);
    if Holding(f) {
      HoldingSendsNoToken(f, input, s);
    } else {
      BetweenHolds(f, input);
    }
  }

  lemma {:induction false} WalkSplits(s: set<nat>, x: nat, i: nat, j: nat)
    ensures Walk(s, x, i + j) == Walk(s, Walk(s, x, i), j)
    decreases j
  {
    if j > 0 {
      WalkSplits(s, x, i, j - 1);
      assert i + j - 1 == i + (j - 1);
    }
  }

  lemma WalkRepeats(s: set<nat>, x: nat, i: nat)
    requires x in s
    ensures Walk(s, x, i + |s|) == Walk(s, x, i)
  {
    WalkSplits(s, x, i, |s|);
    WalkCloses(s, Walk(s, x, i));
  }

  /** Within one rotation the holders are different stations. */
  lemma HoldersDiffer(s: set<nat>, x: nat, i: nat, j: nat)
    requires x in s && i < j < i + |s|
    ensures Walk(s, x, i) != Walk(s, x, j)
  {
    WalkSplits(s, x, i, j - i);
    WalkIsInjective(s, Walk(s, x, i), 0, j - i);
  }

  /** What a pass does to the stations. */
  lemma PassOpensHold(s: set<nat>, m: Moment, step: BusStep, next: Moment)
    requires Steady(m.bus, s, m.holder) && Follows(s, m, step, next) && HeardInTime(step)
    requires next.passes != m.passes
    ensures m.holder in m.bus && next.holder in m.bus && next.holder in next.bus
    ensures next.holder == Next(s, m.holder) && next.passes == m.passes + 1
    ensures var f, hold := m.bus[m.holder],
                Hold(next.holder, Arrival(step, m.holder, next.holder), m.bus[next.holder].lastTokenTime, []);
            && !Holding(f) && f.lastBusActivity.Some? && hold.arrival > f.lastBusActivity.value
            && Current(next.bus[next.holder], hold)
    ensures next.bus[m.holder].lastTokenTime == m.bus[m.holder].lastTokenTime
  {
    hide Sane, StateOk, Poll, Receive, InHold, Clear;
    AgreedIsSound(m.bus, s, m.holder);
    StepKeepsSteady(m.bus, s, m.holder, step);
    var h, v, input := m.holder, next.holder, step.input;
    var f := m.bus[h];
    PassEndsHold(f, h, s, input);
    HolderStaysClear(f, h, s, input);
    HolderOutcome(f, h, s, input);
    if v == h {
      BetweenHolds(f, input);
    } else {
      TakingOpensHold(m.bus[v], v, s, step.heard(v), h);
    }
  }

  lemma RotationTimeStays(s: set<nat>, m: Moment, step: BusStep, next: Moment, ttr: nat)
    requires Steady(m.bus, s, m.holder) && Follows(s, m, step, next) && SameRotationTime(m.bus, ttr)
    ensures SameRotationTime(next.bus, ttr)
  {
    hide Agreed, Clear, Follows;
    AgreedIsSound(m.bus, s, m.holder);
    forall x | x in next.bus ensures next.bus[x].p.TokenRotationTime() == ttr {
      assert next.bus.Keys == m.bus.Keys by { StepKeepsTimes(s, m, step, next, m.holder); }
      StepKeepsTimes(s, m, step, next, x);
    }
  }

  lemma RoundGoesOn(holds: seq<Hold>, s: set<nat>, origin: nat, hold: Hold)
    requires GoAround(holds, s, origin) && hold.station == Walk(s, origin, |holds| + 1)
    requires holds != [] ==> holds[|holds| - 1].arrival < hold.arrival
    ensures GoAround(holds + [hold], s, origin)
  {
    hide Walk;
    forall j | 0 <= j < |holds| ensures ArrivesBeforeNext(holds + [hold], j) {
      assert j < |holds| - 1 ==> ArrivesBeforeNext(holds, j);
    }
  }

  /** The ledger grows by a hold of the next station, whose memory is its arrival of one rotation before. */
  lemma FollowRuleGrows(holds: seq<Hold>, n: nat, ttr: nat, hold: Hold)
    requires FollowRule(holds, n, ttr) && KeepsRule(hold, ttr)
    requires n <= |holds| ==> KnowsRotation(holds + [hold], n, |holds|)
    ensures FollowRule(holds + [hold], n, ttr)
  {
    hide KeepsRule;
    forall j | n <= j <= |holds| ensures KnowsRotation(holds + [hold], n, j) {
      if j < |holds| {
        assert KnowsRotation(holds, n, j);
      }
    }
  }

  lemma NewestKnowsRotation(holds: seq<Hold>, s: set<nat>, origin: nat, bus: map<nat, Fdl>, hold: Hold)
    requires origin in s && GoAround(holds, s, origin) && AllRemember(holds, |s|, bus)
    requires holds != [] ==> Remembered(bus, holds[|holds| - 1].station) == holds[|holds| - 1].arrival
    requires hold.station == Walk(s, origin, |holds| + 1) && hold.previous == Remembered(bus, hold.station)
    ensures |s| <= |holds| ==> KnowsRotation(holds + [hold], |s|, |holds|)
  {
    hide Walk, Remembered, ArrivesBeforeNext;
    if |s| <= |holds| {
      var earlier := holds[|holds| - |s|];
      WalkRepeats(s, origin, |holds| + 1 - |s|);
      assert earlier.station == hold.station;
    }
  }

  lemma LedgerGrows(holds: seq<Hold>, s: set<nat>, origin: nat, bus: map<nat, Fdl>, hold: Hold, ttr: nat)
    requires origin in s && GoAround(holds, s, origin) && FollowRule(holds, |s|, ttr) && AllRemember(holds, |s|, bus)
    requires holds != [] ==> Remembered(bus, holds[|holds| - 1].station) == holds[|holds| - 1].arrival
    requires hold.station == Walk(s, origin, |holds| + 1) && hold.previous == Remembered(bus, hold.station)
    requires hold.starts == []
    ensures FollowRule(holds + [hold], |s|, ttr)
  {
    hide Walk, Remembered, KeepsRule, FollowRule, GoAround, AllRemember, KnowsRotation;
    NewHoldKeepsRule(hold, ttr);
    NewestKnowsRotation(holds, s, origin, bus, hold);
    FollowRuleGrows(holds, |s|, ttr, hold);
  }

  /** Noting a telegram in the last hold changes nothing else. */
  lemma LedgerNotes(holds: seq<Hold>, s: set<nat>, origin: nat, noted: Hold, ttr: nat)
    requires holds != [] && GoAround(holds, s, origin) && FollowRule(holds, |s|, ttr)
    requires noted == holds[|holds| - 1].(starts := noted.starts) && KeepsRule(noted, ttr)
    ensures var booked := holds[..|holds| - 1] + [noted]; GoAround(booked, s, origin) && FollowRule(booked, |s|, ttr)
  {
    hide Walk, KeepsRule;
    var booked, n := holds[..|holds| - 1] + [noted], |s|;
    forall j | 0 <= j < |booked| - 1 ensures ArrivesBeforeNext(booked, j) {
      assert ArrivesBeforeNext(holds, j);
    }
    forall j | n <= j < |booked| ensures KnowsRotation(booked, n, j) {
      assert KnowsRotation(holds, n, j);
    }
  }

  lemma NewHoldKeepsRule(hold: Hold, ttr: nat)
    requires hold.starts == []
    ensures KeepsRule(hold, ttr)
  {
  }

  lemma PassIsRemembered(s: set<nat>, m: Moment, step: BusStep, next: Moment, holds: seq<Hold>, hold: Hold)
    requires Steady(m.bus, s, m.holder) && Follows(s, m, step, next) && next.passes != m.passes && HeardInTime(step)
    requires (forall j | 0 <= j < |holds| :: holds[j].station in s) && AllRemember(holds, |s|, m.bus)
    requires holds != [] ==> Remembered(m.bus, holds[|holds| - 1].station) == holds[|holds| - 1].arrival
    ensures AllRemember(holds + [hold], |s|, next.bus)
  {
    hide Agreed, Clear, Follows, HeardInTime, Current;
    PassOpensHold(s, m, step, next);
    forall j | 0 <= j < |holds| && |holds| + 1 - |s| <= j
      ensures Remembered(next.bus, holds[j].station) == holds[j].arrival
    {
      StepKeepsTimes(s, m, step, next, holds[j].station);
    }
  }

  /** A pass is booked as a new hold. */
  lemma BookPass(s: set<nat>, origin: nat, m: Moment, step: BusStep, next: Moment, holds: seq<Hold>, ttr: nat)
    requires Steady(m.bus, s, m.holder) && Follows(s, m, step, next) && HeardInTime(step)
    requires Booking(s, origin, m, holds, ttr) && next.passes != m.passes && origin in s
    ensures Booking(s, origin, next, Booked(holds, m, step, next), ttr)
  {
    hide Agreed, Clear, Follows, InHold, HeardInTime, FollowRule, AllRemember, SameRotationTime;
    PassOpensHold(s, m, step, next);
    RotationTimeStays(s, m, step, next, ttr);
    var v := next.holder;
    var hold := Hold(v, Arrival(step, m.holder, v), Remembered(m.bus, v), []);
    RoundGoesOn(holds, s, origin, hold);
    LedgerGrows(holds, s, origin, m.bus, hold, ttr);
    PassIsRemembered(s, m, step, next, holds, hold);
  }

  /** A poll of the holder may add a telegram to the last hold. */
  lemma BookPoll(s: set<nat>, origin: nat, m: Moment, step: BusStep, next: Moment, holds: seq<Hold>, ttr: nat)
    requires Steady(m.bus, s, m.holder) && Follows(s, m, step, next) && step.PollOf? && step.station == m.holder
    requires Booking(s, origin, m, holds, ttr) && next.passes == m.passes && origin in s
    ensures Booking(s, origin, next, Booked(holds, m, step, next), ttr)
  {
    hide Agreed, Clear, InHold, BusNext, KeepsRule, StepOk, AllRemember, GoAround, Current;
    RotationTimeStays(s, m, step, next, ttr);
    StepKeepsTimes(s, m, step, next, m.holder);
    if holds != [] {
      HolderBooks(s, m, step, next, holds[|holds| - 1]);
      LedgerNotes(holds, s, origin,
                  Noted(holds[|holds| - 1], m.bus[m.holder], next.bus[m.holder], step.input.now), ttr);
      PollIsRemembered(s, origin, m, step, next, holds, Booked(holds, m, step, next));
    } else {
      PollIsRemembered(s, origin, m, step, next, [], []);
    }
  }

  lemma PollIsRemembered(s: set<nat>, origin: nat, m: Moment, step: BusStep, next: Moment, holds: seq<Hold>,
                         booked: seq<Hold>)
    requires Steady(m.bus, s, m.holder) && Follows(s, m, step, next) && origin in s
    requires |booked| == |holds| && forall j | 0 <= j < |holds| - 1 :: booked[j] == holds[j]
    requires GoAround(holds, s, origin) && AllRemember(holds, |s|, m.bus) && m.holder == Walk(s, origin, |holds|)
    ensures AllRemember(booked, |s|, next.bus)
  {
    hide Agreed, Clear, Follows;
    forall j | 0 <= j < |holds| - 1 && |holds| - |s| <= j
      ensures Remembered(next.bus, booked[j].station) == booked[j].arrival
    {
      HoldersDiffer(s, origin, j + 1, |holds|);
      StepKeepsTimes(s, m, step, next, booked[j].station);
    }
  }

  lemma HolderBooks(s: set<nat>, m: Moment, step: BusStep, next: Moment, hold: Hold)
    requires Steady(m.bus, s, m.holder) && Follows(s, m, step, next) && step.PollOf? && step.station == m.holder
    requires next.passes == m.passes && m.holder in m.bus && Current(m.bus[m.holder], hold)
    ensures m.holder in next.bus
    ensures var f, g := m.bus[m.holder], next.bus[m.holder];
            && Current(g, Noted(hold, f, g, step.input.now))
            && (KeepsRule(hold, f.p.TokenRotationTime()) ==>
                  KeepsRule(Noted(hold, f, g, step.input.now), f.p.TokenRotationTime()))
  {
    hide Sane, StateOk, Poll, InHold, KeepsRule;
    var h, input := m.holder, step.input;
    HolderStaysCurrent(m.bus[h], h, s, input, hold);
    StepKeepsTimes(s, m, step, next, h);
    if Holding(next.bus[h]) {
      InHoldKeepsRule(next.bus[h], Noted(hold, m.bus[h], next.bus[h], input.now));
    }
  }

  lemma BookOther(s: set<nat>, origin: nat, m: Moment, step: BusStep, next: Moment, holds: seq<Hold>, ttr: nat)
    requires Steady(m.bus, s, m.holder) && Follows(s, m, step, next) && !step.PollOf?
    requires Booking(s, origin, m, holds, ttr) && origin in s
    ensures Booking(s, origin, next, Booked(holds, m, step, next), ttr)
  {
    hide Agreed, Clear, InHold, BusNext, KeepsRule, StepOk, AllRemember;
    RotationTimeStays(s, m, step, next, ttr);
    StepKeepsTimes(s, m, step, next, m.holder);
    PollIsRemembered(s, origin, m, step, next, holds, holds);
  }

  lemma BookStep(s: set<nat>, origin: nat, m: Moment, step: BusStep, next: Moment, holds: seq<Hold>, ttr: nat)
    requires Steady(m.bus, s, m.holder) && Follows(s, m, step, next) && HeardInTime(step)
    requires Booking(s, origin, m, holds, ttr) && origin in s
    ensures Booking(s, origin, next, Booked(holds, m, step, next), ttr)
  {
    hide Booking, Booked, Current, BusNext;
    if next.passes != m.passes {
      BookPass(s, origin, m, step, next, holds, ttr);
    } else if step.PollOf? {
      OnlyHolderIsPolled(s, m, step);
      BookPoll(s, origin, m, step, next, holds, ttr);
    } else {
      BookOther(s, origin, m, step, next, holds, ttr);
    }
  }

  /** In a steady ring nobody is asked, so that nobody but the holder has anything to do. */
  lemma OnlyHolderIsPolled(s: set<nat>, m: Moment, step: BusStep)
    requires Steady(m.bus, s, m.holder) && m.holder in m.bus && StepOk(m.bus, s, m.holder, step) && step.PollOf?
    ensures step.station == m.holder
  {
    hide Undisturbed, Inv, Clear;
  }

  // ---------------------------------------------------------------------------------------------
  // Whole runs
  // ---------------------------------------------------------------------------------------------

  /** In every run of a steady ring, the ledger says that the holds go around the ring, that every station computes
      its hold time from its own previous arrival, and that only the first telegram of a hold begins later. */
  lemma {:induction false} LedgerFollowsRule(s: set<nat>, run: seq<Moment>, steps: seq<BusStep>, ttr: nat, i: nat)
    requires IsRun(s, run, steps) && i < |run| && SameRotationTime(run[0].bus, ttr)
    requires Steady(run[0].bus, s, run[0].holder) && run[0].passes == 0
    requires forall j | 0 <= j < |steps| :: HeardInTime(steps[j])
    ensures Booking(s, run[0].holder, run[i], Ledger(run, steps, i), ttr)
  {
    hide Booked, Current, Agreed, Clear, Follows, HeardInTime;
    HoldersOfAgreed(run[0].bus, s, run[0].holder);
    if i > 0 {
      LedgerFollowsRule(s, run, steps, ttr, i - 1);
      RunKeepsSteady(s, run, steps, i - 1);
      assert Follows(s, run[i - 1], steps[i - 1], run[i]);
      BookStep(s, run[0].holder, run[i - 1], steps[i - 1], run[i], Ledger(run, steps, i - 1), ttr);
    }
  }

  /** The first telegram of a hold begins within `latency` after the arrival, and the last one, with the GAP poll
      and the pass that follow it, takes no longer than `cycle`. */
  ghost predicate Prompt(holds: seq<Hold>, latency: nat, cycle: nat) {
    forall j | 0 <= j < |holds| - 1 :: PromptHold(holds, j, latency, cycle)
  }

  predicate PromptHold(holds: seq<Hold>, j: nat, latency: nat, cycle: nat)
    requires j < |holds| - 1
  {
    var arrival, starts, next := holds[j].arrival, holds[j].starts, holds[j + 1].arrival;
    if starts == [] then next <= arrival + latency + cycle
    else starts[0] <= arrival + latency && next <= starts[|starts| - 1] + cycle
  }

  /** In every run of a steady ring of `n` stations with the same target rotation time, when cycles and polls take no
      longer than given, every rotation of the token takes at most the target rotation time and one cycle with
      its latency per station. */
  lemma RotationOnBusIsBounded(s: set<nat>, run: seq<Moment>, steps: seq<BusStep>, ttr: nat,
                               latency: nat, cycle: nat, i: nat)
    requires IsRun(s, run, steps) && SameRotationTime(run[0].bus, ttr)
    requires Steady(run[0].bus, s, run[0].holder) && run[0].passes == 0
    requires forall j | 0 <= j < |steps| :: HeardInTime(steps[j])
    requires var holds := Ledger(run, steps, |steps|);
             Prompt(holds, latency, cycle) && |s| <= i && i + |s| < |holds|
    ensures var holds := Ledger(run, steps, |steps|);
            && |holds| == run[|steps|].passes && holds[i + |s|].station == holds[i].station
            && holds[i + |s|].arrival - holds[i].arrival <= ttr + |s| * (latency + cycle)
  {
    hide Follows, Agreed, Clear, HeardInTime, Current, Booked, Ledger, Walk, FollowRule, AllRemember, Prompt;
    var holds, n, origin := Ledger(run, steps, |steps|), |s|, run[0].holder;
    LedgerFollowsRule(s, run, steps, ttr, |steps|);
    HoldersOfAgreed(run[0].bus, s, origin);
    WalkRepeats(s, origin, i + 1);
    RotationOfLedgerIsBounded(holds, s, origin, ttr, latency, cycle, i);
  }

  lemma RotationOfLedgerIsBounded(holds: seq<Hold>, s: set<nat>, origin: nat, ttr: nat,
                                  latency: nat, cycle: nat, i: nat)
    requires GoAround(holds, s, origin) && FollowRule(holds, |s|, ttr) && Prompt(holds, latency, cycle)
    requires 0 < |s| <= i && i + |s| < |holds|
    ensures holds[i + |s|].arrival - holds[i].arrival <= ttr + |s| * (latency + cycle)
  {
    var n := |s|;
    var arrivals := seq(|holds|, k requires 0 <= k < |holds| => holds[k].arrival);
    var starts := seq(|holds|, k requires 0 <= k < |holds| => holds[k].starts);
    forall k | n <= k < |arrivals| - 1
      ensures HoldTimes(arrivals[k], arrivals[k - n] + ttr, starts[k], arrivals[k + 1], latency, cycle)
    {
      assert KeepsRule(holds[k], ttr) && KnowsRotation(holds, n, k);
      assert PromptHold(holds, k, latency, cycle);
      ArrivalsGrow(holds, s, origin, k - n, k);
    }
    forall k | 0 <= k < |arrivals| - 1 ensures arrivals[k] <= arrivals[k + 1] {
      assert ArrivesBeforeNext(holds, k);
    }
    RotationOfHoldsIsBounded(arrivals, starts, n, ttr, latency, cycle, i);
  }

  lemma {:induction false} ArrivalsGrow(holds: seq<Hold>, s: set<nat>, origin: nat, i: nat, j: nat)
    requires GoAround(holds, s, origin) && i <= j < |holds|
    ensures holds[i].arrival <= holds[j].arrival && (i < j ==> holds[i].arrival < holds[j].arrival)
    decreases j
  {
    if i < j {
      assert ArrivesBeforeNext(holds, j - 1);
      ArrivalsGrow(holds, s, origin, i, j - 1);
    }
  }
}
