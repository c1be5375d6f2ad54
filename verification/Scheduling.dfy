/**
 Which application gets the token: strict round-robin over the whole run, one full round per hold.
 */
module Scheduling {
  import opened BusParameters
  import opened Telegrams
  import opened PhysicalLayer
  import opened Stations
  import opened StationInvariant

  // ---------------------------------------------------------------------------------------------
  // Reading the log
  // ---------------------------------------------------------------------------------------------

  /** The applications that had nothing to send, in the order in which they were asked; each entry
      ends one cycle of that application. */
  function Declines(events: seq<Event>): seq<nat> {
    if events == [] then []
    else
      var (before, e) := (Declines(events[..|events| - 1]), events[|events| - 1]);
      if e.Asked? && !e.accepted then before + [e.app] else before
  }

  /** The same, but only since the token was last taken. */
  function HoldDeclines(events: seq<Event>): seq<nat> {
    if events == [] then []
    else
      var e := events[|events| - 1];
      if e.TokenTaken? then []
      else
        var before := HoldDeclines(events[..|events| - 1]);
        if e.Asked? && !e.accepted then before + [e.app] else before
  }

  lemma LastEvent(events: seq<Event>, e: Event)
    ensures Declines(events + [e]) == if e.Asked? && !e.accepted then Declines(events) + [e.app] else Declines(events)
    ensures HoldDeclines(events + [e]) == if e.TokenTaken? then []
                                          else if e.Asked? && !e.accepted then HoldDeclines(events) + [e.app]
                                          else HoldDeclines(events)
  {
    assert (events + [e])[..|events + [e]| - 1] == events;
  }

  /** A position at most one round ahead, as an application index. */
  function Place(i: nat, n: nat): int {
    if i < n then i else i - n
  }

  /** Each application follows the one before it, and `next` follows the last one. */
  ghost predicate InTurn(apps: seq<nat>, next: nat, n: nat) {
    && (forall i | 0 <= i < |apps| - 1 :: apps[i + 1] == Place(apps[i] + 1, n))
    && (apps != [] ==> next == Place(apps[|apps| - 1] + 1, n))
  }

  /** The first `count` applications of a round that begins with `first`. */
  ghost predicate IsRound(apps: seq<nat>, first: nat, count: nat, n: nat) {
    |apps| == count && forall i | 0 <= i < count :: apps[i] == Place(first + i, n)
  }

  /** Every reply and every timeout goes to the application that sent the request right before. */
  ghost predicate RepliesGoHome(events: seq<Event>) {
    forall i | 0 <= i < |events| :: ReplyGoesHome(events, i)
  }

  predicate ReplyGoesHome(events: seq<Event>, i: nat)
    requires i < |events|
  {
    events[i].GotReply? || events[i].TimedOut? ==> i > 0 && AsksFor(events[i - 1], events[i].app)
  }

  /** The application sent a telegram when it was asked. */
  predicate AsksFor(e: Event, app: nat) {
    e.Asked? && e.accepted && e.app == app
  }

  // ---------------------------------------------------------------------------------------------
  // The invariant
  // ---------------------------------------------------------------------------------------------

  /** What the hold data remembers agrees with the log. */
  ghost predicate HoldMatches(data: UseTokenData, next: nat, hold: seq<nat>, n: nat) {
    match data.firstApp
    case None => hold == []
    case Some(first) =>
      first < n && 0 < |hold| < n && IsRound(hold, first, |hold|, n) && next == Place(first + |hold|, n)
  }

  ghost predicate Scheduled(f: Fdl, n: nat) {
    && f.nextApplication < n
    && InTurn(Declines(f.log.events), f.nextApplication, n)
    && RepliesGoHome(f.log.events)
    && (f.state.UseToken? ==> HoldMatches(f.state.data, f.nextApplication, HoldDeclines(f.log.events), n))
    && (f.state.AwaitDataResponse? ==>
          && HoldMatches(f.state.data, f.nextApplication, HoldDeclines(f.log.events), n)
          && f.log.events != []
          && AsksFor(f.log.events[|f.log.events| - 1], f.nextApplication))
  }

  /** Nothing about the applications has changed. */
  ghost predicate AppsUntouched(f: Fdl, g: Fdl) {
    g.log.events == f.log.events && g.nextApplication == f.nextApplication
  }

  /** At most, the token has just been taken. */
  ghost predicate AtMostTakesToken(f: Fdl, g: Fdl) {
    && g.nextApplication == f.nextApplication
    && !g.state.AwaitDataResponse?
    && if g.state.UseToken? then
         g.log.events == f.log.events + [TokenTaken] && g.state.data.firstApp.None?
       else g.log.events == f.log.events
  }

  lemma TakingKeepsScheduled(f: Fdl, g: Fdl, n: nat)
    requires Scheduled(f, n) && AtMostTakesToken(f, g)
    ensures Scheduled(g, n)
  {
    LastEvent(f.log.events, TokenTaken);
    AppendKeepsReplies(f.log.events, TokenTaken);
  }

  lemma AppendKeepsReplies(events: seq<Event>, e: Event)
    requires RepliesGoHome(events)
    requires e.GotReply? || e.TimedOut? ==>
               events != [] && AsksFor(events[|events| - 1], e.app)
    ensures RepliesGoHome(events + [e])
  {
    forall i | 0 <= i < |events + [e]| ensures ReplyGoesHome(events + [e], i) {
      assert i < |events| ==> ReplyGoesHome(events, i);
    }
  }

  // ---------------------------------------------------------------------------------------------
  // Asking the applications
  // ---------------------------------------------------------------------------------------------

  lemma ScheduleNextTakesTurns(f: Fdl, n: nat)
    requires f.state.UseToken? && f.nextApplication < n
    ensures var data := f.state.data;
            var first := if data.firstApp.Some? then data.firstApp.value else f.nextApplication;
            ScheduleNext(f, n) == f.(state := UseToken(data.(firstApp := Some(first)), f.state.firstCycleDone),
                                     nextApplication := Place(f.nextApplication + 1, n))
  {
    if f.nextApplication + 1 < n {
    } else {
      assert f.nextApplication + 1 == n;
    }
  }

  lemma TurnsGrow(apps: seq<nat>, next: nat, n: nat)
    requires InTurn(apps, next, n) && next < n
    ensures InTurn(apps + [next], Place(next + 1, n), n)
  {
  }

  lemma RoundBegins(first: nat, n: nat)
    ensures IsRound([], first, 0, n)
  {
  }

  lemma RoundGrows(hold: seq<nat>, first: nat, next: nat, n: nat)
    requires first < n && |hold| < n && IsRound(hold, first, |hold|, n) && next == Place(first + |hold|, n)
    ensures IsRound(hold + [next], first, |hold| + 1, n)
    ensures Place(next + 1, n) == first <==> |hold| + 1 == n
    ensures |hold| + 1 < n ==> Place(next + 1, n) == Place(first + |hold| + 1, n)
  {
  }

  /** One application declines and the next one is due. */
  lemma DeclineKeepsTurns(f: Fdl, high: bool, n: nat)
    requires Scheduled(f, n) && f.state.UseToken?
    ensures var g := Decline(f, high, n);
            var hold := HoldDeclines(g.log.events);
            && g.nextApplication < n && InTurn(Declines(g.log.events), g.nextApplication, n)
            && RepliesGoHome(g.log.events)
            && g.state.data.firstApp.Some? && g.state.data.firstApp.value < n
            && 0 < |hold| <= n && |hold| == |HoldDeclines(f.log.events)| + 1
            && IsRound(hold, g.state.data.firstApp.value, |hold|, n)
            && (g.nextApplication == g.state.data.firstApp.value <==> |hold| == n)
            && (|hold| < n ==> Scheduled(g, n))
  {
    hide Declines, HoldDeclines, InTurn, IsRound, RepliesGoHome, ScheduleNext;
    var e, hold := Asked(f.nextApplication, high, false), HoldDeclines(f.log.events);
    ScheduleNextTakesTurns(Note(f, e), n);
    LastEvent(f.log.events, e);
    AppendKeepsReplies(f.log.events, e);
    TurnsGrow(Declines(f.log.events), f.nextApplication, n);
    RoundBegins(f.nextApplication, n);
    RoundGrows(hold, if f.state.data.firstApp.Some? then f.state.data.firstApp.value else f.nextApplication,
               f.nextApplication, n);
  }

  lemma {:induction false} AskingKeepsTurns(f: Fdl, now: int, answers: seq<Option<Telegram>>, high: bool, asks: nat)
    requires Scheduled(f, |answers|) && f.state.UseToken?
    requires asks + |HoldDeclines(f.log.events)| >= |answers|
    ensures var (g, transmitted) := AskApplications(f, now, answers, high, asks);
            var hold := HoldDeclines(g.log.events);
            if transmitted then Scheduled(g, |answers|)
            else
              && g.nextApplication < |answers| && InTurn(Declines(g.log.events), g.nextApplication, |answers|)
              && RepliesGoHome(g.log.events)
              && |hold| == |answers| && IsRound(hold, g.nextApplication, |answers|, |answers|)
    decreases asks
  {
    hide Declines, HoldDeclines, InTurn, IsRound;
    var n := |answers|;
    match answers[f.nextApplication]
    case Some(t) =>
      var e := Asked(f.nextApplication, high, true);
      LastEvent(f.log.events, e);
      AppendKeepsReplies(f.log.events, e);
    case None =>
      DeclineKeepsTurns(f, high, n);
      var g := Decline(f, high, n);
      if g.nextApplication != g.state.data.firstApp.value {
        AskingKeepsTurns(g, now, answers, high, asks - 1);
      }
  }

  lemma ReleaseKeepsTurns(f: Fdl, n: nat)
    requires f.state.UseToken? && f.nextApplication < n && InTurn(Declines(f.log.events), f.nextApplication, n)
    requires RepliesGoHome(f.log.events)
    ensures Scheduled(ReleaseToken(f), n)
    ensures HoldDeclines(ReleaseToken(f).log.events) == HoldDeclines(f.log.events)
  {
    LastEvent(f.log.events, TokenReleased);
    AppendKeepsReplies(f.log.events, TokenReleased);
  }

  /** What asking all applications and then perhaps releasing the token leads to. */
  function AskThenRelease(f: Fdl, now: int, answers: seq<Option<Telegram>>, high: bool): Fdl
    requires f.state.UseToken? && (|answers| > 0 ==> f.nextApplication < |answers|)
  {
    var (g, transmitted) := AskApplications(f, now, answers, high, |answers|);
    if transmitted then g else ReleaseToken(g)
  }

  lemma AskThenReleaseKeepsTurns(f: Fdl, now: int, answers: seq<Option<Telegram>>, high: bool)
    requires Scheduled(f, |answers|) && f.state.UseToken?
    ensures var g := AskThenRelease(f, now, answers, high);
            && Scheduled(g, |answers|) && g.endTokenHoldTime == f.endTokenHoldTime
            && (g.state.PassToken? ==> IsRound(HoldDeclines(g.log.events), g.nextApplication, |answers|, |answers|))
  {
    AskingKeepsTurns(f, now, answers, high, |answers|);
    AskingKeepsHold(f, now, answers, high, |answers|);
    var (g, transmitted) := AskApplications(f, now, answers, high, |answers|);
    if transmitted {
      AskedStatesArePossible(f, now, answers, high, |answers|);
    } else {
      ReleaseKeepsTurns(g, |answers|);
    }
  }

  lemma {:induction false} AskedStatesArePossible(f: Fdl, now: int, answers: seq<Option<Telegram>>,
                                                  high: bool, asks: nat)
    requires f.state.UseToken? && (|answers| > 0 ==> f.nextApplication < |answers|)
    ensures var g := AskApplications(f, now, answers, high, asks).0; g.state.UseToken? || g.state.AwaitDataResponse?
    decreases asks
  {
    if asks > 0 && answers != [] && answers[f.nextApplication].None? {
      AskedStatesArePossible(Decline(f, high, |answers|), now, answers, high, asks - 1);
    }
  }

  lemma UsingIsAskThenRelease(f: Fdl, now: int, answers: seq<Option<Telegram>>)
    requires f.state.UseToken? && (|answers| > 0 ==> f.nextApplication < |answers|)
    ensures var g := Touch(StartHold(f), now);
            DoUseToken(f, now, answers)
            == if !PauseOver(g, now) then g
               else if now < g.endTokenHoldTime || !g.state.firstCycleDone then
                 AskThenRelease(g.(state := UseToken(g.state.data, true)), now, answers, now >= g.endTokenHoldTime)
               else ReleaseToken(g)
  {
  }

  /** Using the token keeps the turns; and when it is released before the hold time is over, every
      application has declined exactly once since the token was taken. */
  lemma UsingKeepsTurns(f: Fdl, now: int, answers: seq<Option<Telegram>>)
    requires Scheduled(f, |answers|) && f.state.UseToken?
    ensures var g := DoUseToken(f, now, answers);
            && Scheduled(g, |answers|)
            && (g.state.PassToken? && now < g.endTokenHoldTime ==>
                  IsRound(HoldDeclines(g.log.events), g.nextApplication, |answers|, |answers|))
  {
    var g := Touch(StartHold(f), now);
    var h := g.(state := UseToken(g.state.data, true));
    UsingIsAskThenRelease(f, now, answers);
    ReleaseKeepsTurns(g, |answers|);
    AskThenReleaseKeepsTurns(h, now, answers, now >= g.endTokenHoldTime);
  }

  lemma {:induction false} AskingKeepsHold(f: Fdl, now: int, answers: seq<Option<Telegram>>, high: bool, asks: nat)
    requires f.state.UseToken? && (|answers| > 0 ==> f.nextApplication < |answers|)
    ensures AskApplications(f, now, answers, high, asks).0.endTokenHoldTime == f.endTokenHoldTime
    decreases asks
  {
    if asks > 0 && answers != [] && answers[f.nextApplication].None? {
      AskingKeepsHold(Decline(f, high, |answers|), now, answers, high, asks - 1);
    }
  }

  // ---------------------------------------------------------------------------------------------
  // Every poll keeps the turns
  // ---------------------------------------------------------------------------------------------

  predicate Holding(f: Fdl) {
    f.state.UseToken? || f.state.AwaitDataResponse?
  }

  /** Neither before nor after are the applications concerned, except that the token may have arrived. */
  ghost predicate Aside(f: Fdl, g: Fdl) {
    !Holding(f) && (g.online ==> AtMostTakesToken(f, g))
  }

  lemma {:induction false} ListeningIsAside(f: Fdl, now: int, ds: seq<Delivery>)
    requires !Holding(f) && (f.online ==> f.state.ListenToken?)
    ensures var g := ListenToAll(f, now, ds);
            !Holding(g) && (g.online ==> f.online && AppsUntouched(f, g))
    decreases |ds|
  {
    if ds != [] {
      ListeningIsAside(ListenTo(f, now, ds[0]), now, ds[1..]);
    }
  }

  lemma HandlingOneIsAside(f: Fdl, now: int, d: Delivery)
    requires f.state.ListenToken? || f.state.ActiveIdle?
    ensures var g := HandleTelegram(f, now, d);
            AtMostTakesToken(f, g) && (g.state.UseToken? ==> d.isLast)
  {
  }

  lemma {:induction false} HandlingIsAside(f: Fdl, now: int, ds: seq<Delivery>)
    requires LastEndsBatch(ds) && (f.state.ListenToken? || f.state.ActiveIdle?)
    ensures AtMostTakesToken(f, HandleAll(f, now, ds))
    decreases |ds|
  {
    if ds != [] {
      var g := MarkRx(f, now);
      var h := HandleTelegram(g, now, ds[0]);
      HandlingOneIsAside(g, now, ds[0]);
      if ds[1..] != [] {
        HandlingIsAside(h, now, ds[1..]);
      }
    }
  }

  lemma PassingIsAside(f: Fdl, now: int)
    requires Sane(f) && f.state.PassToken?
    ensures AtMostTakesToken(f, DoPassToken(f, now))
  {
    AdvanceGapStaysSane(Touch(f, now));
  }

  lemma ClaimingIsAside(f: Fdl, now: int, rx: seq<Byte>)
    requires Inv(f) && f.state.ClaimToken?
    ensures AtMostTakesToken(f, DoClaimToken(f, now, rx))
  {
  }

  lemma CheckingIsAside(f: Fdl, now: int, rx: seq<Byte>)
    requires Inv(f) && f.state.CheckTokenPass?
    ensures AtMostTakesToken(f, DoCheckTokenPass(f, now, rx))
  {
    var g := Touch(f, now);
    if SlotExpired(g, now) {
      PassingIsAside(RetryPass(g), now);
    } else {
      var ds := Drain(rx).deliveries;
      if ds != [] {
        var h := if ds[0].telegram.SourceAddress().None? then Fail(g, NoSource) else g;
        HandlingIsAside(ToActiveIdle(h), now, ds);
      }
    }
  }

  lemma AwaitingStatusIsAside(f: Fdl, now: int, rx: seq<Byte>)
    requires Inv(f) && f.state.AwaitStatusResponse?
    ensures AtMostTakesToken(f, DoAwaitStatusResponse(f, now, rx))
  {
    var (g, response) := AwaitGapPollResponse(f, now, rx, f.state.address);
    if response == NoResponse {
      PassingIsAside(ToPassToken(g, false, Attempt.First), now);
    }
  }

  /** Handing a reply or a timeout to the waiting application and going on to use the token. */
  lemma ResumingKeepsTurns(f: Fdl, e: Event, n: nat)
    requires Scheduled(f, n) && f.state.AwaitDataResponse?
    requires e == GotReply(f.nextApplication, f.state.replier) || e == TimedOut(f.nextApplication, f.state.replier)
    ensures Scheduled(ToUseToken(Note(f, e), f.state.data, true), n)
  {
    LastEvent(f.log.events, e);
    AppendKeepsReplies(f.log.events, e);
  }

  lemma AwaitingDataKeepsTurns(f: Fdl, now: int, rx: seq<Byte>, answers: seq<Option<Telegram>>)
    requires Scheduled(f, |answers|) && f.state.AwaitDataResponse?
    ensures Scheduled(DoAwaitDataResponse(f, now, rx, answers), |answers|)
  {
    var first := TakeFirst(rx).telegram;
    if first.Some? {
      ResumingKeepsTurns(MarkRx(f, now), GotReply(f.nextApplication, f.state.replier), |answers|);
    } else {
      var g := Touch(f, now);
      var timeout := TimedOut(f.nextApplication, f.state.replier);
      ResumingKeepsTurns(g, timeout, |answers|);
      if SlotExpired(g, now) {
        UsingKeepsTurns(ToUseToken(Note(g, timeout), f.state.data, true), now, answers);
      }
    }
  }

  lemma DispatchIsAside(f: Fdl, input: Input)
    requires Inv(f) && f.online && InputOk(f, input) && !f.state.Offline? && !Holding(f)
    ensures Aside(f, Dispatch(f, input))
  {
    var now, g := input.now, Touch(f, input.now);
    match f.state
    case ListenToken(_, _) =>
      ClaimingIsAside(ToClaimToken(g), now, input.rx);
      ListeningIsAside(g, now, Drain(input.rx).deliveries);
    case ClaimToken(_) => ClaimingIsAside(f, now, input.rx);
    case PassToken(_, _) => PassingIsAside(f, now);
    case CheckTokenPass(_) => CheckingIsAside(f, now, input.rx);
    case ActiveIdle(_, _, _) =>
      ClaimingIsAside(ToClaimToken(g), now, input.rx);
      HandlingIsAside(g, now, Drain(input.rx).deliveries);
    case AwaitStatusResponse(_) => AwaitingStatusIsAside(f, now, input.rx);
  }

  /** Every poll keeps the turns as long as the station stays online. */
  lemma PollKeepsTurns(f: Fdl, input: Input)
    requires Ready(f, |input.answers|) && InputOk(f, input) && Scheduled(f, |input.answers|) && Poll(f, input).online
    ensures Scheduled(Poll(f, input), |input.answers|)
  {
    var g := if f.state.Offline? then ToListenToken(f) else f;
    if !(input.phyBusy || Transmitting(g, input.now)) {
      var h := CheckForBusActivity(g, input.now, input.counted);
      assert Scheduled(h, |input.answers|);
      if h.state.UseToken? {
        UsingKeepsTurns(h, input.now, input.answers);
      } else if h.state.AwaitDataResponse? {
        AwaitingDataKeepsTurns(h, input.now, input.rx, input.answers);
      } else {
        DispatchIsAside(h, input);
        TakingKeepsScheduled(h, Poll(f, input), |input.answers|);
      }
    }
  }

  /** Over every run in which the station stays online, the applications complete their cycles in strict
      round-robin order across all token holds, and every reply and timeout goes to the application
      that sent the request. */
  lemma {:induction false} RunKeepsTurns(f: Fdl, inputs: seq<Input>, n: nat)
    requires Ready(f, n) && Continues(f, inputs, n) && Scheduled(f, n)
    ensures Scheduled(PollAll(f, inputs, n), n)
    decreases |inputs|
  {
    if inputs != [] {
      PollKeeps(f, inputs[0]);
      PollKeepsTurns(f, inputs[0]);
      RunKeepsTurns(Poll(f, inputs[0]), inputs[1..], n);
    }
  }

  /** No application declines twice within a round. */
  lemma RoundHasNoRepetition(apps: seq<nat>, first: nat, count: nat, n: nat, i: nat, j: nat)
    requires IsRound(apps, first, count, n) && first < n && count <= n && i < j < count
    ensures apps[i] != apps[j]
  {
  }

  lemma NewStationIsScheduled(p: Parameters, n: nat)
    requires n > 0
    ensures Scheduled(SetOnline(NewFdl(p, Log([], [], []))), n)
  {
  }

  /** So every run of a new station serves its applications in turn. */
  lemma NewStationKeepsTurns(p: Parameters, inputs: seq<Input>, n: nat)
    requires Consistent(p) && n > 0 && Ready(SetOnline(NewFdl(p, Log([], [], []))), n)
    requires Continues(SetOnline(NewFdl(p, Log([], [], []))), inputs, n)
    ensures var g := PollAll(SetOnline(NewFdl(p, Log([], [], []))), inputs, n);
            && InTurn(Declines(g.log.events), g.nextApplication, n)
            && RepliesGoHome(g.log.events)
  {
    NewStationIsScheduled(p, n);
    RunKeepsTurns(SetOnline(NewFdl(p, Log([], [], []))), inputs, n);
  }
}
