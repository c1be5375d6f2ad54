/**
 What a poll decides while the station has the token, said in times and telegrams.
 */
module HoldDecisions {
  import opened BusParameters
  import opened Telegrams
  import opened PhysicalLayer
  import opened TokenRings
  import opened Stations
  import opened StationInvariant
  import opened Scheduling
  import opened PollDecisions
  import opened Discovery

  // ---------------------------------------------------------------------------------------------
  // Using the token
  // ---------------------------------------------------------------------------------------------

  /** `k` applications decline one after the other, the first of them is `next`. */
  function Declined(next: nat, k: nat, high: bool, n: nat): seq<Event>
    requires k == 0 || next < n
    decreases k
  {
    if k == 0 then []
    else [Asked(next, high, false)] + Declined(Place(next + 1, n), k - 1, high, n)
  }

  /** The application that is asked after `k` others have declined. */
  function After(next: nat, k: nat, n: nat): (app: nat)
    requires next < n
    ensures app < n
    decreases k
  {
    if k == 0 then next else After(Place(next + 1, n), k - 1, n)
  }

  /** These many applications have nothing to send. */
  predicate NothingToSend(answers: seq<Option<Telegram>>, next: nat, k: nat)
    decreases k
  {
    k > 0 ==> next < |answers| && answers[next].None? && NothingToSend(answers, Place(next + 1, |answers|), k - 1)
  }

  /** The telegram must be answered by its receiver before anything else is sent. */
  predicate WantsReply(t: Telegram) {
    && t.Data? && t.h.fc.Request?
    && t.h.fc.req in {SdaLow, SdaHigh, MulticastSrd, FdlStatus, SrdLow, SrdHigh, Ident, LsapStatus}
  }

  lemma WantsReplyExactly(t: Telegram)
    ensures ExpectedReplier(t) == if WantsReply(t) then Some(t.h.da) else None
  {
    if t.Data? && t.h.fc.Request? {
      match t.h.fc.req
      case ClockValue =>
      case TimeEvent =>
      case SdnLow =>
      case SdnHigh =>
      case _ =>
    }
  }

  /** One application transmits, and its reply is awaited if its telegram wants one. */
  ghost predicate Transmits(f: Fdl, g: Fdl, now: int, t: Telegram) {
    && g.log.sent == f.log.sent + [Transmission(now, t)]
    && (Holding(f) && Holding(g) ==> g.state.data.tokenTime == f.state.data.tokenTime)
    && if WantsReply(t) then g.state.AwaitDataResponse? && g.state.replier == t.h.da
       else g.state.UseToken? && g.state.firstCycleDone
  }

  /** `k` applications decline in turn; then the next one transmits, or it is the one that was asked first, and the
      token is released. */
  ghost predicate AsksInTurn(f: Fdl, g: Fdl, input: Input, high: bool, k: nat)
    requires f.state.UseToken?
  {
    var n, next := |input.answers|, f.nextApplication;
    var first := if f.state.data.firstApp.Some? then f.state.data.firstApp.value else next;
    && k <= n && NothingToSend(input.answers, next, k) && (n > 0 ==> next < n)
    && if n == 0 || (k > 0 && (k == n || After(next, k, n) == first)) then
         && g.state == PassToken(true, Attempt.First) && g.log.sent == f.log.sent
         && g.log.events == f.log.events + Declined(next, k, high, n) + [TokenReleased]
       else
         var app := After(next, k, n);
         && input.answers[app].Some? && Transmits(f, g, input.now, input.answers[app].value)
         && g.log.events == f.log.events + Declined(next, k, high, n) + [Asked(app, high, true)]
  }

  /** Until when the token may be held: a rotation time after it arrived the time before, less what a GAP poll takes
      while a sweep is going on. */
  function EndOfHold(f: Fdl): int
    requires f.state.UseToken?
  {
    if f.lastTokenTime == f.state.data.tokenTime then f.endTokenHoldTime
    else
      var end := f.lastTokenTime + f.p.baudrate.BitsToTime(f.p.tokenRotationBits);
      if f.gap.DoPoll? then end - f.p.baudrate.BitsToTime(f.p.slotBits + 100) else end
  }

  lemma TransmitsAfterDecline(f: Fdl, g: Fdl, h: Fdl, now: int, t: Telegram)
    requires f.state.UseToken? && g.state.UseToken? && Transmits(g, h, now, t)
    requires g.log.sent == f.log.sent && g.state.data.tokenTime == f.state.data.tokenTime
    ensures Transmits(f, h, now, t)
  {
  }

  lemma TransmitsItsTelegram(f: Fdl, now: int, high: bool, t: Telegram)
    requires f.state.UseToken? && f.state.firstCycleDone
    ensures Transmits(f, TransmitFor(f, now, high, t), now, t)
  {
    WantsReplyExactly(t);
  }

  /** `k` applications have declined in turn, at most `asks`, and the next one has transmitted, if any is left. */
  ghost predicate HasAsked(f: Fdl, r: (Fdl, bool), input: Input, high: bool, asks: nat, k: nat)
    requires f.state.UseToken? && f.nextApplication < |input.answers|
  {
    var (h, transmitted) := r;
    var n, next := |input.answers|, f.nextApplication;
    var first := if f.state.data.firstApp.Some? then f.state.data.firstApp.value else next;
    && k <= asks && NothingToSend(input.answers, next, k)
    && if k > 0 && (k == asks || After(next, k, n) == first) then
         && !transmitted && h.log.sent == f.log.sent
         && h.log.events == f.log.events + Declined(next, k, high, n)
       else
         var app := After(next, k, n);
         && transmitted && input.answers[app].Some? && Transmits(f, h, input.now, input.answers[app].value)
         && h.log.events == f.log.events + Declined(next, k, high, n) + [Asked(app, high, true)]
  }

  lemma OneMoreDeclines(f: Fdl, g: Fdl, r: (Fdl, bool), input: Input, high: bool, asks: nat, j: nat)
    requires f.state.UseToken? && f.nextApplication < |input.answers| && input.answers[f.nextApplication].None?
    requires g == Decline(f, high, |input.answers|) && g.nextApplication != g.state.data.firstApp.value
    requires HasAsked(g, r, input, high, asks, j) && asks > 0
    ensures HasAsked(f, r, input, high, asks + 1, j + 1)
  {
    hide Transmits, ScheduleNext;
    ScheduleNextTakesTurns(Note(f, Asked(f.nextApplication, high, false)), |input.answers|);
    var app := After(f.nextApplication, j + 1, |input.answers|);
    if r.1 {
      TransmitsAfterDecline(f, g, r.0, input.now, input.answers[app].value);
    }
  }

  lemma {:induction false} AskingInTurn(f: Fdl, input: Input, high: bool, asks: nat) returns (k: nat)
    requires f.state.UseToken? && f.state.firstCycleDone
    requires f.nextApplication < |input.answers| && asks > 0
    ensures HasAsked(f, AskApplications(f, input.now, input.answers, high, asks), input, high, asks, k)
    decreases asks
  {
    hide Transmits, ExpectedReplier, ScheduleNext;
    var n := |input.answers|;
    match input.answers[f.nextApplication]
    case Some(t) =>
      TransmitsItsTelegram(f, input.now, high, t);
      k := 0;
    case None =>
      var g := Decline(f, high, n);
      ScheduleNextTakesTurns(Note(f, Asked(f.nextApplication, high, false)), n);
      k := 1;
      if g.nextApplication != g.state.data.firstApp.value && asks > 1 {
        var j := AskingInTurn(g, input, high, asks - 1);
        OneMoreDeclines(f, g, AskApplications(g, input.now, input.answers, high, asks - 1), input, high, asks - 1, j);
        k := j + 1;
      }
  }

  /** The token is used on: after the end of the hold time it is released if a cycle has been done, and otherwise the
      applications are asked in turn, for telegrams of high priority only once the time is over. */
  ghost predicate UsesToken(f: Fdl, g: Fdl, input: Input)
    requires f.state.UseToken?
  {
    var late := input.now >= EndOfHold(f);
    if late && f.state.firstCycleDone then
      && g.state == PassToken(true, Attempt.First) && g.log.sent == f.log.sent
      && g.log.events == f.log.events + [TokenReleased]
    else exists k: nat :: AsksInTurn(f, g, input, late, k)
  }

  lemma UsingDecides(f: Fdl, g: Fdl, input: Input)
    requires f.state.UseToken? && AnswersOk(input.answers) && g.lastBusActivity.Some?
    requires |input.answers| > 0 ==> f.nextApplication < |input.answers|
    requires g == f.(lastBusActivity := g.lastBusActivity, pendingBytes := g.pendingBytes) && PauseOver(g, input.now)
    ensures UsesToken(f, DoUseToken(g, input.now, input.answers), input)
  {
    var h := Touch(StartHold(g), input.now);
    var u := h.(state := UseToken(h.state.data, true));
    UsingIsAskThenRelease(g, input.now, input.answers);
    assert h.endTokenHoldTime == EndOfHold(f);
    var r, late := DoUseToken(g, input.now, input.answers), input.now >= EndOfHold(f);
    if !(late && f.state.firstCycleDone) {
      var k: nat := 0;
      if input.answers != [] {
        k := AskingInTurn(u, input, late, |input.answers|);
      }
      assert AsksInTurn(f, r, input, late, k);
    }
  }

  /** While it uses the token, a station does nothing before the pause is over, and then it uses it by this rule. */
  lemma UsesExactly(f: Fdl, input: Input)
    requires Acts(f, input) && f.state.UseToken?
    ensures var g := Poll(f, input);
            if SilentFor(f, input) > SilenceToSend(f.p) then UsesToken(f, g, input)
            else g.log == f.log && g.state == f.state
  {
    hide WellFormed, AllBelow, Consistent, DoUseToken, UsesToken;
    var h := CheckForBusActivity(f, input.now, input.counted);
    UsingIsAskThenRelease(h, input.now, input.answers);
    if SilentFor(f, input) > SilenceToSend(f.p) {
      UsingDecides(f, h, input);
    }
  }

  // ---------------------------------------------------------------------------------------------
  // Waiting for a reply
  // ---------------------------------------------------------------------------------------------

  /** The application gets its reply if and only if the first telegram is a short confirmation or a response of the
      station that was asked to this station; the token is then used on.  After any other telegram the station is in
      the ring without the token, and the application hears nothing. */
  lemma ReplyExactly(f: Fdl, input: Input)
    requires Acts(f, input) && f.state.AwaitDataResponse? && TakeFirst(input.rx).telegram.Some?
    ensures var g, t := Poll(f, input), TakeFirst(input.rx).telegram.value;
            && g.log.sent == f.log.sent && g.ring == f.ring && g.nextApplication == f.nextApplication
            && g.lastBusActivity == Some(input.now) && g.pendingBytes == 0
            && if t == ShortConfirmation
                  || (t.Data? && t.h.fc.Response? && t.h.sa == f.state.replier && t.h.da == f.p.address)
               then
                 && g.log.events == f.log.events + [GotReply(f.nextApplication, f.state.replier)]
                 && g.state == UseToken(f.state.data, true)
               else g.log.events == f.log.events && g.state == ActiveIdle(None, None, 0)
  {
    hide WellFormed, AllBelow, Consistent, DoUseToken;
  }

  /** The station when its application has learned that no reply came. */
  function WithoutReply(f: Fdl): Fdl
    requires f.state.AwaitDataResponse?
  {
    f.(state := UseToken(f.state.data, true),
       log := f.log.(events := f.log.events + [TimedOut(f.nextApplication, f.state.replier)]))
  }

  /** Without a telegram the application learns that no reply came if and only if the bus has been silent for more
      than a slot, and then the token is used on in the same poll. */
  lemma NoReplyExactly(f: Fdl, input: Input)
    requires Acts(f, input) && f.state.AwaitDataResponse? && TakeFirst(input.rx).telegram.None?
    ensures var g := Poll(f, input);
            if SilentFor(f, input) > SilenceToRepeat(f.p) then UsesToken(WithoutReply(f), g, input)
            else g.log == f.log && g.state == f.state
  {
    hide WellFormed, AllBelow, Consistent, DoUseToken, UsesToken, SilenceToRepeat, SilenceToSend;
    SilencesAreOrdered(f.p);
    var h := Touch(CheckForBusActivity(f, input.now, input.counted), input.now);
    if SlotExpired(h, input.now) {
      UsingDecides(WithoutReply(f), GiveUpOnReply(h), input);
    }
  }

  /** Whoever is awaited is the receiver of the last telegram that was sent, and that telegram wants a reply. */
  ghost predicate AwaitsReceiver(f: Fdl) {
    f.state.AwaitDataResponse? ==>
      && f.log.sent != []
      && var t := f.log.sent[|f.log.sent| - 1].telegram; WantsReply(t) && t.h.da == f.state.replier
  }

  lemma UsingAwaitsReceiver(f: Fdl, g: Fdl, input: Input)
    requires f.state.UseToken? && UsesToken(f, g, input)
    ensures AwaitsReceiver(g)
  {
    var late := input.now >= EndOfHold(f);
    if !(late && f.state.firstCycleDone) {
      var k: nat :| AsksInTurn(f, g, input, late, k);
    }
  }

  lemma PollAwaitsReceiver(f: Fdl, input: Input)
    requires Ready(f, |input.answers|) && f.online && InputOk(f, input) && AwaitsReceiver(f) && Poll(f, input).online
    ensures AwaitsReceiver(Poll(f, input))
  {
    hide WellFormed, AllBelow, Consistent, UsesToken, SilentFor, SilenceToSend, SilenceToRepeat, TakeFirst, Dispatch;
    if f.state.Offline? {
      OnlineStationListens(f, input);
      OthersAwaitNobody(f.(state := ListenToken(None, 0)), input);
    } else if input.phyBusy || (f.lastBusActivity.Some? && input.now <= f.lastBusActivity.value) {
      TransmittingWaits(f, input);
    } else if !Holding(f) {
      OthersAwaitNobody(f, input);
    } else {
      HolderAwaitsReceiver(f, input);
    }
  }

  lemma HolderAwaitsReceiver(f: Fdl, input: Input)
    requires Acts(f, input) && Holding(f) && AwaitsReceiver(f)
    ensures AwaitsReceiver(Poll(f, input))
  {
    hide Inv, Poll, UsesToken, SilentFor, SilenceToSend, SilenceToRepeat, TakeFirst, WantsReply;
    if f.state.UseToken? {
      UsesExactly(f, input);
      if SilentFor(f, input) > SilenceToSend(f.p) {
        UsingAwaitsReceiver(f, Poll(f, input), input);
      }
    } else if TakeFirst(input.rx).telegram.Some? {
      ReplyExactly(f, input);
    } else {
      NoReplyExactly(f, input);
      if SilentFor(f, input) > SilenceToRepeat(f.p) {
        UsingAwaitsReceiver(WithoutReply(f), Poll(f, input), input);
      }
    }
  }

  lemma OthersAwaitNobody(f: Fdl, input: Input)
    requires Inv(f) && f.online && !f.state.Offline? && InputOk(f, input) && !Holding(f) && Poll(f, input).online
    ensures !Poll(f, input).state.AwaitDataResponse?
  {
    hide WellFormed, AllBelow, Consistent, Dispatch;
    if !(input.phyBusy || Transmitting(f, input.now)) {
      DispatchIsAside(CheckForBusActivity(f, input.now, input.counted), input);
    }
  }

  lemma {:induction false} RunAwaitsReceiver(f: Fdl, inputs: seq<Input>, n: nat)
    requires Ready(f, n) && f.online && Continues(f, inputs, n) && AwaitsReceiver(f)
    ensures AwaitsReceiver(PollAll(f, inputs, n))
    decreases |inputs|
  {
    hide Inv, Poll, AwaitsReceiver;
    if inputs != [] {
      PollKeeps(f, inputs[0]);
      PollAwaitsReceiver(f, inputs[0]);
      RunAwaitsReceiver(Poll(f, inputs[0]), inputs[1..], n);
    }
  }

  /** The poll hands a reply to an application. */
  ghost predicate GetsReply(f: Fdl, g: Fdl) {
    exists e: Event :: e.GotReply? && g.log.events == f.log.events + [e]
  }

  /** In every run of a new station, an application gets a reply only after a telegram that wants one, and then the
      reply is a short confirmation or a response of the receiver of that telegram to this station. */
  lemma ReplyComesFromReceiver(p: Parameters, inputs: seq<Input>, last: Input, n: nat)
    requires Consistent(p) && Ready(NewOnline(p), n) && Continues(NewOnline(p), inputs, n)
    requires var g := PollAll(NewOnline(p), inputs, n);
             Acts(g, last) && g.state.AwaitDataResponse? && TakeFirst(last.rx).telegram.Some?
    ensures var g := PollAll(NewOnline(p), inputs, n);
            var t := TakeFirst(last.rx).telegram.value;
            && g.log.sent != []
            && var request := g.log.sent[|g.log.sent| - 1].telegram;
               && WantsReply(request)
               && (GetsReply(g, Poll(g, last)) <==>
                     t == ShortConfirmation
                     || (t.Data? && t.h.fc.Response? && t.h.sa == request.h.da && t.h.da == g.p.address))
  {
    hide Inv, Poll, PollAll, Continues, TakeFirst;
    var g := PollAll(NewOnline(p), inputs, n);
    RunAwaitsReceiver(NewOnline(p), inputs, n);
    ReplyExactly(g, last);
  }

  // ---------------------------------------------------------------------------------------------
  // Passing the token on
  // ---------------------------------------------------------------------------------------------

  /** The station asks this address for its status. */
  ghost predicate AsksForStatus(f: Fdl, g: Fdl, now: int, a: nat) {
    && a < 256 && f.p.address < 256
    && g.log.sent == f.log.sent + [Transmission(now,
         Data(Header(a, f.p.address, None, None, Request(Inactive, FdlStatus)), []))]
    && g.log.events == f.log.events && g.ring == f.ring
  }

  /** The station passes the token to the next station, or takes it itself when it is alone. */
  ghost predicate HandsOn(f: Fdl, g: Fdl, now: int, attempt: Attempt) {
    && f.ring.ns < 256 && f.p.address < 256
    && g.log.sent == f.log.sent + [Transmission(now, Token(f.ring.ns, f.p.address))]
    && if f.ring.ns == f.p.address then
         && g.state == UseToken(UseTokenData(now, None), false) && g.log.events == f.log.events + [TokenTaken]
       else g.state == CheckTokenPass(attempt) && g.log.events == f.log.events
  }

  /** With a GAP step due, the sweep goes on, or begins when the count of rotations is above its limit; if that asks
      somebody, the token is passed only after the answer, and otherwise at once. */
  ghost predicate PassesOn(f: Fdl, g: Fdl, now: int)
    requires f.state.PassToken?
  {
    var hsa, ts, ns := f.p.highestStationAddress, f.p.address, f.ring.ns;
    && g.gap == (if !f.state.doGap then f.gap
                 else if f.gap.DoPoll? then NextGap(hsa, ts, ns, f.gap.currentAddress)
                 else if f.gap.rotationCount > f.p.gapWaitRotations then NextGap(hsa, ts, ns, ts)
                 else Waiting(f.gap.rotationCount + 1))
    && if f.state.doGap && g.gap.DoPoll? then
         AsksForStatus(f, g, now, g.gap.currentAddress) && g.state == AwaitStatusResponse(g.gap.currentAddress)
       else HandsOn(f, g, now, f.state.attempt)
  }

  lemma PassingDecides(f: Fdl, g: Fdl, now: int)
    requires Sane(g) && f.state.PassToken? && g.lastBusActivity.Some? && PauseOver(g, now)
    requires g == f.(lastBusActivity := g.lastBusActivity, pendingBytes := g.pendingBytes)
    ensures PassesOn(f, DoPassToken(g, now), now)
  {
    hide WellFormed, AllBelow, Consistent, SendToken, NextGap;
    AdvanceGapStaysSane(g);
    HandingOn(if g.state.doGap then AdvanceGap(g) else g, now);
  }

  /** Nothing is sent before the pause is over; then the station makes its GAP step and passes the token on. */
  lemma PassesExactly(f: Fdl, input: Input)
    requires Acts(f, input) && f.state.PassToken?
    ensures var g := Poll(f, input);
            if SilentFor(f, input) > SilenceToSend(f.p) then PassesOn(f, g, input.now)
            else g.log == f.log && g.state == f.state && g.gap == f.gap && g.ring == f.ring
  {
    hide WellFormed, AllBelow, Consistent, DoPassToken, PassesOn;
    var h := CheckForBusActivity(f, input.now, input.counted);
    if SilentFor(f, input) > SilenceToSend(f.p) {
      PassingDecides(f, h, input.now);
    } else {
      PausingPass(h, input.now);
    }
  }

  lemma PausingPass(f: Fdl, now: int)
    requires Sane(f) && f.state.PassToken? && !PauseOver(Touch(f, now), now)
    ensures DoPassToken(f, now) == Touch(f, now)
  {
  }

  lemma HandingOn(f: Fdl, now: int)
    requires Sane(f) && f.state.PassToken?
    ensures HandsOn(f, SendToken(f, now), now, f.state.attempt) && SendToken(f, now).gap == f.gap
  {
    OwnPassAddsOnlyThisStation(f.ring);
    NextIgnoresSelf(f.ring.las, f.p.address);
  }

  // ---------------------------------------------------------------------------------------------
  // Claiming the token, and silence after a GAP poll
  // ---------------------------------------------------------------------------------------------

  /** A claim is sent twice, each time after the pause; then the scan begins behind the own address. */
  lemma ClaimsTwice(f: Fdl, input: Input)
    requires Acts(f, input) && f.state.ClaimToken? && (f.state.step.FirstToken? || f.state.step.SecondToken?)
    ensures var g := Poll(f, input);
            if SilentFor(f, input) > SilenceToSend(f.p) then
              && f.p.address < 256
              && g.log.sent == f.log.sent + [Transmission(input.now, Token(f.p.address, f.p.address))]
              && g.log.events == f.log.events
              && g.state == ClaimToken(if f.state.step.FirstToken? then SecondToken else Scan)
              && g.ring == f.ring.(lasState := LasState.Valid) && g.gap == DoPoll(f.p.address)
            else g.log == f.log && g.state == f.state && g.gap == f.gap && g.ring == f.ring
  {
    hide WellFormed, AllBelow;
  }

  /** The scan asks one address of the sweep after the other; when there are no more, the token is passed on without
      another GAP step. */
  lemma ScansExactly(f: Fdl, input: Input)
    requires Acts(f, input) && f.state == ClaimToken(Scan)
    ensures var g, p := Poll(f, input), f.p;
            if SilentFor(f, input) <= SilenceToSend(f.p) then
              g.log == f.log && g.state == f.state && g.gap == f.gap && g.ring == f.ring
            else if f.gap.Waiting? then g.state == PassToken(false, Attempt.First) && g.log == f.log && g.gap == f.gap
            else
              && g.gap == NextGap(p.highestStationAddress, p.address, f.ring.ns, f.gap.currentAddress)
              && if g.gap.DoPoll? then
                   && AsksForStatus(f, g, input.now, g.gap.currentAddress)
                   && g.state == ClaimToken(ScanAwaitResponse(g.gap.currentAddress))
                 else g.log == f.log && g.state == f.state
  {
    hide WellFormed, AllBelow, NextGap;
  }

  /** When no telegram comes after a GAP poll, the station goes on as if it had not asked, if and only if the bus has
      been silent for more than a slot. */
  lemma SilenceEndsPoll(f: Fdl, input: Input)
    requires Acts(f, input) && Awaited(f).Some? && TakeFirst(input.rx).telegram.None?
    ensures var g := Poll(f, input);
            var next := if f.state.ClaimToken? then ClaimToken(Scan) else PassToken(false, Attempt.First);
            if SilentFor(f, input) > SilenceToRepeat(f.p) then g == Poll(f.(state := next), input)
            else g.log == f.log && g.state == f.state && g.gap == f.gap && g.ring == f.ring
  {
    hide WellFormed, AllBelow, Consistent, DoPassToken, DoScan, AwaitGapPollResponse;
    var h := CheckForBusActivity(f, input.now, input.counted);
    GapAnswerDecides(h, input.now, input.rx, Awaited(f).value);
    SlotCoversSyncPause(f.p);
    var next := if f.state.ClaimToken? then ClaimToken(Scan) else PassToken(false, Attempt.First);
    TouchedAlready(h.(state := next), input.now);
  }

  lemma TouchedAlready(f: Fdl, now: int)
    requires Sane(f)
    ensures f.state == PassToken(false, Attempt.First) ==> DoPassToken(Touch(f, now), now) == DoPassToken(f, now)
    ensures f.state == ClaimToken(Scan) ==> DoScan(Touch(f, now), now) == DoScan(f, now)
  {
  }
}
