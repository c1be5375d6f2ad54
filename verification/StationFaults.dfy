/**
 The assertions of the active station about itself: which of them can fail, and exactly when.
 */
module StationFaults {
  import opened BusParameters
  import opened Telegrams
  import opened PhysicalLayer
  import opened Stations
  import opened TokenRings
  import opened BusDiscipline
  import opened GapSweep

  /** The address after the cursor is this station's own, while another station is next. */
  predicate CursorBeforeSelf(f: Fdl, cursor: nat) {
    f.ring.ns != f.p.address && Ahead(f.p.highestStationAddress, cursor, 1) == f.p.address
  }

  /** The station, whose pause is over, goes on with its sweep from the cursor and polls itself. */
  predicate SweepMeetsSelf(f: Fdl) {
    match f.gap
    case Waiting(count) => count > f.p.gapWaitRotations && CursorBeforeSelf(f, f.p.address)
    case DoPoll(cursor) => CursorBeforeSelf(f, cursor)
  }

  /** What leads to a GAP poll of the own address: a GAP poll is due when the token is passed or the GAP scanned, or
      the polled address of a scan has stayed silent for a slot, and the cursor is right before the own
      address. */
  predicate IsAboutToPollItself(f: Fdl, now: int, rx: seq<Byte>) {
    var g := Touch(f, now);
    match f.state
    case PassToken(doGap, _) => doGap && PauseOver(g, now) && SweepMeetsSelf(f)
    case ClaimToken(Scan) => f.gap.DoPoll? && PauseOver(g, now) && SweepMeetsSelf(f)
    case ClaimToken(ScanAwaitResponse(address)) =>
      TakeFirst(rx).telegram.None? && SlotExpired(g, now) && CursorBeforeSelf(f, address)
    case _ => false
  }

  /** Between `f` and `g` no assertion failed, except when the station polled itself. */
  ghost predicate FailsOnSelfPoll(f: Fdl, g: Fdl, polledItself: bool) {
    g.log.faults == f.log.faults + if polledItself then [SelfPoll] else []
  }

  lemma NextPollIsSelf(f: Fdl, cursor: nat)
    requires Sane(f) && cursor < f.p.highestStationAddress
    ensures NextGapPoll(f, cursor) == DoPoll(f.p.address) <==> CursorBeforeSelf(f, cursor)
  {
    SelfPollExactly(f.p.highestStationAddress, f.p.address, f.ring.ns, cursor);
  }

  lemma {:induction false} ListeningDoesNotFail(f: Fdl, now: int, ds: seq<Delivery>)
    requires f.online ==> f.state.ListenToken?
    ensures ListenToAll(f, now, ds).log.faults == f.log.faults
    decreases |ds|
  {
    if ds != [] {
      ListeningDoesNotFail(ListenTo(f, now, ds[0]), now, ds[1..]);
    }
  }

  lemma {:induction false} HandlingDoesNotFail(f: Fdl, now: int, ds: seq<Delivery>)
    requires LastEndsBatch(ds) && (ds != [] ==> f.state.ListenToken? || f.state.ActiveIdle?)
    ensures HandleAll(f, now, ds).log.faults == f.log.faults
    decreases |ds|
  {
    if ds != [] {
      HandlingDoesNotFail(HandleTelegram(MarkRx(f, now), now, ds[0]), now, ds[1..]);
    }
  }

  lemma {:induction false} AskingDoesNotFail(f: Fdl, now: int, answers: seq<Option<Telegram>>, high: bool, asks: nat)
    requires f.state.UseToken? && (|answers| > 0 ==> f.nextApplication < |answers|)
    ensures AskApplications(f, now, answers, high, asks).0.log.faults == f.log.faults
    decreases asks
  {
    if asks > 0 && answers != [] && answers[f.nextApplication].None? {
      AskingDoesNotFail(Decline(f, high, |answers|), now, answers, high, asks - 1);
    }
  }

  lemma UsingDoesNotFail(f: Fdl, now: int, answers: seq<Option<Telegram>>)
    requires f.state.UseToken? && (|answers| > 0 ==> f.nextApplication < |answers|)
    ensures DoUseToken(f, now, answers).log.faults == f.log.faults
  {
    var g := Touch(StartHold(f), now);
    AskingDoesNotFail(g.(state := UseToken(g.state.data, true)), now, answers, now >= g.endTokenHoldTime, |answers|);
  }

  lemma SendingTokenDoesNotFail(f: Fdl, now: int)
    requires Sane(f) && f.state.PassToken?
    ensures SendToken(f, now).log.faults == f.log.faults
  {
  }

  lemma PassingFailsOnSelfPoll(f: Fdl, now: int)
    requires Sane(f) && f.state.PassToken?
    ensures FailsOnSelfPoll(f, DoPassToken(f, now), IsAboutToPollItself(f, now, []))
  {
    var g := Touch(f, now);
    if PauseOver(g, now) {
      if g.state.doGap {
        AdvanceGapStaysSane(g);
        NextPollIsSelf(g, if g.gap.DoPoll? then g.gap.currentAddress else g.p.address);
        var h := AdvanceGap(g);
        if h.gap.Waiting? {
          SendingTokenDoesNotFail(h, now);
        }
      } else {
        SendingTokenDoesNotFail(g, now);
      }
    }
  }

  lemma ScanningFailsOnSelfPoll(f: Fdl, now: int)
    requires Sane(f) && f.state == ClaimToken(Scan)
    ensures FailsOnSelfPoll(f, DoScan(f, now), IsAboutToPollItself(f, now, []))
  {
    if f.gap.DoPoll? {
      NextPollIsSelf(f, f.gap.currentAddress);
    }
  }

  /** The first telegram that was received, when it is not what the awaited station has to answer. */
  predicate ReceivesUnexpected(f: Fdl, rx: seq<Byte>, address: nat) {
    TakeFirst(rx).telegram.Some? && !AnswersPoll(f, TakeFirst(rx).telegram.value, address)
  }

  lemma AwaitingKeepsSane(f: Fdl, now: int, rx: seq<Byte>, address: nat)
    requires Sane(f) && f.gap == DoPoll(address)
    ensures var (g, response) := AwaitGapPollResponse(f, now, rx, address);
            && Sane(g) && g.log == f.log && g.p == f.p && g.state == f.state && g.gap == f.gap
            && (response == UnexpectedTelegram <==> ReceivesUnexpected(f, rx, address))
            && (response == NoResponse <==> TakeFirst(rx).telegram.None? && SlotExpired(Touch(f, now), now))
            && (response == NoResponse ==> g == Touch(f, now))
  {
    hide WellFormed, SetNext, AllBelow;
    OperationsKeepWellFormed(f.ring, 0, 0, address);
    OperationsKeepAddresses(f.ring, 0, 0, address, MAX_ADDRESS + 1);
  }

  lemma AwaitingScanFails(f: Fdl, now: int, rx: seq<Byte>)
    requires Inv(f) && f.state.ClaimToken? && f.state.step.ScanAwaitResponse?
    ensures var g := DoClaimToken(f, now, rx);
            if ReceivesUnexpected(f, rx, f.state.step.address)
            then g.log.faults == f.log.faults + [ClaimBackOff]
            else FailsOnSelfPoll(f, g, IsAboutToPollItself(f, now, rx))
  {
    hide WellFormed, AllBelow, AwaitGapPollResponse, DoScan, ReceivesUnexpected, Ahead;
    var (g, response) := AwaitGapPollResponse(f, now, rx, f.state.step.address);
    AwaitingKeepsSane(f, now, rx, f.state.step.address);
    if response == NoResponse {
      SlotCoversSyncPause(f.p);
      ScanningFailsOnSelfPoll(g.(state := ClaimToken(Scan)), now);
    }
  }

  lemma ClaimingFails(f: Fdl, now: int, rx: seq<Byte>)
    requires Inv(f) && f.state.ClaimToken?
    ensures var g := DoClaimToken(f, now, rx);
            if f.state.step.ScanAwaitResponse? && ReceivesUnexpected(f, rx, f.state.step.address)
            then g.log.faults == f.log.faults + [ClaimBackOff]
            else FailsOnSelfPoll(f, g, IsAboutToPollItself(f, now, rx))
  {
    if f.state.step == Scan {
      ScanningFailsOnSelfPoll(f, now);
    } else if f.state.step.ScanAwaitResponse? {
      AwaitingScanFails(f, now, rx);
    }
  }

  lemma AwaitingStatusFails(f: Fdl, now: int, rx: seq<Byte>)
    requires Inv(f) && f.state.AwaitStatusResponse?
    ensures DoAwaitStatusResponse(f, now, rx).log.faults == f.log.faults
  {
    var (g, response) := AwaitGapPollResponse(f, now, rx, f.state.address);
    if response == NoResponse {
      PassingFailsOnSelfPoll(ToPassToken(g, false, Attempt.First), now);
    }
  }

  /** The slot has not expired and the first received telegram names no sender. */
  predicate HearsNobody(f: Fdl, now: int, rx: seq<Byte>) {
    && !SlotExpired(Touch(f, now), now)
    && Drain(rx).deliveries != [] && Drain(rx).deliveries[0].telegram.ShortConfirmation?
  }

  lemma CheckingFails(f: Fdl, now: int, rx: seq<Byte>)
    requires Inv(f) && f.state.CheckTokenPass?
    ensures var g := DoCheckTokenPass(f, now, rx);
            g.log.faults == f.log.faults + if HearsNobody(f, now, rx) then [NoSource] else []
  {
    var g := Touch(f, now);
    if SlotExpired(g, now) {
      PassingFailsOnSelfPoll(RetryPass(g), now);
    } else {
      var ds := Drain(rx).deliveries;
      HearingIsSilent(g, now, ds);
      if ds != [] {
        var h := if ds[0].telegram.SourceAddress().None? then Fail(g, NoSource) else g;
        HandlingDoesNotFail(ToActiveIdle(h), now, ds);
      }
    }
  }

  lemma OtherStatesDoNotFail(f: Fdl, input: Input)
    requires Inv(f) && f.online && InputOk(f, input)
    requires f.state.ListenToken? || f.state.ActiveIdle? || f.state.UseToken? || f.state.AwaitDataResponse?
    ensures Dispatch(f, input).log.faults == f.log.faults
  {
    var g := Touch(f, input.now);
    match f.state
    case ListenToken(_, _) => ListeningDoesNotFail(g, input.now, Drain(input.rx).deliveries);
    case ActiveIdle(_, _, _) => HandlingDoesNotFail(g, input.now, Drain(input.rx).deliveries);
    case UseToken(_, _) => UsingDoesNotFail(f, input.now, input.answers);
    case AwaitDataResponse(replier, data) =>
      UsingDoesNotFail(GiveUpOnReply(g), input.now, input.answers);
  }

  /** The assertions that fail when the station is dispatched, read off the state before and what has been
      received: it is interrupted while it scans the GAP after claiming the token, a short confirmation is the first
      thing it hears after passing the token, or it is about to poll itself. */
  function FaultsAhead(f: Fdl, now: int, rx: seq<Byte>): seq<Fault> {
    if f.state.ClaimToken? && f.state.step.ScanAwaitResponse? && ReceivesUnexpected(f, rx, f.state.step.address) then
      [ClaimBackOff]
    else if f.state.CheckTokenPass? && HearsNobody(f, now, rx) then [NoSource]
    else if IsAboutToPollItself(f, now, rx) then [SelfPoll]
    else []
  }

  lemma FaultsOfDispatch(f: Fdl, input: Input)
    requires Inv(f) && f.online && InputOk(f, input) && !f.state.Offline?
    ensures Dispatch(f, input).log.faults == f.log.faults + FaultsAhead(f, input.now, input.rx)
  {
    hide WellFormed, AllBelow, Consistent, DoClaimToken, DoPassToken, DoCheckTokenPass, DoAwaitStatusResponse;
    match f.state
    case ClaimToken(_) => ClaimingFails(f, input.now, input.rx);
    case PassToken(_, _) => PassingFailsOnSelfPoll(f, input.now);
    case CheckTokenPass(_) => CheckingFails(f, input.now, input.rx);
    case AwaitStatusResponse(_) => AwaitingStatusFails(f, input.now, input.rx);
    case _ => OtherStatesDoNotFail(f, input);
  }

  /** In every poll of a station that satisfies the invariant, each assertion of the program holds but for those
      three, and each of them fails exactly when the state before and the received bytes say so. */
  lemma FaultsOfPoll(f: Fdl, input: Input)
    requires Inv(f) && InputOk(f, input)
    ensures var active := f.online && !f.state.Offline? && !input.phyBusy && !Transmitting(f, input.now);
            Poll(f, input).log.faults
            == f.log.faults
               + if active then FaultsAhead(CheckForBusActivity(f, input.now, input.counted), input.now, input.rx)
                 else []
  {
    hide WellFormed, AllBelow, Consistent, Dispatch, IsAboutToPollItself, ReceivesUnexpected, HearsNobody;
    if f.online {
      var g := if f.state.Offline? then ToListenToken(f) else f;
      if !(input.phyBusy || Transmitting(g, input.now)) {
        var h := CheckForBusActivity(g, input.now, input.counted);
        FaultsOfDispatch(h, input);
        if g.state.ListenToken? {
          ListeningIsSafe(h, input.now, input.rx);
        }
      }
    }
  }

  lemma ListeningIsSafe(f: Fdl, now: int, rx: seq<Byte>)
    requires f.state.ListenToken?
    ensures FaultsAhead(f, now, rx) == []
  {
  }
}
