/**
 When a station transmits: at most once per poll, only after the synchronization pause, never into
 its own previous telegram, and without the token only what others have asked it for.
 */
module BusDiscipline {
  import opened BusParameters
  import opened Telegrams
  import opened PhysicalLayer
  import opened TokenRings
  import opened Stations
  import opened StationInvariant

  function End(p: Parameters, t: Transmission): int {
    t.at + p.BitsToTime(11 * TelegramLength(t.telegram))
  }

  /** Between `f` and `g` at most one telegram was sent, at the time `now`, more than the
      synchronization pause after the last activity known in `f`; the known activity never moves
      back and covers that telegram. */
  ghost predicate Disciplined(f: Fdl, g: Fdl, now: int) {
    && g.p == f.p
    && f.log.sent <= g.log.sent
    && (|g.log.sent| == |f.log.sent| ==>
          g.online && f.lastBusActivity.Some? ==>
            g.lastBusActivity.Some? && f.lastBusActivity.value <= g.lastBusActivity.value)
    && (|g.log.sent| != |f.log.sent| ==>
          && |g.log.sent| == |f.log.sent| + 1
          && f.lastBusActivity.Some? && now > f.lastBusActivity.value + f.p.baudrate.BitsToTime(33)
          && Last(g).at == now
          && g.lastBusActivity == Some(End(g.p, Last(g))))
  }

  function Last(f: Fdl): Transmission
    requires f.log.sent != []
  {
    f.log.sent[|f.log.sent| - 1]
  }

  lemma {:induction false} ListenToAllIsSilent(f: Fdl, now: int, ds: seq<Delivery>)
    requires f.online ==> f.state.ListenToken?
    ensures var g := ListenToAll(f, now, ds);
            && g.log == f.log && g.p == f.p && (g.online ==> f.online)
            && (g.online && f.lastBusActivity.Some? ==>
                  g.lastBusActivity.Some? && f.lastBusActivity.value <= g.lastBusActivity.value)
    decreases |ds|
  {
    if ds != [] {
      ListenToAllIsSilent(ListenTo(f, now, ds[0]), now, ds[1..]);
    }
  }

  lemma {:induction false} HandleAllIsSilent(f: Fdl, now: int, ds: seq<Delivery>)
    requires LastEndsBatch(ds) && (ds != [] ==> f.state.ListenToken? || f.state.ActiveIdle?)
    ensures var g := HandleAll(f, now, ds);
            && g.log.sent == f.log.sent && g.p == f.p && g.online == f.online
            && (f.lastBusActivity.Some? ==>
                  g.lastBusActivity.Some? && f.lastBusActivity.value <= g.lastBusActivity.value)
    decreases |ds|
  {
    if ds != [] {
      HandleAllIsSilent(HandleTelegram(MarkRx(f, now), now, ds[0]), now, ds[1..]);
    }
  }

  lemma SendTokenIsDisciplined(f: Fdl, now: int)
    requires Sane(f) && f.state.PassToken? && f.lastBusActivity.Some? && PauseOver(f, now)
    ensures Disciplined(f, SendToken(f, now), now)
  {
  }

  lemma DoPassTokenIsDisciplined(f: Fdl, now: int)
    requires Sane(f) && f.state.PassToken?
    ensures Disciplined(f, DoPassToken(f, now), now)
  {
    hide WellFormed, AllBelow, Consistent, SendToken;
    var g := Touch(f, now);
    if PauseOver(g, now) {
      AdvanceGapStaysSane(g);
      SendTokenIsDisciplined(if g.state.doGap then AdvanceGap(g) else g, now);
    }
  }

  lemma DoScanIsDisciplined(f: Fdl, now: int)
    requires Sane(f) && f.state == ClaimToken(Scan)
    ensures Disciplined(f, DoScan(f, now), now)
  {
  }

  lemma {:induction false} AskingIsDisciplined(f: Fdl, now: int, answers: seq<Option<Telegram>>, high: bool, asks: nat)
    requires f.state.UseToken? && (|answers| > 0 ==> f.nextApplication < |answers|)
    requires f.lastBusActivity.Some? && PauseOver(f, now)
    ensures Disciplined(f, AskApplications(f, now, answers, high, asks).0, now)
    decreases asks
  {
    if asks > 0 && answers != [] && answers[f.nextApplication].None? {
      AskingIsDisciplined(Decline(f, high, |answers|), now, answers, high, asks - 1);
    }
  }

  lemma DoUseTokenIsDisciplined(f: Fdl, now: int, answers: seq<Option<Telegram>>)
    requires f.state.UseToken? && (|answers| > 0 ==> f.nextApplication < |answers|)
    ensures Disciplined(f, DoUseToken(f, now, answers), now)
  {
    var g := Touch(StartHold(f), now);
    if PauseOver(g, now) {
      var asked := g.(state := UseToken(g.state.data, true));
      AskingIsDisciplined(asked, now, answers, now >= g.endTokenHoldTime, |answers|);
    }
  }

  lemma DoClaimTokenIsDisciplined(f: Fdl, now: int, rx: seq<Byte>)
    requires Inv(f) && f.state.ClaimToken?
    ensures Disciplined(f, DoClaimToken(f, now, rx), now)
  {
    if f.state.step == Scan {
      DoScanIsDisciplined(f, now);
    } else if f.state.step.ScanAwaitResponse? {
      ScanAfterAnswerIsDisciplined(f, now, rx);
    }
  }

  lemma ScanAfterAnswerIsDisciplined(f: Fdl, now: int, rx: seq<Byte>)
    requires Inv(f) && f.state.ClaimToken? && f.state.step.ScanAwaitResponse?
    ensures Disciplined(f, DoClaimToken(f, now, rx), now)
  {
    var (g, response) := AwaitGapPollResponse(f, now, rx, f.state.step.address);
    if response == NoResponse {
      DoScanIsDisciplined(g.(state := ClaimToken(Scan)), now);
    }
  }

  lemma HearingIsSilent(f: Fdl, now: int, ds: seq<Delivery>)
    requires f.state.CheckTokenPass? && LastEndsBatch(ds) && f.lastBusActivity.Some?
    ensures Disciplined(f, HearAfterPass(f, now, ds), now) && HearAfterPass(f, now, ds).log.sent == f.log.sent
  {
    if ds != [] {
      var g := if ds[0].telegram.SourceAddress().None? then Fail(f, NoSource) else f;
      HandleAllIsSilent(ToActiveIdle(g), now, ds);
    }
  }

  lemma DoListenTokenIsDisciplined(f: Fdl, now: int, rx: seq<Byte>)
    requires Inv(f) && f.online && f.state.ListenToken?
    ensures Disciplined(f, DoListenToken(f, now, rx), now)
  {
    var g := Touch(f, now);
    DoClaimTokenIsDisciplined(ToClaimToken(g), now, rx);
    ListenToAllIsSilent(g, now, Drain(rx).deliveries);
  }

  lemma DoActiveIdleIsDisciplined(f: Fdl, now: int, rx: seq<Byte>)
    requires Inv(f) && f.state.ActiveIdle?
    ensures Disciplined(f, DoActiveIdle(f, now, rx), now)
  {
    var g := Touch(f, now);
    DoClaimTokenIsDisciplined(ToClaimToken(g), now, rx);
    HandleAllIsSilent(g, now, Drain(rx).deliveries);
  }

  lemma DoAwaitDataIsDisciplined(f: Fdl, now: int, rx: seq<Byte>, answers: seq<Option<Telegram>>)
    requires f.state.AwaitDataResponse? && (|answers| > 0 ==> f.nextApplication < |answers|)
    ensures Disciplined(f, DoAwaitDataResponse(f, now, rx, answers), now)
  {
    var g := Touch(f, now);
    DoUseTokenIsDisciplined(GiveUpOnReply(g), now, answers);
  }

  lemma DoAwaitStatusIsDisciplined(f: Fdl, now: int, rx: seq<Byte>)
    requires Inv(f) && f.state.AwaitStatusResponse?
    ensures Disciplined(f, DoAwaitStatusResponse(f, now, rx), now)
  {
    var (g, response) := AwaitGapPollResponse(f, now, rx, f.state.address);
    if response == NoResponse {
      DoPassTokenIsDisciplined(ToPassToken(g, false, Attempt.First), now);
    }
  }

  lemma RetryKeepsSane(f: Fdl)
    requires Sane(f) && f.state.CheckTokenPass?
    ensures var g := RetryPass(f); Sane(g) && g.log == f.log && g.p == f.p && g.lastBusActivity == f.lastBusActivity
  {
    hide WellFormed, Remove, AllBelow;
    OperationsKeepWellFormed(f.ring, 0, 0, f.ring.ns);
    OperationsKeepAddresses(f.ring, 0, 0, f.ring.ns, MAX_ADDRESS + 1);
  }

  lemma DoCheckTokenPassIsDisciplined(f: Fdl, now: int, rx: seq<Byte>)
    requires Inv(f) && f.state.CheckTokenPass?
    ensures Disciplined(f, DoCheckTokenPass(f, now, rx), now)
  {
    hide WellFormed, AllBelow, Consistent, DoPassToken, HearAfterPass;
    var g := Touch(f, now);
    if SlotExpired(g, now) {
      RetryKeepsSane(g);
      DoPassTokenIsDisciplined(RetryPass(g), now);
    } else {
      HearingIsSilent(g, now, Drain(rx).deliveries);
    }
  }

  lemma DispatchIsDisciplined(f: Fdl, input: Input)
    requires Inv(f) && f.online && InputOk(f, input) && !f.state.Offline?
    ensures Disciplined(f, Dispatch(f, input), input.now)
  {
    match f.state
    case ListenToken(_, _) => DoListenTokenIsDisciplined(f, input.now, input.rx);
    case ClaimToken(_) => DoClaimTokenIsDisciplined(f, input.now, input.rx);
    case UseToken(_, _) => DoUseTokenIsDisciplined(f, input.now, input.answers);
    case AwaitDataResponse(_, _) => DoAwaitDataIsDisciplined(f, input.now, input.rx, input.answers);
    case PassToken(_, _) => DoPassTokenIsDisciplined(f, input.now);
    case CheckTokenPass(_) => DoCheckTokenPassIsDisciplined(f, input.now, input.rx);
    case ActiveIdle(_, _, _) => DoActiveIdleIsDisciplined(f, input.now, input.rx);
    case AwaitStatusResponse(_) => DoAwaitStatusIsDisciplined(f, input.now, input.rx);
  }

  /** Each poll transmits at most one telegram, at the time of the poll; it does so only when the PHY
      is free and more than 33 bit times have passed since the last known activity on the bus,
      which covers the station's own previous telegram. */
  lemma PollIsDisciplined(f: Fdl, input: Input)
    requires Inv(f) && InputOk(f, input)
    ensures Disciplined(f, Poll(f, input), input.now)
    ensures |Poll(f, input).log.sent| != |f.log.sent| ==> !input.phyBusy
  {
    if f.online {
      var g := if f.state.Offline? then ToListenToken(f) else f;
      if !(input.phyBusy || Transmitting(g, input.now)) {
        DispatchIsDisciplined(CheckForBusActivity(g, input.now, input.counted), input);
      }
    }
  }

  /** A slot that has expired implies that the pause is over, so the retry that follows an expired
      slot is transmitted in the same poll. */
  lemma RetryIsImmediate(f: Fdl, now: int)
    requires Sane(f) && f.state.CheckTokenPass? && f.lastBusActivity.Some?
    requires now > f.lastBusActivity.value + f.p.baudrate.BitsToTime(f.p.slotBits)
    ensures |DoPassToken(RetryPass(f), now).log.sent| == |f.log.sent| + 1
  {
    SlotCoversSyncPause(f.p);
  }

  /** What a station without the token may transmit: an answer to the request that it was sent, or, after the timeout,
      a claim. */
  ghost predicate MaySend(f: Fdl, now: int, t: Telegram)
    requires f.state.ListenToken? || f.state.ActiveIdle?
  {
    || (f.state.statusRequest.Some? && t.IsResponse() && t.h.da == f.state.statusRequest.value
        && t.h.sa == f.p.address && t.pdu == [])
    || (t.Token? && t.da == t.sa == f.p.address && f.lastBusActivity.Some?
        && now - f.lastBusActivity.value >= f.p.TokenLostTimeout())
  }

  lemma ClaimingSendsClaim(f: Fdl, now: int, rx: seq<Byte>)
    requires Inv(f) && f.state == ClaimToken(FirstToken)
    ensures var g := DoClaimToken(f, now, rx);
            |g.log.sent| > |f.log.sent| ==> Last(g).telegram == Token(f.p.address, f.p.address)
  {
    hide WellFormed, AllBelow;
  }

  lemma ListenerOnlyAnswers(f: Fdl, now: int, rx: seq<Byte>)
    requires Inv(f) && f.online && f.state.ListenToken? && f.lastBusActivity.Some? && now >= f.lastBusActivity.value
    ensures var g := DoListenToken(f, now, rx); |g.log.sent| > |f.log.sent| ==> MaySend(f, now, Last(g).telegram)
  {
    hide WellFormed, AllBelow, Consistent, DoClaimToken;
    ListenToAllIsSilent(f, now, Drain(rx).deliveries);
    ClaimingSendsClaim(ToClaimToken(f), now, rx);
  }

  lemma IdleOnlyAnswers(f: Fdl, now: int, rx: seq<Byte>)
    requires Inv(f) && f.state.ActiveIdle? && f.lastBusActivity.Some? && now >= f.lastBusActivity.value
    ensures var g := DoActiveIdle(f, now, rx); |g.log.sent| > |f.log.sent| ==> MaySend(f, now, Last(g).telegram)
  {
    hide WellFormed, AllBelow, Consistent, DoClaimToken;
    HandleAllIsSilent(f, now, Drain(rx).deliveries);
    ClaimingSendsClaim(ToClaimToken(f), now, rx);
  }

  /** Without the token, a station answers a status request it was sent, or claims a lost token;
      it transmits nothing else. */
  lemma WithoutTokenOnlyAnswers(f: Fdl, input: Input)
    requires Inv(f) && InputOk(f, input) && (f.state.ListenToken? || f.state.ActiveIdle?)
    ensures var g := Poll(f, input); |g.log.sent| > |f.log.sent| ==> MaySend(f, input.now, Last(g).telegram)
  {
    hide WellFormed, AllBelow, Consistent, DoListenToken, DoActiveIdle;
    if f.online && !(input.phyBusy || Transmitting(f, input.now)) {
      var g := CheckForBusActivity(f, input.now, input.counted);
      TimeoutIsPositive(f.p);
      TouchedSendsNothing(f, input);
      if f.lastBusActivity.Some? {
        if f.state.ListenToken? {
          ListenerOnlyAnswers(g, input.now, input.rx);
        } else {
          IdleOnlyAnswers(g, input.now, input.rx);
        }
      }
    }
  }

  /** A station that knows of no activity so far sends nothing. */
  lemma TouchedSendsNothing(f: Fdl, input: Input)
    requires Inv(f) && InputOk(f, input)
    ensures f.lastBusActivity.None? ==> Poll(f, input).log.sent == f.log.sent
  {
    PollIsDisciplined(f, input);
  }

  /** The station that waits for an answer to its status request. */
  function Asker(f: Fdl): Option<Byte> {
    match f.state
    case ListenToken(request, _) => request
    case ActiveIdle(request, _, _) => request
    case _ => None
  }

  /** One of these telegrams is a status request of `x` to this station, with nothing behind it. */
  predicate RequestArrives(f: Fdl, ds: seq<Delivery>, x: Byte) {
    exists d :: d in ds && d.isLast && IsRequestToUs(f, d.telegram) && d.telegram.h.sa == x
  }

  lemma {:induction false} ListeningKeepsAsker(f: Fdl, now: int, ds: seq<Delivery>, x: Byte)
    requires f.online ==> f.state.ListenToken?
    ensures var g := ListenToAll(f, now, ds);
            g.online && Asker(g) == Some(x) ==> Asker(f) == Some(x) || RequestArrives(f, ds, x)
    decreases |ds|
  {
    if ds != [] {
      var g := ListenTo(f, now, ds[0]);
      assert ds[0] in ds && forall d | d in ds[1..] :: d in ds;
      ListeningKeepsAsker(g, now, ds[1..], x);
      ListenToAllIsSilent(g, now, ds[1..]);
    }
  }

  lemma {:induction false} HandlingKeepsAsker(f: Fdl, now: int, ds: seq<Delivery>, x: Byte)
    requires LastEndsBatch(ds) && (ds != [] ==> f.state.ListenToken? || f.state.ActiveIdle?)
    ensures Asker(HandleAll(f, now, ds)) == Some(x) ==> Asker(f) == Some(x) || RequestArrives(f, ds, x)
    decreases |ds|
  {
    if ds != [] {
      assert ds[0] in ds && forall d | d in ds[1..] :: d in ds;
      HandlingKeepsAsker(HandleTelegram(MarkRx(f, now), now, ds[0]), now, ds[1..], x);
    }
  }

  /** A station only ever answers a status request that it has received: whoever waits for an answer after a
      poll already did so before it, or its request to this station has just arrived. */
  lemma AskerHasAsked(f: Fdl, input: Input, x: Byte)
    requires Inv(f) && InputOk(f, input) && Poll(f, input).online && Asker(Poll(f, input)) == Some(x)
    ensures Asker(f) == Some(x) || RequestArrives(f, Drain(input.rx).deliveries, x)
  {
    hide WellFormed, AllBelow, Consistent, RequestArrives, HandleAll, ListenToAll, DoPassToken, DoUseToken;
    if f.online && !(input.phyBusy || Transmitting(f, input.now)) {
      var g := CheckForBusActivity(f, input.now, input.counted);
      var h, ds := Touch(g, input.now), Drain(input.rx).deliveries;
      RequestIgnoresRest(f, h, ds, x);
      match f.state
      case ListenToken(_, _) => ListeningKeepsAsker(h, input.now, ds, x);
      case ActiveIdle(_, _, _) => HandlingKeepsAsker(h, input.now, ds, x);
      case CheckTokenPass(_) => CheckingKeepsAsker(g, input.now, input.rx, x);
      case Offline =>
        ListeningKeepsAsker(ToListenToken(h), input.now, ds, x);
        RequestIgnoresRest(f, ToListenToken(h), ds, x);
      case _ => OtherStatesHaveNoAsker(g, input);
    }
  }

  lemma {:induction false} AskingHasNoAsker(f: Fdl, now: int, answers: seq<Option<Telegram>>, high: bool, asks: nat)
    requires f.state.UseToken? && (|answers| > 0 ==> f.nextApplication < |answers|)
    ensures Asker(AskApplications(f, now, answers, high, asks).0) == None
    decreases asks
  {
    if asks > 0 && answers != [] && answers[f.nextApplication].None? {
      AskingHasNoAsker(Decline(f, high, |answers|), now, answers, high, asks - 1);
    }
  }

  lemma UsingHasNoAsker(f: Fdl, now: int, answers: seq<Option<Telegram>>)
    requires f.state.UseToken? && (|answers| > 0 ==> f.nextApplication < |answers|)
    ensures Asker(DoUseToken(f, now, answers)) == None
  {
    var g := Touch(StartHold(f), now);
    AskingHasNoAsker(g.(state := UseToken(g.state.data, true)), now, answers, now >= g.endTokenHoldTime, |answers|);
  }

  lemma PassingHasNoAsker(f: Fdl, now: int)
    requires Sane(f) && f.state.PassToken?
    ensures Asker(DoPassToken(f, now)) == None
  {
    hide WellFormed, AllBelow, Consistent;
    AdvanceGapStaysSane(Touch(f, now));
  }

  lemma OtherStatesHaveNoAsker(f: Fdl, input: Input)
    requires Inv(f) && InputOk(f, input) && f.online && !f.state.Offline?
    requires !f.state.ListenToken? && !f.state.ActiveIdle? && !f.state.CheckTokenPass?
    ensures Asker(Dispatch(f, input)) == None
  {
    hide WellFormed, AllBelow, Consistent, DoUseToken, DoPassToken;
    match f.state
    case UseToken(_, _) => UsingHasNoAsker(f, input.now, input.answers);
    case AwaitDataResponse(replier, data) =>
      var g := Touch(f, input.now);
      UsingHasNoAsker(GiveUpOnReply(g), input.now, input.answers);
    case PassToken(_, _) => PassingHasNoAsker(f, input.now);
    case AwaitStatusResponse(address) =>
      var (g, response) := AwaitGapPollResponse(f, input.now, input.rx, address);
      if response == NoResponse {
        PassingHasNoAsker(ToPassToken(g, false, Attempt.First), input.now);
      }
    case ClaimToken(_) =>
  }

  lemma RequestIgnoresRest(f: Fdl, g: Fdl, ds: seq<Delivery>, x: Byte)
    ensures f.p == g.p ==> RequestArrives(f, ds, x) == RequestArrives(g, ds, x)
  {
  }

  lemma CheckingKeepsAsker(f: Fdl, now: int, rx: seq<Byte>, x: Byte)
    requires Inv(f) && f.state.CheckTokenPass? && Asker(DoCheckTokenPass(f, now, rx)) == Some(x)
    ensures RequestArrives(f, Drain(rx).deliveries, x)
  {
    hide WellFormed, AllBelow, Consistent, RequestArrives;
    var g, ds := Touch(f, now), Drain(rx).deliveries;
    if !SlotExpired(g, now) && ds != [] {
      var h := ToActiveIdle(if ds[0].telegram.SourceAddress().None? then Fail(g, NoSource) else g);
      HandlingKeepsAsker(h, now, ds, x);
      RequestIgnoresRest(f, h, ds, x);
    }
  }

  // ---------------------------------------------------------------------------------------------
  // Spacing over whole runs
  // ---------------------------------------------------------------------------------------------

  /** The transmissions from the `k`-th on keep the pause between each other, and the known bus
      activity covers the last of them. */
  ghost predicate SpacedFrom(f: Fdl, k: nat) {
    && k <= |f.log.sent|
    && (forall i | k < i < |f.log.sent| ::
         f.log.sent[i].at > End(f.p, f.log.sent[i - 1]) + f.p.baudrate.BitsToTime(33))
    && (k < |f.log.sent| ==> f.lastBusActivity.Some? && f.lastBusActivity.value >= End(f.p, Last(f)))
  }

  lemma PollKeepsSpacing(f: Fdl, input: Input, k: nat)
    requires Inv(f) && InputOk(f, input) && SpacedFrom(f, k) && f.online && Poll(f, input).online
    ensures SpacedFrom(Poll(f, input), k)
  {
    PollIsDisciplined(f, input);
    var g := Poll(f, input);
    assert forall i | 0 <= i < |f.log.sent| :: g.log.sent[i] == f.log.sent[i];
  }

  /** In every run in which the station stays online, each of its transmissions begins more than 33 bit
      times after the end of its previous one. */
  lemma {:induction false} OwnTransmissionsAreSpaced(f: Fdl, inputs: seq<Input>, n: nat, k: nat)
    requires Ready(f, n) && f.online && Continues(f, inputs, n) && SpacedFrom(f, k)
    ensures SpacedFrom(PollAll(f, inputs, n), k)
    decreases |inputs|
  {
    if inputs != [] {
      PollKeeps(f, inputs[0]);
      PollKeepsSpacing(f, inputs[0], k);
      OwnTransmissionsAreSpaced(Poll(f, inputs[0]), inputs[1..], n, k);
    }
  }

  /** In every run in which the station stays online, whoever waits for a status answer at the end did so at the
      beginning, or its request arrived on the way. */
  lemma {:induction false} AskerAskedInRun(f: Fdl, inputs: seq<Input>, n: nat, x: Byte)
    requires Ready(f, n) && f.online && Continues(f, inputs, n) && Asker(PollAll(f, inputs, n)) == Some(x)
    ensures Asker(f) == Some(x) || exists j | 0 <= j < |inputs| :: RequestArrives(f, Drain(inputs[j].rx).deliveries, x)
    decreases |inputs|
  {
    hide RequestArrives, Inv, Poll;
    if inputs != [] {
      PollKeeps(f, inputs[0]);
      PollIsDisciplined(f, inputs[0]);
      var g, rest := Poll(f, inputs[0]), inputs[1..];
      AskerAskedInRun(g, rest, n, x);
      if Asker(g) == Some(x) {
        AskerHasAsked(f, inputs[0], x);
      } else {
        var j :| 0 <= j < |rest| && RequestArrives(g, Drain(rest[j].rx).deliveries, x);
        RequestIgnoresRest(f, g, Drain(rest[j].rx).deliveries, x);
        assert rest[j] == inputs[j + 1];
      }
    }
  }

  /** So over the whole run, each answer that a station sends without the token goes to a station whose request
      has arrived before. */
  lemma AnswersFollowRequests(f: Fdl, inputs: seq<Input>, last: Input, n: nat)
    requires Ready(f, n) && f.online && Continues(f, inputs, n) && Asker(f).None?
    requires var g := PollAll(f, inputs, n);
             && Inv(g) && InputOk(g, last) && (g.state.ListenToken? || g.state.ActiveIdle?)
             && |Poll(g, last).log.sent| > |g.log.sent| && Last(Poll(g, last)).telegram.IsResponse()
    ensures var x := Last(Poll(PollAll(f, inputs, n), last)).telegram.h.da;
            exists j | 0 <= j < |inputs| :: RequestArrives(f, Drain(inputs[j].rx).deliveries, x)
  {
    hide RequestArrives, Inv, Poll;
    var g := PollAll(f, inputs, n);
    WithoutTokenOnlyAnswers(g, last);
    AskerAskedInRun(f, inputs, n, Last(Poll(g, last)).telegram.h.da);
  }
}
