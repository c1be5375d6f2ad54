/**
 The active station as it is written: an object that is polled and updates its fields in place.

 Every method is proved to do to the fields what the function of the same name in `Stations` says.
 The PHY accepts a telegram only while it is not transmitting, so the proofs also show that no call
 of `Poll` starts a second transmission.
 */
module FdlActiveStations {
  import opened BusParameters
  import opened Telegrams
  import opened PhysicalLayer
  import opened TokenRings
  import opened Stations

  class FdlActiveStation {
    const p: Parameters
    const tokenRing: TokenRing
    var online: bool
    var gapState: GapState
    var state: State
    var lastBusActivity: Option<int>
    var pendingBytes: nat
    var lastTokenTime: int
    var endTokenHoldTime: int
    var nextApplication: nat
    /** What could be observed so far. */
    ghost var log: Log

    ghost predicate Valid()
      reads this, tokenRing, tokenRing.activeStations
    {
      tokenRing.Valid() && Sane(View())
    }

    ghost function View(): Fdl
      reads this, tokenRing, tokenRing.activeStations
    {
      Fdl(p, tokenRing.View(), online, gapState, state, lastBusActivity, pendingBytes, lastTokenTime,
          endTokenHoldTime, nextApplication, log)
    }

    constructor (p: Parameters)
      requires Consistent(p)
      ensures Valid() && Inv(View()) && View() == NewFdl(p, Log([], [], []))
      ensures fresh(tokenRing) && fresh(tokenRing.activeStations)
    {
      this.p := p;
      tokenRing := new TokenRing(p.address);
      online := false;
      gapState := DoPoll(p.address);
      state := Offline;
      lastBusActivity := None;
      pendingBytes := 0;
      lastTokenTime := 0;
      endTokenHoldTime := 0;
      nextApplication := 0;
      log := Log([], [], []);
    }

    method SetOnline()
      requires Valid()
      modifies this
      ensures Valid() && View() == Stations.SetOnline(old(View())) == old(View()).(online := true)
    {
      online := true;
    }

    method SetOffline()
      requires Valid()
      modifies this, tokenRing, tokenRing.activeStations
      ensures Valid() && View() == Stations.SetOffline(old(View()))
      ensures tokenRing.Stations() == {p.address} && tokenRing.lasState == LasState.Uninitialized
      ensures !online && state == Offline && gapState == DoPoll(p.address) && lastBusActivity == None
      ensures pendingBytes == lastTokenTime == endTokenHoldTime == nextApplication == 0
      ensures View().log == old(View().log)
    {
      tokenRing.Reset();
      online := false;
      gapState := DoPoll(p.address);
      state := Offline;
      lastBusActivity := None;
      pendingBytes := 0;
      lastTokenTime := 0;
      endTokenHoldTime := 0;
      nextApplication := 0;
    }

    // -------------------------------------------------------------------------------------------
    // Time keeping
    // -------------------------------------------------------------------------------------------

    method GetOrInsertActivity(now: int) returns (last: int)
      requires Valid()
      modifies this`lastBusActivity
      ensures Valid() && View() == Touch(old(View()), now) && lastBusActivity == Some(last)
    {
      if lastBusActivity.None? {
        lastBusActivity := Some(now);
      }
      last := lastBusActivity.value;
    }

    method MarkActivity(now: int)
      requires Valid()
      modifies this`lastBusActivity
      ensures Valid() && View() == MarkBusActivity(old(View()), now)
    {
      var last := GetOrInsertActivity(now);
      lastBusActivity := Some(Max(last, now));
    }

    method MarkReceived(now: int)
      requires Valid()
      modifies this`lastBusActivity, this`pendingBytes
      ensures Valid() && View() == MarkRx(old(View()), now)
    {
      pendingBytes := 0;
      MarkActivity(now);
    }

    method WaitSynchronizationPause(now: int) returns (waiting: bool)
      requires Valid()
      modifies this`lastBusActivity
      ensures Valid() && View() == Touch(old(View()), now) && waiting == !PauseOver(View(), now)
    {
      var last := GetOrInsertActivity(now);
      waiting := now <= last + p.SyncPause();
    }

    method CheckSlotExpired(now: int) returns (expired: bool)
      requires Valid()
      modifies this`lastBusActivity
      ensures Valid() && View() == Touch(old(View()), now) && expired == SlotExpired(View(), now)
    {
      var last := GetOrInsertActivity(now);
      expired := now > last + p.SlotTime();
    }

    /** More pending bytes than before are activity on the bus. */
    method CountPendingBytes(now: int, phy: Phy)
      requires Valid() && phy.Valid()
      modifies this`lastBusActivity, this`pendingBytes
      ensures Valid() && View() == CheckForBusActivity(old(View()), now, phy.length)
    {
      if phy.length > pendingBytes {
        MarkActivity(now);
        pendingBytes := phy.length;
      }
    }

    /** Transmit a telegram; the PHY must be free. */
    method TransmitTelegram(now: int, phy: Phy, t: Telegram)
      requires Valid() && phy.Valid() && !phy.transmitting && Encodable(t)
      modifies this`lastBusActivity, this`log, phy`transmitting, phy.buffer
      ensures Valid() && phy.Valid() && View() == Send(old(View()), now, t)
      ensures phy.transmitting && phy.buffer[..|Encode(t)|] == Encode(t)
    {
      var bytes := Encode(t);
      phy.Transmit(bytes);
      lastBusActivity := Some(now + p.BitsToTime(11 * |bytes|));
      log := log.(sent := log.sent + [Transmission(now, t)]);
    }

    // -------------------------------------------------------------------------------------------
    // GAP polling
    // -------------------------------------------------------------------------------------------

    method TransmitGapPollIfPending(now: int, phy: Phy) returns (polled: Option<nat>)
      requires Valid() && phy.Valid() && !phy.transmitting
      modifies this`lastBusActivity, this`log, phy`transmitting, phy.buffer
      ensures Valid() && phy.Valid()
      ensures if gapState.DoPoll? then
                polled == Some(gapState.currentAddress) && View() == TransmitGapPoll(old(View()), now)
              else
                polled == None && View() == old(View()) && !phy.transmitting
    {
      match gapState
      case DoPoll(address) =>
        if address == p.address {
          log := log.(faults := log.faults + [SelfPoll]);
        }
        TransmitTelegram(now, phy, StatusRequest(address, p.address));
        polled := Some(address);
      case Waiting(_) =>
        polled := None;
    }

    method AwaitGapPollAnswer(now: int, phy: Phy, address: nat) returns (response: GapPollResponse)
      requires Valid() && phy.Valid() && !phy.transmitting && gapState == DoPoll(address)
      modifies this`lastBusActivity, this`pendingBytes, tokenRing, tokenRing.activeStations, phy`length, phy.buffer
      ensures Valid() && phy.Valid()
      ensures (View(), response) == AwaitGapPollResponse(old(View()), now, old(phy.Pending()), address)
    {
      var received := phy.ReceiveTelegram();
      if received.Some? {
        var t := received.value;
        MarkReceived(now);
        if t.IsResponse() && t.h.sa == address && t.h.da == p.address {
          if t.h.fc.status == Ok && (t.h.fc.state == MasterWithoutToken || t.h.fc.state == MasterInRing) {
            tokenRing.SetNextStation(address);
          }
          return StationResponded;
        }
        return UnexpectedTelegram;
      }
      var expired := CheckSlotExpired(now);
      response := if expired then NoResponse else StillWaiting;
    }

    // -------------------------------------------------------------------------------------------
    // Without the token
    // -------------------------------------------------------------------------------------------

    method HandleLostToken(now: int, phy: Phy) returns (done: bool)
      requires Valid() && phy.Valid() && !phy.transmitting && (state.ListenToken? || state.ActiveIdle?)
      modifies this, tokenRing, tokenRing.activeStations, phy, phy.buffer
      ensures Valid() && phy.Valid()
      ensures var g := Touch(old(View()), now);
              && done == TokenLost(g, now)
              && View() == if done then Stations.DoClaimToken(ToClaimToken(g), now, old(phy.Pending())) else g
      ensures !done ==> !phy.transmitting && phy.Pending() == old(phy.Pending())
    {
      var last := GetOrInsertActivity(now);
      done := Distance(now, last) >= p.TokenLostTimeout();
      if done {
        state := ClaimToken(FirstToken);
        DoClaimToken(now, phy);
      }
    }

    method DoListenToken(now: int, phy: Phy)
      requires Valid() && phy.Valid() && !phy.transmitting && online && state.ListenToken?
      modifies this, tokenRing, tokenRing.activeStations, phy, phy.buffer
      ensures Valid() && phy.Valid()
      ensures View() == Stations.DoListenToken(old(View()), now, old(phy.Pending()))
    {
      var lost := HandleLostToken(now, phy);
      if lost {
        return;
      }
      if state.statusRequest.Some? {
        var waiting := WaitSynchronizationPause(now);
        if waiting {
          return;
        }
        AnswerStatusRequest(now, phy);
        return;
      }
      var ds := phy.ReceiveAllTelegrams();
      ListenToAllTelegrams(now, ds);
    }

    method AnswerStatusRequest(now: int, phy: Phy)
      requires Valid() && phy.Valid() && !phy.transmitting && state.ListenToken? && state.statusRequest.Some?
      modifies this, phy, phy.buffer
      ensures Valid() && phy.Valid() && View() == AnswerWhileListening(old(View()), now)
    {
      var source := state.statusRequest.value;
      var ready := tokenRing.lasState == LasState.Valid;
      var answer := if ready && source == tokenRing.previousStation then MasterWithoutToken else MasterNotReady;
      if ready {
        state := ActiveIdle(None, None, 0);
      } else {
        state := ListenToken(None, state.collisionCount);
      }
      TransmitTelegram(now, phy, StatusResponse(source, p.address, answer));
    }

    method ListenToAllTelegrams(now: int, ds: seq<Delivery>)
      requires Valid() && (online ==> state.ListenToken?)
      modifies this, tokenRing, tokenRing.activeStations
      ensures Valid() && View() == ListenToAll(old(View()), now, ds)
    {
      ghost var start := View();
      for i := 0 to |ds|
        invariant Valid() && (online ==> state.ListenToken?)
        invariant ListenToAll(start, now, ds) == ListenToAll(View(), now, ds[i..])
      {
        ListenToTelegram(now, ds[i]);
        assert ds[i..][1..] == ds[i + 1..];
      }
    }

    method ListenToTelegram(now: int, d: Delivery)
      requires Valid() && (online ==> state.ListenToken?)
      modifies this, tokenRing, tokenRing.activeStations
      ensures Valid() && (online ==> state.ListenToken?) && View() == ListenTo(old(View()), now, d)
    {
      MarkReceived(now);
      if !online {
        return;
      }
      if d.telegram.SourceAddress() == Some(p.address) {
        state := ListenToken(state.statusRequest, state.collisionCount + 1);
        if state.collisionCount >= 2 {
          SetOffline();
        }
        return;
      }
      match d.telegram
      case Token(da, sa) =>
        tokenRing.WitnessTokenPass(sa, da);
      case Data(h, _) =>
        if d.telegram.IsStatusRequest() && h.da == p.address && d.isLast {
          state := ListenToken(Some(h.sa), state.collisionCount);
        }
      case ShortConfirmation =>
    }

    method HandleReceivedTelegram(now: int, d: Delivery)
      requires Valid() && (state.ListenToken? || state.ActiveIdle?)
      modifies this`state, this`log, tokenRing, tokenRing.activeStations
      ensures Valid() && View() == HandleTelegram(old(View()), now, d)
    {
      if state.ListenToken? {
        return;
      }
      match d.telegram
      case Token(da, sa) =>
        if sa == p.address {
          state := ActiveIdle(state.statusRequest, state.newPreviousStation, state.collisionCount + 1);
          if state.collisionCount >= 2 {
            state := ListenToken(None, 0);
          }
          return;
        }
        state := ActiveIdle(state.statusRequest, state.newPreviousStation, 0);
        HandleReceivedToken(now, da, sa, d.isLast);
      case Data(h, _) =>
        if d.telegram.IsStatusRequest() && h.da == p.address && d.isLast {
          state := ActiveIdle(Some(h.sa), state.newPreviousStation, state.collisionCount);
        }
      case ShortConfirmation =>
    }

    method HandleReceivedToken(now: int, da: Byte, sa: Byte, isLast: bool)
      requires Valid() && state.ActiveIdle?
      modifies this`state, this`log, tokenRing, tokenRing.activeStations
      ensures Valid() && View() == HandleToken(old(View()), now, da, sa, isLast)
    {
      hide WellFormed, Consistent;
      WitnessKeepsSane(View(), sa, da);
      if da != p.address || !isLast {
        tokenRing.WitnessTokenPass(sa, da);
      } else if sa == tokenRing.previousStation {
        StartUsingToken(now);
      } else if state.newPreviousStation == Some(sa) {
        tokenRing.WitnessTokenPass(sa, da);
        StartUsingToken(now);
      } else {
        state := ActiveIdle(state.statusRequest, Some(sa), state.collisionCount);
      }
    }

    method StartUsingToken(now: int)
      requires Valid() && (state.PassToken? || state.ActiveIdle?)
      modifies this`state, this`log
      ensures Valid() && View() == TakeToken(old(View()), now)
    {
      state := UseToken(UseTokenData(now, None), false);
      log := log.(events := log.events + [TokenTaken]);
    }

    method HandleAllTelegrams(now: int, ds: seq<Delivery>)
      requires Valid() && (state.ListenToken? || state.ActiveIdle?) && LastEndsBatch(ds)
      modifies this, tokenRing, tokenRing.activeStations
      ensures Valid() && View() == HandleAll(old(View()), now, ds)
    {
      ghost var start := View();
      for i := 0 to |ds|
        invariant Valid() && (i < |ds| ==> state.ListenToken? || state.ActiveIdle?)
        invariant LastEndsBatch(ds[i..])
        invariant HandleAll(start, now, ds) == HandleAll(View(), now, ds[i..])
      {
        MarkReceived(now);
        HandleReceivedTelegram(now, ds[i]);
        assert ds[i..][1..] == ds[i + 1..];
      }
    }

    method DoActiveIdle(now: int, phy: Phy)
      requires Valid() && phy.Valid() && !phy.transmitting && state.ActiveIdle?
      modifies this, tokenRing, tokenRing.activeStations, phy, phy.buffer
      ensures Valid() && phy.Valid()
      ensures View() == Stations.DoActiveIdle(old(View()), now, old(phy.Pending()))
    {
      var lost := HandleLostToken(now, phy);
      if lost {
        return;
      }
      if state.statusRequest.Some? {
        var waiting := WaitSynchronizationPause(now);
        if waiting {
          return;
        }
        var source := state.statusRequest.value;
        state := ActiveIdle(None, state.newPreviousStation, state.collisionCount);
        TransmitTelegram(now, phy, StatusResponse(source, p.address, MasterInRing));
        return;
      }
      var ds := phy.ReceiveAllTelegrams();
      HandleAllTelegrams(now, ds);
    }

    // -------------------------------------------------------------------------------------------
    // Claiming the token
    // -------------------------------------------------------------------------------------------

    method SendClaimToken(now: int, phy: Phy, nextStep: ClaimTokenStep)
      requires Valid() && phy.Valid() && !phy.transmitting && state.ClaimToken?
      modifies this, tokenRing, phy, phy.buffer
      ensures Valid() && phy.Valid()
      ensures var g := Touch(old(View()), now);
              View() == if PauseOver(g, now) then SendClaim(g, now, nextStep) else g
    {
      var waiting := WaitSynchronizationPause(now);
      if waiting {
        return;
      }
      tokenRing.ClaimToken();
      state := ClaimToken(nextStep);
      gapState := DoPoll(p.address);
      TransmitTelegram(now, phy, Token(p.address, p.address));
    }

    method ScanGap(now: int, phy: Phy)
      requires Valid() && phy.Valid() && !phy.transmitting && state == ClaimToken(Scan)
      modifies this, phy, phy.buffer
      ensures Valid() && phy.Valid() && View() == DoScan(old(View()), now)
    {
      var waiting := WaitSynchronizationPause(now);
      if waiting {
        return;
      }
      match gapState
      case Waiting(_) =>
        state := PassToken(false, Attempt.First);
      case DoPoll(current) =>
        gapState := NextGap(p.highestStationAddress, p.address, tokenRing.nextStation, current);
        var polled := TransmitGapPollIfPending(now, phy);
        if polled.Some? {
          state := ClaimToken(ScanAwaitResponse(polled.value));
        }
    }

    method DoClaimToken(now: int, phy: Phy)
      requires Valid() && phy.Valid() && !phy.transmitting && state.ClaimToken?
      requires state.step.ScanAwaitResponse? ==> gapState == DoPoll(state.step.address)
      modifies this, tokenRing, tokenRing.activeStations, phy, phy.buffer
      ensures Valid() && phy.Valid()
      ensures View() == Stations.DoClaimToken(old(View()), now, old(phy.Pending()))
    {
      match state.step
      case FirstToken =>
        SendClaimToken(now, phy, SecondToken);
      case SecondToken =>
        SendClaimToken(now, phy, Scan);
      case Scan =>
        ScanGap(now, phy);
      case ScanAwaitResponse(address) =>
        var response := AwaitGapPollAnswer(now, phy, address);
        match response
        case StillWaiting =>
        case StationResponded =>
          state := ClaimToken(Scan);
        case NoResponse =>
          state := ClaimToken(Scan);
          ScanGap(now, phy);
        case UnexpectedTelegram =>
          state := ActiveIdle(None, None, 0);
          log := log.(faults := log.faults + [ClaimBackOff]);
    }

    // -------------------------------------------------------------------------------------------
    // Using the token
    // -------------------------------------------------------------------------------------------

    method ScheduleNextApplication(numApps: nat) returns (cycleCompleted: bool)
      requires Valid() && state.UseToken? && numApps > 0
      modifies this`state, this`nextApplication
      ensures Valid() && View() == ScheduleNext(old(View()), numApps)
      ensures state.data.firstApp.Some? && cycleCompleted == (nextApplication == state.data.firstApp.value)
    {
      var data := state.data;
      var firstApp := if data.firstApp.Some? then data.firstApp.value else nextApplication;
      state := UseToken(data.(firstApp := Some(firstApp)), state.firstCycleDone);
      nextApplication := (nextApplication + 1) % numApps;
      cycleCompleted := nextApplication == firstApp;
    }

    method AppTransmitTelegram(now: int, phy: Phy, highPrioOnly: bool, t: Telegram)
      requires Valid() && phy.Valid() && !phy.transmitting && state.UseToken? && Encodable(t)
      modifies this, phy, phy.buffer
      ensures Valid() && phy.Valid() && View() == TransmitFor(old(View()), now, highPrioOnly, t)
    {
      log := log.(events := log.events + [Asked(nextApplication, highPrioOnly, true)]);
      var replier := ExpectedReplier(t);
      if replier.Some? {
        state := AwaitDataResponse(replier.value, state.data);
      }
      TransmitTelegram(now, phy, t);
    }

    method AppsTransmitTelegram(now: int, phy: Phy, answers: seq<Option<Telegram>>, highPrioOnly: bool)
      returns (transmitted: bool)
      requires Valid() && phy.Valid() && !phy.transmitting && state.UseToken? && AnswersOk(answers)
      requires |answers| > 0 ==> nextApplication < |answers|
      modifies this, phy, phy.buffer
      ensures Valid() && phy.Valid()
      ensures (View(), transmitted) == AskApplications(old(View()), now, answers, highPrioOnly, |answers|)
    {
      ghost var start := View();
      for i := 0 to |answers|
        invariant Valid() && phy.Valid() && !phy.transmitting && state.UseToken?
        invariant |answers| > 0 ==> nextApplication < |answers|
        invariant AskApplications(start, now, answers, highPrioOnly, |answers|)
               == AskApplications(View(), now, answers, highPrioOnly, |answers| - i)
      {
        var answer := answers[nextApplication];
        if answer.Some? {
          AppTransmitTelegram(now, phy, highPrioOnly, answer.value);
          return true;
        }
        log := log.(events := log.events + [Asked(nextApplication, highPrioOnly, false)]);
        var completed := ScheduleNextApplication(|answers|);
        if completed {
          return false;
        }
      }
      transmitted := false;
    }

    method StartTokenHold()
      requires Valid() && state.UseToken?
      modifies this`endTokenHoldTime, this`lastTokenTime
      ensures Valid() && View() == StartHold(old(View()))
    {
      var data := state.data;
      if lastTokenTime != data.tokenTime {
        endTokenHoldTime := lastTokenTime + p.TokenRotationTime();
        lastTokenTime := data.tokenTime;
        if gapState.DoPoll? {
          endTokenHoldTime := endTokenHoldTime - p.GapReserve();
        }
      }
    }

    method DoUseToken(now: int, phy: Phy, answers: seq<Option<Telegram>>)
      requires Valid() && phy.Valid() && !phy.transmitting && state.UseToken? && AnswersOk(answers)
      requires |answers| > 0 ==> nextApplication < |answers|
      modifies this, phy, phy.buffer
      ensures Valid() && phy.Valid() && View() == Stations.DoUseToken(old(View()), now, answers)
    {
      StartTokenHold();
      var waiting := WaitSynchronizationPause(now);
      if waiting {
        return;
      }
      if now < endTokenHoldTime {
        state := UseToken(state.data, true);
        var transmitted := AppsTransmitTelegram(now, phy, answers, false);
        if transmitted {
          return;
        }
      } else if !state.firstCycleDone {
        state := UseToken(state.data, true);
        var transmitted := AppsTransmitTelegram(now, phy, answers, true);
        if transmitted {
          return;
        }
      }
      state := PassToken(true, Attempt.First);
      log := log.(events := log.events + [TokenReleased]);
    }

    method DoAwaitDataResponse(now: int, phy: Phy, answers: seq<Option<Telegram>>)
      requires Valid() && phy.Valid() && !phy.transmitting && state.AwaitDataResponse? && AnswersOk(answers)
      requires |answers| > 0 ==> nextApplication < |answers|
      modifies this, phy, phy.buffer
      ensures Valid() && phy.Valid()
      ensures View() == Stations.DoAwaitDataResponse(old(View()), now, old(phy.Pending()), answers)
    {
      var replier, data := state.replier, state.data;
      var received := phy.ReceiveTelegram();
      if received.Some? {
        var t := received.value;
        MarkReceived(now);
        if t.ShortConfirmation? || (t.IsResponse() && t.h.sa == replier && t.h.da == p.address) {
          log := log.(events := log.events + [GotReply(nextApplication, replier)]);
          state := UseToken(data, true);
        } else {
          state := ActiveIdle(None, None, 0);
        }
        return;
      }
      var expired := CheckSlotExpired(now);
      if expired {
        log := log.(events := log.events + [TimedOut(nextApplication, replier)]);
        state := UseToken(data, true);
        DoUseToken(now, phy, answers);
      }
    }

    // -------------------------------------------------------------------------------------------
    // Passing the token on
    // -------------------------------------------------------------------------------------------

    method SendTokenTelegram(now: int, phy: Phy)
      requires Valid() && phy.Valid() && !phy.transmitting && state.PassToken?
      modifies this, tokenRing, tokenRing.activeStations, phy, phy.buffer
      ensures Valid() && phy.Valid() && View() == SendToken(old(View()), now)
    {
      var attempt := state.attempt;
      var receiver := tokenRing.nextStation;
      tokenRing.WitnessTokenPass(p.address, receiver);
      if tokenRing.nextStation == p.address {
        StartUsingToken(now);
      } else {
        state := CheckTokenPass(attempt);
      }
      TransmitTelegram(now, phy, Token(receiver, p.address));
    }

    method DoPassToken(now: int, phy: Phy)
      requires Valid() && phy.Valid() && !phy.transmitting && state.PassToken?
      modifies this, tokenRing, tokenRing.activeStations, phy, phy.buffer
      ensures Valid() && phy.Valid() && View() == Stations.DoPassToken(old(View()), now)
    {
      hide WellFormed, AllBelow, Consistent, SendToken;
      var waiting := WaitSynchronizationPause(now);
      if waiting {
        return;
      }
      if state.doGap {
        var hsa, next := p.highestStationAddress, tokenRing.nextStation;
        match gapState {
          case Waiting(count) =>
            if count > p.gapWaitRotations {
              gapState := NextGap(hsa, p.address, next, p.address);
            } else {
              gapState := Waiting(count + 1);
            }
          case DoPoll(current) =>
            gapState := NextGap(hsa, p.address, next, current);
        }
        AdvanceGapStaysSane(Touch(old(View()), now));
        var polled := TransmitGapPollIfPending(now, phy);
        if polled.Some? {
          state := AwaitStatusResponse(polled.value);
          return;
        }
      }
      SendTokenTelegram(now, phy);
    }

    method DoAwaitStatusResponse(now: int, phy: Phy)
      requires Valid() && phy.Valid() && !phy.transmitting
      requires state.AwaitStatusResponse? && gapState == DoPoll(state.address)
      modifies this, tokenRing, tokenRing.activeStations, phy, phy.buffer
      ensures Valid() && phy.Valid()
      ensures View() == Stations.DoAwaitStatusResponse(old(View()), now, old(phy.Pending()))
    {
      var response := AwaitGapPollAnswer(now, phy, state.address);
      match response
      case StillWaiting =>
      case StationResponded =>
        state := PassToken(false, Attempt.First);
      case NoResponse =>
        state := PassToken(false, Attempt.First);
        DoPassToken(now, phy);
      case UnexpectedTelegram =>
        state := ActiveIdle(None, None, 0);
    }

    method DoCheckTokenPass(now: int, phy: Phy)
      requires Valid() && phy.Valid() && !phy.transmitting && state.CheckTokenPass?
      modifies this, tokenRing, tokenRing.activeStations, phy, phy.buffer
      ensures Valid() && phy.Valid()
      ensures View() == Stations.DoCheckTokenPass(old(View()), now, old(phy.Pending()))
    {
      var expired := CheckSlotExpired(now);
      if expired {
        match state.attempt {
          case First =>
            state := PassToken(false, Attempt.Second);
          case Second =>
            state := PassToken(false, Attempt.Third);
          case Third =>
            tokenRing.RemoveStation(tokenRing.nextStation);
            state := PassToken(false, Attempt.First);
        }
        DoPassToken(now, phy);
        return;
      }
      var ds := phy.ReceiveAllTelegrams();
      if ds != [] {
        if ds[0].telegram.SourceAddress().None? {
          log := log.(faults := log.faults + [NoSource]);
        }
        state := ActiveIdle(None, None, 0);
        HandleAllTelegrams(now, ds);
      }
    }

    // -------------------------------------------------------------------------------------------
    // Poll
    // -------------------------------------------------------------------------------------------

    method DispatchState(now: int, phy: Phy, busy: bool, ghost counted: nat, answers: seq<Option<Telegram>>)
      requires Valid() && Inv(View()) && online && !state.Offline?
      requires phy.Valid() && !phy.transmitting && AnswersOk(answers) && counted <= phy.length
      requires |answers| > 0 ==> nextApplication < |answers|
      modifies this, tokenRing, tokenRing.activeStations, phy, phy.buffer
      ensures Valid() && phy.Valid()
      ensures View() == Dispatch(old(View()), Input(now, busy, counted, old(phy.Pending()), answers))
    {
      hide WellFormed, AllBelow, Consistent;
      match state
      case ListenToken(_, _) => DoListenToken(now, phy);
      case ClaimToken(_) => DoClaimToken(now, phy);
      case UseToken(_, _) => DoUseToken(now, phy, answers);
      case AwaitDataResponse(_, _) => DoAwaitDataResponse(now, phy, answers);
      case PassToken(_, _) => DoPassToken(now, phy);
      case CheckTokenPass(_) => DoCheckTokenPass(now, phy);
      case ActiveIdle(_, _, _) => DoActiveIdle(now, phy);
      case AwaitStatusResponse(_) => DoAwaitStatusResponse(now, phy);
    }

    /** One call of poll; `stillBusy` and `answers` are what the PHY and the applications say, and `late` are
        bytes that arrive after the pending ones have been counted. */
    method Poll(now: int, phy: Phy, stillBusy: bool, late: seq<Byte>, answers: seq<Option<Telegram>>)
      requires Valid() && Inv(View()) && phy.Valid() && AnswersOk(answers) && phy.length + |late| <= BUFFER_SIZE
      requires |answers| > 0 ==> nextApplication < |answers|
      modifies this, tokenRing, tokenRing.activeStations, phy, phy.buffer
      ensures Valid() && phy.Valid()
      ensures var busy := old(phy.transmitting) && stillBusy;
              var counted := if old(phy.transmitting) then [] else old(phy.Pending());
              View() == Stations.Poll(old(View()), Input(now, busy, |counted|, counted + late, answers))
    {
      hide WellFormed, AllBelow, Consistent, Dispatch;
      if !online {
        return;
      }
      if state.Offline? {
        state := ListenToken(None, 0);
      }
      var busy := phy.PollTransmission(stillBusy);
      if busy || (lastBusActivity.Some? && now <= lastBusActivity.value) {
        MarkActivity(now);
        return;
      }
      CountPendingBytes(now, phy);
      ghost var counted := phy.length;
      phy.Fill(late);
      DispatchState(now, phy, busy, counted, answers);
    }
  }
}
