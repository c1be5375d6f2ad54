/**
 What a poll decides, said in times, bytes and telegrams.

 Each lemma is about one state of the station and every input.  They speak of the silence on the bus in bit times and
 of the telegrams that were received, and so do not depend on how the decision is made.
 */
module PollDecisions {
  import opened BusParameters
  import opened CyclicOrder
  import opened Telegrams
  import opened PhysicalLayer
  import opened TokenRings
  import opened Stations
  import opened StationInvariant
  import opened BusDiscipline
  import opened SilentNeighbours
  import opened Buses

  /** The station is online and does not see its own transmission any more. */
  ghost predicate Acts(f: Fdl, input: Input) {
    && Inv(f) && f.online && !f.state.Offline? && InputOk(f, input) && !input.phyBusy
    && (f.lastBusActivity.Some? ==> input.now > f.lastBusActivity.value)
  }

  /** How long the bus has been silent: no time at all when nothing is known of it or bytes have just arrived. */
  function SilentFor(f: Fdl, input: Input): int {
    if f.lastBusActivity.None? || input.counted > f.pendingBytes then 0 else input.now - f.lastBusActivity.value
  }

  /** How long the bus must be silent before the station claims the token, repeats an offer, or transmits at all. */
  function SilenceToClaim(p: Parameters): int {
    p.baudrate.BitsToTime(p.slotBits * (6 + 2 * p.address))
  }

  function SilenceToRepeat(p: Parameters): int {
    p.baudrate.BitsToTime(p.slotBits)
  }

  function SilenceToSend(p: Parameters): int {
    p.baudrate.BitsToTime(33)
  }

  lemma SilencesAreOrdered(p: Parameters)
    requires Consistent(p)
    ensures 0 <= SilenceToSend(p) <= SilenceToRepeat(p) && SilenceToSend(p) + 1 < SilenceToClaim(p)
    ensures SilenceToSend(p) == p.SyncPause() && SilenceToRepeat(p) == p.SlotTime()
    ensures SilenceToClaim(p) == p.TokenLostTimeout()
  {
    SlotCoversSyncPause(p);
    TimeoutOutlastsPause(p);
  }

  /** During a transmission a poll changes nothing but the clock. */
  lemma TransmittingWaits(f: Fdl, input: Input)
    requires Inv(f) && f.online && !f.state.Offline? && InputOk(f, input)
    requires input.phyBusy || (f.lastBusActivity.Some? && input.now <= f.lastBusActivity.value)
    ensures var g := Poll(f, input);
            && g == f.(lastBusActivity := g.lastBusActivity) && g.lastBusActivity.Some?
            && input.now <= g.lastBusActivity.value
            && (f.lastBusActivity.Some? ==>
                  g.lastBusActivity.value in {input.now, f.lastBusActivity.value} &&
                  f.lastBusActivity.value <= g.lastBusActivity.value)
  {
  }

  /** A station that has gone online begins by listening. */
  lemma OnlineStationListens(f: Fdl, input: Input)
    requires Inv(f) && f.online && f.state.Offline? && InputOk(f, input)
    ensures Poll(f, input) == Poll(f.(state := ListenToken(None, 0)), input)
  {
    hide WellFormed, AllBelow, Consistent, DoListenToken;
  }

  // ---------------------------------------------------------------------------------------------
  // Without the token
  // ---------------------------------------------------------------------------------------------

  lemma {:induction false} ListeningClaimsNothing(f: Fdl, now: int, ds: seq<Delivery>)
    requires f.online ==> f.state.ListenToken?
    ensures var g := ListenToAll(f, now, ds);
            (g.online ==> g.state.ListenToken?) && (!g.online && f.online ==> g.state.Offline?)
    ensures !f.online ==> ListenToAll(f, now, ds).state == f.state
    decreases |ds|
  {
    if ds != [] {
      ListeningClaimsNothing(ListenTo(f, now, ds[0]), now, ds[1..]);
    }
  }

  lemma {:induction false} HandlingClaimsNothing(f: Fdl, now: int, ds: seq<Delivery>)
    requires LastEndsBatch(ds) && (f.state.ListenToken? || f.state.ActiveIdle?)
    ensures var g := HandleAll(f, now, ds); g.state.ListenToken? || g.state.ActiveIdle? || g.state.UseToken?
    decreases |ds|
  {
    if ds != [] {
      var g := HandleTelegram(MarkRx(f, now), now, ds[0]);
      if ds[1..] != [] {
        HandlingClaimsNothing(g, now, ds[1..]);
      }
    }
  }

  /** Without the token a station claims it if and only if the bus has been silent for the slots that its address
      stands for; it then sends the token to itself at once. */
  lemma ClaimsExactly(f: Fdl, input: Input)
    requires Acts(f, input) && (f.state.ListenToken? || f.state.ActiveIdle?)
    ensures var g, lost := Poll(f, input), SilenceToClaim(f.p);
            && (g.state.ClaimToken? <==> SilentFor(f, input) >= lost)
            && (g.state.ClaimToken? ==>
                  && g.state == ClaimToken(SecondToken)
                  && g.log.sent == f.log.sent + [Transmission(input.now, Token(f.p.address, f.p.address))]
                  && g.ring == f.ring.(lasState := LasState.Valid) && g.gap == DoPoll(f.p.address))
  {
    hide WellFormed, AllBelow, Consistent, SilenceToClaim, SilenceToSend;
    SilencesAreOrdered(f.p);
    var h := Touch(CheckForBusActivity(f, input.now, input.counted), input.now);
    if f.state.ListenToken? {
      ListeningClaimsNothing(h, input.now, Drain(input.rx).deliveries);
    } else {
      HandlingClaimsNothing(h, input.now, Drain(input.rx).deliveries);
    }
    if TokenLost(h, input.now) {
      ClaimingSends(ToClaimToken(h), input.now, input.rx);
    }
  }

  lemma ClaimingSends(f: Fdl, now: int, rx: seq<Byte>)
    requires Sane(f) && f.state == ClaimToken(FirstToken) && f.lastBusActivity.Some?
    requires now - f.lastBusActivity.value > f.p.SyncPause()
    ensures var g := DoClaimToken(f, now, rx);
            && g.state == ClaimToken(SecondToken)
            && g.log.sent == f.log.sent + [Transmission(now, Token(f.p.address, f.p.address))]
            && g.ring == f.ring.(lasState := LasState.Valid) && g.gap == DoPoll(f.p.address)
  {
  }

  // ---------------------------------------------------------------------------------------------
  // Several stations that wait for a lost token
  // ---------------------------------------------------------------------------------------------

  /** The station is without the token and owes nobody an answer. */
  predicate Listens(f: Fdl) {
    (f.state.ListenToken? || f.state.ActiveIdle?) && f.state.statusRequest.None?
  }

  lemma SilenceIsWaitedOut(f: Fdl, input: Input)
    requires Inv(f) && f.online && InputOk(f, input) && Listens(f) && f.lastBusActivity.Some? && input.rx == []
    requires input.now - f.lastBusActivity.value < SilenceToClaim(f.p)
    ensures var g := Poll(f, input);
            && g == f.(lastBusActivity := g.lastBusActivity)
            && g.lastBusActivity.Some? && f.lastBusActivity.value <= g.lastBusActivity.value
  {
    hide WellFormed, AllBelow, Consistent, SilenceToClaim, SilenceToSend;
    SilencesAreOrdered(f.p);
    assert Drain([]).deliveries == [];
  }

  /** Polled until some time on a silent bus, at any times before its timeout, a station sends nothing. */
  lemma {:induction false} NothingBeforeTimeout(f: Fdl, inputs: seq<Input>, n: nat, until: int)
    requires Ready(f, n) && f.online && Continues(f, inputs, n) && Listens(f) && f.lastBusActivity.Some?
    requires forall i | 0 <= i < |inputs| :: inputs[i].rx == [] && inputs[i].now <= until
    requires until < f.lastBusActivity.value + SilenceToClaim(f.p)
    ensures PollAll(f, inputs, n).log == f.log && PollAll(f, inputs, n).state == f.state
    decreases |inputs|
  {
    hide Inv, Poll, SilenceToClaim;
    if inputs != [] {
      SilenceIsWaitedOut(f, inputs[0]);
      PollKeeps(f, inputs[0]);
      NothingBeforeTimeout(Poll(f, inputs[0]), inputs[1..], n, until);
    }
  }

  /** When two stations with the same baudrate and slot time wait for a lost token since the same moment, the one
      with the lower address claims it at its timeout, and until its claim has ended the other one sends nothing,
      whenever it is polled. */
  lemma LowerAddressClaimsAlone(low: Fdl, high: Fdl, claim: Input, inputs: seq<Input>, n: nat)
    requires low.p.address < high.p.address
    requires low.p.baudrate == high.p.baudrate && low.p.slotBits == high.p.slotBits
    requires low.lastBusActivity == high.lastBusActivity && low.lastBusActivity.Some?
    requires Acts(low, claim) && Listens(low) && claim.counted <= low.pendingBytes
    requires claim.now == low.lastBusActivity.value + SilenceToClaim(low.p)
    requires Ready(high, n) && high.online && Continues(high, inputs, n) && Listens(high)
    requires forall i | 0 <= i < |inputs| :: inputs[i].rx == [] && inputs[i].now <= claim.now + SilenceToSend(low.p)
    ensures Poll(low, claim).log.sent == low.log.sent + [Transmission(claim.now, Token(low.p.address, low.p.address))]
    ensures Poll(low, claim).lastBusActivity == Some(claim.now + SilenceToSend(low.p))
    ensures PollAll(high, inputs, n).log.sent == high.log.sent
  {
    hide WellFormed, Consistent, Poll, SilenceToClaim, SilenceToSend, Continues, PollAll;
    ClaimsExactly(low, claim);
    ClaimTakesThreeBytes(low, claim);
    LowerTimeoutIsShorter(low.p, high.p);
    NothingBeforeTimeout(high, inputs, n, claim.now + SilenceToSend(low.p));
  }

  lemma LowerTimeoutIsShorter(a: Parameters, b: Parameters)
    requires Consistent(a) && Consistent(b) && a.address < b.address
    requires a.baudrate == b.baudrate && a.slotBits == b.slotBits
    ensures SilenceToClaim(a) + SilenceToSend(a) < SilenceToClaim(b)
  {
    LowerAddressClaimsFirst(a, b);
  }

  lemma ClaimTakesThreeBytes(f: Fdl, input: Input)
    requires Inv(f) && InputOk(f, input)
    requires Poll(f, input).log.sent == f.log.sent + [Transmission(input.now, Token(f.p.address, f.p.address))]
    ensures Poll(f, input).lastBusActivity == Some(input.now + SilenceToSend(f.p))
  {
    hide Poll;
    PollIsDisciplined(f, input);
    assert TelegramLength(Token(f.p.address, f.p.address)) == 3;
  }

  /** A listener that was asked for its status answers after the pause: as ready for the token if and only if its LAS
      is valid and its predecessor has asked, and it enters the ring if and only if its LAS is valid. */
  lemma ListenerAnswersExactly(f: Fdl, input: Input)
    requires Acts(f, input) && f.state.ListenToken? && f.state.statusRequest.Some?
    requires SilentFor(f, input) < SilenceToClaim(f.p)
    ensures var g, asker := Poll(f, input), f.state.statusRequest.value;
            var valid := f.ring.lasState == LasState.Valid;
            var state := if valid && asker == f.ring.ps then MasterWithoutToken else MasterNotReady;
            if SilentFor(f, input) > SilenceToSend(f.p) then
              && g.log.sent == f.log.sent +
                   [Transmission(input.now, Data(Header(asker, f.p.address, None, None, Response(state, Ok)), []))]
              && g.ring == f.ring
              && g.state == (if valid then ActiveIdle(None, None, 0) else ListenToken(None, f.state.collisionCount))
            else g.log == f.log && g.ring == f.ring && g.state == f.state
  {
    hide WellFormed, AllBelow, Consistent, SilenceToClaim, SilenceToSend;
    SilencesAreOrdered(f.p);
  }

  /** In the ring every asker is told so, and the station stays there. */
  lemma IdleAnswersExactly(f: Fdl, input: Input)
    requires Acts(f, input) && f.state.ActiveIdle? && f.state.statusRequest.Some?
    requires SilentFor(f, input) < SilenceToClaim(f.p)
    ensures var g, asker := Poll(f, input), f.state.statusRequest.value;
            if SilentFor(f, input) > SilenceToSend(f.p) then
              && g.log.sent == f.log.sent + [Transmission(input.now,
                   Data(Header(asker, f.p.address, None, None, Response(MasterInRing, Ok)), []))]
              && g.ring == f.ring
              && g.state == ActiveIdle(None, f.state.newPreviousStation, f.state.collisionCount)
            else g.log == f.log && g.ring == f.ring && g.state == f.state
  {
    hide WellFormed, AllBelow, Consistent, SilenceToClaim, SilenceToSend;
    SilencesAreOrdered(f.p);
  }

  // ---------------------------------------------------------------------------------------------
  // A single telegram without the token
  // ---------------------------------------------------------------------------------------------

  /** The bytes of this telegram and nothing else have just arrived. */
  ghost predicate JustReceived(f: Fdl, input: Input, t: Telegram) {
    && Acts(f, input) && Encodable(t) && Addressable(t)
    && input.rx == Encode(t) && input.counted > f.pendingBytes
  }

  /** The station is in the ring without the token, and owes nobody an answer. */
  predicate Waits(f: Fdl) {
    (f.state.ActiveIdle? && f.state.statusRequest.None?) || f.state.CheckTokenPass?
  }

  lemma SingleTelegramIsHeard(f: Fdl, input: Input, t: Telegram)
    requires JustReceived(f, input, t) && Waits(f)
    ensures var h := EnterActiveIdle(CheckForBusActivity(f, input.now, input.counted), t);
            Poll(f, input) == HandleTelegram(MarkRx(h, input.now), input.now, Delivery(t, true))
  {
    hide WellFormed, AllBelow, Consistent, Encode, Parse, HandleAll;
    DrainSingle(t);
    TimeoutIsPositive(f.p);
    HearIsHandle(CheckForBusActivity(f, input.now, input.counted), input.now, t);
  }

  /** The sender that was refused once and will be believed the second time. */
  function Remembered(f: Fdl): Option<Byte> {
    if f.state.ActiveIdle? then f.state.newPreviousStation else None
  }

  /** A station in the ring takes the token if and only if it is the receiver and the sender is its predecessor in
      the LAS, or has already tried before.  A stranger is remembered and teaches nothing; from a pass that is not
      for this station, or that it believes, it learns that nobody but the sender is active on the way, unless one of
      the addresses is above 125. */
  lemma TakesTokenExactly(f: Fdl, input: Input, da: Byte, sa: Byte)
    requires JustReceived(f, input, Token(da, sa)) && Waits(f) && sa != f.p.address
    ensures var g, ours := Poll(f, input), da == f.p.address;
            var known, again := sa == f.ring.ps, Remembered(f) == Some(sa);
            && g.log.sent == f.log.sent && g.lastBusActivity == Some(input.now) && g.pendingBytes == 0
            && (g.state.UseToken? <==> ours && (known || again))
            && (g.state.UseToken? ==>
                  g.state == UseToken(UseTokenData(input.now, None), false)
                  && g.log.events == f.log.events + [TokenTaken])
            && (!g.state.UseToken? ==>
                  g.state == ActiveIdle(None, if ours then Some(sa) else Remembered(f), 0)
                  && g.log.events == f.log.events)
            && if (ours && (known || !again)) || sa > 125 || da > 125 then g.ring == f.ring
               else forall y :: y in g.ring.las <==> if InArc(sa, da, y) then y == sa else y in f.ring.las
  {
    hide WellFormed, AllBelow, Consistent, Encode, Update;
    SingleTelegramIsHeard(f, input, Token(da, sa));
    PassTeachesExactly(f.ring, sa, da);
  }

  lemma PassTeachesExactly(r: RingView, sa: nat, da: nat)
    ensures forall y :: y in Update(r, sa, da).las <==> if InArc(sa, da, y) then y == sa else y in r.las
    ensures r.lasState == LasState.Valid ==>
              Witness(r, sa, da) == if sa <= 125 && da <= 125 then Update(r, sa, da) else r
  {
    forall y ensures y in Update(r, sa, da).las <==> if InArc(sa, da, y) then y == sa else y in r.las {
      LearnIsLocal(r.las, sa, da, y);
    }
  }

  /** Data for anyone changes nothing in the ring, and only a status request to this station makes it owe an answer,
      to the sender of that request. */
  lemma OwesAnswerExactly(f: Fdl, input: Input, t: Telegram)
    requires JustReceived(f, input, t) && !t.Token? && f.online
    requires Waits(f) || f.state == ListenToken(None, 0)
    requires t.SourceAddress() != Some(f.p.address % 256)
    ensures var g := Poll(f, input);
            var asked := t.Data? && t.h.fc.Request? && t.h.fc.req == FdlStatus && t.h.da == f.p.address;
            var request := if asked then Some(t.h.sa) else None;
            && g.ring == f.ring && g.log.sent == f.log.sent && g.log.events == f.log.events
            && g.lastBusActivity == Some(input.now) && g.pendingBytes == 0
            && g.state == if f.state.ListenToken? then ListenToken(request, 0)
                          else if f.state.ActiveIdle? then
                            ActiveIdle(request, f.state.newPreviousStation, f.state.collisionCount)
                          else ActiveIdle(request, None, 0)
  {
    hide WellFormed, AllBelow, Consistent, Encode, Parse;
    if Waits(f) {
      SingleTelegramIsHeard(f, input, t);
    } else {
      DrainSingle(t);
      TimeoutIsPositive(f.p);
      ListeningToOne(CheckForBusActivity(f, input.now, input.counted), input.now, t);
    }
  }

  /** The last telegram of the batch is a token of another station for `ts`. */
  predicate EndsWithToken(ds: seq<Delivery>, ts: nat) {
    && ds != []
    && var last := ds[|ds| - 1];
       last.isLast && last.telegram.Token? && last.telegram.da == ts && last.telegram.sa != ts
  }

  /** Whatever arrives at once, a station ends up with the token only by the last telegram, with nothing behind it,
      which must be a token of another station for this one. */
  lemma OnlyLastTelegramGivesToken(f: Fdl, input: Input)
    requires Acts(f, input) && (f.state.ListenToken? || f.state.ActiveIdle?) && Poll(f, input).state.UseToken?
    ensures Drain(input.rx).rest == [] && EndsWithToken(Drain(input.rx).deliveries, f.p.address)
  {
    hide WellFormed, AllBelow, Consistent, SilenceToClaim;
    ClaimsExactly(f, input);
    var h := Touch(CheckForBusActivity(f, input.now, input.counted), input.now);
    if f.state.ListenToken? {
      ListeningClaimsNothing(h, input.now, Drain(input.rx).deliveries);
    } else if f.state.statusRequest.None? {
      LastTelegramGivesToken(h, input.now, Drain(input.rx).deliveries);
    }
  }

  lemma {:induction false} LastTelegramGivesToken(f: Fdl, now: int, ds: seq<Delivery>)
    requires LastEndsBatch(ds) && (f.state.ListenToken? || f.state.ActiveIdle?) && HandleAll(f, now, ds).state.UseToken?
    ensures EndsWithToken(ds, f.p.address)
    decreases |ds|
  {
    var g := HandleTelegram(MarkRx(f, now), now, ds[0]);
    if ds[1..] != [] {
      LastTelegramGivesToken(g, now, ds[1..]);
    }
  }

  // ---------------------------------------------------------------------------------------------
  // The answer to a GAP poll
  // ---------------------------------------------------------------------------------------------

  /** The address whose answer to a GAP poll is awaited. */
  function Awaited(f: Fdl): Option<nat> {
    match f.state
    case AwaitStatusResponse(a) => Some(a)
    case ClaimToken(ScanAwaitResponse(a)) => Some(a)
    case _ => None
  }

  /** The telegram is the answer of the polled station that it is a master ready for the token or in the ring. */
  predicate AsksToJoin(t: Telegram, a: nat, ts: nat) {
    && t.Data? && t.h.sa == a && t.h.da == ts
    && t.h.fc in {Response(MasterWithoutToken, Ok), Response(MasterInRing, Ok)}
  }

  lemma GapAnswerDecides(f: Fdl, now: int, rx: seq<Byte>, a: nat)
    requires f.gap == DoPoll(a)
    ensures var (g, response) := AwaitGapPollResponse(f, now, rx, a);
            match TakeFirst(rx).telegram
            case None =>
              g == Touch(f, now) && (response == if SlotExpired(g, now) then NoResponse else StillWaiting)
            case Some(t) =>
              && g.ring == (if AsksToJoin(t, a, f.p.address) then SetNext(f.ring, a) else f.ring)
              && g.p == f.p && g.log == f.log && g.gap == f.gap && g.state == f.state
              && g.lastBusActivity == MarkBusActivity(f, now).lastBusActivity && g.pendingBytes == 0
              && response == if t.Data? && t.h.fc.Response? && t.h.sa == a && t.h.da == f.p.address
                             then StationResponded else UnexpectedTelegram
  {
    hide SetNext;
  }

  /** A polled station becomes the next one if and only if the first telegram is its answer that it is a master ready
      for the token or in the ring; then everyone in between is forgotten.  Any other telegram, and silence for
      not more than a slot, leaves the LAS alone. */
  lemma AdoptsExactly(f: Fdl, input: Input)
    requires Acts(f, input) && Awaited(f).Some?
    requires TakeFirst(input.rx).telegram.Some? || SilentFor(f, input) <= SilenceToRepeat(f.p)
    ensures var g, a, first := Poll(f, input), Awaited(f).value, TakeFirst(input.rx).telegram;
            if first.Some? && AsksToJoin(first.value, a, f.p.address) then
              && g.ring.ns == a
              && forall y :: y in g.ring.las <==>
                   y == f.p.address || ((y in f.ring.las || y == a) && !InArc(f.p.address, a, y))
            else g.ring == f.ring
  {
    hide WellFormed, AllBelow, Consistent, DoPassToken, DoScan, SetNext, SilenceToRepeat, AwaitGapPollResponse;
    hide AsksToJoin;
    SilencesAreOrdered(f.p);
    AdoptionForgetsBetween(f.ring, Awaited(f).value);
    GapAnswerDecides(CheckForBusActivity(f, input.now, input.counted), input.now, input.rx, Awaited(f).value);
  }

  lemma AdoptionForgetsBetween(r: RingView, a: nat)
    ensures SetNext(r, a).ns == a
    ensures forall y :: y in SetNext(r, a).las <==> y == r.ts || ((y in r.las || y == a) && !InArc(r.ts, a, y))
  {
    SetNextMakesItNext(r, a);
  }

  /** After any answer of the polled station the token is passed on, or the scan goes on; any other telegram makes the
      station leave the token. */
  lemma AnswerEndsPoll(f: Fdl, input: Input)
    requires Acts(f, input) && Awaited(f).Some? && TakeFirst(input.rx).telegram.Some?
    ensures var g, a, t := Poll(f, input), Awaited(f).value, TakeFirst(input.rx).telegram.value;
            && g.log.sent == f.log.sent && g.gap == f.gap && g.lastBusActivity == Some(input.now) && g.pendingBytes == 0
            && g.state == if t.Data? && t.h.fc.Response? && t.h.sa == a && t.h.da == f.p.address then
                 (if f.state.ClaimToken? then ClaimToken(Scan) else PassToken(false, Attempt.First))
               else ActiveIdle(None, None, 0)
  {
    hide WellFormed, AllBelow, Consistent, DoPassToken, DoScan, AwaitGapPollResponse;
    GapAnswerDecides(CheckForBusActivity(f, input.now, input.counted), input.now, input.rx, Awaited(f).value);
  }

  /** So a slave that is found in the GAP stays out of the LAS. */
  lemma SlaveIsNotAdopted(f: Fdl, input: Input, slave: Byte, status: ResponseStatus)
    requires Acts(f, input) && Awaited(f).Some?
    requires TakeFirst(input.rx).telegram
          == Some(Data(Header(f.p.address % 256, slave, None, None, Response(Slave, status)), []))
    ensures Poll(f, input).ring == f.ring
  {
    AdoptsExactly(f, input);
  }

  // ---------------------------------------------------------------------------------------------
  // Passing the token on
  // ---------------------------------------------------------------------------------------------

  /** An offer that nobody takes up is repeated if and only if the bus has been silent for more than a slot, twice to
      the same station; the third time that station is removed and the next one is offered the token. */
  lemma RetriesExactly(f: Fdl, input: Input)
    requires Acts(f, input) && f.state.CheckTokenPass?
    ensures var g, third := Poll(f, input), f.state.attempt.Third?;
            var las := if third then f.ring.las - {f.ring.ns} else f.ring.las;
            var receiver := if third then Next(las, f.p.address) else f.ring.ns;
            if SilentFor(f, input) > SilenceToRepeat(f.p) then
              && receiver < 256 && g.ring.las == las + {f.p.address}
              && g.log.sent == f.log.sent + [Transmission(input.now, Token(receiver, f.p.address))]
              && (receiver != f.p.address ==> g.state == CheckTokenPass(
                    if third then Attempt.First else if f.state.attempt.First? then Second else Third))
              && (receiver == f.p.address ==> g.state == UseToken(UseTokenData(input.now, None), false))
            else g.log.sent == f.log.sent && (Drain(input.rx).deliveries == [] ==> g.log == f.log && g.state == f.state)
  {
    hide WellFormed, AllBelow, Consistent, SilenceToRepeat, DoPassToken, Witness;
    SilencesAreOrdered(f.p);
    var h := Touch(CheckForBusActivity(f, input.now, input.counted), input.now);
    if SlotExpired(h, input.now) {
      RetryOffers(h, input.now);
    } else {
      HearingIsSilent(h, input.now, Drain(input.rx).deliveries);
    }
  }

  lemma RemovedNext(r: RingView)
    ensures Remove(r, r.ns).las == r.las - {r.ns} && Remove(r, r.ns).ns == Next(r.las - {r.ns}, r.ts)
  {
  }

  lemma OthersDecideNext(f: Fdl)
    requires Inv(f)
    ensures f.ring.ns < 256 && f.ring.ns == Next(f.ring.las, f.p.address)
    ensures Others(f) == {} <==> f.ring.ns == f.p.address
  {
    NextIgnoresSelf(f.ring.las, f.p.address);
  }

  lemma RetryOffers(f: Fdl, now: int)
    requires Inv(f) && f.state.CheckTokenPass? && f.lastBusActivity.Some? && PauseOver(f, now)
    ensures var g, third := DoPassToken(RetryPass(f), now), f.state.attempt.Third?;
            var las := if third then f.ring.las - {f.ring.ns} else f.ring.las;
            var receiver := if third then Next(las, f.p.address) else f.ring.ns;
            && receiver < 256 && g.ring.las == las + {f.p.address}
            && g.log.sent == f.log.sent + [Transmission(now, Token(receiver, f.p.address))]
            && (receiver != f.p.address ==> g.state == CheckTokenPass(
                  if third then Attempt.First else if f.state.attempt.First? then Second else Third))
            && (receiver == f.p.address ==> g.state == UseToken(UseTokenData(now, None), false))
  {
    hide WellFormed, AllBelow, Consistent, SendToken, Remove, Next;
    var h := RetryPass(f);
    RetryKeepsSane(f);
    OperationsKeepAddresses(f.ring, 0, 0, f.ring.ns, MAX_ADDRESS + 1);
    SendTokenToNext(h, now);
    RemovedNext(f.ring);
    OthersDecideNext(h);
  }

  // ---------------------------------------------------------------------------------------------
  // What counts as activity on the bus
  // ---------------------------------------------------------------------------------------------

  /** The station only looked at the clock and at the number of bytes: silence is counted from now when more bytes
      have arrived than it had seen before, or when nothing was known. */
  predicate OnlyCounted(f: Fdl, g: Fdl, input: Input) {
    && g.pendingBytes == (if input.counted > f.pendingBytes then input.counted else f.pendingBytes)
    && g.lastBusActivity == (if f.lastBusActivity.None? || input.counted > f.pendingBytes then Some(input.now)
                             else f.lastBusActivity)
  }

  lemma {:induction false} AskingOnlyCounts(f: Fdl, now: int, answers: seq<Option<Telegram>>, high: bool, asks: nat)
    requires f.state.UseToken? && (|answers| > 0 ==> f.nextApplication < |answers|)
    ensures var (g, transmitted) := AskApplications(f, now, answers, high, asks);
            !transmitted ==> g.lastBusActivity == f.lastBusActivity && g.pendingBytes == f.pendingBytes
    ensures var (g, transmitted) := AskApplications(f, now, answers, high, asks);
            transmitted ==> |g.log.sent| == |f.log.sent| + 1
    decreases asks
  {
    if asks > 0 && answers != [] && answers[f.nextApplication].None? {
      AskingOnlyCounts(Decline(f, high, |answers|), now, answers, high, asks - 1);
    }
  }

  lemma UsingOnlyCounts(f: Fdl, now: int, answers: seq<Option<Telegram>>)
    requires f.state.UseToken? && (|answers| > 0 ==> f.nextApplication < |answers|)
    ensures var g := DoUseToken(f, now, answers);
            |g.log.sent| == |f.log.sent| ==>
              g.lastBusActivity == Touch(f, now).lastBusActivity && g.pendingBytes == f.pendingBytes
  {
    var g := Touch(StartHold(f), now);
    AskingOnlyCounts(g.(state := UseToken(g.state.data, true)), now, answers, now >= g.endTokenHoldTime, |answers|);
  }

  lemma PassingOnlyCounts(f: Fdl, now: int)
    requires Sane(f) && f.state.PassToken?
    ensures var g := DoPassToken(f, now);
            |g.log.sent| == |f.log.sent| ==>
              g.lastBusActivity == Touch(f, now).lastBusActivity && g.pendingBytes == f.pendingBytes
  {
    hide WellFormed, AllBelow, Consistent, Witness;
    AdvanceGapStaysSane(Touch(f, now));
  }

  lemma ClaimingOnlyCounts(f: Fdl, now: int, rx: seq<Byte>)
    requires Inv(f) && f.state.ClaimToken? && TakeFirst(rx).telegram.None?
    ensures var g := DoClaimToken(f, now, rx);
            |g.log.sent| == |f.log.sent| ==>
              g.lastBusActivity == Touch(f, now).lastBusActivity && g.pendingBytes == f.pendingBytes
  {
    hide WellFormed, AllBelow, Consistent, NextGap;
  }

  lemma ListeningOnlyCounts(f: Fdl, now: int, rx: seq<Byte>)
    requires Inv(f) && Drain(rx).deliveries == [] && TakeFirst(rx).telegram.None?
    requires f.online && (f.state.ListenToken? || f.state.ActiveIdle?)
    ensures var g := if f.state.ListenToken? then DoListenToken(f, now, rx) else DoActiveIdle(f, now, rx);
            |g.log.sent| == |f.log.sent| ==>
              g.lastBusActivity == Touch(f, now).lastBusActivity && g.pendingBytes == f.pendingBytes
  {
    hide WellFormed, AllBelow, Consistent, DoClaimToken;
    ClaimingOnlyCounts(ToClaimToken(Touch(f, now)), now, rx);
  }

  /** A poll that sends nothing and finds no complete telegram changes the clock in no other way; in particular, bytes
      that stay in the buffer count as activity only once. */
  lemma BytesCountOnce(f: Fdl, input: Input)
    requires Acts(f, input) && Drain(input.rx).deliveries == []
    requires Poll(f, input).log.sent == f.log.sent
    ensures OnlyCounted(f, Poll(f, input), input)
  {
    hide WellFormed, AllBelow, Consistent, DoUseToken, DoPassToken, DoListenToken, DoActiveIdle, DoClaimToken;
    assert TakeFirst(input.rx).telegram.None?;
    var h := CheckForBusActivity(f, input.now, input.counted);
    var now := input.now;
    match f.state
    case UseToken(_, _) => UsingOnlyCounts(h, now, input.answers);
    case AwaitDataResponse(_, _) => UsingOnlyCounts(GiveUpOnReply(Touch(h, now)), now, input.answers);
    case PassToken(_, _) => PassingOnlyCounts(h, now);
    case AwaitStatusResponse(_) => PassingOnlyCounts(ToPassToken(Touch(h, now), false, Attempt.First), now);
    case CheckTokenPass(_) =>
      RetryKeepsSane(Touch(h, now));
      PassingOnlyCounts(RetryPass(Touch(h, now)), now);
    case ClaimToken(_) => ClaimingOnlyCounts(h, now, input.rx);
    case _ => ListeningOnlyCounts(h, now, input.rx);
  }
}
