/**
 Whom a station takes for active: only stations that have said so themselves, over whole runs of polls.
 */
module Membership {
  import opened BusParameters
  import opened CyclicOrder
  import opened Telegrams
  import opened PhysicalLayer
  import opened TokenRings
  import opened Stations
  import opened StationInvariant
  import opened BusDiscipline
  import opened PollDecisions
  import opened HoldDecisions
  import opened Discovery

  /** With this telegram `a` shows that it is a master: it passes the token on, or says that it is ready for the token
      or in the ring. */
  predicate Speaks(t: Telegram, a: nat) {
    || (t.Token? && t.sa == a)
    || (t.Data? && t.h.sa == a && t.h.fc in {Response(MasterWithoutToken, Ok), Response(MasterInRing, Ok)})
  }

  ghost predicate HeardFrom(ds: seq<Delivery>, a: nat) {
    exists d | d in ds :: Speaks(d.telegram, a)
  }

  /** Whoever is new in the LAS has spoken in this batch. */
  ghost predicate LearnsFrom(f: Fdl, g: Fdl, ds: seq<Delivery>) {
    g.p == f.p && forall y | y in g.ring.las :: y in f.ring.las || y == f.p.address || HeardFrom(ds, y)
  }

  lemma OperationsAddOnlyTheirs(r: RingView, sa: nat, da: nat, address: nat)
    ensures forall y | y in Witness(r, sa, da).las :: y in r.las || y == sa
    ensures forall y | y in SetNext(r, address).las :: y in r.las || y == r.ts || y == address
    ensures forall y | y in Remove(r, address).las :: y in r.las
  {
    hide FollowsIn, PrecedesIn, InArc;
  }

  lemma {:induction false} ListeningLearns(f: Fdl, now: int, ds: seq<Delivery>)
    requires f.online ==> f.state.ListenToken?
    ensures LearnsFrom(f, ListenToAll(f, now, ds), ds)
    decreases |ds|
  {
    hide Witness, Speaks;
    if ds != [] {
      var d, g := ds[0], ListenTo(f, now, ds[0]);
      if d.telegram.Token? {
        OneSpeaks(f.ring, d);
      }
      ListeningLearns(g, now, ds[1..]);
      BatchLearns(f, g, ListenToAll(g, now, ds[1..]), ds);
    }
  }

  lemma OneSpeaks(r: RingView, d: Delivery)
    requires d.telegram.Token?
    ensures forall y | y in Witness(r, d.telegram.sa, d.telegram.da).las :: y in r.las || HeardFrom([d], y)
  {
    OperationsAddOnlyTheirs(r, d.telegram.sa, d.telegram.da, 0);
    assert d in [d];
  }

  lemma BatchLearns(f: Fdl, g: Fdl, h: Fdl, ds: seq<Delivery>)
    requires ds != [] && LearnsFrom(f, g, [ds[0]]) && LearnsFrom(g, h, ds[1..])
    ensures LearnsFrom(f, h, ds)
  {
    forall y | y in h.ring.las ensures y in f.ring.las || y == f.p.address || HeardFrom(ds, y) {
      if HeardFrom(ds[1..], y) {
        var d :| d in ds[1..] && Speaks(d.telegram, y);
        assert d in ds;
      } else if HeardFrom([ds[0]], y) {
        assert ds[0] in ds;
      }
    }
  }

  lemma {:induction false} HandlingLearns(f: Fdl, now: int, ds: seq<Delivery>)
    requires LastEndsBatch(ds) && (ds != [] ==> f.state.ListenToken? || f.state.ActiveIdle?)
    ensures LearnsFrom(f, HandleAll(f, now, ds), ds)
    decreases |ds|
  {
    hide Witness, Speaks;
    if ds != [] {
      var d, g := ds[0], HandleTelegram(MarkRx(f, now), now, ds[0]);
      if d.telegram.Token? {
        OneSpeaks(f.ring, d);
      }
      HandlingLearns(g, now, ds[1..]);
      BatchLearns(f, g, HandleAll(g, now, ds[1..]), ds);
    }
  }

  lemma {:induction false} AskingKeepsRing(f: Fdl, now: int, answers: seq<Option<Telegram>>, high: bool, asks: nat)
    requires f.state.UseToken? && (|answers| > 0 ==> f.nextApplication < |answers|)
    ensures var g := AskApplications(f, now, answers, high, asks).0; g.ring == f.ring && g.p == f.p
    decreases asks
  {
    if asks > 0 && answers != [] && answers[f.nextApplication].None? {
      AskingKeepsRing(Decline(f, high, |answers|), now, answers, high, asks - 1);
    }
  }

  lemma UsingKeepsRing(f: Fdl, now: int, answers: seq<Option<Telegram>>)
    requires f.state.UseToken? && (|answers| > 0 ==> f.nextApplication < |answers|)
    ensures DoUseToken(f, now, answers).ring == f.ring && DoUseToken(f, now, answers).p == f.p
  {
    var g := Touch(StartHold(f), now);
    AskingKeepsRing(g.(state := UseToken(g.state.data, true)), now, answers, now >= g.endTokenHoldTime, |answers|);
  }

  lemma PassingLearns(f: Fdl, now: int, ds: seq<Delivery>)
    requires Sane(f) && f.state.PassToken?
    ensures LearnsFrom(f, DoPassToken(f, now), ds)
  {
    hide WellFormed, AllBelow, Consistent, Witness;
    AdvanceGapStaysSane(Touch(f, now));
    OperationsAddOnlyTheirs(f.ring, f.p.address, f.ring.ns, 0);
  }

  lemma FirstIsDelivered(rx: seq<Byte>)
    ensures TakeFirst(rx).telegram.Some? ==>
              Drain(rx).deliveries != [] && Drain(rx).deliveries[0].telegram == TakeFirst(rx).telegram.value
  {
  }

  lemma AwaitingLearns(f: Fdl, now: int, rx: seq<Byte>, a: nat)
    requires Sane(f) && f.gap == DoPoll(a)
    ensures LearnsFrom(f, AwaitGapPollResponse(f, now, rx, a).0, Drain(rx).deliveries)
  {
    hide WellFormed, AllBelow, Consistent, SetNext, Drain, AwaitGapPollResponse;
    GapAnswerDecides(f, now, rx, a);
    FirstIsDelivered(rx);
    OperationsAddOnlyTheirs(f.ring, 0, 0, a);
    if TakeFirst(rx).telegram.Some? {
      assert Drain(rx).deliveries[0] in Drain(rx).deliveries;
    }
  }

  lemma StaysAndLearns(f: Fdl, g: Fdl, ds: seq<Delivery>)
    requires f.p == g.p && f.ring.las == g.ring.las
    ensures LearnsFrom(f, g, ds)
  {
  }

  lemma ClaimingLearns(f: Fdl, now: int, rx: seq<Byte>)
    requires Inv(f) && f.state.ClaimToken?
    ensures LearnsFrom(f, DoClaimToken(f, now, rx), Drain(rx).deliveries)
  {
    hide WellFormed, AllBelow, Consistent, Drain, AwaitGapPollResponse;
    if f.state.step.ScanAwaitResponse? {
      AwaitingLearns(f, now, rx, f.state.step.address);
    }
  }

  lemma AwaitingStatusLearns(f: Fdl, now: int, rx: seq<Byte>)
    requires Inv(f) && f.state.AwaitStatusResponse?
    ensures LearnsFrom(f, DoAwaitStatusResponse(f, now, rx), Drain(rx).deliveries)
  {
    hide WellFormed, AllBelow, Consistent, Drain, AwaitGapPollResponse, DoPassToken;
    var ds := Drain(rx).deliveries;
    var (g, response) := AwaitGapPollResponse(f, now, rx, f.state.address);
    AwaitingLearns(f, now, rx, f.state.address);
    GapAnswerDecides(f, now, rx, f.state.address);
    if response == NoResponse {
      PassingLearns(ToPassToken(g, false, Attempt.First), now, ds);
    }
  }

  lemma CheckingLearns(f: Fdl, now: int, rx: seq<Byte>)
    requires Inv(f) && f.state.CheckTokenPass?
    ensures LearnsFrom(f, DoCheckTokenPass(f, now, rx), Drain(rx).deliveries)
  {
    hide WellFormed, AllBelow, Consistent, DoPassToken, Drain, LearnsFrom;
    var g, ds := Touch(f, now), Drain(rx).deliveries;
    if SlotExpired(g, now) {
      RetryKeepsSane(g);
      OperationsAddOnlyTheirs(f.ring, 0, 0, 0);
      PassingLearns(RetryPass(g), now, ds);
      RetryLearns(f, RetryPass(g), DoPassToken(RetryPass(g), now), ds);
    } else if ds != [] {
      var h := ToActiveIdle(if ds[0].telegram.SourceAddress().None? then Fail(g, NoSource) else g);
      HandlingLearns(h, now, ds);
      RetryLearns(f, h, HandleAll(h, now, ds), ds);
    } else {
      StaysAndLearns(f, g, ds);
    }
  }

  lemma RetryLearns(f: Fdl, g: Fdl, h: Fdl, ds: seq<Delivery>)
    requires f.p == g.p && g.ring.las <= f.ring.las && LearnsFrom(g, h, ds)
    ensures LearnsFrom(f, h, ds)
  {
  }

  lemma DispatchLearns(f: Fdl, input: Input)
    requires Inv(f) && f.online && InputOk(f, input) && !f.state.Offline?
    ensures LearnsFrom(f, Dispatch(f, input), Drain(input.rx).deliveries)
  {
    hide WellFormed, AllBelow, Consistent, DoPassToken, DoUseToken, Drain, LearnsFrom, HeardFrom;
    var now, rx, ds, g := input.now, input.rx, Drain(input.rx).deliveries, Touch(f, input.now);
    match f.state
    case ListenToken(_, _) =>
      ListeningLearns(g, now, ds);
      ClaimingLearns(ToClaimToken(g), now, rx);
      RetryLearns(f, ToClaimToken(g), DoClaimToken(ToClaimToken(g), now, rx), ds);
      SameRingLearns(f, DoListenToken(f, now, rx), ds);
      RetryLearnsFromTouch(f, now, ListenToAll(g, now, ds), ds);
    case ClaimToken(_) => ClaimingLearns(f, now, rx);
    case UseToken(_, _) =>
      UsingKeepsRing(f, now, input.answers);
      StaysAndLearns(f, DoUseToken(f, now, input.answers), ds);
    case AwaitDataResponse(_, _) =>
      UsingKeepsRing(GiveUpOnReply(g), now, input.answers);
      StaysAndLearns(f, DoAwaitDataResponse(f, now, rx, input.answers), ds);
    case PassToken(_, _) => PassingLearns(f, now, ds);
    case CheckTokenPass(_) => CheckingLearns(f, now, rx);
    case ActiveIdle(_, _, _) =>
      HandlingLearns(g, now, ds);
      ClaimingLearns(ToClaimToken(g), now, rx);
      RetryLearns(f, ToClaimToken(g), DoClaimToken(ToClaimToken(g), now, rx), ds);
      SameRingLearns(f, DoActiveIdle(f, now, rx), ds);
      RetryLearnsFromTouch(f, now, HandleAll(g, now, ds), ds);
    case AwaitStatusResponse(_) => AwaitingStatusLearns(f, now, rx);
  }

  lemma SameRingLearns(f: Fdl, g: Fdl, ds: seq<Delivery>)
    ensures f.p == g.p && f.ring == g.ring ==> LearnsFrom(f, g, ds)
  {
  }

  lemma RetryLearnsFromTouch(f: Fdl, now: int, h: Fdl, ds: seq<Delivery>)
    ensures LearnsFrom(Touch(f, now), h, ds) ==> LearnsFrom(f, h, ds)
  {
  }

  lemma PollLearns(f: Fdl, input: Input)
    requires Inv(f) && InputOk(f, input)
    ensures LearnsFrom(f, Poll(f, input), Drain(input.rx).deliveries)
  {
    hide WellFormed, AllBelow, Consistent, Dispatch, LearnsFrom, Drain;
    var ds := Drain(input.rx).deliveries;
    var g := if f.state.Offline? then ToListenToken(f) else f;
    if f.online && !(input.phyBusy || Transmitting(g, input.now)) {
      var h := CheckForBusActivity(g, input.now, input.counted);
      DispatchLearns(h, input);
      RetryLearns(f, h, Poll(f, input), ds);
    } else {
      StaysAndLearns(f, Poll(f, input), ds);
    }
  }

  /** In one of these polls the station received a telegram with which `a` showed that it is a master. */
  ghost predicate HasSpoken(inputs: seq<Input>, a: nat) {
    exists j | 0 <= j < |inputs| :: HeardFrom(Drain(inputs[j].rx).deliveries, a)
  }

  /** Over every run, whoever is in the LAS at the end and was not in it at the beginning is this station itself, or
      has passed the token or said that it is a master ready for the token or in the ring. */
  lemma {:induction false} MembersHaveSpoken(f: Fdl, inputs: seq<Input>, n: nat, a: nat)
    requires Ready(f, n) && Continues(f, inputs, n) && a in PollAll(f, inputs, n).ring.las
    ensures a in f.ring.las || a == f.p.address || HasSpoken(inputs, a)
    decreases |inputs|
  {
    hide Inv, Poll, HeardFrom, Drain;
    if inputs != [] {
      var g, rest := Poll(f, inputs[0]), inputs[1..];
      PollKeeps(f, inputs[0]);
      PollLearns(f, inputs[0]);
      MembersHaveSpoken(g, rest, n, a);
      if HasSpoken(rest, a) {
        var j :| 0 <= j < |rest| && HeardFrom(Drain(rest[j].rx).deliveries, a);
        assert rest[j] == inputs[j + 1];
      }
    }
  }

  /** The poll sends the token to `da`. */
  ghost predicate SendsTokenTo(f: Fdl, g: Fdl, da: Byte) {
    && |g.log.sent| == |f.log.sent| + 1
    && g.log.sent[|f.log.sent|].telegram == Token(da, f.p.address % 256)
  }

  lemma NextIsMember(s: set<nat>, x: nat)
    ensures Next(s, x) in s || Next(s, x) == x
  {
  }

  /** The token is only ever offered to a member of the LAS. */
  lemma OfferGoesToMember(f: Fdl, input: Input, da: Byte)
    requires Inv(f) && f.online && InputOk(f, input) && SendsTokenTo(f, Poll(f, input), da)
    requires f.state.PassToken? || f.state.CheckTokenPass? || f.state.AwaitStatusResponse?
    ensures da in f.ring.las || da == f.p.address
    decreases f.state.AwaitStatusResponse?
  {
    hide WellFormed, AllBelow, Consistent, Next, Poll, SilentFor, SilenceToSend, SilenceToRepeat, TakeFirst;
    NextIsMember(f.ring.las, f.p.address);
    NextIsMember(f.ring.las - {f.ring.ns}, f.p.address);
    OthersDecideNext(f);
    if input.phyBusy || (f.lastBusActivity.Some? && input.now <= f.lastBusActivity.value) {
      TransmittingWaits(f, input);
    } else if f.state.PassToken? {
      PassesExactly(f, input);
    } else if f.state.CheckTokenPass? {
      RetriesExactly(f, input);
    } else if TakeFirst(input.rx).telegram.Some? {
      AnswerEndsPoll(f, input);
    } else {
      SilenceEndsPoll(f, input);
      if SilentFor(f, input) > SilenceToRepeat(f.p) {
        OfferGoesToMember(f.(state := PassToken(false, Attempt.First)), input, da);
      }
    }
  }

  /** So in every run of a new station, whoever it passes the token to has passed the token before, or has said that it
      is a master ready for the token or in the ring; a slave is never offered the token. */
  lemma TokenGoesToMasters(p: Parameters, inputs: seq<Input>, last: Input, n: nat, da: Byte)
    requires Consistent(p) && Ready(NewOnline(p), n) && Continues(NewOnline(p), inputs, n)
    requires var g := PollAll(NewOnline(p), inputs, n);
             && Ready(g, n) && g.online && InputOk(g, last) && SendsTokenTo(g, Poll(g, last), da)
             && (g.state.PassToken? || g.state.CheckTokenPass? || g.state.AwaitStatusResponse?)
    ensures da == PollAll(NewOnline(p), inputs, n).p.address || HasSpoken(inputs, da)
  {
    hide Poll, PollAll, HasSpoken;
    var g := PollAll(NewOnline(p), inputs, n);
    OfferGoesToMember(g, last, da);
    if da in g.ring.las {
      MembersHaveSpoken(NewOnline(p), inputs, n, da);
      RunKeepsParameters(NewOnline(p), inputs, n);
    }
  }

  lemma {:induction false} RunKeepsParameters(f: Fdl, inputs: seq<Input>, n: nat)
    requires Ready(f, n) && Continues(f, inputs, n)
    ensures PollAll(f, inputs, n).p == f.p
    decreases |inputs|
  {
    hide Inv, Poll;
    if inputs != [] {
      PollKeeps(f, inputs[0]);
      PollIsDisciplined(f, inputs[0]);
      RunKeepsParameters(Poll(f, inputs[0]), inputs[1..], n);
    }
  }
}
