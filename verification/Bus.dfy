/**
 A bus that several active stations share.

 All stations are `Fdl` machines and are polled in any order.  Whatever one of them transmits is heard
 by all others.  The bus loses nothing, and every station is polled often enough to hear a telegram as
 a batch of its own.
 */
module Buses {
  import opened BusParameters
  import opened Telegrams
  import opened PhysicalLayer
  import opened TokenRings
  import opened Stations
  import opened BusDiscipline

  // ---------------------------------------------------------------------------------------------
  // Hearing a telegram
  // ---------------------------------------------------------------------------------------------

  /** What a station in the ring does when it hears a telegram of another station. */
  ghost function Hear(f: Fdl, now: int, t: Telegram): Fdl
    requires f.state.ActiveIdle? || f.state.CheckTokenPass?
  {
    var batch := [Delivery(t, true)];
    if f.state.ActiveIdle? then HandleAll(f, now, batch) else HearAfterPass(f, now, batch)
  }

  lemma DrainSingle(t: Telegram)
    requires Encodable(t) && Addressable(t)
    ensures Drain(Encode(t)).deliveries == [Delivery(t, true)]
  {
    hide Encode, Parse;
    DrainOne(t, []);
    assert Encode(t) + [] == Encode(t);
    assert Drain([]).deliveries == [];
  }

  /** Hearing a telegram is what the next poll does when the bytes of that telegram have arrived. */
  lemma HearingIsPolling(f: Fdl, now: int, t: Telegram, counted: nat, answers: seq<Option<Telegram>>)
    requires Inv(f) && f.online && (f.state.ActiveIdle? || f.state.CheckTokenPass?)
    requires f.state.ActiveIdle? ==> f.state.statusRequest.None?
    requires f.pendingBytes == 0 && !Transmitting(f, now)
    requires Encodable(t) && Addressable(t) && counted > 0 && InputOk(f, Input(now, false, counted, Encode(t), answers))
    ensures Poll(f, Input(now, false, counted, Encode(t), answers)) == Hear(f, now, t)
  {
    hide WellFormed, AllBelow, Consistent, Encode, Parse, HandleAll;
    var rx := Encode(t);
    DrainSingle(t);
    TimeoutIsPositive(f.p);
    var g := CheckForBusActivity(f, now, counted);
    assert MarkRx(g, now) == MarkRx(f, now);
    OneTelegramBatch(g, f, now, t);
  }

  /** The first telegram after passing the token ends the check. */
  function EnterActiveIdle(f: Fdl, t: Telegram): Fdl
    requires f.state.ActiveIdle? || f.state.CheckTokenPass?
  {
    if f.state.ActiveIdle? then f
    else ToActiveIdle(if t.SourceAddress().None? then Fail(f, NoSource) else f)
  }

  lemma HearIsHandle(f: Fdl, now: int, t: Telegram)
    requires f.state.ActiveIdle? || f.state.CheckTokenPass?
    ensures Hear(f, now, t) == HandleTelegram(MarkRx(EnterActiveIdle(f, t), now), now, Delivery(t, true))
  {
    var d := Delivery(t, true);
    var g := EnterActiveIdle(f, t);
    assert [d][1..] == [];
    assert HandleAll(g, now, [d]) == HandleAll(HandleTelegram(MarkRx(g, now), now, d), now, []);
  }

  lemma OneTelegramBatch(g: Fdl, f: Fdl, now: int, t: Telegram)
    requires f.state.ActiveIdle? || f.state.CheckTokenPass?
    requires g == f.(lastBusActivity := g.lastBusActivity, pendingBytes := g.pendingBytes)
    requires MarkRx(g, now) == MarkRx(f, now)
    ensures Hear(g, now, t) == Hear(f, now, t)
  {
    HearIsHandle(f, now, t);
    HearIsHandle(g, now, t);
  }

  /** What a station does with a telegram that it receives as a batch of its own.  While it has the
      token, what it receives is part of the input of its polls instead. */
  ghost function Receive(f: Fdl, now: int, t: Telegram): Fdl
    requires Inv(f)
  {
    match f.state
    case ListenToken(_, _) => ListenToAll(f, now, [Delivery(t, true)])
    case ActiveIdle(_, _, _) => Hear(f, now, t)
    case CheckTokenPass(_) => Hear(f, now, t)
    case AwaitStatusResponse(address) =>
      var (g, response) := ReceiveGapAnswer(f, now, t, address);
      if response == StationResponded then ToPassToken(g, false, Attempt.First) else ToActiveIdle(g)
    case _ => f
  }

  /** Receiving a telegram is what the next poll does when the bytes of that telegram have arrived. */
  lemma ReceivingIsPolling(f: Fdl, now: int, t: Telegram, counted: nat, answers: seq<Option<Telegram>>)
    requires Inv(f) && f.online
    requires f.state.ListenToken? || f.state.ActiveIdle? || f.state.CheckTokenPass? || f.state.AwaitStatusResponse?
    requires f.state.ListenToken? || f.state.ActiveIdle? ==> f.state.statusRequest.None?
    requires f.pendingBytes == 0 && !Transmitting(f, now)
    requires Encodable(t) && Addressable(t) && counted > 0 && InputOk(f, Input(now, false, counted, Encode(t), answers))
    ensures Poll(f, Input(now, false, counted, Encode(t), answers)) == Receive(f, now, t)
  {
    hide WellFormed, AllBelow, Consistent, Encode, Parse, HandleAll;
    if f.state.ActiveIdle? || f.state.CheckTokenPass? {
      HearingIsPolling(f, now, t, counted, answers);
    } else {
      var rx := Encode(t);
      DrainSingle(t);
      FirstOfSingle(t);
      TimeoutIsPositive(f.p);
      var g := CheckForBusActivity(f, now, counted);
      assert MarkRx(g, now) == MarkRx(f, now);
      if f.state.ListenToken? {
        ListeningToOne(f, now, t);
        ListeningToOne(g, now, t);
      }
    }
  }

  lemma FirstOfSingle(t: Telegram)
    requires Encodable(t) && Addressable(t)
    ensures TakeFirst(Encode(t)).telegram == Some(t)
  {
    hide Encode, Parse;
    RoundTrip(t, []);
    assert Encode(t) + [] == Encode(t);
  }

  lemma ListeningToOne(f: Fdl, now: int, t: Telegram)
    requires f.state.ListenToken?
    ensures ListenToAll(f, now, [Delivery(t, true)]) == ListenTo(f, now, Delivery(t, true))
  {
    assert [Delivery(t, true)][1..] == [];
  }

  /** Nothing has arrived, nothing is waiting to be answered, and no timeout of the station has expired. */
  ghost predicate Idle(f: Fdl, input: Input) {
    && InputOk(f, input) && input.rx == []
    && match f.state
       case ListenToken(request, _) => request.None? && !TokenLost(Touch(f, input.now), input.now)
       case ActiveIdle(request, _, _) => request.None? && !TokenLost(Touch(f, input.now), input.now)
       case CheckTokenPass(_) => !SlotExpired(Touch(f, input.now), input.now)
       case AwaitStatusResponse(_) => !SlotExpired(Touch(f, input.now), input.now)
       case _ => false
  }

  /** Polling an idle station changes nothing but its clock. */
  lemma IdlePollWaits(f: Fdl, input: Input)
    requires Inv(f) && f.online && Idle(f, input)
    ensures Poll(f, input) == f.(lastBusActivity := Poll(f, input).lastBusActivity)
  {
    hide WellFormed, AllBelow, Consistent, DoClaimToken, DoPassToken;
    assert Drain([]).deliveries == [];
  }

  /** The PHY is free, and nothing has arrived on a bus whose last activity is known. */
  predicate MayAct(f: Fdl, input: Input) {
    !input.phyBusy && !Transmitting(f, input.now) && f.lastBusActivity.Some? && input.counted <= f.pendingBytes
  }

  // ---------------------------------------------------------------------------------------------
  // The bus
  // ---------------------------------------------------------------------------------------------

  /** The telegram by which the log has grown, if any. */
  ghost function Transmitted(f: Fdl, g: Fdl): Option<Telegram>
    requires |g.log.sent| <= |f.log.sent| + 1
  {
    if |g.log.sent| == |f.log.sent| + 1 then Some(g.log.sent[|f.log.sent|].telegram) else None
  }

  /** What happens on the bus: the station whose turn it is gets polled, some other station is polled while
      it has nothing to do, or a passive station is heard.  Each station `x` hears what was transmitted when
      it is polled next, at the time `heard(x)`. */
  datatype BusStep =
    | PollOf(station: nat, input: Input, heard: nat -> int)
    | PollIdle(station: nat, input: Input)
    | PassiveHeard(heard: nat -> int, t: Telegram)

  ghost predicate AllSound(bus: map<nat, Fdl>) {
    forall x | x in bus :: Inv(bus[x])
  }

  /** Everyone but `x` receives the telegram. */
  ghost function AllReceive(bus: map<nat, Fdl>, x: nat, heard: nat -> int, t: Option<Telegram>): map<nat, Fdl>
    requires AllSound(bus)
  {
    map y | y in bus :: if y == x || t.None? then bus[y] else Receive(bus[y], heard(y), t.value)
  }

  /** The telegram that a poll transmits, if any. */
  ghost function Sends(f: Fdl, input: Input): Option<Telegram>
    requires Inv(f) && InputOk(f, input)
  {
    PollIsDisciplined(f, input);
    Transmitted(f, Poll(f, input))
  }

  ghost function BusNext(bus: map<nat, Fdl>, holder: nat, step: BusStep): map<nat, Fdl>
    requires AllSound(bus)
    requires !step.PassiveHeard? ==> step.station in bus && InputOk(bus[step.station], step.input)
  {
    match step
    case PollOf(x, input, heard) =>
      AllReceive(bus, x, heard, Sends(bus[x], input))[x := Poll(bus[x], input)]
    case PollIdle(x, input) => bus[x := Poll(bus[x], input)]
    case PassiveHeard(heard, t) => AllReceive(bus, holder, heard, Some(t))
  }
}
