/**
 The active station as a mathematical state machine.

 An `Fdl` value holds everything that `FdlActiveStation` keeps between two calls of `poll`, and a
 log of what can be observed from outside.  `Poll` says what one call does to it; the handler of
 each state is a function of its own.
 */
module Stations {
  import opened BusParameters
  import opened Telegrams
  import opened PhysicalLayer
  import opened TokenRings

  // ---------------------------------------------------------------------------------------------
  // State
  // ---------------------------------------------------------------------------------------------

  /** Either counting token rotations until the next sweep, or sweeping: `DoPoll` holds the address
      that was polled last. */
  datatype GapState = Waiting(rotationCount: nat) | DoPoll(currentAddress: nat)

  datatype Attempt = First | Second | Third

  /** The arrival time of the token and the application that was asked first since then. */
  datatype UseTokenData = UseTokenData(tokenTime: int, firstApp: Option<nat>)

  datatype ClaimTokenStep = FirstToken | SecondToken | Scan | ScanAwaitResponse(address: nat)

  datatype State =
    | Offline
    | ListenToken(statusRequest: Option<Byte>, collisionCount: nat)
    | ActiveIdle(statusRequest: Option<Byte>, newPreviousStation: Option<Byte>, collisionCount: nat)
    | UseToken(data: UseTokenData, firstCycleDone: bool)
    | ClaimToken(step: ClaimTokenStep)
    | AwaitDataResponse(replier: Byte, data: UseTokenData)
    | PassToken(doGap: bool, attempt: Attempt)
    | CheckTokenPass(attempt: Attempt)
    | AwaitStatusResponse(address: nat)

  /** What happens to the applications: the token was taken for them, an application was asked for
      a telegram, a reply or a timeout was handed to an application, the token was released. */
  datatype Event =
    | TokenTaken
    | Asked(app: nat, highPrioOnly: bool, accepted: bool)
    | GotReply(app: nat, replier: Byte)
    | TimedOut(app: nat, replier: Byte)
    | TokenReleased

  /** A telegram and the time at which its transmission began. */
  datatype Transmission = Transmission(at: int, telegram: Telegram)

  /** Assertions of the program that do not hold for every input:
      `SelfPoll` - a GAP poll is never aimed at this station,
      `ClaimBackOff` - ActiveIdle is never entered while claiming the token,
      `NoSource` - the first telegram after passing the token has a source address. */
  datatype Fault = SelfPoll | ClaimBackOff | NoSource

  datatype Log = Log(sent: seq<Transmission>, events: seq<Event>, faults: seq<Fault>)

  datatype Fdl = Fdl(
    p: Parameters,
    ring: RingView,
    online: bool,
    gap: GapState,
    state: State,
    lastBusActivity: Option<int>,
    pendingBytes: nat,
    lastTokenTime: int,
    endTokenHoldTime: int,
    nextApplication: nat,
    log: Log)

  /** Everything one call of `poll` finds outside of the station: the time, whether the PHY is still
      transmitting, how many bytes are in the receive buffer when they are counted, what is in it when
      telegrams are received (more may have arrived in between), and what each application would send
      when asked. */
  datatype Input = Input(now: int, phyBusy: bool, counted: nat, rx: seq<Byte>, answers: seq<Option<Telegram>>)

  function NewFdl(p: Parameters, log: Log): Fdl {
    Fdl(p, NewRing(p.address), false, DoPoll(p.address), Offline, None, 0, 0, 0, 0, log)
  }

  function SetOnline(f: Fdl): Fdl {
    f.(online := true)
  }

  /** Going offline forgets everything but the parameters. */
  function SetOffline(f: Fdl): Fdl {
    NewFdl(f.p, f.log)
  }

  ghost predicate GapOk(p: Parameters, gap: GapState) {
    match gap
    case Waiting(count) => count <= p.gapWaitRotations + 1
    case DoPoll(a) => a < p.highestStationAddress
  }

  /** What the parts of the station that outlive a state have in common. */
  ghost predicate Sane(f: Fdl) {
    && Consistent(f.p)
    && WellFormed(f.ring)
    && f.ring.ts == f.p.address
    && AllBelow(f.ring.las, MAX_ADDRESS + 1)
    && GapOk(f.p, f.gap)
  }

  // ---------------------------------------------------------------------------------------------
  // Time keeping
  // ---------------------------------------------------------------------------------------------

  function Max(a: int, b: int): int {
    if a < b then b else a
  }

  /** When nothing is known about the bus, count from now. */
  function Touch(f: Fdl, now: int): (g: Fdl)
    ensures g.lastBusActivity.Some?
  {
    if f.lastBusActivity.None? then f.(lastBusActivity := Some(now)) else f
  }

  function MarkBusActivity(f: Fdl, now: int): Fdl {
    f.(lastBusActivity := Some(if f.lastBusActivity.Some? then Max(f.lastBusActivity.value, now) else now))
  }

  function MarkRx(f: Fdl, now: int): Fdl {
    MarkBusActivity(f.(pendingBytes := 0), now)
  }

  predicate Transmitting(f: Fdl, now: int) {
    f.lastBusActivity.Some? && now <= f.lastBusActivity.value
  }

  predicate PauseOver(f: Fdl, now: int)
    requires f.lastBusActivity.Some?
  {
    now > f.lastBusActivity.value + f.p.SyncPause()
  }

  predicate SlotExpired(f: Fdl, now: int)
    requires f.lastBusActivity.Some?
  {
    now > f.lastBusActivity.value + f.p.SlotTime()
  }

  predicate TokenLost(f: Fdl, now: int)
    requires f.lastBusActivity.Some?
  {
    Distance(now, f.lastBusActivity.value) >= f.p.TokenLostTimeout()
  }

  /** Transmit a telegram of 11 bits per byte, beginning now. */
  function Send(f: Fdl, now: int, t: Telegram): Fdl {
    f.(lastBusActivity := Some(now + f.p.BitsToTime(11 * TelegramLength(t))),
       log := f.log.(sent := f.log.sent + [Transmission(now, t)]))
  }

  function CheckForBusActivity(f: Fdl, now: int, pending: nat): Fdl {
    if pending > f.pendingBytes then MarkBusActivity(f, now).(pendingBytes := pending) else f
  }

  function Fail(f: Fdl, fault: Fault): Fdl {
    f.(log := f.log.(faults := f.log.faults + [fault]))
  }

  function Note(f: Fdl, event: Event): Fdl {
    f.(log := f.log.(events := f.log.events + [event]))
  }

  // ---------------------------------------------------------------------------------------------
  // Transitions: the preconditions are the table of allowed source states
  // ---------------------------------------------------------------------------------------------

  function ToListenToken(f: Fdl): Fdl
    requires f.state.ListenToken? || f.state.Offline? || f.state.ActiveIdle?
  {
    f.(state := ListenToken(None, 0))
  }

  function ToActiveIdle(f: Fdl): Fdl
    requires f.state.ActiveIdle? || f.state.ListenToken? || f.state.UseToken? || f.state.AwaitDataResponse?
          || f.state.CheckTokenPass? || f.state.AwaitStatusResponse?
  {
    f.(state := ActiveIdle(None, None, 0))
  }

  /** The one edge that is taken although the table of ActiveIdle does not list its source. */
  function ClaimToActiveIdle(f: Fdl): Fdl
    requires f.state.ClaimToken?
  {
    Fail(f.(state := ActiveIdle(None, None, 0)), ClaimBackOff)
  }

  /** Back to using the token that is already held. */
  function ToUseToken(f: Fdl, data: UseTokenData, firstCycleDone: bool): Fdl
    requires f.state.UseToken? || f.state.ClaimToken? || f.state.PassToken? || f.state.AwaitDataResponse?
          || f.state.ActiveIdle?
  {
    f.(state := UseToken(data, firstCycleDone))
  }

  /** The token has just arrived. */
  function TakeToken(f: Fdl, now: int): Fdl
    requires f.state.PassToken? || f.state.ActiveIdle?
  {
    Note(ToUseToken(f, UseTokenData(now, None), false), TokenTaken)
  }

  function ToClaimToken(f: Fdl): Fdl
    requires f.state.ClaimToken? || f.state.ListenToken? || f.state.ActiveIdle?
  {
    f.(state := ClaimToken(FirstToken))
  }

  function ToAwaitDataResponse(f: Fdl, replier: Byte, data: UseTokenData): Fdl
    requires f.state.AwaitDataResponse? || f.state.UseToken?
  {
    f.(state := AwaitDataResponse(replier, data))
  }

  function ToPassToken(f: Fdl, doGap: bool, attempt: Attempt): Fdl
    requires f.state.PassToken? || f.state.UseToken? || f.state.ClaimToken? || f.state.CheckTokenPass?
          || f.state.AwaitStatusResponse?
  {
    f.(state := PassToken(doGap, attempt))
  }

  function ToCheckTokenPass(f: Fdl, attempt: Attempt): Fdl
    requires f.state.CheckTokenPass? || f.state.PassToken?
  {
    f.(state := CheckTokenPass(attempt))
  }

  function ToAwaitStatusResponse(f: Fdl, address: nat): Fdl
    requires f.state.AwaitStatusResponse? || f.state.PassToken?
  {
    f.(state := AwaitStatusResponse(address))
  }

  // ---------------------------------------------------------------------------------------------
  // GAP polling
  // ---------------------------------------------------------------------------------------------

  /** Where a GAP sweep goes from the given address, for this and next station `ts` and `ns`. */
  function NextGap(hsa: nat, ts: nat, ns: nat, current: nat): GapState {
    var next := if current == hsa - 1 then 0 else current + 1;
    if next >= ns && ns > ts then Waiting(0)
    else if next == ns && ns == ts then Waiting(0)
    else if next >= ns && ns < ts && next < ts then Waiting(0)
    else DoPoll(next)
  }

  function NextGapPoll(f: Fdl, current: nat): GapState {
    NextGap(f.p.highestStationAddress, f.p.address, f.ring.ns, current)
  }

  /** Ask the polled address for its status. */
  function TransmitGapPoll(f: Fdl, now: int): Fdl
    requires Sane(f) && f.gap.DoPoll?
  {
    var a := f.gap.currentAddress;
    var g := if a == f.p.address then Fail(f, SelfPoll) else f;
    Send(g, now, StatusRequest(a, f.p.address))
  }

  datatype GapPollResponse = NoResponse | StationResponded | UnexpectedTelegram | StillWaiting

  /** The telegram answers a GAP poll of the given address. */
  predicate AnswersPoll(f: Fdl, t: Telegram, address: nat) {
    t.IsResponse() && t.h.sa == address && t.h.da == f.p.address
  }

  /** The answer comes from a station that wants to receive the token. */
  predicate WantsToken(t: Telegram)
    requires t.IsResponse()
  {
    t.h.fc.status == Ok && (t.h.fc.state == MasterWithoutToken || t.h.fc.state == MasterInRing)
  }

  ghost function ReceiveGapAnswer(f: Fdl, now: int, t: Telegram, address: nat): (Fdl, GapPollResponse) {
    var g := MarkRx(f, now);
    if AnswersPoll(f, t, address) then
      (if WantsToken(t) then g.(ring := SetNext(g.ring, address)) else g, StationResponded)
    else (g, UnexpectedTelegram)
  }

  ghost function AwaitGapPollResponse(f: Fdl, now: int, rx: seq<Byte>, address: nat): (Fdl, GapPollResponse)
    requires f.gap == DoPoll(address)
  {
    var first := TakeFirst(rx).telegram;
    if first.Some? then ReceiveGapAnswer(f, now, first.value, address)
    else
      var g := Touch(f, now);
      (g, if SlotExpired(g, now) then NoResponse else StillWaiting)
  }

  // ---------------------------------------------------------------------------------------------
  // Without the token
  // ---------------------------------------------------------------------------------------------

  predicate IsRequestToUs(f: Fdl, t: Telegram) {
    t.IsStatusRequest() && t.h.da == f.p.address
  }

  /** Answer a status request while listening; a station with a valid LAS enters the ring by this,
      but only tells its own predecessor that it is ready for the token. */
  function AnswerWhileListening(f: Fdl, now: int): Fdl
    requires f.p.address < 256 && f.state.ListenToken? && f.state.statusRequest.Some?
  {
    var source := f.state.statusRequest.value;
    var ready := f.ring.lasState == Valid;
    var state := if ready && source == f.ring.ps then MasterWithoutToken else MasterNotReady;
    var g := if ready then ToActiveIdle(f) else f.(state := ListenToken(None, f.state.collisionCount));
    Send(g, now, StatusResponse(source, f.p.address, state))
  }

  /** One telegram heard while listening. */
  ghost function ListenTo(f: Fdl, now: int, d: Delivery): Fdl
    requires f.online ==> f.state.ListenToken?
  {
    var g := MarkRx(f, now);
    if !g.online then g
    else if d.telegram.SourceAddress() == Some(f.p.address) then
      var count := g.state.collisionCount + 1;
      if count == 1 then g.(state := ListenToken(g.state.statusRequest, count)) else SetOffline(g)
    else
      match d.telegram
      case Token(da, sa) => g.(ring := Witness(g.ring, sa, da))
      case Data(h, _) =>
        if IsRequestToUs(f, d.telegram) && d.isLast then
          g.(state := ListenToken(Some(h.sa), g.state.collisionCount))
        else g
      case ShortConfirmation => g
  }

  ghost function ListenToAll(f: Fdl, now: int, ds: seq<Delivery>): Fdl
    requires f.online ==> f.state.ListenToken?
    decreases |ds|
  {
    if ds == [] then f else ListenToAll(ListenTo(f, now, ds[0]), now, ds[1..])
  }

  ghost function DoListenToken(f: Fdl, now: int, rx: seq<Byte>): Fdl
    requires Sane(f) && f.online && f.state.ListenToken?
  {
    var g := Touch(f, now);
    if TokenLost(g, now) then DoClaimToken(ToClaimToken(g), now, rx)
    else if g.state.statusRequest.Some? then
      if PauseOver(g, now) then AnswerWhileListening(g, now) else g
    else ListenToAll(g, now, Drain(rx).deliveries)
  }

  /** One telegram heard while in the ring without the token. */
  ghost function HandleTelegram(f: Fdl, now: int, d: Delivery): Fdl
    requires f.state.ListenToken? || f.state.ActiveIdle?
  {
    if f.state.ListenToken? then f
    else
      match d.telegram
      case Token(da, sa) =>
        if sa == f.p.address then
          var count := f.state.collisionCount + 1;
          if count == 1 then f.(state := ActiveIdle(f.state.statusRequest, f.state.newPreviousStation, count))
          else ToListenToken(f)
        else
          var g := f.(state := ActiveIdle(f.state.statusRequest, f.state.newPreviousStation, 0));
          HandleToken(g, now, da, sa, d.isLast)
      case Data(h, _) =>
        if IsRequestToUs(f, d.telegram) && d.isLast then
          f.(state := ActiveIdle(Some(h.sa), f.state.newPreviousStation, f.state.collisionCount))
        else f
      case ShortConfirmation => f
  }

  /** A token telegram of another station: accept the token when it is for this station and comes
      from the known predecessor, or from the same unknown sender for the second time. */
  ghost function HandleToken(f: Fdl, now: int, da: Byte, sa: Byte, isLast: bool): Fdl
    requires f.state.ActiveIdle?
  {
    if da != f.p.address || !isLast then f.(ring := Witness(f.ring, sa, da))
    else if sa == f.ring.ps then TakeToken(f, now)
    else if f.state.newPreviousStation == Some(sa) then
      TakeToken(f.(ring := Witness(f.ring, sa, da)), now)
    else f.(state := ActiveIdle(f.state.statusRequest, Some(sa), f.state.collisionCount))
  }

  /** Only the last telegram of a batch can leave the station with the token. */
  ghost predicate LastEndsBatch(ds: seq<Delivery>) {
    forall i | 0 <= i < |ds| :: ds[i].isLast ==> i == |ds| - 1
  }

  ghost function HandleAll(f: Fdl, now: int, ds: seq<Delivery>): Fdl
    requires ds != [] ==> f.state.ListenToken? || f.state.ActiveIdle?
    requires LastEndsBatch(ds)
    decreases |ds|
  {
    if ds == [] then f
    else HandleAll(HandleTelegram(MarkRx(f, now), now, ds[0]), now, ds[1..])
  }

  function AnswerInRing(f: Fdl, now: int): Fdl
    requires f.p.address < 256 && f.state.ActiveIdle? && f.state.statusRequest.Some?
  {
    Send(f.(state := ActiveIdle(None, f.state.newPreviousStation, f.state.collisionCount)), now,
         StatusResponse(f.state.statusRequest.value, f.p.address, MasterInRing))
  }

  ghost function DoActiveIdle(f: Fdl, now: int, rx: seq<Byte>): Fdl
    requires Sane(f) && f.state.ActiveIdle?
  {
    var g := Touch(f, now);
    if TokenLost(g, now) then DoClaimToken(ToClaimToken(g), now, rx)
    else if g.state.statusRequest.Some? then
      if PauseOver(g, now) then AnswerInRing(g, now) else g
    else HandleAll(g, now, Drain(rx).deliveries)
  }

  // ---------------------------------------------------------------------------------------------
  // Claiming the token
  // ---------------------------------------------------------------------------------------------

  /** Claim the token by sending it to ourselves; done twice. */
  function SendClaim(f: Fdl, now: int, nextStep: ClaimTokenStep): Fdl
    requires f.p.address < 256
  {
    Send(f.(ring := Claim(f.ring), state := ClaimToken(nextStep), gap := DoPoll(f.p.address)),
         now, Token(f.p.address, f.p.address))
  }

  function DoScan(f: Fdl, now: int): Fdl
    requires Sane(f) && f.state == ClaimToken(Scan)
  {
    var g := Touch(f, now);
    if !PauseOver(g, now) then g
    else if g.gap.Waiting? then ToPassToken(g, false, Attempt.First)
    else
      var h := g.(gap := NextGapPoll(g, g.gap.currentAddress));
      if h.gap.DoPoll? then
        TransmitGapPoll(h, now).(state := ClaimToken(ScanAwaitResponse(h.gap.currentAddress)))
      else h
  }

  ghost function DoClaimToken(f: Fdl, now: int, rx: seq<Byte>): Fdl
    requires Sane(f) && f.state.ClaimToken?
    requires f.state.step.ScanAwaitResponse? ==> f.gap == DoPoll(f.state.step.address)
  {
    match f.state.step
    case FirstToken =>
      var g := Touch(f, now);
      if PauseOver(g, now) then SendClaim(g, now, SecondToken) else g
    case SecondToken =>
      var g := Touch(f, now);
      if PauseOver(g, now) then SendClaim(g, now, Scan) else g
    case Scan => DoScan(f, now)
    case ScanAwaitResponse(address) =>
      var (g, response) := AwaitGapPollResponse(f, now, rx, address);
      match response
      case StillWaiting => g
      case StationResponded => g.(state := ClaimToken(Scan))
      case NoResponse => DoScan(g.(state := ClaimToken(Scan)), now)
      case UnexpectedTelegram => ClaimToActiveIdle(g)
  }

  // ---------------------------------------------------------------------------------------------
  // Using the token
  // ---------------------------------------------------------------------------------------------

  /** The applications never send a telegram that does not fit into a frame. */
  predicate AnswersOk(answers: seq<Option<Telegram>>) {
    forall a | a in answers && a.Some? :: Encodable(a.value)
  }

  /** The next application takes over; remember which one was asked first during this hold. */
  function ScheduleNext(f: Fdl, numApps: nat): Fdl
    requires f.state.UseToken? && numApps > 0
  {
    var data := f.state.data;
    var first := if data.firstApp.Some? then data.firstApp.value else f.nextApplication;
    f.(state := UseToken(data.(firstApp := Some(first)), f.state.firstCycleDone),
       nextApplication := (f.nextApplication + 1) % numApps)
  }

  /** The application has nothing to send, and the next one takes over. */
  function Decline(f: Fdl, highPrioOnly: bool, numApps: nat): Fdl
    requires f.state.UseToken? && numApps > 0
  {
    ScheduleNext(Note(f, Asked(f.nextApplication, highPrioOnly, false)), numApps)
  }

  /** The application transmits; when its telegram expects a reply, wait for that next. */
  function TransmitFor(f: Fdl, now: int, highPrioOnly: bool, t: Telegram): Fdl
    requires f.state.UseToken?
  {
    var g := Note(f, Asked(f.nextApplication, highPrioOnly, true));
    var h := match ExpectedReplier(t)
             case Some(replier) => ToAwaitDataResponse(g, replier, g.state.data)
             case None => g;
    Send(h, now, t)
  }

  /** Ask the applications in turn until one transmits or all of them have declined; `asks` limits
      how many are asked.  The second component tells whether one transmitted. */
  function AskApplications(f: Fdl, now: int, answers: seq<Option<Telegram>>, highPrioOnly: bool, asks: nat)
    : (r: (Fdl, bool))
    requires f.state.UseToken?
    requires |answers| > 0 ==> f.nextApplication < |answers|
    ensures !r.1 ==> r.0.state.UseToken?
    decreases asks
  {
    if asks == 0 || answers == [] then (f, false)
    else
      match answers[f.nextApplication]
      case Some(t) => (TransmitFor(f, now, highPrioOnly, t), true)
      case None =>
        var g := Decline(f, highPrioOnly, |answers|);
        if g.nextApplication == g.state.data.firstApp.value then (g, false)
        else AskApplications(g, now, answers, highPrioOnly, asks - 1)
  }

  /** On a new token, compute until when it may be held. */
  function StartHold(f: Fdl): Fdl
    requires f.state.UseToken?
  {
    var time := f.state.data.tokenTime;
    if f.lastTokenTime == time then f
    else
      var end := f.lastTokenTime + f.p.TokenRotationTime();
      f.(endTokenHoldTime := if f.gap.DoPoll? then end - f.p.GapReserve() else end,
         lastTokenTime := time)
  }

  /** The applications are done with the token. */
  function ReleaseToken(f: Fdl): Fdl
    requires f.state.UseToken?
  {
    ToPassToken(Note(f, TokenReleased), true, Attempt.First)
  }

  function DoUseToken(f: Fdl, now: int, answers: seq<Option<Telegram>>): Fdl
    requires f.state.UseToken? && (|answers| > 0 ==> f.nextApplication < |answers|)
  {
    var g := Touch(StartHold(f), now);
    if !PauseOver(g, now) then g
    else if now < g.endTokenHoldTime || !g.state.firstCycleDone then
      var (h, transmitted) :=
        AskApplications(g.(state := UseToken(g.state.data, true)), now, answers,
                        now >= g.endTokenHoldTime, |answers|);
      if transmitted then h else ReleaseToken(h)
    else ReleaseToken(g)
  }

  predicate IsValidReply(f: Fdl, t: Telegram, replier: Byte) {
    t.ShortConfirmation? || (t.IsResponse() && t.h.sa == replier && t.h.da == f.p.address)
  }

  function ReceiveReply(f: Fdl, now: int, t: Telegram): Fdl
    requires f.state.AwaitDataResponse?
  {
    var g := MarkRx(f, now);
    if IsValidReply(f, t, f.state.replier) then
      ToUseToken(Note(g, GotReply(f.nextApplication, f.state.replier)), f.state.data, true)
    else ToActiveIdle(g)
  }

  /** The application learns that no reply came, and the token is used on. */
  function GiveUpOnReply(f: Fdl): Fdl
    requires f.state.AwaitDataResponse?
  {
    ToUseToken(Note(f, TimedOut(f.nextApplication, f.state.replier)), f.state.data, true)
  }

  function DoAwaitDataResponse(f: Fdl, now: int, rx: seq<Byte>, answers: seq<Option<Telegram>>): Fdl
    requires f.state.AwaitDataResponse? && (|answers| > 0 ==> f.nextApplication < |answers|)
  {
    var first := TakeFirst(rx).telegram;
    if first.Some? then ReceiveReply(f, now, first.value)
    else
      var g := Touch(f, now);
      if SlotExpired(g, now) then
        DoUseToken(GiveUpOnReply(g), now, answers)
      else g
  }

  // ---------------------------------------------------------------------------------------------
  // Passing the token on
  // ---------------------------------------------------------------------------------------------

  /** Hand the token to the next station.  A station that is alone passes it to itself. */
  ghost function SendToken(f: Fdl, now: int): Fdl
    requires Sane(f) && f.state.PassToken?
  {
    var g := f.(ring := Witness(f.ring, f.p.address, f.ring.ns));
    var h := if g.ring.ns == f.p.address then TakeToken(g, now)
             else ToCheckTokenPass(g, f.state.attempt);
    Send(h, now, Token(f.ring.ns, f.p.address))
  }

  /** Advance the GAP sweep, or the count of rotations until the next one. */
  function AdvanceGap(f: Fdl): Fdl {
    match f.gap
    case Waiting(count) =>
      if count > f.p.gapWaitRotations then f.(gap := NextGapPoll(f, f.p.address))
      else f.(gap := Waiting(count + 1))
    case DoPoll(a) => f.(gap := NextGapPoll(f, a))
  }

  lemma WitnessKeepsSane(f: Fdl, sa: nat, da: nat)
    requires Sane(f)
    ensures Sane(f.(ring := Witness(f.ring, sa, da)))
  {
    hide WellFormed, Witness, AllBelow;
    OperationsKeepWellFormed(f.ring, sa, da, 0);
    OperationsKeepAddresses(f.ring, sa, da, 0, MAX_ADDRESS + 1);
  }

  lemma AdvanceGapStaysSane(f: Fdl)
    requires Sane(f)
    ensures Sane(AdvanceGap(f))
  {
  }

  ghost function DoPassToken(f: Fdl, now: int): Fdl
    requires Sane(f) && f.state.PassToken?
  {
    var g := Touch(f, now);
    if !PauseOver(g, now) then g
    else if g.state.doGap then
      var h := AdvanceGap(g);
      if h.gap.DoPoll? then ToAwaitStatusResponse(TransmitGapPoll(h, now), h.gap.currentAddress)
      else SendToken(h, now)
    else SendToken(g, now)
  }

  ghost function DoAwaitStatusResponse(f: Fdl, now: int, rx: seq<Byte>): Fdl
    requires Sane(f) && f.state.AwaitStatusResponse? && f.gap == DoPoll(f.state.address)
  {
    var (g, response) := AwaitGapPollResponse(f, now, rx, f.state.address);
    match response
    case StillWaiting => g
    case StationResponded => ToPassToken(g, false, Attempt.First)
    case NoResponse => DoPassToken(ToPassToken(g, false, Attempt.First), now)
    case UnexpectedTelegram => ToActiveIdle(g)
  }

  /** The receiver of the token stayed silent: try again, or drop it from the LAS. */
  ghost function RetryPass(f: Fdl): Fdl
    requires f.state.CheckTokenPass?
  {
    match f.state.attempt
    case First => ToPassToken(f, false, Attempt.Second)
    case Second => ToPassToken(f, false, Attempt.Third)
    case Third => ToPassToken(f.(ring := Remove(f.ring, f.ring.ns)), false, Attempt.First)
  }

  /** Telegrams heard after passing the token: the first one ends the check. */
  ghost function HearAfterPass(f: Fdl, now: int, ds: seq<Delivery>): Fdl
    requires f.state.CheckTokenPass? && LastEndsBatch(ds)
  {
    if ds == [] then f
    else
      var g := if ds[0].telegram.SourceAddress().None? then Fail(f, NoSource) else f;
      HandleAll(ToActiveIdle(g), now, ds)
  }

  ghost function DoCheckTokenPass(f: Fdl, now: int, rx: seq<Byte>): Fdl
    requires Sane(f) && f.state.CheckTokenPass?
  {
    var g := Touch(f, now);
    if SlotExpired(g, now) then DoPassToken(RetryPass(g), now)
    else HearAfterPass(g, now, Drain(rx).deliveries)
  }

  // ---------------------------------------------------------------------------------------------
  // The station as a whole
  // ---------------------------------------------------------------------------------------------

  ghost predicate StateOk(f: Fdl) {
    match f.state
    case Offline => true
    case ListenToken(_, collisions) => collisions <= 1
    case ActiveIdle(_, _, collisions) => f.ring.lasState == Valid && collisions <= 1
    case UseToken(_, _) => f.ring.lasState == Valid
    case ClaimToken(step) =>
      && (!step.FirstToken? ==> f.ring.lasState == Valid)
      && (step.ScanAwaitResponse? ==> f.gap == DoPoll(step.address))
    case AwaitDataResponse(_, _) => f.ring.lasState == Valid
    case PassToken(_, _) => f.ring.lasState == Valid
    case CheckTokenPass(_) => f.ring.lasState == Valid
    case AwaitStatusResponse(address) => f.ring.lasState == Valid && f.gap == DoPoll(address)
  }

  /** What holds between any two calls of `poll`. */
  ghost predicate Inv(f: Fdl) {
    && Sane(f)
    && (!f.online ==> f.state.Offline?)
    && StateOk(f)
  }

  /** The list of applications is fixed, and may only be empty when none was ever asked. */
  ghost predicate InputOk(f: Fdl, input: Input) {
    && AnswersOk(input.answers) && input.counted <= |input.rx|
    && (|input.answers| > 0 ==> f.nextApplication < |input.answers|)
  }

  ghost function Dispatch(f: Fdl, input: Input): Fdl
    requires Inv(f) && f.online && InputOk(f, input) && !f.state.Offline?
  {
    match f.state
    case ListenToken(_, _) => DoListenToken(f, input.now, input.rx)
    case ClaimToken(_) => DoClaimToken(f, input.now, input.rx)
    case UseToken(_, _) => DoUseToken(f, input.now, input.answers)
    case AwaitDataResponse(_, _) => DoAwaitDataResponse(f, input.now, input.rx, input.answers)
    case PassToken(_, _) => DoPassToken(f, input.now)
    case CheckTokenPass(_) => DoCheckTokenPass(f, input.now, input.rx)
    case ActiveIdle(_, _, _) => DoActiveIdle(f, input.now, input.rx)
    case AwaitStatusResponse(_) => DoAwaitStatusResponse(f, input.now, input.rx)
  }

  /** What one call of `poll` does. */
  ghost function Poll(f: Fdl, input: Input): Fdl
    requires Inv(f) && InputOk(f, input)
  {
    if !f.online then f
    else
      var g := if f.state.Offline? then ToListenToken(f) else f;
      if input.phyBusy || Transmitting(g, input.now) then MarkBusActivity(g, input.now)
      else Dispatch(CheckForBusActivity(g, input.now, input.counted), input)
  }
}
