/**
 What every run of an active station keeps.
 */
module StationInvariant {
  import opened BusParameters
  import opened Telegrams
  import opened PhysicalLayer
  import opened TokenRings
  import opened Stations

  /** The invariant of a station with `n` applications. */
  ghost predicate Ready(f: Fdl, n: nat) {
    Inv(f) && (n > 0 ==> f.nextApplication < n)
  }

  lemma WitnessKeeps(f: Fdl, sa: nat, da: nat)
    requires Sane(f)
    ensures Sane(f.(ring := Witness(f.ring, sa, da)))
    ensures f.ring.lasState == Valid ==> Witness(f.ring, sa, da).lasState == Valid
  {
    hide WellFormed, Witness, AllBelow;
    OperationsKeepWellFormed(f.ring, sa, da, 0);
    OperationsKeepAddresses(f.ring, sa, da, 0, MAX_ADDRESS + 1);
  }

  lemma ListenToKeeps(f: Fdl, n: nat, now: int, d: Delivery)
    requires Ready(f, n) && (f.online ==> f.state.ListenToken?)
    ensures Ready(ListenTo(f, now, d), n)
  {
    if d.telegram.Token? {
      WitnessKeeps(MarkRx(f, now), d.telegram.sa, d.telegram.da);
    }
  }

  lemma {:induction false} ListenToAllKeeps(f: Fdl, n: nat, now: int, ds: seq<Delivery>)
    requires Ready(f, n) && (f.online ==> f.state.ListenToken?)
    ensures Ready(ListenToAll(f, now, ds), n)
    decreases |ds|
  {
    if ds != [] {
      ListenToKeeps(f, n, now, ds[0]);
      ListenToAllKeeps(ListenTo(f, now, ds[0]), n, now, ds[1..]);
    }
  }

  lemma HandleTelegramKeeps(f: Fdl, n: nat, now: int, d: Delivery)
    requires Ready(f, n) && (f.state.ListenToken? || f.state.ActiveIdle?)
    ensures Ready(HandleTelegram(f, now, d), n)
  {
    if d.telegram.Token? {
      WitnessKeeps(f, d.telegram.sa, d.telegram.da);
    }
  }

  lemma {:induction false} HandleAllKeeps(f: Fdl, n: nat, now: int, ds: seq<Delivery>)
    requires Ready(f, n) && LastEndsBatch(ds) && (ds != [] ==> f.state.ListenToken? || f.state.ActiveIdle?)
    ensures Ready(HandleAll(f, now, ds), n)
    decreases |ds|
  {
    if ds != [] {
      var g := MarkRx(f, now);
      assert Ready(g, n);
      HandleTelegramKeeps(g, n, now, ds[0]);
      HandleAllKeeps(HandleTelegram(g, now, ds[0]), n, now, ds[1..]);
    }
  }

  lemma SendTokenKeeps(f: Fdl, n: nat, now: int)
    requires Ready(f, n) && f.state.PassToken?
    ensures Ready(SendToken(f, now), n)
  {
  }

  lemma DoPassTokenKeeps(f: Fdl, n: nat, now: int)
    requires Ready(f, n) && f.state.PassToken?
    ensures Ready(DoPassToken(f, now), n)
  {
    var g := Touch(f, now);
    if g.state.doGap {
      AdvanceGapStaysSane(g);
      SendTokenKeeps(AdvanceGap(g), n, now);
    } else {
      SendTokenKeeps(g, n, now);
    }
  }

  lemma AwaitGapKeeps(f: Fdl, n: nat, now: int, rx: seq<Byte>, address: nat)
    requires Ready(f, n) && f.gap == DoPoll(address)
    ensures var g := AwaitGapPollResponse(f, now, rx, address).0;
            && Ready(g, n) && g.gap == f.gap && g.state == f.state && g.online == f.online
            && g.ring.lasState == f.ring.lasState
  {
    hide WellFormed, SetNext, AllBelow;
    OperationsKeepWellFormed(f.ring, 0, 0, address);
    OperationsKeepAddresses(f.ring, 0, 0, address, MAX_ADDRESS + 1);
  }

  lemma {:induction false} AskApplicationsKeeps(f: Fdl, now: int, answers: seq<Option<Telegram>>, high: bool, asks: nat)
    requires Ready(f, |answers|) && f.state.UseToken?
    ensures Ready(AskApplications(f, now, answers, high, asks).0, |answers|)
    decreases asks
  {
    if asks > 0 && answers != [] && answers[f.nextApplication].None? {
      var g := Decline(f, high, |answers|);
      AskApplicationsKeeps(g, now, answers, high, asks - 1);
    }
  }

  lemma DoUseTokenKeeps(f: Fdl, now: int, answers: seq<Option<Telegram>>)
    requires Ready(f, |answers|) && f.state.UseToken?
    ensures Ready(DoUseToken(f, now, answers), |answers|)
  {
    var g := Touch(StartHold(f), now);
    AskApplicationsKeeps(g.(state := UseToken(g.state.data, true)), now, answers, now >= g.endTokenHoldTime, |answers|);
  }

  lemma DoAwaitDataKeeps(f: Fdl, now: int, rx: seq<Byte>, answers: seq<Option<Telegram>>)
    requires Ready(f, |answers|) && f.state.AwaitDataResponse?
    ensures Ready(DoAwaitDataResponse(f, now, rx, answers), |answers|)
  {
    if TakeFirst(rx).telegram.None? {
      var g := Touch(f, now);
      DoUseTokenKeeps(GiveUpOnReply(g), now, answers);
    }
  }

  lemma DoScanKeeps(f: Fdl, n: nat, now: int)
    requires Ready(f, n) && f.state == ClaimToken(Scan)
    ensures Ready(DoScan(f, now), n)
  {
  }

  lemma ScanAwaitKeeps(f: Fdl, n: nat, now: int, rx: seq<Byte>)
    requires Ready(f, n) && f.state.ClaimToken? && f.state.step.ScanAwaitResponse?
    ensures Ready(DoClaimToken(f, now, rx), n)
  {
    hide WellFormed, AllBelow, Consistent, AwaitGapPollResponse, DoScan;
    AwaitGapKeeps(f, n, now, rx, f.state.step.address);
    var (g, response) := AwaitGapPollResponse(f, now, rx, f.state.step.address);
    if response == NoResponse {
      DoScanKeeps(g.(state := ClaimToken(Scan)), n, now);
    }
  }

  lemma DoClaimTokenKeeps(f: Fdl, n: nat, now: int, rx: seq<Byte>)
    requires Ready(f, n) && f.state.ClaimToken?
    ensures Ready(DoClaimToken(f, now, rx), n)
  {
    if f.state.step.ScanAwaitResponse? {
      ScanAwaitKeeps(f, n, now, rx);
    } else if f.state.step == Scan {
      DoScanKeeps(f, n, now);
    }
  }

  lemma DoListenTokenKeeps(f: Fdl, n: nat, now: int, rx: seq<Byte>)
    requires Ready(f, n) && f.online && f.state.ListenToken?
    ensures Ready(DoListenToken(f, now, rx), n)
  {
    var g := Touch(f, now);
    DoClaimTokenKeeps(ToClaimToken(g), n, now, rx);
    ListenToAllKeeps(g, n, now, Drain(rx).deliveries);
  }

  lemma DoActiveIdleKeeps(f: Fdl, n: nat, now: int, rx: seq<Byte>)
    requires Ready(f, n) && f.state.ActiveIdle?
    ensures Ready(DoActiveIdle(f, now, rx), n)
  {
    var g := Touch(f, now);
    DoClaimTokenKeeps(ToClaimToken(g), n, now, rx);
    HandleAllKeeps(g, n, now, Drain(rx).deliveries);
  }

  lemma DoAwaitStatusKeeps(f: Fdl, n: nat, now: int, rx: seq<Byte>)
    requires Ready(f, n) && f.state.AwaitStatusResponse?
    ensures Ready(DoAwaitStatusResponse(f, now, rx), n)
  {
    var (g, response) := AwaitGapPollResponse(f, now, rx, f.state.address);
    AwaitGapKeeps(f, n, now, rx, f.state.address);
    if response == NoResponse {
      DoPassTokenKeeps(ToPassToken(g, false, Attempt.First), n, now);
    }
  }

  lemma DoCheckTokenPassKeeps(f: Fdl, n: nat, now: int, rx: seq<Byte>)
    requires Ready(f, n) && f.state.CheckTokenPass?
    ensures Ready(DoCheckTokenPass(f, now, rx), n)
  {
    var g := Touch(f, now);
    if SlotExpired(g, now) {
      DoPassTokenKeeps(RetryPass(g), n, now);
    } else {
      var ds := Drain(rx).deliveries;
      if ds != [] {
        var h := if ds[0].telegram.SourceAddress().None? then Fail(g, NoSource) else g;
        HandleAllKeeps(ToActiveIdle(h), n, now, ds);
      }
    }
  }

  lemma DispatchKeeps(f: Fdl, input: Input)
    requires Ready(f, |input.answers|) && InputOk(f, input) && f.online && !f.state.Offline?
    ensures Ready(Dispatch(f, input), |input.answers|)
  {
    var n := |input.answers|;
    match f.state
    case ListenToken(_, _) => DoListenTokenKeeps(f, n, input.now, input.rx);
    case ClaimToken(_) => DoClaimTokenKeeps(f, n, input.now, input.rx);
    case UseToken(_, _) => DoUseTokenKeeps(f, input.now, input.answers);
    case AwaitDataResponse(_, _) => DoAwaitDataKeeps(f, input.now, input.rx, input.answers);
    case PassToken(_, _) => DoPassTokenKeeps(f, n, input.now);
    case CheckTokenPass(_) => DoCheckTokenPassKeeps(f, n, input.now, input.rx);
    case ActiveIdle(_, _, _) => DoActiveIdleKeeps(f, n, input.now, input.rx);
    case AwaitStatusResponse(_) => DoAwaitStatusKeeps(f, n, input.now, input.rx);
  }

  /** One call of `poll` keeps the invariant, whatever is received and whenever it is called. */
  lemma PollKeeps(f: Fdl, input: Input)
    requires Ready(f, |input.answers|) && InputOk(f, input)
    ensures Ready(Poll(f, input), |input.answers|)
  {
    if f.online {
      var g := if f.state.Offline? then ToListenToken(f) else f;
      if !(input.phyBusy || Transmitting(g, input.now)) {
        DispatchKeeps(CheckForBusActivity(g, input.now, input.counted), input);
      }
    }
  }

  // ---------------------------------------------------------------------------------------------
  // Runs
  // ---------------------------------------------------------------------------------------------

  /** What the owner of a station can do with it. */
  datatype Step = GoOnline | GoOffline | PollOnce(input: Input)

  /** None of the applications sends oversized telegrams. */
  predicate InputSound(input: Input) {
    AnswersOk(input.answers) && input.counted <= |input.rx|
  }

  /** The number of applications never changes. */
  predicate StepsOk(steps: seq<Step>, n: nat) {
    forall s | s in steps && s.PollOnce? :: |s.input.answers| == n && InputSound(s.input)
  }

  ghost function Do(f: Fdl, step: Step): Fdl
    requires step.PollOnce? ==> Ready(f, |step.input.answers|) && InputSound(step.input)
  {
    match step
    case GoOnline => SetOnline(f)
    case GoOffline => SetOffline(f)
    case PollOnce(input) => Poll(f, input)
  }

  lemma DoKeeps(f: Fdl, step: Step, n: nat)
    requires Ready(f, n) && StepsOk([step], n)
    ensures step.PollOnce? ==> |step.input.answers| == n && InputSound(step.input)
    ensures Ready(Do(f, step), n)
  {
    assert step in [step];
    if step.PollOnce? {
      PollKeeps(f, step.input);
    }
  }

  /** The state after a run.  Every state on the way satisfies the invariant: a station that is not
      online is in state Offline, every state of the ring but the first claim has a valid LAS, an
      awaited GAP answer belongs to the address that was polled, the neighbours are the cyclic
      neighbours in the LAS, and all counters stay in range. */
  ghost function Run(f: Fdl, steps: seq<Step>, n: nat): (g: Fdl)
    requires Ready(f, n) && StepsOk(steps, n)
    ensures Ready(g, n)
    decreases |steps|
  {
    if steps == [] then f
    else
      assert steps[0] in steps;
      DoKeeps(f, steps[0], n);
      Run(Do(f, steps[0]), steps[1..], n)
  }

  lemma NewStationIsReady(p: Parameters, log: Log, n: nat)
    requires Consistent(p)
    ensures Ready(NewFdl(p, log), n)
  {
  }

  /** The station can be polled with these inputs one after the other and stays online all the time. */
  ghost predicate Continues(f: Fdl, inputs: seq<Input>, n: nat)
    requires Ready(f, n)
    decreases |inputs|
  {
    inputs != [] ==>
      && |inputs[0].answers| == n && InputOk(f, inputs[0])
      && (PollKeeps(f, inputs[0]);
          Poll(f, inputs[0]).online && Continues(Poll(f, inputs[0]), inputs[1..], n))
  }

  /** The state after a run of polls during which the station stays online. */
  ghost function PollAll(f: Fdl, inputs: seq<Input>, n: nat): Fdl
    requires Ready(f, n) && Continues(f, inputs, n)
    decreases |inputs|
  {
    if inputs == [] then f
    else
      PollKeeps(f, inputs[0]);
      PollAll(Poll(f, inputs[0]), inputs[1..], n)
  }
}
