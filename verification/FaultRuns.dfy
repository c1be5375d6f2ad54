/**
 Runs from a new station to each of the assertions that can fail.
 */
module FaultRuns {
  import opened BusParameters
  import opened Telegrams
  import opened PhysicalLayer
  import opened TokenRings
  import opened Stations
  import opened StationInvariant
  import opened GapSweep
  import opened StationFaults

  /** Some run of a station without applications leads from `f` to `g`. */
  ghost predicate Reaches(f: Fdl, g: Fdl) {
    Ready(f, 0) && exists steps :: StepsOk(steps, 0) && Run(f, steps, 0) == g
  }

  lemma {:induction false} RunThen(f: Fdl, steps: seq<Step>, last: Step)
    requires Ready(f, 0) && StepsOk(steps, 0) && StepsOk([last], 0)
    ensures StepsOk(steps + [last], 0)
    ensures Ready(Run(f, steps, 0), 0) && Run(f, steps + [last], 0) == Do(Run(f, steps, 0), last)
    decreases |steps|
  {
    hide Ready, Do;
    assert last in [last];
    if steps == [] {
      assert [] + [last] == [last] && [last][1..] == [];
      DoKeeps(f, last, 0);
      assert Run(Do(f, last), [], 0) == Do(f, last);
    } else {
      assert steps[0] in steps;
      DoKeeps(f, steps[0], 0);
      RunThen(Do(f, steps[0]), steps[1..], last);
      assert (steps + [last])[1..] == steps[1..] + [last];
    }
  }

  lemma ReachesItself(f: Fdl)
    requires Ready(f, 0)
    ensures Reaches(f, f)
  {
    assert StepsOk([], 0) && Run(f, [], 0) == f;
  }

  lemma ReachesThen(f: Fdl, g: Fdl, step: Step)
    requires Reaches(f, g) && StepsOk([step], 0)
    ensures Ready(g, 0) && step in [step] && Reaches(f, Do(g, step))
  {
    hide Ready, Do;
    var steps :| StepsOk(steps, 0) && Run(f, steps, 0) == g;
    RunThen(f, steps, step);
  }

  /** A poll with a free PHY that receives these bytes. */
  function PollAt(now: int, rx: seq<Byte>): Step {
    PollOnce(Input(now, false, |rx|, rx, []))
  }

  lemma PollsAt(f: Fdl, g: Fdl, now: int, rx: seq<Byte>) returns (h: Fdl)
    requires Reaches(f, g)
    ensures Inv(g) && InputOk(g, PollAt(now, rx).input) && h == Poll(g, PollAt(now, rx).input) && Reaches(f, h)
  {
    hide Reaches;
    ReachesThen(f, g, PollAt(now, rx));
    h := Poll(g, PollAt(now, rx).input);
  }

  // ---------------------------------------------------------------------------------------------
  // Claiming the token
  // ---------------------------------------------------------------------------------------------

  /** The station is alone and scans the GAP. */
  ghost predicate IsScanning(f: Fdl, p: Parameters) {
    && Inv(f) && f.p == p && f.online && f.lastBusActivity.Some? && f.pendingBytes == 0
    && f.state.ClaimToken? && f.ring == Claim(NewRing(p.address))
  }

  /** A time long after the last activity, with every pause and slot over. */
  function Later(f: Fdl): int
    requires f.lastBusActivity.Some?
  {
    f.lastBusActivity.value + f.p.SlotTime() + f.p.SyncPause() + f.p.TokenLostTimeout() + 1
  }

  lemma ClaimSucceeds(p: Parameters, log: Log) returns (f: Fdl)
    requires Consistent(p)
    ensures Reaches(NewFdl(p, log), f) && IsScanning(f, p) && f.state == ClaimToken(Scan) && f.gap == DoPoll(p.address)
    ensures f.log.faults == log.faults
  {
    hide Reaches;
    var origin := NewFdl(p, log);
    NewStationIsReady(p, log, 0);
    ReachesItself(origin);
    ReachesThen(origin, origin, GoOnline);
    TimeoutIsPositive(p);
    assert Drain([]).deliveries == [];
    var listening := PollsAt(origin, SetOnline(origin), 0, []);
    assert listening.state == ListenToken(None, 0) && listening.lastBusActivity == Some(0);
    var claimed := PollsAt(origin, listening, Later(listening), []);
    assert claimed.state == ClaimToken(SecondToken);
    f := PollsAt(origin, claimed, Later(claimed), []);
  }

  /** The next address is polled when nobody has answered for a slot. */
  lemma ScanGoesOn(origin: Fdl, f: Fdl, p: Parameters) returns (g: Fdl)
    requires Reaches(origin, f) && IsScanning(f, p) && f.gap.DoPoll?
    requires f.state.step != FirstToken && f.state.step != SecondToken
    requires Ahead(p.highestStationAddress, f.gap.currentAddress, 1) != p.address
    ensures Reaches(origin, g) && IsScanning(g, p)
    ensures var next := Ahead(p.highestStationAddress, f.gap.currentAddress, 1);
            next >= 0 && g.state == ClaimToken(ScanAwaitResponse(next)) && g.gap == DoPoll(next)
    ensures g.log.faults == f.log.faults
  {
    hide Reaches;
    SlotCoversSyncPause(p);
    FaultsOfPoll(f, PollAt(Later(f), []).input);
    assert Parse([]).Incomplete?;
    g := PollsAt(origin, f, Later(f), []);
  }

  /** The scan reaches the address right before the own one. */
  lemma {:induction false} ScanReachesPredecessor(origin: Fdl, f: Fdl, p: Parameters, left: nat) returns (g: Fdl)
    requires Reaches(origin, f) && IsScanning(f, p) && f.state.step.ScanAwaitResponse? && f.gap.DoPoll?
    requires Ahead(p.highestStationAddress, f.gap.currentAddress, left + 1) == p.address
    requires left < p.highestStationAddress
    ensures Reaches(origin, g) && IsScanning(g, p) && g.state.step.ScanAwaitResponse? && g.gap.DoPoll?
    ensures Ahead(p.highestStationAddress, g.gap.currentAddress, 1) == p.address && g.log.faults == f.log.faults
    decreases left
  {
    hide Reaches;
    g := f;
    if left > 0 {
      g := ScanGoesOn(origin, f, p);
      g := ScanReachesPredecessor(origin, g, p, left - 1);
    }
  }

  // ---------------------------------------------------------------------------------------------
  // The three faults
  // ---------------------------------------------------------------------------------------------

  /** The first address behind the own one has been polled. */
  lemma FirstScanPoll(p: Parameters, log: Log) returns (f: Fdl)
    requires Consistent(p) && p.highestStationAddress >= 2
    ensures Reaches(NewFdl(p, log), f) && IsScanning(f, p) && f.gap.DoPoll? && f.log.faults == log.faults
    ensures var next := Ahead(p.highestStationAddress, p.address, 1);
            next != p.address && next >= 0 && f.gap == DoPoll(next) && f.state == ClaimToken(ScanAwaitResponse(next))
  {
    hide Reaches;
    f := ClaimSucceeds(p, log);
    f := ScanGoesOn(NewFdl(p, log), f, p);
  }

  /** The polled address answers that it wants the token, and the scan goes on from there. */
  lemma ScanFindsStation(origin: Fdl, f: Fdl, p: Parameters) returns (g: Fdl)
    requires Reaches(origin, f) && IsScanning(f, p)
    requires f.state.step.ScanAwaitResponse? && f.gap == DoPoll(f.state.step.address)
    requires f.gap.currentAddress != p.address
    ensures Reaches(origin, g) && Inv(g) && g.p == p && g.online && g.lastBusActivity.Some? && g.pendingBytes == 0
    ensures g.state == ClaimToken(Scan) && g.gap == f.gap && g.ring.ns == f.gap.currentAddress
    ensures g.log.faults == f.log.faults
  {
    hide Reaches, Encode, Parse;
    var a, now := f.gap.currentAddress, Later(f);
    var t := StatusResponse(p.address, a, MasterWithoutToken);
    var rx := Encode(t);
    RoundTrip(t, []);
    assert rx + [] == rx;
    SetNextMakesItNext(f.ring, a);
    FaultsOfPoll(f, PollAt(now, rx).input);
    g := PollsAt(origin, f, now, rx);
  }

  /** A short confirmation. */
  lemma ConfirmationArrives()
    ensures Parse([SC]) == Complete(ShortConfirmation, 1)
    ensures TakeFirst([SC]).telegram == Some(ShortConfirmation)
    ensures Drain([SC]).deliveries == [Delivery(ShortConfirmation, true)]
  {
  }

  /** Every station with another address to poll can come to poll itself: when the station right before it joins
      while it scans the GAP. */
  lemma SelfPollHappens(p: Parameters, log: Log) returns (g: Fdl)
    requires Consistent(p) && p.highestStationAddress >= 2
    ensures Reaches(NewFdl(p, log), g) && g.log.faults == log.faults + [SelfPoll]
  {
    hide Reaches;
    var origin, hsa := NewFdl(p, log), p.highestStationAddress;
    var f := FirstScanPoll(p, log);
    f := ScanReachesPredecessor(origin, f, p, hsa - 2);
    f := ScanFindsStation(origin, f, p);
    FaultsOfPoll(f, PollAt(Later(f), []).input);
    g := PollsAt(origin, f, Later(f), []);
  }

  /** Every such station can be interrupted while it scans the GAP. */
  lemma ClaimBackOffHappens(p: Parameters, log: Log) returns (g: Fdl)
    requires Consistent(p) && p.highestStationAddress >= 2
    ensures Reaches(NewFdl(p, log), g) && g.log.faults == log.faults + [ClaimBackOff]
  {
    hide Reaches;
    var f := FirstScanPoll(p, log);
    ConfirmationArrives();
    FaultsOfPoll(f, PollAt(Later(f), [SC]).input);
    g := PollsAt(NewFdl(p, log), f, Later(f), [SC]);
  }

  /** A station that has found its neighbour passes the token to it, and a short confirmation is the first thing
      it hears. */
  lemma NoSourceHappens(p: Parameters, log: Log) returns (g: Fdl)
    requires Consistent(p) && p.address + 2 < p.highestStationAddress
    ensures Reaches(NewFdl(p, log), g) && g.log.faults == log.faults + [NoSource]
  {
    hide Reaches;
    var origin := NewFdl(p, log);
    var f := FirstScanPoll(p, log);
    f := ScanFindsStation(origin, f, p);
    f := QuietPoll(origin, f);
    assert f.gap.Waiting? && f.state == ClaimToken(Scan);
    f := QuietPoll(origin, f);
    assert f.state == PassToken(false, Attempt.First);
    f := PassesToNext(origin, f);
    ConfirmationArrives();
    var now := f.lastBusActivity.value + 1;
    FaultsOfPoll(f, PollAt(now, [SC]).input);
    g := PollsAt(origin, f, now, [SC]);
  }

  /** A late poll with nothing received, in which no assertion fails. */
  lemma QuietPoll(origin: Fdl, f: Fdl) returns (g: Fdl)
    requires Reaches(origin, f) && Inv(f) && f.online && f.lastBusActivity.Some? && f.pendingBytes == 0
    requires f.state == ClaimToken(Scan) && (f.gap.DoPoll? ==> NextGapPoll(f, f.gap.currentAddress).Waiting?)
    ensures Reaches(origin, g) && Inv(g) && g.p == f.p && g.online && g.lastBusActivity.Some? && g.pendingBytes == 0
    ensures g.ring == f.ring && g.log.faults == f.log.faults
    ensures if f.gap.DoPoll? then g.gap.Waiting? && g.state == f.state
            else g.gap == f.gap && g.state == PassToken(false, Attempt.First)
  {
    hide Reaches;
    FaultsOfPoll(f, PollAt(Later(f), []).input);
    g := PollsAt(origin, f, Later(f), []);
    PollKeeps(f, PollAt(Later(f), []).input);
  }

  lemma PassesToNext(origin: Fdl, f: Fdl) returns (g: Fdl)
    requires Reaches(origin, f) && Inv(f) && f.online && f.lastBusActivity.Some? && f.pendingBytes == 0
    requires f.state == PassToken(false, Attempt.First) && f.ring.ns != f.p.address
    ensures Reaches(origin, g) && Inv(g) && g.p == f.p && g.online && g.lastBusActivity.Some? && g.pendingBytes == 0
    ensures g.state.CheckTokenPass? && g.log.faults == f.log.faults
  {
    hide Reaches;
    OwnPassAddsOnlyThisStation(f.ring);
    NextIgnoresSelf(f.ring.las, f.p.address);
    FaultsOfPoll(f, PollAt(Later(f), []).input);
    g := PollsAt(origin, f, Later(f), []);
    PollKeeps(f, PollAt(Later(f), []).input);
  }
}
