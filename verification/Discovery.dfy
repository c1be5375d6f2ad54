/**
 What a station finds out about the ring, over whole runs of polls: whom it takes for active, and when it says that it
 is ready for the token.
 */
module Discovery {
  import opened BusParameters
  import opened CyclicOrder
  import opened Telegrams
  import opened PhysicalLayer
  import opened TokenRings
  import opened Stabilisation
  import opened Stations
  import opened StationInvariant
  import opened BusDiscipline
  import opened Buses
  import opened PollDecisions

  // ---------------------------------------------------------------------------------------------
  // Listening to a ring
  // ---------------------------------------------------------------------------------------------

  /** The station is polled with one token pass of the ring `s` after the other, the first one sent by `x`. */
  ghost predicate HearsRing(f: Fdl, s: set<nat>, x: nat, inputs: seq<Input>, n: nat)
    requires Ready(f, n) && IsRing(s) && x in s
    decreases |inputs|
  {
    inputs != [] ==>
      && |inputs[0].answers| == n && JustReceived(f, inputs[0], Token(Next(s, x), x))
      && (PollKeeps(f, inputs[0]); HearsRing(Poll(f, inputs[0]), s, Next(s, x), inputs[1..], n))
  }

  lemma ListenerHearsPass(f: Fdl, input: Input, da: Byte, sa: Byte)
    requires JustReceived(f, input, Token(da, sa)) && f.state == ListenToken(None, 0) && sa != f.p.address
    ensures var g := Poll(f, input);
            && g.ring == Witness(f.ring, sa, da) && g.state == f.state && g.online && g.log == f.log && g.p == f.p
            && g.lastBusActivity.Some?
  {
    hide WellFormed, AllBelow, Consistent, Encode, Parse, Witness;
    DrainSingle(Token(da, sa));
    TimeoutIsPositive(f.p);
    ListeningToOne(CheckForBusActivity(f, input.now, input.counted), input.now, Token(da, sa));
  }

  /** A listener that hears a ring takes the passes one by one. */
  lemma {:induction false} ListenerTakesPasses(f: Fdl, s: set<nat>, x: nat, inputs: seq<Input>, n: nat)
    requires Ready(f, n) && IsRing(s) && x in s && HearsRing(f, s, x, inputs, n)
    requires f.online && f.state == ListenToken(None, 0) && f.p.address !in s
    ensures Continues(f, inputs, n)
    ensures var g := PollAll(f, inputs, n);
            && g.ring == Feed(f.ring, s, x, |inputs|) && g.state == f.state && g.online && g.log == f.log && g.p == f.p
    decreases |inputs|
  {
    hide Inv, Poll, Witness, FollowsIn, InArc;
    if inputs != [] {
      var g := Poll(f, inputs[0]);
      PollKeeps(f, inputs[0]);
      ListenerHearsPass(f, inputs[0], Next(s, x), x);
      ListenerTakesPasses(g, s, Next(s, x), inputs[1..], n);
    }
  }

  /** From the third wrap-around on the LAS is the ring. */
  lemma ThirdWrapIsEnough(r: RingView, s: set<nat>, x: nat, k: nat)
    requires WellFormed(r) && IsRing(s) && x in s && k >= 3 * |s| - Rank(s, x)
    ensures Feed(r, s, x, k).las == s && Feed(r, s, x, k).ps == Previous(s, r.ts)
  {
    hide FollowsIn, PrecedesIn;
    StagesAdvance(0, r, s, x, k);
    FeedKeepsStation(r, s, x, k);
  }

  /** A listener that has just begun hears these passes of a ring that it is not in. */
  ghost predicate BeginsToListen(f: Fdl, s: set<nat>, x: nat, passes: seq<Input>, n: nat) {
    && Ready(f, n) && IsRing(s) && x in s && HearsRing(f, s, x, passes, n)
    && f.online && f.state == ListenToken(None, 0) && f.p.address !in s && f.ring.lasState == Uninitialized
  }

  ghost function AfterPasses(f: Fdl, s: set<nat>, x: nat, passes: seq<Input>, n: nat): (g: Fdl)
    requires BeginsToListen(f, s, x, passes, n)
    ensures Inv(g)
  {
    ListenerTakesPasses(f, s, x, passes, n);
    PollAllKeeps(f, passes, n);
    PollAll(f, passes, n)
  }

  lemma {:induction false} PollAllKeeps(f: Fdl, inputs: seq<Input>, n: nat)
    requires Ready(f, n) && Continues(f, inputs, n)
    ensures Ready(PollAll(f, inputs, n), n)
    decreases |inputs|
  {
    if inputs != [] {
      PollKeeps(f, inputs[0]);
      PollAllKeeps(Poll(f, inputs[0]), inputs[1..], n);
    }
  }

  /** The status request of `y` arrives, and the next poll `turn` comes when the pause is over and the token does not
      count as lost. */
  ghost predicate IsAsked(f: Fdl, y: Byte, ask: Input, turn: Input)
    requires Inv(f)
  {
    && JustReceived(f, ask, Data(Header(f.p.address % 256, y, None, None, Request(Inactive, FdlStatus)), []))
    && var g := Poll(f, ask);
       Acts(g, turn) && SilenceToSend(g.p) < SilentFor(g, turn) < SilenceToClaim(g.p)
  }

  /** A listener that begins with an empty LAS, hears passes of a ring, and is then asked for its status by a member,
      answers that it is ready for the token if and only if the token has wrapped around three times and its
      predecessor in the ring has asked.  It enters the ring if and only if the token has wrapped around three times,
      and then its LAS is the ring. */
  lemma ReadyExactlyAtThirdWrap(f: Fdl, s: set<nat>, x: nat, passes: seq<Input>, y: Byte, ask: Input, turn: Input,
                                n: nat)
    requires BeginsToListen(f, s, x, passes, n) && y in s && IsAsked(AfterPasses(f, s, x, passes, n), y, ask, turn)
    ensures var g := Poll(AfterPasses(f, s, x, passes, n), ask);
            var h := Poll(g, turn);
            var third := |passes| >= 3 * |s| - Rank(s, x);
            var state := if third && y == Previous(s, f.p.address) then MasterWithoutToken else MasterNotReady;
            && f.p.address < 256
            && h.log.sent == f.log.sent +
                 [Transmission(turn.now, Data(Header(y, f.p.address, None, None, Response(state, Ok)), []))]
            && h.state == (if third then ActiveIdle(None, None, 0) else ListenToken(None, 0))
            && (third ==> h.ring.las == s)
  {
    hide WellFormed, Poll, Feed, FollowsIn, PrecedesIn, HearsRing, SilentFor, SilenceToSend, SilenceToClaim;
    ListenerTakesPasses(f, s, x, passes, n);
    ValidExactlyAtThirdWrap(f.ring, s, x, |passes|);
    if |passes| >= 3 * |s| - Rank(s, x) {
      ThirdWrapIsEnough(f.ring, s, x, |passes|);
    }
    var g := AfterPasses(f, s, x, passes, n);
    OwesAnswerExactly(g, ask, Data(Header(g.p.address % 256, y, None, None, Request(Inactive, FdlStatus)), []));
    ListenerAnswersExactly(Poll(g, ask), turn);
  }

  // ---------------------------------------------------------------------------------------------
  // Never ready too early, whatever is received
  // ---------------------------------------------------------------------------------------------

  /** How many of these telegrams are token passes with which a token wraps around. */
  function Wraps(ds: seq<Delivery>): nat {
    if ds == [] then 0
    else
      var t := ds[0].telegram;
      (if t.Token? && t.da <= t.sa <= 125 then 1 else 0) + Wraps(ds[1..])
  }

  /** How many the station may have heard during these polls. */
  function WrapsHeard(inputs: seq<Input>): nat {
    if inputs == [] then 0 else Wraps(Drain(inputs[0].rx).deliveries) + WrapsHeard(inputs[1..])
  }

  /** How many wraps a discovery state stands for. */
  function WrapsOf(state: LasState): nat {
    match state
    case Uninitialized => 0
    case Discovery => 1
    case Verification => 2
    case Valid => 3
  }

  /** The station has claimed the token. */
  ghost predicate HasClaimed(f: Fdl) {
    exists i | 0 <= i < |f.log.sent| :: f.log.sent[i].telegram == Token(f.p.address % 256, f.p.address % 256)
  }

  /** Everything that the station has sent says that it is not ready for the token. */
  ghost predicate NeverReady(f: Fdl) {
    forall i | 0 <= i < |f.log.sent| ::
      var t := f.log.sent[i].telegram; t.Data? && t.h.fc == Response(MasterNotReady, Ok)
  }

  /** With at most this many wraps heard and no claim, the station only listens and has never said that it is ready. */
  ghost predicate Unready(f: Fdl, wraps: nat) {
    wraps < 3 && !HasClaimed(f) ==>
      (f.state.Offline? || f.state.ListenToken?) && WrapsOf(f.ring.lasState) <= wraps && NeverReady(f)
  }

  lemma WitnessCountsWraps(r: RingView, sa: nat, da: nat)
    ensures WrapsOf(Witness(r, sa, da).lasState)
            <= WrapsOf(r.lasState) + if da <= sa <= 125 then 1 else 0
  {
  }

  lemma {:induction false} ListeningCountsWraps(f: Fdl, now: int, ds: seq<Delivery>)
    requires f.online ==> f.state.ListenToken?
    ensures var g := ListenToAll(f, now, ds);
            (g.online ==> f.online && WrapsOf(g.ring.lasState) <= WrapsOf(f.ring.lasState) + Wraps(ds))
    decreases |ds|
  {
    hide Witness;
    if ds != [] {
      var g := ListenTo(f, now, ds[0]);
      if ds[0].telegram.Token? {
        WitnessCountsWraps(f.ring, ds[0].telegram.sa, ds[0].telegram.da);
      }
      ListeningCountsWraps(g, now, ds[1..]);
    }
  }

  lemma ListenerStaysUnready(f: Fdl, input: Input, wraps: nat)
    requires Acts(f, input) && f.state.ListenToken? && Unready(f, wraps) && Poll(f, input).online
    ensures Unready(Poll(f, input), wraps + Wraps(Drain(input.rx).deliveries))
  {
    hide Inv, Poll, SilentFor, SilenceToClaim, Wraps, HasClaimed, NeverReady;
    SentGrows(f, Poll(f, input), input);
    if wraps < 3 && !HasClaimed(f) {
      if SilentFor(f, input) >= SilenceToClaim(f.p) {
        ListenerClaims(f, input);
      } else if f.state.statusRequest.Some? {
        ListenerRefuses(f, input);
      } else {
        ListenerLearns(f, input);
      }
      SameSentSameHistory(f, Poll(f, input));
    }
  }

  lemma SameSentSameHistory(f: Fdl, g: Fdl)
    ensures f.log == g.log && f.p == g.p ==> HasClaimed(f) == HasClaimed(g) && NeverReady(f) == NeverReady(g)
  {
  }

  lemma ListenerClaims(f: Fdl, input: Input)
    requires Acts(f, input) && f.state.ListenToken? && SilentFor(f, input) >= SilenceToClaim(f.p)
    ensures HasClaimed(Poll(f, input))
  {
    hide WellFormed, AllBelow, Poll, SilentFor, SilenceToClaim;
    ClaimsExactly(f, input);
    SentGrows(f, Poll(f, input), input);
    assert Poll(f, input).log.sent[|f.log.sent|].telegram == Token(f.p.address, f.p.address);
  }

  lemma ListenerRefuses(f: Fdl, input: Input)
    requires Acts(f, input) && f.state.ListenToken? && f.state.statusRequest.Some?
    requires SilentFor(f, input) < SilenceToClaim(f.p) && f.ring.lasState != LasState.Valid && NeverReady(f)
    ensures var g := Poll(f, input); g.state.ListenToken? && g.ring == f.ring && NeverReady(g)
  {
    hide WellFormed, AllBelow, Poll, SilentFor, SilenceToClaim;
    ListenerAnswersExactly(f, input);
  }

  lemma ListenerLearns(f: Fdl, input: Input)
    requires Acts(f, input) && f.state.ListenToken? && f.state.statusRequest.None? && Poll(f, input).online
    requires SilentFor(f, input) < SilenceToClaim(f.p)
    ensures var g := Poll(f, input);
            && g.state.ListenToken? && g.log == f.log
            && WrapsOf(g.ring.lasState) <= WrapsOf(f.ring.lasState) + Wraps(Drain(input.rx).deliveries)
  {
    hide WellFormed, AllBelow, Consistent, SilenceToClaim, SilenceToSend, Wraps;
    SilencesAreOrdered(f.p);
    var h, ds := Touch(CheckForBusActivity(f, input.now, input.counted), input.now), Drain(input.rx).deliveries;
    ListeningCountsWraps(h, input.now, ds);
    ListeningClaimsNothing(h, input.now, ds);
    ListenToAllIsSilent(h, input.now, ds);
  }

  /** What was sent stays in the log. */
  lemma SentGrows(f: Fdl, g: Fdl, input: Input)
    requires Inv(f) && InputOk(f, input) && g == Poll(f, input)
    ensures g.p == f.p && f.log.sent <= g.log.sent && (HasClaimed(f) ==> HasClaimed(g))
  {
    hide Inv, InputOk, Poll;
    PollIsDisciplined(f, input);
  }

  lemma PollStaysUnready(f: Fdl, input: Input, wraps: nat)
    requires Inv(f) && f.online && InputOk(f, input) && Unready(f, wraps) && Poll(f, input).online
    ensures Unready(Poll(f, input), wraps + Wraps(Drain(input.rx).deliveries))
    decreases f.state.Offline?
  {
    hide WellFormed, AllBelow, Consistent, Wraps, Poll;
    if f.state.Offline? {
      OnlineStationListens(f, input);
      PollStaysUnready(f.(state := ListenToken(None, 0)), input, wraps);
    } else if input.phyBusy || (f.lastBusActivity.Some? && input.now <= f.lastBusActivity.value) {
      TransmittingWaits(f, input);
    } else if f.state.ListenToken? {
      ListenerStaysUnready(f, input, wraps);
    } else {
      SentGrows(f, Poll(f, input), input);
    }
  }

  lemma {:induction false} RunStaysUnready(f: Fdl, inputs: seq<Input>, n: nat, wraps: nat)
    requires Ready(f, n) && f.online && Continues(f, inputs, n) && Unready(f, wraps)
    ensures Unready(PollAll(f, inputs, n), wraps + WrapsHeard(inputs))
    decreases |inputs|
  {
    hide Inv, Poll, Unready, Wraps;
    if inputs != [] {
      PollKeeps(f, inputs[0]);
      PollStaysUnready(f, inputs[0], wraps);
      RunStaysUnready(Poll(f, inputs[0]), inputs[1..], n, wraps + Wraps(Drain(inputs[0].rx).deliveries));
    }
  }

  /** In every run of a new station, whatever it receives: as long as it has heard less than three wrap-arounds and has
      not claimed the token itself, it is not in the ring, its LAS is not valid, and all that it has ever sent are
      answers that it is not ready for the token. */
  lemma NeverReadyBeforeThirdWrap(p: Parameters, inputs: seq<Input>, n: nat)
    requires Consistent(p) && Ready(NewOnline(p), n) && Continues(NewOnline(p), inputs, n) && WrapsHeard(inputs) < 3
    ensures var g := PollAll(NewOnline(p), inputs, n);
            HasClaimed(g) ||
            (&& (g.state.Offline? || g.state.ListenToken?) && g.ring.lasState != LasState.Valid
             && forall i | 0 <= i < |g.log.sent| ::
                  var t := g.log.sent[i].telegram; t.Data? && t.h.fc == Response(MasterNotReady, Ok))
  {
    RunStaysUnready(NewOnline(p), inputs, n, 0);
  }

  /** A new station that has been told to go online. */
  function NewOnline(p: Parameters): Fdl {
    SetOnline(NewFdl(p, Log([], [], [])))
  }
}
