/**
 How long the token needs to go around: each station holds it only as long as its rotation time
 allows, plus at most one message cycle, and therefore every rotation is bounded.
 */
module TokenRotation {
  import opened BusParameters
  import opened Telegrams
  import opened PhysicalLayer
  import opened Stations
  import opened StationInvariant
  import opened Scheduling

  // ---------------------------------------------------------------------------------------------
  // What one station does with the token
  // ---------------------------------------------------------------------------------------------

  /** A hold of the token that arrived at `time`, when the one before had arrived at `previous`: only
      the first telegram of the hold may begin later than a rotation time after `previous`.
      `first` is the index of the first telegram in the log. */
  ghost predicate HoldsByTheRule(f: Fdl, time: int, previous: int, first: nat) {
    && Holding(f) && f.state.data.tokenTime == time
    && first <= |f.log.sent|
    && (f.lastTokenTime == time ==> f.endTokenHoldTime <= previous + f.p.TokenRotationTime())
    && (f.lastTokenTime != time ==> f.lastTokenTime == previous && |f.log.sent| == first && f.state.UseToken?)
    && (|f.log.sent| > first && f.state.UseToken? ==> f.state.firstCycleDone)
    && (forall i | first < i < |f.log.sent| :: f.log.sent[i].at < previous + f.p.TokenRotationTime())
  }

  lemma {:induction false} AskingTransmitsOnce(f: Fdl, now: int, answers: seq<Option<Telegram>>, high: bool, asks: nat)
    requires f.state.UseToken? && (|answers| > 0 ==> f.nextApplication < |answers|)
    ensures var (g, transmitted) := AskApplications(f, now, answers, high, asks);
            && g.p == f.p && g.lastTokenTime == f.lastTokenTime && g.endTokenHoldTime == f.endTokenHoldTime
            && Holding(g) && g.state.data.tokenTime == f.state.data.tokenTime
            && (g.state.UseToken? ==> g.state.firstCycleDone == f.state.firstCycleDone)
            && if transmitted then
                 |g.log.sent| == |f.log.sent| + 1 && f.log.sent <= g.log.sent && g.log.sent[|f.log.sent|].at == now
               else g.log.sent == f.log.sent
    decreases asks
  {
    if asks > 0 && answers != [] && answers[f.nextApplication].None? {
      AskingTransmitsOnce(Decline(f, high, |answers|), now, answers, high, asks - 1);
    }
  }

  lemma StartingFollowsTheRule(f: Fdl, now: int, time: int, previous: int, first: nat)
    requires HoldsByTheRule(f, time, previous, first) && f.state.UseToken?
    ensures var g := Touch(StartHold(f), now);
            && HoldsByTheRule(g, time, previous, first) && g.lastTokenTime == time
            && g.log == f.log && g.p == f.p && g.state == f.state
  {
  }

  lemma AskingFollowsTheRule(f: Fdl, now: int, answers: seq<Option<Telegram>>, time: int, previous: int, first: nat)
    requires HoldsByTheRule(f, time, previous, first) && f.state.UseToken? && f.lastTokenTime == time
    requires |answers| > 0 ==> f.nextApplication < |answers|
    requires now < f.endTokenHoldTime || !f.state.firstCycleDone
    ensures var g := AskThenRelease(f.(state := UseToken(f.state.data, true)), now, answers, now >= f.endTokenHoldTime);
            g.state.PassToken? || HoldsByTheRule(g, time, previous, first)
  {
    AskingTransmitsOnce(f.(state := UseToken(f.state.data, true)), now, answers, now >= f.endTokenHoldTime, |answers|);
  }

  lemma UsingFollowsTheRule(f: Fdl, now: int, answers: seq<Option<Telegram>>, time: int, previous: int, first: nat)
    requires HoldsByTheRule(f, time, previous, first) && f.state.UseToken?
    requires |answers| > 0 ==> f.nextApplication < |answers|
    ensures var g := DoUseToken(f, now, answers); g.state.PassToken? || HoldsByTheRule(g, time, previous, first)
  {
    var g := Touch(StartHold(f), now);
    StartingFollowsTheRule(f, now, time, previous, first);
    UsingIsAskThenRelease(f, now, answers);
    if PauseOver(g, now) && (now < g.endTokenHoldTime || !g.state.firstCycleDone) {
      AskingFollowsTheRule(g, now, answers, time, previous, first);
    }
  }

  /** Every poll during a hold follows the rule, until the token is released or lost. */
  lemma PollFollowsTheRule(f: Fdl, input: Input, time: int, previous: int, first: nat)
    requires Ready(f, |input.answers|) && InputOk(f, input) && f.online && HoldsByTheRule(f, time, previous, first)
    ensures var g := Poll(f, input);
            HoldsByTheRule(g, time, previous, first) || g.state.PassToken? || g.state.ActiveIdle?
  {
    if !(input.phyBusy || Transmitting(f, input.now)) {
      var h := CheckForBusActivity(f, input.now, input.counted);
      if h.state.UseToken? {
        UsingFollowsTheRule(h, input.now, input.answers, time, previous, first);
      } else {
        AwaitingFollowsTheRule(h, input.now, input.rx, input.answers, time, previous, first);
      }
    }
  }

  lemma AwaitingFollowsTheRule(f: Fdl, now: int, rx: seq<Byte>, answers: seq<Option<Telegram>>,
                               time: int, previous: int, first: nat)
    requires HoldsByTheRule(f, time, previous, first) && f.state.AwaitDataResponse?
    requires |answers| > 0 ==> f.nextApplication < |answers|
    ensures var g := DoAwaitDataResponse(f, now, rx, answers);
            HoldsByTheRule(g, time, previous, first) || g.state.PassToken? || g.state.ActiveIdle?
  {
    var g := Touch(f, now);
    if TakeFirst(rx).telegram.None? && SlotExpired(g, now) {
      var h := GiveUpOnReply(g);
      UsingFollowsTheRule(h, now, answers, time, previous, first);
    }
  }

  /** A token that has just arrived begins a new hold. */
  lemma NewHoldFollowsTheRule(f: Fdl, now: int)
    requires f.state.PassToken? || f.state.ActiveIdle?
    requires f.lastTokenTime != now
    ensures var g := TakeToken(f, now); HoldsByTheRule(g, now, f.lastTokenTime, |g.log.sent|)
  {
  }

  /** The station keeps the same token throughout these polls. */
  ghost predicate KeepsHolding(f: Fdl, inputs: seq<Input>, n: nat)
    requires Ready(f, n) && Continues(f, inputs, n)
    decreases |inputs|
  {
    inputs != [] ==>
      (PollKeeps(f, inputs[0]);
       Holding(Poll(f, inputs[0])) && KeepsHolding(Poll(f, inputs[0]), inputs[1..], n))
  }

  /** Over all polls of a hold, every telegram but the first begins before the rotation time since the
      previous arrival of the token is over. */
  lemma {:induction false} WholeHoldFollowsTheRule(f: Fdl, inputs: seq<Input>, n: nat,
                                                   time: int, previous: int, first: nat)
    requires Ready(f, n) && f.online && Continues(f, inputs, n) && KeepsHolding(f, inputs, n)
    requires HoldsByTheRule(f, time, previous, first)
    ensures HoldsByTheRule(PollAll(f, inputs, n), time, previous, first)
    decreases |inputs|
  {
    if inputs != [] {
      PollKeeps(f, inputs[0]);
      PollFollowsTheRule(f, inputs[0], time, previous, first);
      WholeHoldFollowsTheRule(Poll(f, inputs[0]), inputs[1..], n, time, previous, first);
    }
  }

  // ---------------------------------------------------------------------------------------------
  // What this means for the whole ring
  // ---------------------------------------------------------------------------------------------

  /** The message cycles of a hold begin at the times `starts`; the first one begins within `latency`
      after the arrival, every other one before the hold time is over, and each one ends, together
      with passing on the token at the end, within `cycle`. */
  ghost predicate HoldTimes(arrival: int, holdEnd: int, starts: seq<int>, next: int, latency: nat, cycle: nat) {
    if starts == [] then next <= arrival + latency + cycle
    else
      && starts[0] <= arrival + latency
      && (forall i | 0 < i < |starts| :: starts[i] < holdEnd)
      && next <= starts[|starts| - 1] + cycle
  }

  lemma HoldIsBounded(arrival: int, holdEnd: int, starts: seq<int>, next: int, latency: nat, cycle: nat)
    requires HoldTimes(arrival, holdEnd, starts, next, latency, cycle)
    ensures next <= Max(arrival, holdEnd) + latency + cycle
  {
    if |starts| > 1 {
      assert starts[|starts| - 1] < holdEnd;
    }
  }

  /** The token arrives at one station after the other, in a ring of `n` stations; `ttr` after its last
      arrival at a station that station lets go of it, at most `c` late. */
  ghost predicate FollowsHoldRule(arrivals: seq<int>, n: nat, ttr: nat, c: nat) {
    && (forall k | 0 <= k < |arrivals| - 1 :: arrivals[k] <= arrivals[k + 1])
    && (forall k | n <= k < |arrivals| - 1 :: arrivals[k + 1] <= Max(arrivals[k], arrivals[k - n] + ttr) + c)
  }

  lemma {:induction false} ArrivalsAreOrdered(arrivals: seq<int>, n: nat, ttr: nat, c: nat, i: nat, j: nat)
    requires FollowsHoldRule(arrivals, n, ttr, c) && i <= j < |arrivals|
    ensures arrivals[i] <= arrivals[j]
    decreases j
  {
    if i < j {
      ArrivalsAreOrdered(arrivals, n, ttr, c, i, j - 1);
    }
  }

  function Times(m: nat, c: nat): nat {
    if m == 0 then 0 else Times(m - 1, c) + c
  }

  lemma {:induction false} TimesIsProduct(m: nat, c: nat)
    ensures Times(m, c) == m * c
  {
    if m > 0 {
      TimesIsProduct(m - 1, c);
    }
  }

  lemma {:induction false} RotationSoFar(arrivals: seq<int>, n: nat, ttr: nat, c: nat, i: nat, m: nat)
    requires FollowsHoldRule(arrivals, n, ttr, c) && n <= i && m <= n && i + m < |arrivals|
    ensures arrivals[i + m] <= arrivals[i] + ttr + Times(m, c)
  {
    if m > 0 {
      RotationSoFar(arrivals, n, ttr, c, i, m - 1);
      ArrivalsAreOrdered(arrivals, n, ttr, c, i + m - 1 - n, i);
    }
  }

  /** In a ring of `n` stations that follow the hold rule, every rotation of the token takes at most the
      target rotation time and one cycle per station. */
  lemma RotationIsBounded(arrivals: seq<int>, n: nat, ttr: nat, c: nat, i: nat)
    requires FollowsHoldRule(arrivals, n, ttr, c) && n <= i && i + n < |arrivals|
    ensures arrivals[i + n] - arrivals[i] <= ttr + n * c
  {
    RotationSoFar(arrivals, n, ttr, c, i, n);
    TimesIsProduct(n, c);
  }

  /** The same from the times at which the message cycles of all holds begin. */
  lemma RotationOfHoldsIsBounded(arrivals: seq<int>, starts: seq<seq<int>>, n: nat, ttr: nat,
                                 latency: nat, cycle: nat, i: nat)
    requires |starts| == |arrivals| && n <= i && i + n < |arrivals|
    requires forall k | 0 <= k < |arrivals| - 1 :: arrivals[k] <= arrivals[k + 1]
    requires forall k | n <= k < |arrivals| - 1 ::
               HoldTimes(arrivals[k], arrivals[k - n] + ttr, starts[k], arrivals[k + 1], latency, cycle)
    ensures arrivals[i + n] - arrivals[i] <= ttr + n * (latency + cycle)
  {
    forall k | n <= k < |arrivals| - 1
      ensures arrivals[k + 1] <= Max(arrivals[k], arrivals[k - n] + ttr) + (latency + cycle)
    {
      HoldIsBounded(arrivals[k], arrivals[k - n] + ttr, starts[k], arrivals[k + 1], latency, cycle);
    }
    RotationIsBounded(arrivals, n, ttr, latency + cycle, i);
  }

  /** When the telegrams of a hold began. */
  function StartsOf(f: Fdl, first: nat): seq<int>
    requires first <= |f.log.sent|
  {
    seq(|f.log.sent| - first, i requires 0 <= i < |f.log.sent| - first => f.log.sent[first + i].at)
  }
}
