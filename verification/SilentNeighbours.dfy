/**
 A station whose neighbours have all gone: passing the token terminates.
 */
module SilentNeighbours {
  import opened BusParameters
  import opened CyclicOrder
  import opened Telegrams
  import opened TokenRings
  import opened Stations

  /** Whom the token is offered to when nobody answers: each other station three times, in cyclic
      order from this station on, and in the end this station itself. */
  ghost function Receivers(others: set<nat>, ts: nat): (r: seq<nat>)
    ensures |r| == 3 * |others| + 1
    decreases |others|
  {
    if others == {} then [ts]
    else
      var ns := Next(others, ts);
      [ns, ns, ns] + Receivers(others - {ns}, ts)
  }

  /** Everyone in the LAS but this station. */
  ghost function Others(f: Fdl): set<nat> {
    f.ring.las - {f.p.address}
  }

  /** The station is about to pass the token without polling the GAP, or has passed it and waits. */
  ghost predicate IsPassing(f: Fdl) {
    && Inv(f) && f.online && f.lastBusActivity.Some?
    && (f.state == PassToken(false, Attempt.First)
        || (f.state.CheckTokenPass? && f.p.address in f.ring.las && Others(f) != {}))
  }

  /** The receivers that are still to come. */
  ghost function Remaining(f: Fdl): (r: seq<nat>)
    requires IsPassing(f)
    ensures r != []
  {
    var others, ts := Others(f), f.p.address;
    match f.state
    case PassToken(_, _) => Receivers(others, ts)
    case CheckTokenPass(attempt) =>
      var later := Receivers(others - {f.ring.ns}, ts);
      match attempt
      case First => [f.ring.ns, f.ring.ns] + later
      case Second => [f.ring.ns] + later
      case Third => later
  }

  /** A poll that finds the bus silent. */
  function Silence(now: int, answers: seq<Option<Telegram>>): Input {
    Input(now, false, 0, [], answers)
  }

  lemma SendTokenToNext(f: Fdl, now: int)
    requires Inv(f) && f.state.PassToken?
    ensures var g := SendToken(f, now);
            && Inv(g) && g.online == f.online && g.lastBusActivity.Some?
            && g.p == f.p && g.nextApplication == f.nextApplication
            && g.log.sent == f.log.sent + [Transmission(now, Token(f.ring.ns, f.p.address))]
            && g.ring.las == f.ring.las + {f.p.address}
            && g.ring.ns == f.ring.ns
            && (Others(f) == {} ==>
                  f.ring.ns == f.p.address && g.state == UseToken(UseTokenData(now, None), false))
            && (Others(f) != {} ==>
                  f.ring.ns == Next(Others(f), f.p.address) && g.state == CheckTokenPass(f.state.attempt))
  {
    OwnPassAddsOnlyThisStation(f.ring);
    NextIgnoresSelf(f.ring.las, f.p.address);
    OperationsKeepWellFormed(f.ring, f.p.address, f.ring.ns, 0);
  }

  /** Giving up on the third attempt drops exactly the silent station. */
  lemma DropSilent(f: Fdl)
    requires Inv(f) && f.state == CheckTokenPass(Third) && f.p.address in f.ring.las && Others(f) != {}
    ensures var g := RetryPass(f);
            && Inv(g) && g.state == PassToken(false, Attempt.First)
            && Others(g) == Others(f) - {f.ring.ns} && f.ring.ns == Next(Others(f), f.p.address)
  {
    NextIgnoresSelf(f.ring.las, f.p.address);
    OperationsKeepWellFormed(f.ring, 0, 0, f.ring.ns);
    assert Remove(f.ring, f.ring.ns).las == f.ring.las - {f.ring.ns};
  }

  /** What a poll that is due boils down to. */
  ghost function AfterSilence(f: Fdl, now: int): Fdl
    requires IsPassing(f)
  {
    SendToken(if f.state.CheckTokenPass? then RetryPass(f) else f, now)
  }

  /** The poll comes when the pause is over, or after an expired slot when the token has been offered. */
  predicate IsDue(f: Fdl, now: int)
    requires f.lastBusActivity.Some?
  {
    if f.state.CheckTokenPass? then SlotExpired(f, now) else PauseOver(f, now)
  }

  /** A poll that is due transmits at once, and any other poll changes nothing. */
  lemma SilentPollSends(f: Fdl, now: int, answers: seq<Option<Telegram>>)
    requires IsPassing(f) && InputOk(f, Silence(now, answers))
    ensures Poll(f, Silence(now, answers)) == if IsDue(f, now) then AfterSilence(f, now) else f
  {
    SlotCoversSyncPause(f.p);
    if f.state == CheckTokenPass(Third) {
      DropSilent(f);
    }
  }

  /** `g` follows `f` by offering the token to the next receiver of the list. */
  ghost predicate OffersNext(f: Fdl, g: Fdl, now: int)
    requires IsPassing(f)
  {
    var remaining := Remaining(f);
    && g.log.sent == f.log.sent + [Transmission(now, Token(remaining[0] % 256, f.p.address))]
    && g.p == f.p && g.nextApplication == f.nextApplication
    && if |remaining| == 1 then Inv(g) && g.state.UseToken? && g.ring.las == {f.p.address}
       else IsPassing(g) && Remaining(g) == remaining[1..]
  }

  lemma FirstOffer(f: Fdl, now: int)
    requires IsPassing(f) && f.state.PassToken?
    ensures OffersNext(f, SendToken(f, now), now)
  {
    hide NeighboursAgree, FollowsIn, PrecedesIn, SendToken;
    SendTokenToNext(f, now);
    var others, ts, ns := Others(f), f.p.address, f.ring.ns;
    var g := SendToken(f, now);
    assert Others(g) == others;
    if others != {} {
      var later := Receivers(others - {ns}, ts);
      assert Remaining(f) == [ns, ns, ns] + later;
      assert Remaining(g) == [ns, ns] + later == Remaining(f)[1..];
    }
  }

  lemma RepeatedOffer(f: Fdl, now: int)
    requires IsPassing(f) && f.state.CheckTokenPass? && !f.state.attempt.Third?
    ensures OffersNext(f, AfterSilence(f, now), now)
  {
    hide NeighboursAgree, Next, Previous, SendToken, Consistent, Receivers;
    var h := RetryPass(f);
    SendTokenToNext(h, now);
    assert Others(SendToken(h, now)) == Others(f);
  }

  /** Each poll that is due offers the token to the next receiver of the list. */
  lemma SilentPollAdvances(f: Fdl, now: int)
    requires IsPassing(f)
    ensures OffersNext(f, AfterSilence(f, now), now)
  {
    if f.state.PassToken? {
      FirstOffer(f, now);
    } else if f.state.attempt.Third? {
      DropSilent(f);
      var h := RetryPass(f);
      assert IsPassing(h) && Remaining(h) == Remaining(f);
      FirstOffer(h, now);
    } else {
      RepeatedOffer(f, now);
    }
  }

  // ---------------------------------------------------------------------------------------------
  // The whole run
  // ---------------------------------------------------------------------------------------------

  /** Poll a station at the given times, until it has the token for itself. */
  ghost function PollInSilence(f: Fdl, times: seq<int>, answers: seq<Option<Telegram>>): Fdl
    requires InputOk(f, Silence(0, answers)) && (IsPassing(f) || f.state.UseToken?)
    decreases |times|
  {
    if times == [] || f.state.UseToken? then f
    else
      SilentPollAdvances(f, times[0]);
      SilentPollSends(f, times[0], answers);
      PollInSilence(Poll(f, Silence(times[0], answers)), times[1..], answers)
  }

  /** How many of these polls are due. */
  ghost function DuePolls(f: Fdl, times: seq<int>, answers: seq<Option<Telegram>>): nat
    requires InputOk(f, Silence(0, answers)) && (IsPassing(f) || f.state.UseToken?)
    decreases |times|
  {
    if times == [] || f.state.UseToken? then 0
    else
      SilentPollAdvances(f, times[0]);
      SilentPollSends(f, times[0], answers);
      DuePolls(Poll(f, Silence(times[0], answers)), times[1..], answers) + if IsDue(f, times[0]) then 1 else 0
  }

  /** The last telegrams of `sent` are tokens of `ts` for these receivers in this order. */
  ghost predicate TokensSent(sent: seq<Transmission>, receivers: seq<nat>, ts: nat) {
    && |receivers| <= |sent|
    && forall i | 0 <= i < |receivers| ::
         sent[|sent| - |receivers| + i].telegram == Token(receivers[i] % 256, ts % 256)
  }

  lemma TokensSentCons(sent: seq<Transmission>, receivers: seq<nat>, ts: nat)
    requires receivers != [] && |receivers| <= |sent| && TokensSent(sent, receivers[1..], ts)
    requires sent[|sent| - |receivers|].telegram == Token(receivers[0] % 256, ts % 256)
    ensures TokensSent(sent, receivers, ts)
  {
    forall i | 0 <= i < |receivers|
      ensures sent[|sent| - |receivers| + i].telegram == Token(receivers[i] % 256, ts % 256)
    {
      if i > 0 {
        assert receivers[i] == receivers[1..][i - 1];
      }
    }
  }

  /** After `m` more offers the token has gone to the first `m` of the receivers that were still to come. */
  ghost predicate HasOffered(f: Fdl, g: Fdl, m: nat)
    requires IsPassing(f)
  {
    var remaining := Remaining(f);
    && m <= |remaining| && f.log.sent <= g.log.sent && |g.log.sent| == |f.log.sent| + m
    && TokensSent(g.log.sent, remaining[..m], f.p.address)
    && if m == |remaining| then g.state.UseToken? && g.ring.las == {f.p.address}
       else IsPassing(g) && Remaining(g) == remaining[m..]
  }

  lemma PassingAddressFits(f: Fdl)
    requires IsPassing(f)
    ensures f.p.address <= 125
  {
  }

  lemma OfferThenMore(f: Fdl, g: Fdl, h: Fdl, now: int, m: nat)
    requires IsPassing(f) && OffersNext(f, g, now)
    requires if |Remaining(f)| == 1 then m == 0 && h == g else HasOffered(g, h, m)
    ensures HasOffered(f, h, m + 1)
  {
    hide IsPassing, Remaining;
    PassingAddressFits(f);
    var remaining := Remaining(f);
    assert g.log.sent[|f.log.sent|] == Transmission(now, Token(remaining[0] % 256, f.p.address));
    assert remaining[..m + 1][1..] == remaining[1..][..m];
    assert h.log.sent[|f.log.sent|] == g.log.sent[|f.log.sent|];
    TokensSentCons(h.log.sent, remaining[..m + 1], f.p.address);
    assert remaining[m + 1..] == remaining[1..][m..];
  }

  lemma {:induction false} DuePollsOffer(f: Fdl, times: seq<int>, answers: seq<Option<Telegram>>)
    requires InputOk(f, Silence(0, answers)) && IsPassing(f)
    ensures HasOffered(f, PollInSilence(f, times, answers), DuePolls(f, times, answers))
    decreases |times|
  {
    hide IsPassing, Remaining, HasOffered;
    if times == [] {
      NothingOffered(f);
    } else {
      var now, g := times[0], AfterSilence(f, times[0]);
      PassingDoesNotUse(f);
      SilentPollAdvances(f, now);
      SilentPollSends(f, now, answers);
      if !IsDue(f, now) {
        DuePollsOffer(f, times[1..], answers);
      } else if |Remaining(f)| == 1 {
        OfferThenMore(f, g, g, now, 0);
      } else {
        PassingDoesNotUse(g);
        DuePollsOffer(g, times[1..], answers);
        OfferThenMore(f, g, PollInSilence(g, times[1..], answers), now, DuePolls(g, times[1..], answers));
      }
    }
  }

  lemma PassingDoesNotUse(f: Fdl)
    requires IsPassing(f)
    ensures !f.state.UseToken? && f.lastBusActivity.Some?
  {
  }

  lemma NothingOffered(f: Fdl)
    requires IsPassing(f)
    ensures HasOffered(f, f, 0)
  {
    assert Remaining(f)[0..] == Remaining(f);
  }

  /** With `k` other stations in the LAS that never answer, a station that passes the token offers it to
      each of them exactly three times, in cyclic order, and drops each of them, whenever it is polled: the
      `m`-th poll that is due offers the token to the `m`-th receiver, and exactly after `3k + 1` of them the
      station holds the token in a ring of its own. */
  lemma SilentNeighboursAreDropped(f: Fdl, times: seq<int>, answers: seq<Option<Telegram>>)
    requires InputOk(f, Silence(0, answers)) && IsPassing(f) && f.state.PassToken?
    ensures var g, m := PollInSilence(f, times, answers), DuePolls(f, times, answers);
            && m <= 3 * |Others(f)| + 1 && |g.log.sent| == |f.log.sent| + m
            && TokensSent(g.log.sent, Receivers(Others(f), f.p.address)[..m], f.p.address)
            && (m == 3 * |Others(f)| + 1 ==> g.state.UseToken? && g.ring.las == {f.p.address})
            && (m < 3 * |Others(f)| + 1 ==> !g.state.UseToken?)
  {
    DuePollsOffer(f, times, answers);
  }
}
