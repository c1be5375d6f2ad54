/**
 Exactly when a ring is stable.

 A station that adopts an answering station as its next one forgets everyone in between.  That is harmless as long
 as nobody but a newcomer is asked; a GAP sweep that meets a member of the ring breaks it.
 */
module RingStability {
  import opened BusParameters
  import opened CyclicOrder
  import opened Telegrams
  import opened PhysicalLayer
  import opened TokenRings
  import opened Stabilisation
  import opened Stations
  import opened BusDiscipline
  import opened GapSweep
  import opened Buses
  import opened TokenBus

  // ---------------------------------------------------------------------------------------------
  // Late polls
  // ---------------------------------------------------------------------------------------------

  /** A poll after the pause and the slot are over; nothing has arrived, and no application has anything to send. */
  function LateInput(f: Fdl): Input {
    var last := if f.lastBusActivity.Some? then f.lastBusActivity.value else 0;
    Input(last + f.p.SlotTime() + 1, false, 0, [], [])
  }

  /** The next poll of the holder takes its GAP sweep one step further. */
  predicate DoesGap(f: Fdl) {
    f.state.PassToken? && f.state.doGap && f.lastBusActivity.Some?
  }

  /** How much a holder still does before it passes the token on; at least 2 when a GAP step is ahead. */
  function Work(f: Fdl): nat {
    (if f.state.UseToken? || f.state.AwaitDataResponse? then 4
     else if f.state.PassToken? && f.state.doGap then 2 else 0)
    + if f.lastBusActivity.None? then 1 else 0
  }

  /** What passing the token on transmits when the pause is over. */
  lemma PassesOrPolls(f: Fdl, x: nat, s: set<nat>, now: int)
    requires Knows(f, x, s) && f.state.PassToken? && f.lastBusActivity.Some? && PauseOver(f, now)
    ensures var g, n := DoPassToken(f, now), |f.log.sent|;
            && |g.log.sent| == n + 1 && g.gap == (if f.state.doGap then AdvanceGap(f).gap else f.gap)
            && var t := g.log.sent[n].telegram;
               if f.state.doGap && g.gap.DoPoll? then
                 && g.state == AwaitStatusResponse(g.gap.currentAddress) && g.lastBusActivity.Some?
                 && t == StatusRequest(g.gap.currentAddress % 256, x % 256)
               else t.Token? && !g.state.AwaitStatusResponse?
  {
    hide WellFormed, AllBelow, Consistent, Witness;
    AdvanceGapStaysSane(f);
  }

  lemma PassWaits(f: Fdl, now: int)
    requires Sane(f) && f.state.PassToken? && f.lastBusActivity.None?
    ensures DoPassToken(f, now) == Touch(f, now)
  {
  }

  /** A late poll of the holder either leaves it with less to do or passes the token on. */
  lemma LatePoll(f: Fdl, x: nat, s: set<nat>)
    requires Knows(f, x, s) && HasToken(f)
    ensures InputOk(f, LateInput(f)) && Undisturbed(f, LateInput(f), s)
    ensures var g, t := Poll(f, LateInput(f)), Sends(f, LateInput(f));
            && g.gap == (if DoesGap(f) then AdvanceGap(f).gap else f.gap)
            && (DoesGap(f) && g.gap.DoPoll? ==>
                  && g.state == AwaitStatusResponse(g.gap.currentAddress)
                  && t == Some(StatusRequest(g.gap.currentAddress % 256, x % 256)))
            && (t.None? || !t.value.Token? ==> Work(g) < Work(f))
            && (Work(f) >= 2 && !DoesGap(f) ==> t.None? && Work(g) >= 2)
            && (AsksMember(g, s) ==> AsksMember(f, s) || (DoesGap(f) && g.gap.DoPoll?))
  {
    hide WellFormed, AllBelow, Consistent, DoPassToken;
    var input := LateInput(f);
    PollIsDisciplined(f, input);
    SlotCoversSyncPause(f.p);
    assert TakeFirst([]).telegram.None?;
    if f.lastBusActivity.Some? {
      match f.state
      case PassToken(_, _) => PassesOrPolls(f, x, s, input.now);
      case AwaitStatusResponse(_) => PassesOrPolls(ToPassToken(f, false, Attempt.First), x, s, input.now);
      case _ =>
    } else if f.state.PassToken? {
      PassWaits(f, input.now);
    }
  }

  // ---------------------------------------------------------------------------------------------
  // A sweep that is not clear
  // ---------------------------------------------------------------------------------------------

  /** The address that the sweep polls next. */
  function Cursor(f: Fdl): nat {
    if f.gap.DoPoll? && NextGapPoll(f, f.gap.currentAddress).DoPoll? then
      NextGapPoll(f, f.gap.currentAddress).currentAddress
    else 0
  }

  ghost function From(s: set<nat>, least: nat): set<nat> {
    set y | y in s && least <= y
  }

  /** The first station of the ring at which the sweep arrives. */
  ghost function Target(f: Fdl, s: set<nat>): nat {
    var ahead := From(s, Cursor(f));
    if ahead == {} then 0 else Least(ahead)
  }

  /** How far the sweep has to go until it asks that station. */
  ghost function Way(f: Fdl, s: set<nat>): int {
    Target(f, s) - Cursor(f)
  }

  /** A sweep that is not clear runs from below this station up to another member. */
  lemma UnclearSweep(f: Fdl, x: nat, s: set<nat>)
    requires Knows(f, x, s) && !Clear(f, s)
    ensures f.gap.DoPoll? && AdvanceGap(f).gap == DoPoll(Cursor(f))
    ensures Target(f, s) in s && Cursor(f) <= Target(f, s) < x < Next(s, x)
    ensures forall y | y in s && Cursor(f) <= y :: Target(f, s) <= y
  {
    NeighboursOfKnowing(f, x, s);
    var y :| y in s && InArc(Cursor(f), f.ring.ns, y) && y != x;
    assert forall z | z in s && Cursor(f) <= z :: z in From(s, Cursor(f));
  }

  lemma TargetIsLeast(f: Fdl, s: set<nat>, y: nat)
    requires y in s && Cursor(f) <= y && forall z | z in s && Cursor(f) <= z :: y <= z
    ensures Target(f, s) == y
  {
    assert y in From(s, Cursor(f));
  }

  /** Its next step either asks the target or brings it closer to the same target. */
  lemma UnclearStep(f: Fdl, g: Fdl, x: nat, s: set<nat>)
    requires Knows(f, x, s) && Knows(g, x, s) && !Clear(f, s) && g.p == f.p && g.gap == AdvanceGap(f).gap
    ensures g.gap == DoPoll(Cursor(f))
    ensures Cursor(f) !in s ==> !Clear(g, s) && Target(g, s) == Target(f, s) && Cursor(g) == Cursor(f) + 1
    ensures Cursor(f) in s ==> Cursor(f) == Target(f, s)
  {
    NeighboursOfKnowing(f, x, s);
    NeighboursOfKnowing(g, x, s);
    UnclearSweep(f, x, s);
    if Cursor(f) !in s {
      assert Cursor(g) == Cursor(f) + 1;
      TargetIsLeast(g, s, Target(f, s));
    }
  }

  /** A step that asks no member changes neither whether the sweep is clear nor its target. */
  lemma SweepStepKeeps(f: Fdl, g: Fdl, x: nat, s: set<nat>)
    requires Knows(f, x, s) && Knows(g, x, s) && g.p == f.p && g.gap == AdvanceGap(f).gap
    requires g.gap.DoPoll? ==> g.gap.currentAddress !in s - {x}
    ensures Clear(f, s) <==> Clear(g, s)
    ensures !Clear(f, s) ==> Target(g, s) == Target(f, s) && Cursor(g) == Cursor(f) + 1
  {
    NeighboursOfKnowing(f, x, s);
    NeighboursOfKnowing(g, x, s);
    if Clear(f, s) {
      AdvanceStaysClear(f.p.highestStationAddress, x, f.ring.ns, if f.gap.DoPoll? then f.gap.currentAddress else x, s);
    } else {
      UnclearSweep(f, x, s);
      UnclearStep(f, g, x, s);
    }
  }

  lemma SameSweepKeeps(f: Fdl, g: Fdl, x: nat, s: set<nat>)
    requires Knows(f, x, s) && Knows(g, x, s) && g.p == f.p && g.gap == f.gap
    ensures Clear(f, s) <==> Clear(g, s)
    ensures Target(g, s) == Target(f, s) && Cursor(g) == Cursor(f)
  {
    NeighboursOfKnowing(f, x, s);
    NeighboursOfKnowing(g, x, s);
  }

  // ---------------------------------------------------------------------------------------------
  // Late polls of a ring
  // ---------------------------------------------------------------------------------------------

  function LatePollOf(bus: map<nat, Fdl>, h: nat): BusStep
    requires h in bus
  {
    PollOf(h, LateInput(bus[h]), _ => LateInput(bus[h]).now)
  }

  /** The ring still agrees, and its holder has less left to do or has passed the token to its successor. */
  ghost predicate CarriesOn(bus: map<nat, Fdl>, s: set<nat>, h: nat, next: map<nat, Fdl>, after: nat)
    requires h in bus
  {
    && Agreed(next, s, after) && OthersKeepGap(bus, next, h) && h in next && next[h].p == bus[h].p
    && next[h].gap == (if DoesGap(bus[h]) then AdvanceGap(bus[h]).gap else bus[h].gap)
    && (DoesGap(bus[h]) && next[h].gap.DoPoll? ==> next[h].gap.currentAddress !in s - {h})
    && (if after == h then Work(next[h]) < Work(bus[h])
        else after == Next(s, h) && next[after].state.UseToken? && (DoesGap(bus[h]) ==> next[h].gap.Waiting?))
    && (Work(bus[h]) >= 2 && !DoesGap(bus[h]) ==> after == h && Work(next[h]) >= 2)
  }

  /** All LAS are still the ring, but `h` has asked the member `y`. */
  ghost predicate MemberAsked(bus: map<nat, Fdl>, s: set<nat>, h: nat, y: nat) {
    && IsRing(s) && bus.Keys == s && h in s && y in s - {h} && bus[h].state == AwaitStatusResponse(y)
    && bus[y].state.ActiveIdle? && bus[y].state.statusRequest == Some(h) && bus[y].lastBusActivity.Some?
    && forall x | x in s :: Member(bus[x], x, s)
  }

  lemma AskedMemberHears(f: Fdl, y: nat, s: set<nat>, now: int, h: nat)
    requires Member(f, y, s) && IsWaiting(f) && IsRing(s) && h in s && y in s && Inv(f)
    ensures var g := Receive(f, now, StatusRequest(y, h));
            Member(g, y, s) && g.state.ActiveIdle? && g.state.statusRequest == Some(h) && g.lastBusActivity.Some?
  {
    HearIsHandle(f, now, StatusRequest(y, h));
  }

  lemma LateStepAllowed(bus: map<nat, Fdl>, s: set<nat>, h: nat)
    requires Agreed(bus, s, h)
    ensures AllSound(bus) && StepOk(bus, s, h, LatePollOf(bus, h))
    ensures Inv(bus[h]) && InputOk(bus[h], LateInput(bus[h]))
  {
    hide Inv, Undisturbed;
    AgreedIsSound(bus, s, h);
    LatePoll(bus[h], h, s);
  }

  /** A late poll that asks no member. */
  lemma LateStepCarriesOn(bus: map<nat, Fdl>, s: set<nat>, h: nat)
    requires Agreed(bus, s, h) && Next(s, h) != h && AllSound(bus) && InputOk(bus[h], LateInput(bus[h]))
    requires !AsksMember(Poll(bus[h], LateInput(bus[h])), s)
    ensures var step := LatePollOf(bus, h); CarriesOn(bus, s, h, BusNext(bus, h, step), HolderAfter(bus, h, step))
  {
    hide Inv, IsWaiting, Poll, Receive, Undisturbed, Work, DoesGap, AdvanceGap, Knows;
    LatePoll(bus[h], h, s);
    PollKeepsAgreed(bus, s, h, LateInput(bus[h]), LatePollOf(bus, h).heard);
    HolderOutcome(bus[h], h, s, LateInput(bus[h]));
  }

  /** A holder that asks a member had a sweep which was not clear, and asks its target. */
  lemma LatePollAsksTarget(f: Fdl, x: nat, s: set<nat>)
    requires Member(f, x, s) && IsRing(s) && HasToken(f) && !AsksMember(f, s) && InputOk(f, LateInput(f))
    requires AsksMember(Poll(f, LateInput(f)), s)
    ensures !Clear(f, s)
    ensures var g, y := Poll(f, LateInput(f)), Target(f, s);
            && Member(g, x, s) && g.state == AwaitStatusResponse(y) && y in s - {x}
            && Sends(f, LateInput(f)) == Some(StatusRequest(y, x))
  {
    hide Inv, Poll, Undisturbed, AdvanceGap, WellFormed;
    LatePoll(f, x, s);
    HolderPolls(f, x, s, s, LateInput(f));
    if Clear(f, s) {
      HolderStaysClear(f, x, s, LateInput(f));
    }
    UnclearStep(f, Poll(f, LateInput(f)), x, s);
  }

  /** A late poll that asks a member. */
  lemma LateStepAsks(bus: map<nat, Fdl>, s: set<nat>, h: nat)
    requires Agreed(bus, s, h) && AllSound(bus) && InputOk(bus[h], LateInput(bus[h]))
    requires AsksMember(Poll(bus[h], LateInput(bus[h])), s)
    ensures var step := LatePollOf(bus, h);
            && MemberAsked(BusNext(bus, h, step), s, h, Target(bus[h], s)) && !Clear(bus[h], s)
            && !Passes(bus, h, step)
  {
    hide Inv, Poll, Receive, Knows, Member, Harmless, Target, AsksMember, IsWaiting;
    LatePollAsksTarget(bus[h], h, s);
    var y, now := Target(bus[h], s), LateInput(bus[h]).now;
    var next := BusNext(bus, h, LatePollOf(bus, h));
    AskedMemberHears(bus[y], y, s, now, h);
    forall x | x in s && x != h && x != y ensures Member(next[x], x, s) {
      RequestIsHarmless(y, h, x);
      MemberHearsHarmless(bus[x], x, s, now, StatusRequest(y, h));
    }
  }

  lemma RequestIsHarmless(y: Byte, h: Byte, x: nat)
    requires x != y
    ensures Harmless(StatusRequest(y, h), {x})
  {
  }

  // ---------------------------------------------------------------------------------------------
  // The answer of a member
  // ---------------------------------------------------------------------------------------------

  /** A poll right after the pause, when nothing has arrived. */
  function AnswerInput(f: Fdl): Input
    requires f.lastBusActivity.Some?
  {
    Input(f.lastBusActivity.value + f.p.SyncPause() + 1, false, 0, [], [])
  }

  lemma AskedAnswers(f: Fdl, y: nat, s: set<nat>, h: Byte)
    requires Member(f, y, s) && f.state.ActiveIdle? && f.state.statusRequest == Some(h) && f.lastBusActivity.Some?
    ensures var input := AnswerInput(f);
            && InputOk(f, input) && !TokenLost(Touch(f, input.now), input.now)
            && Sends(f, input) == Some(StatusResponse(h, y, MasterInRing))
  {
    hide WellFormed, AllBelow;
    TimeoutOutlastsPause(f.p);
    PollIsDisciplined(f, AnswerInput(f));
  }

  /** `z` has made `y` its next station and forgotten everyone in between. */
  ghost predicate Forgets(f: Fdl, s: set<nat>, z: nat, y: nat) {
    f.ring.las == Learn(s, z, y) && f.ring.ns == y && f.state == PassToken(false, Attempt.First)
  }

  lemma AskerForgets(f: Fdl, h: Byte, s: set<nat>, y: Byte, now: int)
    requires Member(f, h, s) && f.state == AwaitStatusResponse(y) && y in s - {h as nat}
    ensures Forgets(Receive(f, now, StatusResponse(h, y, MasterInRing)), s, h, y)
  {
    hide WellFormed;
    SetNextMakesItNext(f.ring, y);
    assert s + {y} == s;
  }

  function AnswerOf(bus: map<nat, Fdl>, y: nat): BusStep
    requires y in bus && bus[y].lastBusActivity.Some?
  {
    PollOf(y, AnswerInput(bus[y]), _ => AnswerInput(bus[y]).now)
  }

  /** The asked member answers, and the holder forgets everyone in between. */
  lemma MemberAnswers(bus: map<nat, Fdl>, s: set<nat>, h: nat, y: nat)
    requires MemberAsked(bus, s, h, y)
    ensures AllSound(bus)
    ensures var step := AnswerOf(bus, y);
            && StepOk(bus, s, h, step) && !Passes(bus, h, step) && BusNext(bus, h, step).Keys == s
            && Forgets(BusNext(bus, h, step)[h], s, h, y)
  {
    hide Inv, Poll, Receive, TokenLost;
    AskedAnswers(bus[y], y, s, h);
    AskerForgets(bus[h], h, s, y, AnswerInput(bus[y]).now);
  }

  /** The lost successor is among those that are forgotten. */
  lemma SuccessorIsForgotten(s: set<nat>, z: nat, y: nat)
    requires z in s && y in s && y != z && y != Next(s, z)
    ensures Next(s, z) !in Learn(s, z, y)
  {
  }

  // ---------------------------------------------------------------------------------------------
  // The run that breaks a ring
  // ---------------------------------------------------------------------------------------------

  /** Sweeps that are not clear stay so, with the same target; nobody else's becomes so. */
  lemma UnclearCarriesOver(bus: map<nat, Fdl>, s: set<nat>, h: nat, next: map<nat, Fdl>, after: nat, z: nat)
    requires Agreed(bus, s, h) && CarriesOn(bus, s, h, next, after) && z in s
    ensures Clear(bus[z], s) <==> Clear(next[z], s)
    ensures !Clear(bus[z], s) ==> Target(next[z], s) == Target(bus[z], s)
    ensures !Clear(bus[z], s) ==>
              Cursor(next[z]) == Cursor(bus[z]) + if z == h && DoesGap(bus[h]) then 1 else 0
  {
    hide Inv, Knows, IsWaiting, HasToken, Clear, Target, Cursor, Work, DoesGap, AdvanceGap, AsksMember;
    if z == h && DoesGap(bus[h]) {
      SweepStepKeeps(bus[h], next[h], h, s);
    } else {
      SameSweepKeeps(bus[z], next[z], z, s);
    }
  }

  lemma WalkFromNext(s: set<nat>, x: nat, k: nat)
    ensures Walk(s, Next(s, x), k) == Walk(s, x, k + 1)
  {
    if k > 0 {
      WalkFromNext(s, x, k - 1);
    }
  }

  lemma HasNeighbour(s: set<nat>, x: nat, y: nat, h: nat)
    requires x in s && y in s && x != y && h in s
    ensures Next(s, h) != h
  {
    assert FollowsIn(s, h, Next(s, h));
  }

  /** The moment after a step. */
  ghost function MomentAfter(m: Moment, s: set<nat>, step: BusStep): Moment
    requires AllSound(m.bus) && m.holder in m.bus && StepOk(m.bus, s, m.holder, step)
  {
    Moment(BusNext(m.bus, m.holder, step), HolderAfter(m.bus, m.holder, step),
           m.passes + if Passes(m.bus, m.holder, step) then 1 else 0)
  }

  lemma RunExtends(s: set<nat>, m: Moment, step: BusStep, run: seq<Moment>, steps: seq<BusStep>)
    requires AllSound(m.bus) && m.holder in m.bus && StepOk(m.bus, s, m.holder, step)
    requires IsRun(s, run, steps) && run[0] == MomentAfter(m, s, step)
    ensures IsRun(s, [m] + run, [step] + steps)
  {
    hide AllSound, StepOk, BusNext, HolderAfter, Passes;
    forall i | 0 <= i <= |steps| ensures Follows(s, ([m] + run)[i], ([step] + steps)[i], ([m] + run)[i + 1]) {
      if i > 0 {
        assert Follows(s, run[i - 1], steps[i - 1], run[i]);
      }
    }
  }

  lemma SweepNeedsTwo(bus: map<nat, Fdl>, s: set<nat>, h: nat, x: nat)
    requires Agreed(bus, s, h) && x in s && !Clear(bus[x], s)
    ensures Next(s, h) != h && 0 <= Way(bus[x], s) && AdvanceGap(bus[x]).gap.DoPoll?
  {
    hide Inv, Clear;
    UnclearSweep(bus[x], x, s);
    HasNeighbour(s, x, Target(bus[x], s), h);
  }

  /** Unless it asks a member, a late poll takes the ring closer to that. */
  lemma TokenApproaches(s: set<nat>, m: Moment, x: nat, k: nat) returns (rest: nat)
    requires Agreed(m.bus, s, m.holder) && x in s && !Clear(m.bus[x], s)
    requires Walk(s, m.holder, k) == x && (k == 0 ==> Work(m.bus[x]) >= 2)
    requires AllSound(m.bus) && m.holder in m.bus && StepOk(m.bus, s, m.holder, LatePollOf(m.bus, m.holder))
    requires !AsksMember(Poll(m.bus[m.holder], LateInput(m.bus[m.holder])), s)
    ensures var next := MomentAfter(m, s, LatePollOf(m.bus, m.holder));
            && CarriesOn(m.bus, s, m.holder, next.bus, next.holder) && Agreed(next.bus, s, next.holder)
            && !Clear(next.bus[x], s) && Walk(s, next.holder, rest) == x && (rest == 0 ==> Work(next.bus[x]) >= 2)
            && 0 <= Way(next.bus[x], s) <= Way(m.bus[x], s)
            && (Way(next.bus[x], s) == Way(m.bus[x], s) ==>
                  || rest < k
                  || (rest == k && next.holder == m.holder && Work(next.bus[m.holder]) < Work(m.bus[m.holder])))
  {
    hide Agreed, AllSound, StepOk, BusNext, Passes, Clear, Target, Cursor, Poll, Inv;
    var h := m.holder;
    var next := MomentAfter(m, s, LatePollOf(m.bus, h));
    SweepNeedsTwo(m.bus, s, h, x);
    LateStepCarriesOn(m.bus, s, h);
    UnclearCarriesOver(m.bus, s, h, next.bus, next.holder, x);
    SweepNeedsTwo(next.bus, s, next.holder, x);
    if h == x && DoesGap(m.bus[h]) {
      WalkCloses(s, x);
      rest := |s|;
    } else if next.holder == h {
      rest := k;
    } else {
      rest := k - 1;
      WalkFromNext(s, h, rest);
    }
  }

  lemma AnswerBreaksRing(s: set<nat>, m: Moment, y: nat) returns (run: seq<Moment>, steps: seq<BusStep>)
    requires MemberAsked(m.bus, s, m.holder, y)
    ensures IsRun(s, run, steps) && run[0] == m
    ensures var last := run[|run| - 1].bus; last.Keys == s && Forgets(last[m.holder], s, m.holder, y)
  {
    hide AllSound, StepOk, BusNext, Passes, Forgets, Member, Inv, Poll;
    MemberAnswers(m.bus, s, m.holder, y);
    var answer := AnswerOf(m.bus, y);
    run, steps := [m, MomentAfter(m, s, answer)], [answer];
    assert Follows(s, m, answer, run[1]);
  }

  /** The holder asks a member, which answers. */
  lemma AskingBreaksRing(s: set<nat>, m: Moment) returns (run: seq<Moment>, steps: seq<BusStep>)
    requires Agreed(m.bus, s, m.holder) && InputOk(m.bus[m.holder], LateInput(m.bus[m.holder])) && Inv(m.bus[m.holder])
    requires AsksMember(Poll(m.bus[m.holder], LateInput(m.bus[m.holder])), s)
    ensures IsRun(s, run, steps) && run[0] == m && !Clear(m.bus[m.holder], s)
    ensures var last := run[|run| - 1].bus;
            last.Keys == s && Forgets(last[m.holder], s, m.holder, Target(m.bus[m.holder], s))
  {
    hide Agreed, AllSound, StepOk, BusNext, Passes, Forgets, Clear, Target, Poll, InputOk, Inv, MemberAsked, Follows;
    AgreedIsSound(m.bus, s, m.holder);
    LateStepAllowed(m.bus, s, m.holder);
    LateStepAsks(m.bus, s, m.holder);
    var step := LatePollOf(m.bus, m.holder);
    var next := MomentAfter(m, s, step);
    assert next.holder == m.holder;
    var rest, others := AnswerBreaksRing(s, next, Target(m.bus[m.holder], s));
    RunExtends(s, m, step, rest, others);
    run, steps := [m] + rest, [step] + others;
    assert run[|run| - 1] == rest[|rest| - 1];
  }

  /** How far `x` is from asking a member: the way of its sweep, the way of the token around the ring, and what
      the holder still does. */
  lemma {:induction false} UnclearSweepBreaksRing(s: set<nat>, m: Moment, x: nat, k: nat)
    returns (run: seq<Moment>, steps: seq<BusStep>, z: nat)
    requires Agreed(m.bus, s, m.holder) && x in s && !Clear(m.bus[x], s)
    requires Walk(s, m.holder, k) == x && (k == 0 ==> Work(m.bus[x]) >= 2)
    ensures IsRun(s, run, steps) && run[0] == m && z in s && !Clear(m.bus[z], s)
    ensures var last := run[|run| - 1].bus; last.Keys == s && Forgets(last[z], s, z, Target(m.bus[z], s))
    decreases Way(m.bus[x], s), k, Work(m.bus[m.holder])
  {
    hide Agreed, AllSound, StepOk, BusNext, Passes, Forgets, Clear, Target, Cursor, Poll, InputOk, Inv, Follows, Work;
    hide CarriesOn, AsksMember, LateInput, HolderAfter, Walk, Way;
    var h := m.holder;
    AgreedIsSound(m.bus, s, h);
    LateStepAllowed(m.bus, s, h);
    if AsksMember(Poll(m.bus[h], LateInput(m.bus[h])), s) {
      run, steps := AskingBreaksRing(s, m);
      z := h;
    } else {
      var step := LatePollOf(m.bus, h);
      var next := MomentAfter(m, s, step);
      var ahead := TokenApproaches(s, m, x, k);
      var rest, others, last := UnclearSweepBreaksRing(s, next, x, ahead);
      UnclearCarriesOver(m.bus, s, h, next.bus, next.holder, last);
      RunExtends(s, m, step, rest, others);
      run, steps, z := [m] + rest, [step] + others, last;
      assert run[|run| - 1] == rest[|rest| - 1];
    }
  }

  // ---------------------------------------------------------------------------------------------
  // Stability
  // ---------------------------------------------------------------------------------------------

  /** Everybody's LAS is the ring. */
  ghost predicate KeepsRing(bus: map<nat, Fdl>, s: set<nat>) {
    bus.Keys == s && forall x | x in s :: bus[x].ring.las == s
  }

  /** No run from here ever changes a LAS. */
  ghost predicate StaysRing(s: set<nat>, bus: map<nat, Fdl>, h: nat) {
    forall run: seq<Moment>, steps | IsRun(s, run, steps) && run[0] == Moment(bus, h, 0) ::
      forall i | 0 <= i < |run| :: KeepsRing(run[i].bus, s)
  }

  /** From a station with a sweep that is not clear, the token gets there and the sweep goes on to its target. */
  lemma UnclearRing(bus: map<nat, Fdl>, s: set<nat>, h: nat, x: nat)
    returns (run: seq<Moment>, steps: seq<BusStep>, z: nat)
    requires Agreed(bus, s, h) && x in s && !Clear(bus[x], s)
    ensures IsRun(s, run, steps) && run[0] == Moment(bus, h, 0) && z in s && !Clear(bus[z], s)
    ensures var last := run[|run| - 1].bus;
            last.Keys == s && Forgets(last[z], s, z, Target(bus[z], s)) && Next(s, z) !in last[z].ring.las
  {
    hide Inv, Clear, Target, StepOk, BusNext, HolderAfter, Passes, AllSound, Work;
    var k := TourReaches(s, h, x);
    if k == 0 && Work(bus[x]) < 2 {
      k := |s|;
      WalkCloses(s, x);
    }
    run, steps, z := UnclearSweepBreaksRing(s, Moment(bus, h, 0), x, k);
    UnclearSweep(bus[z], z, s);
    SuccessorIsForgotten(s, z, Target(bus[z], s));
  }

  /** A ring in agreement stays as it is in every run if and only if no GAP sweep in progress is to meet a
      member of the ring any more. */
  lemma StableExactly(bus: map<nat, Fdl>, s: set<nat>, h: nat)
    requires Agreed(bus, s, h)
    ensures StaysRing(s, bus, h) <==> Steady(bus, s, h)
  {
    hide Agreed, Clear, Follows, Target, Forgets;
    AgreedIsSound(bus, s, h);
    if Steady(bus, s, h) {
      forall run: seq<Moment>, steps, i | IsRun(s, run, steps) && run[0] == Moment(bus, h, 0) && 0 <= i < |run|
        ensures KeepsRing(run[i].bus, s)
      {
        RunKeepsSteady(s, run, steps, i);
        HoldersOfAgreed(run[i].bus, s, run[i].holder);
      }
    } else {
      var x :| x in s && !Clear(bus[x], s);
      var run, steps, z := UnclearRing(bus, s, h, x);
      HoldersOfAgreed(bus, s, h);
      assert !KeepsRing(run[|run| - 1].bus, s);
    }
  }
}
