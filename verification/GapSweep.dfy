/**
 The GAP sweep: which addresses a station asks whether they want to join the ring.
 */
module GapSweep {
  import opened Telegrams
  import opened CyclicOrder
  import opened TokenRings
  import opened Stations

  /** The address `k` places after `ts` among the addresses below `hsa`. */
  function Ahead(hsa: nat, ts: nat, k: nat): int {
    if ts + k < hsa then ts + k else ts + k - hsa
  }

  /** How many places after `ts` the address `ns` is; a full circle when they are the same. */
  function CyclicDistance(hsa: nat, ts: nat, ns: nat): int {
    if ts < ns then ns - ts else ns + hsa - ts
  }

  /** The addresses that are polled after `current` until the sweep ends, at most `limit` of them. */
  function Sweep(hsa: nat, ts: nat, ns: nat, current: nat, limit: nat): seq<nat>
    requires current < hsa
    decreases limit
  {
    match NextGap(hsa, ts, ns, current)
    case Waiting(_) => []
    case DoPoll(a) => if limit == 0 then [] else [a] + Sweep(hsa, ts, ns, a, limit - 1)
  }

  lemma SweepStep(hsa: nat, ts: nat, ns: nat, k: nat)
    requires ts < hsa && ns < hsa && k < CyclicDistance(hsa, ts, ns)
    ensures NextGap(hsa, ts, ns, Ahead(hsa, ts, k))
            == if k + 1 == CyclicDistance(hsa, ts, ns) then Waiting(0) else DoPoll(Ahead(hsa, ts, k + 1))
  {
  }

  lemma {:induction false} SweepFrom(hsa: nat, ts: nat, ns: nat, k: nat, limit: nat)
    requires ts < hsa && ns < hsa && k < CyclicDistance(hsa, ts, ns) <= k + 1 + limit
    ensures Sweep(hsa, ts, ns, Ahead(hsa, ts, k), limit)
            == seq(CyclicDistance(hsa, ts, ns) - 1 - k, i requires 0 <= i => Ahead(hsa, ts, k + 1 + i) as nat)
    decreases limit
  {
    SweepStep(hsa, ts, ns, k);
    if k + 1 < CyclicDistance(hsa, ts, ns) {
      SweepFrom(hsa, ts, ns, k + 1, limit - 1);
    }
  }

  /** With an unchanged next station, a sweep visits exactly the addresses strictly between this and
      the next station, in cyclic order and each of them once, and then it ends. */
  lemma SweepVisitsTheGap(hsa: nat, ts: nat, ns: nat)
    requires ts < hsa && ns < hsa
    ensures var polled := Sweep(hsa, ts, ns, ts, hsa);
            && |polled| == CyclicDistance(hsa, ts, ns) - 1
            && (forall i | 0 <= i < |polled| :: polled[i] == Ahead(hsa, ts, i + 1))
            && (forall i, j | 0 <= i < j < |polled| :: polled[i] != polled[j])
            && (forall a: nat :: a in polled <==> a < hsa && a != ts && InArc(ts, ns, a))
  {
    SweepFrom(hsa, ts, ns, 0, hsa);
    var polled := Sweep(hsa, ts, ns, ts, hsa);
    assert Ahead(hsa, ts, 0) == ts;
    assert forall i | 0 <= i < |polled| :: polled[i] == Ahead(hsa, ts, i + 1);
    forall a: nat ensures a in polled <==> a < hsa && a != ts && InArc(ts, ns, a) {
      if a < hsa && a != ts && InArc(ts, ns, a) {
        var i := if ts < a then a - ts - 1 else a + hsa - ts - 1;
        assert polled[i] == a;
      }
    }
  }

  /** No station of `s` other than `ts` lies on what is left of a sweep after `current`. */
  ghost predicate RestIsClear(hsa: nat, ts: nat, ns: nat, current: nat, s: set<nat>) {
    match NextGap(hsa, ts, ns, current)
    case Waiting(_) => true
    case DoPoll(a) => forall y | y in s && InArc(a, ns, y) :: y == ts
  }

  lemma {:induction false} RestOfSweep(hsa: nat, ts: nat, ns: nat, current: nat, limit: nat, y: nat)
    requires ts < hsa && ns < hsa && current < hsa && y < hsa
    requires var next := NextGap(hsa, ts, ns, current);
             next.DoPoll? ==> limit >= CyclicDistance(hsa, next.currentAddress, ns)
    ensures var next := NextGap(hsa, ts, ns, current);
            y in Sweep(hsa, ts, ns, current, limit) <==> next.DoPoll? && InArc(next.currentAddress, ns, y)
    decreases limit
  {
    match NextGap(hsa, ts, ns, current)
    case Waiting(_) =>
    case DoPoll(a) => RestOfSweep(hsa, ts, ns, a, limit - 1, y);
  }

  /** In other words, with an unchanged next station it polls none of them. */
  lemma ClearSweepPollsNobody(hsa: nat, ts: nat, ns: nat, current: nat, s: set<nat>)
    requires ts < hsa && ns < hsa && current < hsa && AllBelow(s, hsa)
    ensures RestIsClear(hsa, ts, ns, current, s) <==>
              forall y | y in s && y in Sweep(hsa, ts, ns, current, hsa) :: y == ts
  {
    forall y | y in s
      ensures var next := NextGap(hsa, ts, ns, current);
              y in Sweep(hsa, ts, ns, current, hsa) <==> next.DoPoll? && InArc(next.currentAddress, ns, y)
    {
      RestOfSweep(hsa, ts, ns, current, hsa, y);
    }
  }

  /** The next poll of such a sweep asks none of these stations, and what is left then is clear as well. */
  lemma AdvanceStaysClear(hsa: nat, ts: nat, ns: nat, current: nat, s: set<nat>)
    requires ts < hsa && ns < hsa && current < hsa
    requires RestIsClear(hsa, ts, ns, current, s) || (current == ts && forall y | y in s && InArc(ts, ns, y) :: y == ts)
    ensures var next := NextGap(hsa, ts, ns, current);
            next.DoPoll? ==> next.currentAddress !in s - {ts} && RestIsClear(hsa, ts, ns, next.currentAddress, s)
  {
  }

  // ---------------------------------------------------------------------------------------------
  // Every address of the GAP gets its turn
  // ---------------------------------------------------------------------------------------------

  /** One GAP step of a station whose next station does not change. */
  function GapStep(hsa: nat, ts: nat, ns: nat, wait: nat, gap: GapState): GapState {
    match gap
    case Waiting(count) => if count > wait then NextGap(hsa, ts, ns, ts) else Waiting(count + 1)
    case DoPoll(a) => NextGap(hsa, ts, ns, a)
  }

  function GapSteps(hsa: nat, ts: nat, ns: nat, wait: nat, gap: GapState, k: nat): GapState
    decreases k
  {
    if k == 0 then gap else GapSteps(hsa, ts, ns, wait, GapStep(hsa, ts, ns, wait, gap), k - 1)
  }

  /** From the start of a sweep, or from an address before it. */
  lemma {:induction false} SweepGetsTo(hsa: nat, ts: nat, ns: nat, wait: nat, j: nat, i: nat)
    requires ts < hsa && ns < hsa && j <= i < CyclicDistance(hsa, ts, ns)
    ensures Ahead(hsa, ts, j) >= 0 && Ahead(hsa, ts, i) >= 0
    ensures GapSteps(hsa, ts, ns, wait, DoPoll(Ahead(hsa, ts, j)), i - j) == DoPoll(Ahead(hsa, ts, i))
    decreases i - j
  {
    if j < i {
      SweepStep(hsa, ts, ns, j);
      SweepGetsTo(hsa, ts, ns, wait, j + 1, i);
    }
  }

  /** From a count of rotations: the sweep begins when the count is over. */
  lemma {:induction false} WaitGetsTo(hsa: nat, ts: nat, ns: nat, wait: nat, count: nat, i: nat) returns (k: nat)
    requires ts < hsa && ns < hsa && 0 < i < CyclicDistance(hsa, ts, ns) && Ahead(hsa, ts, i) >= 0
    ensures k > 0 && GapSteps(hsa, ts, ns, wait, Waiting(count), k) == DoPoll(Ahead(hsa, ts, i))
    decreases wait + 1 - count
  {
    if count > wait {
      assert Ahead(hsa, ts, 0) == ts;
      SweepStep(hsa, ts, ns, 0);
      SweepGetsTo(hsa, ts, ns, wait, 1, i);
      k := i;
    } else {
      var rest := WaitGetsTo(hsa, ts, ns, wait, count + 1, i);
      k := rest + 1;
    }
  }

  /** From anywhere: the rest of a sweep ends, unless it meets the address first. */
  lemma {:induction false} RestGetsTo(hsa: nat, ts: nat, ns: nat, wait: nat, current: nat, i: nat, limit: nat)
    returns (k: nat)
    requires ts < hsa && ns < hsa && current < hsa && 0 < i < CyclicDistance(hsa, ts, ns) && Ahead(hsa, ts, i) >= 0
    requires var next := NextGap(hsa, ts, ns, current);
             next.DoPoll? ==> limit >= CyclicDistance(hsa, next.currentAddress, ns)
    ensures k > 0 && GapSteps(hsa, ts, ns, wait, DoPoll(current), k) == DoPoll(Ahead(hsa, ts, i))
    decreases limit
  {
    match NextGap(hsa, ts, ns, current)
    case Waiting(_) =>
      var rest := WaitGetsTo(hsa, ts, ns, wait, 0, i);
      k := rest + 1;
    case DoPoll(a) =>
      if a == Ahead(hsa, ts, i) {
        k := 1;
        assert GapSteps(hsa, ts, ns, wait, DoPoll(a), 0) == DoPoll(a);
      } else {
        var rest := RestGetsTo(hsa, ts, ns, wait, a, i, limit - 1);
        k := rest + 1;
      }
  }

  /** Whatever a station is doing in its GAP, it will ask every address of it: with an unchanged next station,
      after finitely many GAP steps the cursor stands there. */
  lemma GapStepsGetTo(hsa: nat, ts: nat, ns: nat, wait: nat, gap: GapState, a: nat) returns (k: nat)
    requires ts < hsa && ns < hsa && a < hsa && a != ts && InArc(ts, ns, a)
    requires gap.DoPoll? ==> gap.currentAddress < hsa
    ensures k > 0 && GapSteps(hsa, ts, ns, wait, gap, k) == DoPoll(a)
  {
    var i := if ts < a then a - ts else a + hsa - ts;
    assert Ahead(hsa, ts, i) == a;
    match gap
    case Waiting(count) => k := WaitGetsTo(hsa, ts, ns, wait, count, i);
    case DoPoll(current) => k := RestGetsTo(hsa, ts, ns, wait, current, i, hsa);
  }

  // ---------------------------------------------------------------------------------------------
  // When a sweep polls the station itself
  // ---------------------------------------------------------------------------------------------

  /** A sweep polls the own address exactly when its cursor stands right before it while another
      station is next. */
  lemma SelfPollExactly(hsa: nat, ts: nat, ns: nat, current: nat)
    requires ts < hsa && current < hsa
    ensures NextGap(hsa, ts, ns, current) == DoPoll(ts) <==> ns != ts && Ahead(hsa, current, 1) == ts
  {
  }

  /** When the polled station itself becomes the next one, the sweep ends there, unless that station
      is the last below the highest address or the one right before this station. */
  lemma SweepEndsAtJoiner(hsa: nat, ts: nat, joiner: nat)
    requires ts < hsa && joiner < hsa && joiner != ts
    ensures NextGap(hsa, ts, joiner, joiner) == Waiting(0) <==> joiner + 1 != ts && !(ts < joiner && joiner == hsa - 1)
  {
  }

  lemma {:induction false} SweepReachesSelf(hsa: nat, ts: nat, joiner: nat, current: nat, limit: nat)
    requires ts < hsa && joiner < hsa && current < hsa && joiner != ts
    requires joiner == hsa - 1 && ts < joiner
    requires current == joiner || current < ts
    requires limit >= (if current == joiner then ts + 1 else ts - current)
    ensures ts in Sweep(hsa, ts, joiner, current, limit)
    decreases limit
  {
    var next := if current == joiner then 0 else current + 1;
    assert NextGap(hsa, ts, joiner, current) == DoPoll(next);
    if next != ts {
      SweepReachesSelf(hsa, ts, joiner, next, limit - 1);
    }
  }

  /** In those two cases the sweep goes on, and polls the station itself if nobody answers on the way. */
  lemma JoinerLeadsToSelfPoll(hsa: nat, ts: nat, joiner: nat)
    requires ts < hsa && joiner < hsa && joiner != ts
    requires joiner + 1 == ts || (ts < joiner && joiner == hsa - 1)
    ensures ts in Sweep(hsa, ts, joiner, joiner, hsa)
  {
    if joiner + 1 == ts {
      assert NextGap(hsa, ts, joiner, joiner) == DoPoll(ts);
    } else {
      SweepReachesSelf(hsa, ts, joiner, joiner, hsa);
    }
  }

  /** This happens to a real station: when the station right before it asks for the token, the next GAP poll of
      this station, at the next poll `later` that does its GAP step, is aimed at itself. */
  lemma JoiningPredecessorCausesSelfPoll(f: Fdl, now: int, t: Telegram, g: Fdl, later: int)
    requires Inv(f) && f.state.AwaitStatusResponse? && f.state.address + 1 == f.p.address
    requires AnswersPoll(f, t, f.state.address) && WantsToken(t)
    requires Inv(g) && g.p == f.p && g.ring == ReceiveGapAnswer(f, now, t, f.state.address).0.ring && g.gap == f.gap
    requires g.state.PassToken? && g.state.doGap && g.lastBusActivity.Some? && PauseOver(g, later)
    ensures g.ring.ns == f.state.address
    ensures var h := DoPassToken(g, later);
            && h.state == AwaitStatusResponse(f.p.address)
            && h.log.faults == g.log.faults + [SelfPoll]
            && h.log.sent == g.log.sent + [Transmission(later, StatusRequest(f.p.address, f.p.address))]
  {
    SetNextMakesItNext(f.ring, f.state.address);
  }
}
