/**
 What becomes of a ring that a newcomer has joined.

 The sweep of the station that adopted the newcomer goes on behind it.  Whether it meets a member of the ring is a
 matter of the position of the newcomer.
 */
module JoinStability {
  import opened CyclicOrder
  import opened TokenRings
  import opened Stations
  import opened Buses
  import opened TokenBus
  import opened RingStability
  import opened Joining

  /** The newcomer has the last address below the highest one, and joined a ring of two or more stations. */
  ghost predicate JoinedLast(f: Fdl, s: set<nat>, a: nat) {
    a == f.p.highestStationAddress - 1 && s != {f.p.address}
  }

  /** Behind the last address the sweep wraps around and begins with the least member; otherwise it ends, or meets
      only the station itself. */
  lemma SweepBehindNewcomer(f: Fdl, h: nat, s: set<nat>, a: nat)
    requires Informed(f, h, s, a, h) && h in s && a !in s && InArc(h, Next(s, h), a)
    ensures Clear(f, s + {a}) <==> !JoinedLast(f, s, a)
    ensures JoinedLast(f, s, a) ==> Target(f, s + {a}) == Least(s) && Learn(s + {a}, h, Least(s)) == s
  {
    hide WellFormed;
    NeighboursOfKnowing(f, h, s + {a});
    NewcomerSplitsArc(s, h, a, h);
    assert FollowsIn(s + {a}, h, a) && FollowsIn(s, h, Next(s, h));
    if a == f.p.highestStationAddress - 1 {
      assert NextGapPoll(f, a) == DoPoll(0);
      assert forall y | y in s :: InArc(0, a, y) && y <= h;
      TargetIsLeast(f, s + {a}, Least(s));
    }
  }

  lemma JoinedIsSettled(bus: map<nat, Fdl>, s: set<nat>, a: nat, h: nat, holder: nat)
    requires InPhase(bus, s, a, Joined(h, holder))
    ensures h in bus && Agreed(bus, s + {a}, holder) && Informed(bus[h], h, s, a, h) && bus[h].p.address == h
    ensures h in s && a !in s && InArc(h, Next(s, h), a)
    ensures forall x | x in s + {a} && x != h :: Clear(bus[x], s + {a})
  {
    hide Clear, Inv;
  }

  /** A ring that a newcomer has joined stays as it is in every run if and only if the newcomer did not take the
      last address of a ring of two or more other stations. */
  lemma JoinedRingIsStableExactly(bus: map<nat, Fdl>, s: set<nat>, a: nat, h: nat, holder: nat)
    requires InPhase(bus, s, a, Joined(h, holder))
    ensures h in bus && (StaysRing(s + {a}, bus, holder) <==> !JoinedLast(bus[h], s, a))
  {
    hide InPhase, Agreed, Informed, Clear, StaysRing;
    JoinedIsSettled(bus, s, a, h, holder);
    SweepBehindNewcomer(bus[h], h, s, a);
    StableExactly(bus, s + {a}, holder);
  }

  /** In that case the sweep reaches the least member of the ring, which answers, and the newcomer is dropped: its
      predecessor is about to pass the token to the least member. */
  lemma LastAddressIsDropped(bus: map<nat, Fdl>, s: set<nat>, a: nat, h: nat, holder: nat)
    returns (run: seq<Moment>, steps: seq<BusStep>)
    requires InPhase(bus, s, a, Joined(h, holder)) && h in bus && JoinedLast(bus[h], s, a)
    ensures IsRun(s + {a}, run, steps) && run[0] == Moment(bus, holder, 0) && s != {}
    ensures var last := run[|run| - 1].bus;
            && h in last && last[h].ring.las == s && last[h].ring.ns == Least(s)
            && last[h].state == PassToken(false, Attempt.First)
  {
    hide InPhase, Agreed, Informed, Clear, StaysRing;
    JoinedIsSettled(bus, s, a, h, holder);
    SweepBehindNewcomer(bus[h], h, s, a);
    var z: nat;
    run, steps, z := UnclearRing(bus, s + {a}, holder, h);
    assert z == h;
  }
}
