/**
 The cyclic order of station addresses.

 Addresses on the bus form a circle.  This module defines the half-open arc from one address to
 another, the cyclic successor and predecessor of an address within a set of stations, and shows
 that following successors tours the whole set.
 */
module CyclicOrder {

  /** `x` lies on the arc that starts at `from` (included), goes upwards with wrap-around, and
      stops before `to`.  When both ends are the same address, the arc is the full circle. */
  predicate InArc(from: nat, to: nat, x: nat) {
    if from < to then from <= x < to else from <= x || x < to
  }

  ghost function Least(s: set<nat>): (m: nat)
    requires s != {}
    ensures m in s && forall x | x in s :: m <= x
  {
    var x :| x in s;
    if s == {x} then x
    else
      var m := Least(s - {x});
      assert forall y | y in s :: y == x || y in s - {x};
      if x < m then x else m
  }

  ghost function Greatest(s: set<nat>): (m: nat)
    requires s != {}
    ensures m in s && forall x | x in s :: x <= m
  {
    var x :| x in s;
    if s == {x} then x
    else
      var m := Greatest(s - {x});
      assert forall y | y in s :: y == x || y in s - {x};
      if x > m then x else m
  }

  /** `n` is a member of `s` and no other member lies between `x` and `n`. */
  ghost predicate FollowsIn(s: set<nat>, x: nat, n: nat) {
    n in s && forall y | y in s && InArc(x, n, y) :: y == x
  }

  /** `p` is a member of `s` and no other member lies between `p` and `x`. */
  ghost predicate PrecedesIn(s: set<nat>, x: nat, p: nat) {
    p in s && forall y | y in s && InArc(p, x, y) :: y == p
  }

  lemma NextExists(s: set<nat>, x: nat)
    requires s != {}
    ensures exists n :: FollowsIn(s, x, n)
  {
    var above := set y | y in s && x < y;
    assert forall y | y in s :: y in above <==> x < y;
    assert FollowsIn(s, x, if above != {} then Least(above) else Least(s));
  }

  lemma PreviousExists(s: set<nat>, x: nat)
    requires s != {}
    ensures exists p :: PrecedesIn(s, x, p)
  {
    var below := set y | y in s && y < x;
    assert forall y | y in s :: y in below <==> y < x;
    assert PrecedesIn(s, x, if below != {} then Greatest(below) else Greatest(s));
  }

  /** The member of `s` that follows `x` on the circle, or `x` when `s` is empty. */
  ghost function Next(s: set<nat>, x: nat): (n: nat)
    ensures if s == {} then n == x else n in s && FollowsIn(s, x, n)
  {
    if s == {} then x else
      NextExists(s, x);
      var n :| FollowsIn(s, x, n);
      n
  }

  /** The member of `s` that precedes `x` on the circle, or `x` when `s` is empty. */
  ghost function Previous(s: set<nat>, x: nat): (p: nat)
    ensures if s == {} then p == x else p in s && PrecedesIn(s, x, p)
  {
    if s == {} then x else
      PreviousExists(s, x);
      var p :| PrecedesIn(s, x, p);
      p
  }

  lemma NextIsUnique(s: set<nat>, x: nat, n: nat)
    ensures FollowsIn(s, x, n) ==> n == Next(s, x)
  {
    if FollowsIn(s, x, n) {
      var m := Next(s, x);
      assert InArc(x, n, m) || InArc(x, m, n) || m == n;
    }
  }

  lemma PreviousIsUnique(s: set<nat>, x: nat, p: nat)
    ensures PrecedesIn(s, x, p) ==> p == Previous(s, x)
  {
    if PrecedesIn(s, x, p) {
      var q := Previous(s, x);
      assert InArc(p, x, q) || InArc(q, x, p) || p == q;
    }
  }

  /** Within the set, predecessor and successor undo each other. */
  lemma PreviousOfNext(s: set<nat>, x: nat)
    requires x in s
    ensures Previous(s, Next(s, x)) == x
    ensures Next(s, Previous(s, x)) == x
  {
    PreviousIsUnique(s, Next(s, x), x);
    NextIsUnique(s, Previous(s, x), x);
  }

  /** A newcomer takes its place between its predecessor and that one's successor, and nobody else's
      neighbours change. */
  lemma NewcomerSplitsArc(s: set<nat>, h: nat, a: nat, x: nat)
    requires h in s && x in s && a !in s && InArc(h, Next(s, h), a)
    ensures Next(s + {a}, h) == a && Next(s + {a}, a) == Next(s, a) == Next(s, h)
    ensures Previous(s, a) == h
    ensures x != h ==> Next(s + {a}, x) == Next(s, x)
    ensures x != Next(s, h) ==> Previous(s + {a}, x) == Previous(s, x)
  {
    var t, b := s + {a}, Next(s, h);
    NextIsUnique(t, h, a);
    NextIsUnique(s, a, b);
    NextIsUnique(t, a, b);
    PreviousIsUnique(s, a, h);
    if x != h {
      assert FollowsIn(t, x, Next(s, x));
      NextIsUnique(t, x, Next(s, x));
    }
    if x != b {
      PreviousOfNext(s, h);
      assert PrecedesIn(t, x, Previous(s, x));
      PreviousIsUnique(t, x, Previous(s, x));
    }
  }

  // ---------------------------------------------------------------------------------------------
  // The tour: following successors from any member meets every member once
  // ---------------------------------------------------------------------------------------------

  /** The member reached from `x` after `k` successor steps. */
  ghost function Walk(s: set<nat>, x: nat, k: nat): (y: nat)
    ensures x in s ==> y in s
  {
    if k == 0 then x else Next(s, Walk(s, x, k - 1))
  }

  ghost function Below(s: set<nat>, x: nat): set<nat> {
    set y | y in s && y < x
  }

  /** How many members of `s` are below `x`. */
  ghost function Rank(s: set<nat>, x: nat): nat {
    |Below(s, x)|
  }

  lemma RankIsStrict(s: set<nat>, x: nat, y: nat)
    requires x in s && x < y
    ensures Rank(s, x) < Rank(s, y)
  {
    SubsetSize(Below(s, x) + {x}, Below(s, y));
  }

  lemma SubsetSize<T>(a: set<T>, b: set<T>)
    requires a <= b
    ensures |a| <= |b|
    ensures |a| == |b| ==> a == b
  {
    assert b == a + (b - a);
    if a != b {
      var x :| x in b - a;
    }
  }

  lemma RankBelowSize(s: set<nat>, x: nat)
    requires x in s
    ensures Rank(s, x) < |s|
  {
    SubsetSize(Below(s, x) + {x}, s);
  }

  /** Taking one successor step moves the rank up by one, wrapping at the size of the set. */
  lemma RankOfNext(s: set<nat>, x: nat)
    requires x in s
    ensures Rank(s, Next(s, x)) == Wrapped(s, Rank(s, x) + 1)
  {
    var n := Next(s, x);
    RankBelowSize(s, n);
    if x < n {
      assert Below(s, n) == Below(s, x) + {x};
    } else {
      assert Below(s, n) == {};
      assert s == Below(s, x) + {x};
    }
  }

  /** A position at most one round ahead, brought back into range. */
  function Wrapped(s: set<nat>, i: nat): int {
    if i < |s| then i else i - |s|
  }

  lemma {:induction false} RankOfWalk(s: set<nat>, x: nat, k: nat)
    requires x in s && k <= |s|
    ensures Rank(s, Walk(s, x, k)) == Wrapped(s, Rank(s, x) + k)
  {
    RankBelowSize(s, x);
    if k > 0 {
      RankOfWalk(s, x, k - 1);
      RankOfNext(s, Walk(s, x, k - 1));
    }
  }

  /** Two steps of the same round meet different members. */
  lemma WalkIsInjective(s: set<nat>, x: nat, i: nat, j: nat)
    requires x in s && i < j < |s|
    ensures Walk(s, x, i) != Walk(s, x, j)
  {
    RankOfWalk(s, x, i);
    RankOfWalk(s, x, j);
    RankBelowSize(s, x);
  }

  /** After as many steps as there are members the tour is back where it started. */
  lemma WalkCloses(s: set<nat>, x: nat)
    requires x in s
    ensures Walk(s, x, |s|) == x
  {
    var y := Walk(s, x, |s|);
    RankOfWalk(s, x, |s|);
    RankBelowSize(s, x);
    if x < y {
      RankIsStrict(s, x, y);
    } else if y < x {
      RankIsStrict(s, y, x);
    }
  }

  /** The members met in the first `k` steps of a tour. */
  ghost function Visited(s: set<nat>, x: nat, k: nat): (v: set<nat>)
    ensures x in s ==> v <= s
  {
    if k == 0 then {} else Visited(s, x, k - 1) + {Walk(s, x, k - 1)}
  }

  /** Each visited member was met at some step. */
  lemma {:induction false} StepOfVisit(s: set<nat>, x: nat, k: nat, y: nat) returns (i: nat)
    requires y in Visited(s, x, k)
    ensures i < k && Walk(s, x, i) == y
  {
    if y == Walk(s, x, k - 1) {
      i := k - 1;
    } else {
      i := StepOfVisit(s, x, k - 1, y);
    }
  }

  lemma {:induction false} VisitedSize(s: set<nat>, x: nat, k: nat)
    requires x in s && k <= |s|
    ensures |Visited(s, x, k)| == k
  {
    hide FollowsIn, Walk;
    if k > 0 {
      VisitedSize(s, x, k - 1);
      if Walk(s, x, k - 1) in Visited(s, x, k - 1) {
        var i := StepOfVisit(s, x, k - 1, Walk(s, x, k - 1));
        WalkIsInjective(s, x, i, k - 1);
      }
    }
  }

  lemma TourReaches(s: set<nat>, x: nat, y: nat) returns (i: nat)
    requires x in s && y in s
    ensures i < |s| && Walk(s, x, i) == y
  {
    VisitedSize(s, x, |s|);
    SubsetSize(Visited(s, x, |s|), s);
    i := StepOfVisit(s, x, |s|, y);
  }

  /** Step `i` of the tour that starts at `x` meets `y`. */
  ghost predicate MeetsAt(s: set<nat>, x: nat, i: nat, y: nat) {
    Walk(s, x, i) == y
  }

  lemma MeetsOnce(s: set<nat>, x: nat, i: nat, j: nat, y: nat)
    requires x in s && i < |s| && j < |s| && MeetsAt(s, x, i, y) && MeetsAt(s, x, j, y)
    ensures i == j
  {
    if i < j {
      WalkIsInjective(s, x, i, j);
    } else if j < i {
      WalkIsInjective(s, x, j, i);
    }
  }

  /** Following successors from any member meets every member exactly once per round, and the
      round ends where it started. */
  lemma TourMeetsEachOnce(s: set<nat>, x: nat)
    requires x in s
    ensures forall y | y in s :: exists i | 0 <= i < |s| :: MeetsAt(s, x, i, y)
    ensures forall i, j, y | 0 <= i < |s| && 0 <= j < |s| && MeetsAt(s, x, i, y) && MeetsAt(s, x, j, y) :: i == j
    ensures MeetsAt(s, x, |s|, x)
  {
    forall y | y in s ensures exists i | 0 <= i < |s| :: MeetsAt(s, x, i, y) {
      var i := TourReaches(s, x, y);
      assert MeetsAt(s, x, i, y);
    }
    forall i, j, y | 0 <= i < |s| && 0 <= j < |s| && MeetsAt(s, x, i, y) && MeetsAt(s, x, j, y)
      ensures i == j
    {
      MeetsOnce(s, x, i, j, y);
    }
    WalkCloses(s, x);
  }
}
