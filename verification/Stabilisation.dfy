/**
 Self-stabilisation of the list of active stations.

 Whatever a listening station believes about the ring, witnessing the token go around three times
 leaves it with exactly the stations that passed the token, and the list is declared valid.
 */
module Stabilisation {
  import opened CyclicOrder
  import opened TokenRings

  /** Witness `k` token passes of the ring `s`, the first one sent by `x`. */
  ghost function Feed(r: RingView, s: set<nat>, x: nat, k: nat): RingView
    decreases k
  {
    if k == 0 then r else Feed(Witness(r, x, Next(s, x)), s, Next(s, x), k - 1)
  }

  /** A ring of stations that can be learned from token passes. */
  ghost predicate IsRing(s: set<nat>) {
    s != {} && forall a | a in s :: a <= MAX_ADDRESS
  }

  /** On the arc from `y` to its successor, the LAS knows `y` and nobody else. */
  ghost predicate Settled(las: set<nat>, s: set<nat>, y: nat) {
    forall a | InArc(y, Next(s, y), a) :: a in las <==> a == y
  }

  lemma ArcsAreDisjoint(s: set<nat>, y: nat, z: nat, a: nat)
    requires y in s && z in s && InArc(y, Next(s, y), a) && InArc(z, Next(s, z), a)
    ensures y == z
  {
    assert InArc(y, Next(s, y), z) ==> y == z;
    assert InArc(z, Next(s, z), y) ==> y == z;
  }

  lemma LearnSettles(las: set<nat>, s: set<nat>, y: nat)
    requires y in s
    ensures Settled(Learn(las, y, Next(s, y)), s, y)
    ensures forall z | z in s && Settled(las, s, z) :: Settled(Learn(las, y, Next(s, y)), s, z)
  {
    var l := Learn(las, y, Next(s, y));
    forall a | InArc(y, Next(s, y), a) ensures a in l <==> a == y {
      LearnIsLocal(las, y, Next(s, y), a);
    }
    forall z | z in s && Settled(las, s, z) ensures Settled(l, s, z) {
      forall a | InArc(z, Next(s, z), a) ensures a in l <==> a == z {
        LearnIsLocal(las, y, Next(s, y), a);
        if InArc(y, Next(s, y), a) {
          ArcsAreDisjoint(s, y, z, a);
        }
      }
    }
  }

  /** When every arc is settled, the LAS is exactly the ring. */
  lemma SettledEverywhere(las: set<nat>, s: set<nat>)
    requires s != {} && forall y | y in s :: Settled(las, s, y)
    ensures las == s
  {
    forall a ensures a in las <==> a in s {
      if a in s {
        assert InArc(a, Next(s, a), a);
      } else {
        var y := Previous(s, a);
        PreviousOfNext(s, y);
        assert InArc(y, Next(s, y), a);
      }
    }
  }

  lemma RingIsSettled(s: set<nat>, y: nat)
    requires y in s
    ensures Settled(s, s, y) && Agrees(s, y, Next(s, y))
  {
    assert InArc(y, Next(s, y), y);
  }

  // ---------------------------------------------------------------------------------------------
  // Progress in stages: each wrap-around of the token takes the list one stage further
  // ---------------------------------------------------------------------------------------------

  ghost predicate InRoundTwo(r: RingView, s: set<nat>, x: nat)
    requires s != {}
  {
    && (forall y | y in s && y < x :: Settled(r.las, s, y))
    && match r.lasState
       case Uninitialized => false
       case Discovery => true
       case Verification => Settled(r.las, s, Greatest(s))
       case Valid => true
  }

  /** `x` is about to pass the token on, and the token has wrapped around `stage` times. */
  ghost predicate Stage(stage: nat, r: RingView, s: set<nat>, x: nat)
    requires IsRing(s)
  {
    && WellFormed(r)
    && match stage
       case 0 => true
       case 1 => InRoundTwo(r, s, x)
       case 2 => r.las == s && (r.lasState == Verification || r.lasState == Valid)
       case _ => r.las == s && r.lasState == Valid
  }

  lemma WrapsAtGreatest(s: set<nat>, x: nat)
    requires x in s
    ensures Next(s, x) <= x <==> x == Greatest(s)
    ensures x == Greatest(s) ==> Next(s, x) == Least(s)
    ensures x != Greatest(s) ==> forall y | y in s && y < Next(s, x) :: y <= x
  {
    if x == Greatest(s) {
      NextIsUnique(s, x, Least(s));
    }
  }

  /** Once discovery has begun, the LAS always ends up as if it had learned from the pass. */
  lemma WitnessLearns(r: RingView, sa: nat, da: nat)
    requires sa <= MAX_ADDRESS && da <= MAX_ADDRESS && r.lasState != Uninitialized
    ensures Witness(r, sa, da).las == Learn(r.las, sa, da)
  {
    if Agrees(r.las, sa, da) {
      AgreeingPassTeachesNothing(r.las, sa, da);
    }
  }

  lemma LearnSettlesFurther(las: set<nat>, s: set<nat>, x: nat)
    requires s != {} && x in s && forall y | y in s && y < x :: Settled(las, s, y)
    ensures var l := Learn(las, x, Next(s, x));
            if x == Greatest(s) then l == s else forall y | y in s && y < Next(s, x) :: Settled(l, s, y)
  {
    LearnSettles(las, s, x);
    WrapsAtGreatest(s, x);
    if x == Greatest(s) {
      SettledEverywhere(Learn(las, x, Next(s, x)), s);
    }
  }

  /** A wrap-around from settled arcs agrees with the LAS. */
  lemma SettledWrapAgrees(las: set<nat>, s: set<nat>)
    requires s != {} && Settled(las, s, Greatest(s)) && Settled(las, s, Least(s))
    ensures Agrees(las, Greatest(s), Least(s))
  {
    var x := Greatest(s);
    WrapsAtGreatest(s, x);
    assert InArc(x, Next(s, x), x);
    assert InArc(Least(s), Next(s, Least(s)), Least(s));
  }

  lemma StageZeroStep(r: RingView, s: set<nat>, x: nat)
    requires IsRing(s) && x in s && Stage(0, r, s, x)
    ensures var w := Witness(r, x, Next(s, x));
            if x == Greatest(s) then Stage(1, w, s, Next(s, x)) else Stage(0, w, s, Next(s, x))
  {
    hide FollowsIn, PrecedesIn, InArc, Greatest, Least, Next, Previous, WellFormed, Learn, Agrees;
    var n := Next(s, x);
    OperationsKeepWellFormed(r, x, n, 0);
    WrapsAtGreatest(s, x);
    if x == Greatest(s) {
      WitnessSettles(r, s, x);
      assert forall y | y in s :: !(y < n);
    }
  }

  /** Once discovery has begun, a pass settles its own arc. */
  lemma WitnessSettles(r: RingView, s: set<nat>, x: nat)
    requires IsRing(s) && x in s
    ensures r.lasState != Uninitialized ==> Settled(Witness(r, x, Next(s, x)).las, s, x)
  {
    hide FollowsIn, Witness;
    if r.lasState != Uninitialized {
      WitnessLearns(r, x, Next(s, x));
      LearnSettles(r.las, s, x);
    }
  }

  lemma LateStageStep(stage: nat, r: RingView, s: set<nat>, x: nat)
    requires IsRing(s) && x in s && 2 <= stage <= 3 && Stage(stage, r, s, x)
    ensures var w := Witness(r, x, Next(s, x));
            if x == Greatest(s) && stage == 2 then Stage(3, w, s, Next(s, x)) else Stage(stage, w, s, Next(s, x))
  {
    hide FollowsIn, PrecedesIn, InArc, Greatest, Least, Next, Previous, WellFormed, Learn, Agrees;
    var n := Next(s, x);
    OperationsKeepWellFormed(r, x, n, 0);
    WrapsAtGreatest(s, x);
    RingIsSettled(s, x);
    AgreeingPassTeachesNothing(s, x, n);
  }

  lemma StageOneStep(r: RingView, s: set<nat>, x: nat)
    requires IsRing(s) && x in s && Stage(1, r, s, x)
    ensures var w := Witness(r, x, Next(s, x));
            if x == Greatest(s) then Stage(2, w, s, Next(s, x)) else Stage(1, w, s, Next(s, x))
  {
    hide FollowsIn, PrecedesIn, InArc, Greatest, Least, Next, Previous;
    var n := Next(s, x);
    WitnessLearns(r, x, n);
    LearnSettlesFurther(r.las, s, x);
    WrapsAtGreatest(s, x);
    if r.lasState == Verification {
      if x == Greatest(s) {
        SettledWrapAgrees(r.las, s);
      } else {
        LearnSettles(r.las, s, x);
      }
    }
  }

  lemma StageStep(stage: nat, r: RingView, s: set<nat>, x: nat)
    requires IsRing(s) && x in s && stage <= 3 && Stage(stage, r, s, x)
    ensures var w := Witness(r, x, Next(s, x));
            if x == Greatest(s) && stage < 3 then Stage(stage + 1, w, s, Next(s, x))
            else Stage(stage, w, s, Next(s, x))
  {
    hide Stage, FollowsIn;
    if stage == 0 {
      StageZeroStep(r, s, x);
    } else if stage == 1 {
      StageOneStep(r, s, x);
    } else {
      LateStageStep(stage, r, s, x);
    }
  }

  function StageAfter(stage: nat, wraps: bool): nat {
    if wraps && stage < 3 then stage + 1 else stage
  }

  /** How many passes are still missing before the last stage is reached. */
  ghost function Missing(stage: nat, s: set<nat>, x: nat): int {
    match stage
    case 0 => 3 * |s| - Rank(s, x)
    case 1 => 2 * |s| - Rank(s, x)
    case 2 => |s| - Rank(s, x)
    case _ => 0
  }

  lemma RankOfGreatest(s: set<nat>)
    requires s != {}
    ensures Rank(s, Greatest(s)) == |s| - 1
  {
    hide Greatest;
    var x := Greatest(s);
    assert s == Below(s, x) + {x};
  }

  lemma RankAfterGreatest(s: set<nat>, x: nat)
    requires x in s
    ensures Rank(s, x) < |s|
    ensures x == Greatest(s) ==> Rank(s, x) == |s| - 1 && Rank(s, Next(s, x)) == 0
    ensures x != Greatest(s) ==> Rank(s, Next(s, x)) == Rank(s, x) + 1
  {
    hide FollowsIn, InArc, Greatest, Least, Next, Rank;
    WrapsAtGreatest(s, x);
    RankBelowSize(s, x);
    RankOfNext(s, x);
    if x == Greatest(s) {
      RankOfGreatest(s);
    } else {
      RankIsStrict(s, x, Next(s, x));
    }
  }

  lemma MissingDecreases(stage: nat, s: set<nat>, x: nat)
    requires x in s && stage < 3
    ensures Missing(StageAfter(stage, x == Greatest(s)), s, Next(s, x)) == Missing(stage, s, x) - 1
    ensures Missing(stage, s, x) > 0
  {
    RankAfterGreatest(s, x);
  }

  lemma {:induction false} StagesAdvance(stage: nat, r: RingView, s: set<nat>, x: nat, k: nat)
    requires IsRing(s) && x in s && stage <= 3 && Stage(stage, r, s, x) && k >= Missing(stage, s, x)
    ensures Stage(3, Feed(r, s, x, k), s, x)
    decreases k
  {
    if stage < 3 {
      MissingDecreases(stage, s, x);
    }
    if k > 0 {
      StageStep(stage, r, s, x);
      StagesAdvance(StageAfter(stage, x == Greatest(s)), Witness(r, x, Next(s, x)), s, Next(s, x), k - 1);
    }
  }

  /** From any LAS content and any LAS state, three or more clean rotations of a ring leave the LAS
      equal to that ring and valid, with the neighbours being the cyclic neighbours in the ring. */
  lemma ThreeRotationsStabilise(r: RingView, s: set<nat>, x: nat, k: nat)
    requires WellFormed(r) && IsRing(s) && x in s && k >= 3 * |s|
    ensures var f := Feed(r, s, x, k);
            && f.las == s && f.lasState == Valid && f.ts == r.ts
            && f.ns == Next(s, r.ts) && f.ps == Previous(s, r.ts)
  {
    StagesAdvance(0, r, s, x, k);
    FeedKeepsStation(r, s, x, k);
  }

  lemma {:induction false} FeedKeepsStation(r: RingView, s: set<nat>, x: nat, k: nat)
    ensures Feed(r, s, x, k).ts == r.ts
    decreases k
  {
    if k > 0 {
      FeedKeepsStation(Witness(r, x, Next(s, x)), s, Next(s, x), k - 1);
    }
  }

  // ---------------------------------------------------------------------------------------------
  // How many passes a station needs that has just begun to listen
  // ---------------------------------------------------------------------------------------------

  /** The discovery state of such a station after the token has wrapped around `stage` times. */
  function StateAtStage(stage: nat): LasState {
    match stage
    case 0 => Uninitialized
    case 1 => Discovery
    case 2 => Verification
    case _ => Valid
  }

  lemma StateFollowsStage(stage: nat, r: RingView, s: set<nat>, x: nat)
    requires IsRing(s) && x in s && stage <= 3 && Stage(stage, r, s, x) && r.lasState == StateAtStage(stage)
    ensures var w := Witness(r, x, Next(s, x)); w.lasState == StateAtStage(StageAfter(stage, x == Greatest(s)))
  {
    hide FollowsIn, PrecedesIn, InArc, Greatest, Least, Next, Previous, WellFormed, Learn, Agrees;
    WrapsAtGreatest(s, x);
    RingIsSettled(s, x);
  }

  lemma {:induction false} ValidExactlyWhenNothingIsMissing(stage: nat, r: RingView, s: set<nat>, x: nat, k: nat)
    requires IsRing(s) && x in s && stage <= 3 && Stage(stage, r, s, x) && r.lasState == StateAtStage(stage)
    ensures Feed(r, s, x, k).lasState == Valid <==> k >= Missing(stage, s, x)
    decreases k
  {
    hide Stage, FollowsIn;
    if stage < 3 {
      MissingDecreases(stage, s, x);
    }
    if k > 0 {
      StageStep(stage, r, s, x);
      StateFollowsStage(stage, r, s, x);
      var after := StageAfter(stage, x == Greatest(s));
      ValidExactlyWhenNothingIsMissing(after, Witness(r, x, Next(s, x)), s, Next(s, x), k - 1);
    }
  }

  /** A station that has just begun to listen finds its LAS valid exactly from the third wrap-around of the token
      on: after three rotations less the places that the first sender is ahead of the lowest address. */
  lemma ValidExactlyAtThirdWrap(r: RingView, s: set<nat>, x: nat, k: nat)
    requires WellFormed(r) && IsRing(s) && x in s && r.lasState == Uninitialized
    ensures Feed(r, s, x, k).lasState == Valid <==> k >= 3 * |s| - Rank(s, x)
  {
    ValidExactlyWhenNothingIsMissing(0, r, s, x, k);
  }

  /** So two rotations are never enough, whatever the ring is and whoever sends first. */
  lemma TwoRotationsAreNotEnough(r: RingView, s: set<nat>, x: nat)
    requires WellFormed(r) && IsRing(s) && x in s && r.lasState == Uninitialized
    ensures Feed(r, s, x, 2 * |s|).lasState != Valid
  {
    ValidExactlyAtThirdWrap(r, s, x, 2 * |s|);
    RankBelowSize(s, x);
  }
}
