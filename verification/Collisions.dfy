/**
 Two stations with the same address: when this station gives way.
 */
module Collisions {
  import opened BusParameters
  import opened PhysicalLayer
  import opened Stations

  /** A token telegram that names this station as its sender, although this station did not send it. */
  predicate OwnToken(p: Parameters, d: Delivery) {
    d.telegram.Token? && d.telegram.sa == p.address
  }

  predicate OtherToken(p: Parameters, d: Delivery) {
    d.telegram.Token? && d.telegram.sa != p.address
  }

  /** Telegram `j` is a token in the name of this station and no other station's token comes before it. */
  ghost predicate FirstTokenIsOwn(p: Parameters, ds: seq<Delivery>, j: nat) {
    j < |ds| && OwnToken(p, ds[j]) && forall k | 0 <= k < j :: !OtherToken(p, ds[k])
  }

  /** Telegrams `i` and `j` are tokens in the name of this station, and no other station's token comes between
      them. */
  ghost predicate BackToBack(p: Parameters, ds: seq<Delivery>, i: nat, j: nat) {
    i < j < |ds| && OwnToken(p, ds[i]) && FirstTokenIsOwn(p, ds[i + 1..], j - i - 1)
  }

  ghost predicate Collides(p: Parameters, ds: seq<Delivery>, count: nat) {
    (count >= 1 && exists j :: FirstTokenIsOwn(p, ds, j)) || exists i, j :: BackToBack(p, ds, i, j)
  }

  /** What the first telegram of a batch contributes to a collision. */
  lemma CollidesStep(p: Parameters, ds: seq<Delivery>, count: nat)
    requires ds != [] && count <= 1
    ensures Collides(p, ds, count)
            <==> if OwnToken(p, ds[0]) then count == 1 || Collides(p, ds[1..], 1)
                 else if OtherToken(p, ds[0]) then Collides(p, ds[1..], 0)
                 else Collides(p, ds[1..], count)
  {
    var rest := ds[1..];
    forall j: nat ensures FirstTokenIsOwn(p, rest, j) && !OtherToken(p, ds[0]) ==> FirstTokenIsOwn(p, ds, j + 1) {
    }
    forall j: nat
      ensures FirstTokenIsOwn(p, ds, j) ==> if j == 0 then OwnToken(p, ds[0]) else FirstTokenIsOwn(p, rest, j - 1)
    {
      if FirstTokenIsOwn(p, ds, j) && j > 0 {
        assert forall k | 0 <= k < j - 1 :: rest[k] == ds[k + 1];
      }
    }
    forall i: nat, j: nat ensures BackToBack(p, rest, i, j) ==> BackToBack(p, ds, i + 1, j + 1) {
      if BackToBack(p, rest, i, j) {
        assert rest[i + 1..] == ds[i + 2..];
      }
    }
    forall i: nat, j: nat
      ensures BackToBack(p, ds, i, j) ==>
                if i == 0 then OwnToken(p, ds[0]) && FirstTokenIsOwn(p, rest, j - 1)
                else BackToBack(p, rest, i - 1, j - 1)
    {
      if BackToBack(p, ds, i, j) && i > 0 {
        assert rest[i..] == ds[i + 1..];
      }
    }
    forall j: nat ensures FirstTokenIsOwn(p, rest, j) && OwnToken(p, ds[0]) ==> BackToBack(p, ds, 0, j + 1) {
    }
    if OwnToken(p, ds[0]) {
      assert FirstTokenIsOwn(p, ds, 0);
    }
  }

  /** A station in the ring goes back to listening exactly when it witnesses two token telegrams in its own name
      with no token of another station between them. */
  lemma {:induction false} LeavesRingExactlyOnCollision(f: Fdl, now: int, ds: seq<Delivery>)
    requires f.state.ActiveIdle? && f.state.collisionCount <= 1 && LastEndsBatch(ds)
    ensures HandleAll(f, now, ds).state.ListenToken? <==> Collides(f.p, ds, f.state.collisionCount)
    decreases |ds|
  {
    if ds != [] {
      var g := HandleTelegram(MarkRx(f, now), now, ds[0]);
      CollidesStep(f.p, ds, f.state.collisionCount);
      if g.state.ListenToken? {
        ListeningStays(g, now, ds[1..]);
      } else if g.state.ActiveIdle? {
        LeavesRingExactlyOnCollision(g, now, ds[1..]);
      }
    }
  }

  lemma {:induction false} ListeningStays(f: Fdl, now: int, ds: seq<Delivery>)
    requires f.state.ListenToken? && LastEndsBatch(ds)
    ensures HandleAll(f, now, ds).state == f.state
    decreases |ds|
  {
    if ds != [] {
      ListeningStays(HandleTelegram(MarkRx(f, now), now, ds[0]), now, ds[1..]);
    }
  }

  /** How many telegrams name this station as their sender. */
  function InOwnName(p: Parameters, ds: seq<Delivery>): nat {
    if ds == [] then 0
    else (if ds[0].telegram.SourceAddress() == Some(p.address % 256) then 1 else 0) + InOwnName(p, ds[1..])
  }

  /** A listening station goes offline exactly when it has heard two telegrams in its own name since it began
      to listen. */
  lemma {:induction false} GoesOfflineExactlyOnCollision(f: Fdl, now: int, ds: seq<Delivery>)
    requires f.online && f.state.ListenToken? && f.state.collisionCount <= 1 && f.p.address < 256
    ensures ListenToAll(f, now, ds).online <==> f.state.collisionCount + InOwnName(f.p, ds) < 2
    decreases |ds|
  {
    if ds != [] {
      var g := ListenTo(f, now, ds[0]);
      if g.online {
        GoesOfflineExactlyOnCollision(g, now, ds[1..]);
      } else {
        OfflineStays(g, now, ds[1..]);
      }
    }
  }

  lemma {:induction false} OfflineStays(f: Fdl, now: int, ds: seq<Delivery>)
    requires !f.online
    ensures !ListenToAll(f, now, ds).online
    decreases |ds|
  {
    if ds != [] {
      OfflineStays(ListenTo(f, now, ds[0]), now, ds[1..]);
    }
  }
}
