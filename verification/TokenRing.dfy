/**
 The list of active stations (LAS) and this station's place in the token ring.

 `RingView` is the mathematical value of a token ring and the functions on it say what each
 operation does.  The class `TokenRing` keeps the LAS as a bit array that is updated in place;
 its methods are proved to implement those functions.
 */
module TokenRings {
  import opened CyclicOrder

  /** The LAS has one entry for each of these many addresses. */
  const LAS_SIZE: nat := 128
  /** Token passes from or to an address above this one are ignored. */
  const MAX_ADDRESS: nat := 125

  datatype LasState = Uninitialized | Discovery | Verification | Valid

  /** `las`: active stations; `ts`, `ns`, `ps`: this, next and previous station. */
  datatype RingView = RingView(las: set<nat>, lasState: LasState, ts: nat, ns: nat, ps: nat)

  ghost predicate AllBelow(s: set<nat>, bound: nat) {
    forall a | a in s :: a < bound
  }

  /** The neighbours are the cyclic neighbours of this station in the LAS. */
  ghost predicate NeighboursAgree(r: RingView) {
    r.ns == Next(r.las, r.ts) && r.ps == Previous(r.las, r.ts)
  }

  ghost predicate WellFormed(r: RingView) {
    && AllBelow(r.las, LAS_SIZE)
    && r.ts <= MAX_ADDRESS
    && NeighboursAgree(r)
  }

  // ---------------------------------------------------------------------------------------------
  // What the operations do to the value of a ring
  // ---------------------------------------------------------------------------------------------

  function NewRing(address: nat): (r: RingView) {
    RingView({address}, Uninitialized, address, address, address)
  }

  /** The LAS agrees with a token pass: both ends are active and nobody in between is. */
  ghost predicate Agrees(las: set<nat>, sa: nat, da: nat) {
    sa in las && da in las && forall a | a in las && InArc(sa, da, a) :: a == sa
  }

  /** The LAS after learning from a token pass: only the sender is active on the arc it spans. */
  ghost function Learn(las: set<nat>, sa: nat, da: nat): set<nat> {
    (set a | a in las && !InArc(sa, da, a)) + {sa}
  }

  ghost function Refresh(r: RingView): RingView {
    r.(ns := Next(r.las, r.ts), ps := Previous(r.las, r.ts))
  }

  ghost function Update(r: RingView, sa: nat, da: nat): RingView {
    Refresh(r.(las := Learn(r.las, sa, da)))
  }

  ghost function Witness(r: RingView, sa: nat, da: nat): RingView {
    if sa > MAX_ADDRESS || da > MAX_ADDRESS then r
    else match r.lasState
      case Uninitialized =>
        if da <= sa then r.(lasState := Discovery) else r
      case Discovery =>
        var u := Update(r, sa, da);
        if da <= sa then u.(lasState := Verification) else u
      case Verification =>
        if !Agrees(r.las, sa, da) then Update(r, sa, da).(lasState := Discovery)
        else if da <= sa then r.(lasState := Valid)
        else r
      case Valid =>
        Update(r, sa, da)
  }

  function Claim(r: RingView): RingView {
    r.(lasState := Valid)
  }

  ghost function SetNext(r: RingView, address: nat): RingView {
    Update(r.(las := r.las + {address}), r.ts, address)
  }

  ghost function Remove(r: RingView, address: nat): RingView {
    Refresh(r.(las := r.las - {address}))
  }

  // ---------------------------------------------------------------------------------------------
  // Properties of the operations
  // ---------------------------------------------------------------------------------------------

  /** A token pass that the LAS agrees with teaches nothing. */
  lemma AgreeingPassTeachesNothing(las: set<nat>, sa: nat, da: nat)
    requires Agrees(las, sa, da)
    ensures Learn(las, sa, da) == las
  {
    assert InArc(sa, da, sa);
  }

  /** After learning from a pass, the LAS agrees with that pass as soon as its receiver is known
      to be active, and learning from it again changes nothing. */
  lemma LearnThenAgree(las: set<nat>, sa: nat, da: nat)
    ensures var l := Learn(las, sa, da); Agrees(l + {da}, sa, da) && Learn(l, sa, da) == l
  {
  }

  /** Learning from a pass settles its own arc and leaves the rest of the circle alone. */
  lemma LearnIsLocal(las: set<nat>, sa: nat, da: nat, a: nat)
    ensures a in Learn(las, sa, da) <==> if InArc(sa, da, a) then a == sa else a in las
  {
    assert InArc(sa, da, sa);
  }

  /** A station's own token pass to its next station only adds the station itself to the LAS. */
  lemma OwnPassAddsOnlyThisStation(r: RingView)
    requires r.ns == Next(r.las, r.ts)
    ensures Learn(r.las, r.ts, r.ns) == r.las + {r.ts}
  {
    var l := Learn(r.las, r.ts, r.ns);
    forall a ensures a in l <==> a in r.las + {r.ts} {
      LearnIsLocal(r.las, r.ts, r.ns, a);
    }
  }

  /** The neighbours do not depend on whether this station itself is in a LAS with others. */
  lemma NextIgnoresSelf(s: set<nat>, x: nat)
    ensures s - {x} != {} ==> Next(s + {x}, x) == Next(s, x) == Next(s - {x}, x)
    ensures s - {x} != {} ==> Previous(s + {x}, x) == Previous(s, x) == Previous(s - {x}, x)
    ensures s - {x} == {} ==> Next(s + {x}, x) == Next(s, x) == Next(s - {x}, x) == x
    ensures s - {x} == {} ==> Previous(s + {x}, x) == Previous(s, x) == Previous(s - {x}, x) == x
  {
    if s - {x} != {} {
      var n, p := Next(s - {x}, x), Previous(s - {x}, x);
      assert n != x && p != x;
      NextIsUnique(s, x, n);
      NextIsUnique(s + {x}, x, n);
      PreviousIsUnique(s, x, p);
      PreviousIsUnique(s + {x}, x, p);
    } else {
      assert forall a | a in s :: a in s - {x} || a == x;
    }
  }

  /** Adopting a next station makes exactly that station the next one. */
  lemma SetNextMakesItNext(r: RingView, address: nat)
    ensures SetNext(r, address).ns == address
    ensures address != r.ts ==> address in SetNext(r, address).las
  {
    var las := SetNext(r, address).las;
    forall a | a in las && InArc(r.ts, address, a) ensures a == r.ts {
      LearnIsLocal(r.las + {address}, r.ts, address, a);
    }
    LearnIsLocal(r.las + {address}, r.ts, address, address);
    assert address == r.ts ==> address in las;
    NextIsUnique(las, r.ts, address);
  }

  /** Every operation keeps the neighbours in step with the LAS. */
  lemma OperationsKeepWellFormed(r: RingView, sa: nat, da: nat, address: nat)
    requires WellFormed(r)
    ensures WellFormed(Witness(r, sa, da))
    ensures WellFormed(Claim(r))
    ensures address < LAS_SIZE ==> WellFormed(SetNext(r, address))
    ensures WellFormed(Remove(r, address))
  {
    hide FollowsIn, PrecedesIn, InArc;
  }

  /** No operation moves the station or brings in an address it was not given. */
  lemma OperationsKeepAddresses(r: RingView, sa: nat, da: nat, address: nat, bound: nat)
    requires AllBelow(r.las, bound) && MAX_ADDRESS < bound
    ensures AllBelow(Witness(r, sa, da).las, bound) && Witness(r, sa, da).ts == r.ts
    ensures address < bound && r.ts < bound ==>
              AllBelow(SetNext(r, address).las, bound) && SetNext(r, address).ts == r.ts
    ensures AllBelow(Remove(r, address).las, bound) && Remove(r, address).ts == r.ts
    ensures r.lasState == Valid ==> Witness(r, sa, da).lasState == Valid
    ensures SetNext(r, address).lasState == Remove(r, address).lasState == r.lasState
  {
    hide FollowsIn, PrecedesIn, InArc;
  }

  // ---------------------------------------------------------------------------------------------
  // The token ring as it is kept by a station
  // ---------------------------------------------------------------------------------------------

  class TokenRing {
    const activeStations: array<bool>
    var lasState: LasState
    const thisStation: nat
    var nextStation: nat
    var previousStation: nat

    ghost predicate Valid()
      reads this, activeStations
    {
      && activeStations.Length == LAS_SIZE
      && WellFormed(View())
    }

    ghost function Stations(): set<nat>
      reads activeStations
    {
      set a: nat | a < activeStations.Length && activeStations[a]
    }

    ghost function View(): RingView
      reads this, activeStations
    {
      RingView(Stations(), lasState, thisStation, nextStation, previousStation)
    }

    constructor (address: nat)
      requires address <= MAX_ADDRESS
      ensures Valid() && fresh(activeStations)
      ensures View() == NewRing(address)
    {
      activeStations := new bool[LAS_SIZE](i => i == address);
      lasState := Uninitialized;
      thisStation, nextStation, previousStation := address, address, address;
      new;
      assert Stations() == {address};
    }

    /** Start over as a new ring of this station. */
    method Reset()
      requires Valid()
      modifies this, activeStations
      ensures Valid() && View() == NewRing(thisStation)
    {
      Clear(0, LAS_SIZE);
      activeStations[thisStation] := true;
      lasState := Uninitialized;
      nextStation, previousStation := thisStation, thisStation;
      assert Stations() == {thisStation};
    }

    /** Whether any station in the range `lo..hi` is active. */
    predicate AnyActive(lo: nat, hi: nat)
      requires lo <= hi <= activeStations.Length
      reads activeStations
    {
      exists a | lo <= a < hi :: activeStations[a]
    }

    method VerifyLasFromTokenPass(sa: nat, da: nat) returns (ok: bool)
      requires Valid() && sa < LAS_SIZE && da < LAS_SIZE
      ensures ok == Agrees(Stations(), sa, da)
    {
      if !activeStations[sa] {
        return false;
      }
      if !activeStations[da] {
        return false;
      }
      if da > sa {
        if AnyActive(sa + 1, da) {
          ghost var a :| sa + 1 <= a < da && activeStations[a];
          assert a in Stations() && InArc(sa, da, a);
          return false;
        }
      } else {
        if AnyActive(sa + 1, LAS_SIZE) {
          ghost var a :| sa + 1 <= a < LAS_SIZE && activeStations[a];
          assert a in Stations() && InArc(sa, da, a);
          return false;
        }
        if AnyActive(0, da) {
          ghost var a :| 0 <= a < da && activeStations[a];
          assert a in Stations() && InArc(sa, da, a);
          return false;
        }
      }
      return true;
    }

    /** Mark the stations in the range `lo..hi` as not active. */
    method Clear(lo: nat, hi: nat)
      requires lo <= hi <= activeStations.Length
      modifies activeStations
      ensures forall a | 0 <= a < activeStations.Length ::
                activeStations[a] == (old(activeStations[a]) && !(lo <= a < hi))
    {
      for i := lo to hi
        invariant forall a | 0 <= a < activeStations.Length ::
                    activeStations[a] == (old(activeStations[a]) && !(lo <= a < i))
      {
        activeStations[i] := false;
      }
    }

    method UpdateLasFromTokenPass(sa: nat, da: nat)
      requires activeStations.Length == LAS_SIZE && sa < LAS_SIZE && da < LAS_SIZE
      modifies this, activeStations
      ensures View() == old(Update(View(), sa, da))
    {
      if da > sa {
        Clear(sa, da);
      } else {
        Clear(sa, LAS_SIZE);
        Clear(0, da);
      }
      activeStations[sa] := true;
      assert Stations() == Learn(old(Stations()), sa, da);
      UpdateNextPrevious();
    }

    /** The first active station at or above `from`, or the size of the LAS. */
    function FirstActive(from: nat): (a: nat)
      requires from <= activeStations.Length
      reads activeStations
      ensures from <= a <= activeStations.Length
      ensures a < activeStations.Length ==> activeStations[a]
      ensures forall b | from <= b < a :: !activeStations[b]
      decreases activeStations.Length - from
    {
      if from == activeStations.Length || activeStations[from] then from else FirstActive(from + 1)
    }

    /** One more than the last active station below `before`, or 0. */
    function LastActive(before: nat): (a: nat)
      requires before <= activeStations.Length
      reads activeStations
      ensures a <= before
      ensures a > 0 ==> activeStations[a - 1]
      ensures forall b | a <= b < before :: !activeStations[b]
    {
      if before == 0 || activeStations[before - 1] then before else LastActive(before - 1)
    }

    method UpdateNextPrevious()
      requires activeStations.Length == LAS_SIZE
      modifies this`nextStation, this`previousStation
      ensures View() == old(Refresh(View()))
    {
      var size := activeStations.Length;
      var next := FirstActive(if thisStation + 1 < size then thisStation + 1 else size);
      if next == size {
        next := FirstActive(0);
      }
      var previous := LastActive(if thisStation < size then thisStation else size);
      if previous == 0 {
        previous := LastActive(size);
      }
      ghost var s := Stations();
      if next == size {
        assert s == {};
      } else {
        assert next in s && previous > 0 && previous - 1 in s;
        NextIsUnique(s, thisStation, next);
        PreviousIsUnique(s, thisStation, previous - 1);
      }
      nextStation := if next < size then next else thisStation;
      previousStation := if previous > 0 then previous - 1 else thisStation;
    }

    method WitnessTokenPass(sa: nat, da: nat)
      requires Valid()
      modifies this, activeStations
      ensures Valid() && View() == old(Witness(View(), sa, da))
    {
      if sa > MAX_ADDRESS {
        return;
      }
      if da > MAX_ADDRESS {
        return;
      }
      match lasState {
        case Uninitialized =>
          if da <= sa {
            lasState := Discovery;
          }
        case Discovery =>
          UpdateLasFromTokenPass(sa, da);
          if da <= sa {
            lasState := Verification;
          }
        case Verification =>
          var ok := VerifyLasFromTokenPass(sa, da);
          if !ok {
            UpdateLasFromTokenPass(sa, da);
            lasState := Discovery;
          } else if da <= sa {
            lasState := LasState.Valid;
          }
        case Valid =>
          UpdateLasFromTokenPass(sa, da);
      }
    }

    method ClaimToken()
      requires Valid()
      modifies this`lasState
      ensures Valid() && View() == old(Claim(View()))
    {
      lasState := LasState.Valid;
    }

    method SetNextStation(address: nat)
      requires Valid() && address < LAS_SIZE
      modifies this, activeStations
      ensures Valid() && View() == old(SetNext(View(), address))
      ensures nextStation == address
    {
      activeStations[address] := true;
      assert Stations() == old(Stations()) + {address};
      UpdateLasFromTokenPass(thisStation, address);
      SetNextMakesItNext(old(View()), address);
    }

    method RemoveStation(address: nat)
      requires Valid() && address < LAS_SIZE
      modifies this, activeStations
      ensures Valid() && View() == old(Remove(View(), address))
    {
      activeStations[address] := false;
      assert Stations() == old(Stations()) - {address};
      UpdateNextPrevious();
    }
  }
}
