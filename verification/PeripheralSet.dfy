/**
 The storage of a DP master: a row of slots, some of which hold a peripheral.
 */
module PeripheralSets {
  import opened BusParameters
  import opened Telegrams
  import opened Peripherals

  /** A slot index is a byte. */
  const MAX_SLOTS: nat := 256

  datatype Handle = Handle(index: nat, address: Byte)

  type Slots = seq<Option<PeripheralView>>

  /** The first occupied slot at or after `from`, or the number of slots. */
  function FirstFrom(slots: Slots, from: nat): (i: nat)
    requires from <= |slots|
    ensures from <= i <= |slots|
    ensures i < |slots| ==> slots[i].Some?
    ensures forall k | from <= k < i :: slots[k].None?
    decreases |slots| - from
  {
    if from == |slots| || slots[from].Some? then from else FirstFrom(slots, from + 1)
  }

  lemma FirstIs(slots: Slots, from: nat, i: nat)
    requires from <= i <= |slots| && (i < |slots| ==> slots[i].Some?)
    requires forall k | from <= k < i :: slots[k].None?
    ensures FirstFrom(slots, from) == i
  {
  }

  /** The occupied slot after the first one at or after `index`, if there is one. */
  function NextIndex(slots: Slots, index: nat): (next: Option<nat>)
    requires index <= |slots|
    ensures next.Some? ==> index < next.value < |slots| && slots[next.value].Some?
  {
    var i := FirstFrom(slots, index);
    if i == |slots| then None
    else
      var k := FirstFrom(slots, i + 1);
      if k == |slots| then None else Some(k)
  }

  /** The occupied slots below `k`, in order. */
  function OccupiedBelow(slots: Slots, k: nat): seq<nat>
    requires k <= |slots|
  {
    if k == 0 then []
    else if slots[k - 1].Some? then OccupiedBelow(slots, k - 1) + [k - 1]
    else OccupiedBelow(slots, k - 1)
  }

  /** That list has each occupied slot exactly once, in ascending order. */
  lemma {:induction false} OccupiedBelowIsSorted(slots: Slots, k: nat)
    requires k <= |slots|
    ensures var s := OccupiedBelow(slots, k);
            && (forall i | 0 <= i < |s| :: s[i] < k && slots[s[i]].Some?)
            && (forall i, j | 0 <= i < j < |s| :: s[i] < s[j])
            && (forall i | 0 <= i < k && slots[i].Some? :: i in s)
  {
    if k > 0 {
      OccupiedBelowIsSorted(slots, k - 1);
    }
  }

  /** Nothing is occupied between two occupied slots that follow each other. */
  lemma {:induction false} OccupiedAcrossGap(slots: Slots, lo: nat, hi: nat)
    requires lo <= hi <= |slots| && forall k | lo <= k < hi :: slots[k].None?
    ensures OccupiedBelow(slots, hi) == OccupiedBelow(slots, lo)
    decreases hi - lo
  {
    if lo < hi {
      OccupiedAcrossGap(slots, lo, hi - 1);
    }
  }

  /** Two rows of slots of which the same ones are occupied. */
  predicate SameOccupied(a: Slots, b: Slots) {
    |a| == |b| && forall i | 0 <= i < |a| :: a[i].Some? <==> b[i].Some?
  }

  lemma {:induction false} SameOccupiedBelow(a: Slots, b: Slots, k: nat)
    requires SameOccupied(a, b) && k <= |a|
    ensures OccupiedBelow(a, k) == OccupiedBelow(b, k)
  {
    if k > 0 {
      SameOccupiedBelow(a, b, k - 1);
    }
  }

  lemma {:induction false} SameFirstFrom(a: Slots, b: Slots, from: nat)
    requires SameOccupied(a, b) && from <= |a|
    ensures FirstFrom(a, from) == FirstFrom(b, from)
    decreases |a| - from
  {
    if from < |a| && a[from].None? {
      SameFirstFrom(a, b, from + 1);
    }
  }

  // ---------------------------------------------------------------------------------------------
  // The set as an object
  // ---------------------------------------------------------------------------------------------

  class PeripheralSet {
    var slots: seq<Peripheral?>
    /** A growable storage takes further peripherals when all slots are occupied. */
    const growable: bool

    ghost function Objects(): set<Peripheral>
      reads this
    {
      set i | 0 <= i < |slots| && slots[i] != null :: slots[i]
    }

    ghost predicate Valid()
      reads this
    {
      && |slots| <= MAX_SLOTS
      && forall i, j | 0 <= i < j < |slots| && slots[i] != null :: slots[i] != slots[j]
    }

    ghost function View(): Slots
      reads this, Objects()
    {
      seq(|slots|, i requires 0 <= i < |slots| reads this, Objects() =>
        if slots[i] == null then None else
          assert slots[i] in Objects();
          Some(slots[i].View()))
    }

    constructor (size: nat, growable: bool)
      requires size <= MAX_SLOTS
      ensures Valid() && Objects() == {} && View() == seq(size, i => None)
    {
      slots := seq(size, i => null);
      this.growable := growable;
    }

    /** Put a peripheral into the first free slot, or behind the last one if the storage can grow.  The
        program ends with a panic where this returns no handle. */
    method Add(peripheral: Peripheral) returns (handle: Option<Handle>)
      requires Valid() && peripheral !in Objects()
      modifies this
      ensures Valid()
      ensures match handle
              case None =>
                && View() == old(View()) && (forall i | 0 <= i < |slots| :: slots[i] != null)
                && (!growable || |slots| == MAX_SLOTS)
              case Some(h) =>
                && h == Handle(h.index, peripheral.address)
                && (h.index < old(|slots|) ==> old(slots)[h.index] == null)
                && (forall i | 0 <= i < h.index && i < old(|slots|) :: old(slots)[i] != null)
                && View() == (if h.index < old(|slots|) then old(View())[h.index := Some(peripheral.View())]
                              else old(View()) + [Some(peripheral.View())])
                && Objects() == old(Objects()) + {peripheral}
    {
      for i := 0 to |slots|
        invariant forall k | 0 <= k < i :: slots[k] != null
      {
        if slots[i] == null {
          ghost var before := slots;
          slots := slots[i := peripheral];
          assert slots[i] in Objects();
          assert forall k | 0 <= k < |slots| && k != i :: slots[k] == before[k];
          assert forall k | 0 <= k < |before| && before[k] != null :: slots[k] == before[k] && slots[k] in Objects();
          return Some(Handle(i, peripheral.address));
        }
      }
      if !growable || |slots| == MAX_SLOTS {
        return None;
      }
      ghost var before := slots;
      slots := slots + [peripheral];
      assert slots[|slots| - 1] in Objects();
      assert forall k | 0 <= k < |before| && before[k] != null :: slots[k] == before[k] && slots[k] in Objects();
      handle := Some(Handle(|slots| - 1, peripheral.address));
    }

    /** Find the first peripheral at or after an index. */
    method GetAtIndexMut(index: nat) returns (found: Option<nat>)
      requires Valid() && index <= |slots|
      ensures match found
              case Some(i) => i < |slots| && slots[i] != null && i == FirstFrom(View(), index)
              case None => FirstFrom(View(), index) == |slots|
    {
      ghost var view := View();
      for i := index to |slots|
        invariant forall k | index <= k < i :: view[k].None?
      {
        if slots[i] != null {
          FirstIs(view, index, i);
          return Some(i);
        }
      }
      found := None;
    }

    /** Find the second peripheral at or after an index. */
    method GetNextIndex(index: nat) returns (next: Option<nat>)
      requires Valid() && index <= |slots|
      ensures next == NextIndex(View(), index)
    {
      var skipped := false;
      ghost var view := View();
      ghost var first := FirstFrom(view, index);
      for i := index to |slots|
        invariant if skipped then first < i && forall k | first < k < i :: view[k].None? else i <= first
      {
        assert view[i].Some? <==> slots[i] != null;
        if slots[i] != null {
          if skipped {
            FirstIs(view, first + 1, i);
            return Some(i);
          }
          skipped := true;
        }
      }
      next := None;
    }
  }
}
