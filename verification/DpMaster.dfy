/**
 The DP master: an index-based cycle over all peripherals.

 `MasterView` is the value of a master and the functions on it say what each operation does; the class
 `DpMaster` does it in place, with a loop over the slots.
 */
module DpMasters {
  import opened BusParameters
  import opened Telegrams
  import opened Peripherals
  import opened PeripheralSets

  datatype OperatingState = Stop | Operate

  /** Which slot the cycle has reached.  The peripheral concerned is the first one at or after it. */
  datatype CycleState = AtIndex(index: nat) | CycleCompleted

  datatype DpEvents = DpEvents(cycleCompleted: bool, peripheral: Option<(Handle, PeripheralEvent)>)

  /** What can be told about the cycle afterwards: the turn of a slot ended, or a cycle was reported
      as completed. */
  datatype Progress = TurnEnded(slot: nat) | CycleReported

  datatype MasterView = MasterView(
    slots: Slots,
    operatingState: OperatingState,
    lastGlobalControl: Option<int>,
    cycle: CycleState,
    events: DpEvents,
    history: seq<Progress>)

  const NO_EVENTS: DpEvents := DpEvents(false, None)

  /** A master with any number of peripherals, also none. */
  ghost predicate MasterSound(m: MasterView, fdl: Parameters) {
    && Consistent(fdl) && |m.slots| <= MAX_SLOTS
    && (m.cycle.AtIndex? ==> m.cycle.index <= |m.slots|)
    && forall i | 0 <= i < |m.slots| && m.slots[i].Some? ::
         Fits(m.slots[i].value) && m.slots[i].value.retryCount <= fdl.maxRetryLimit + 1
  }

  /** A master with at least one peripheral, whose cycle has not run past the last one. */
  ghost predicate MasterOk(m: MasterView, fdl: Parameters) {
    && MasterSound(m, fdl) && FirstFrom(m.slots, 0) < |m.slots|
    && (m.cycle.AtIndex? ==> m.cycle.index <= |m.slots| && FirstFrom(m.slots, m.cycle.index) < |m.slots|)
  }

  /** The slot whose turn it is. */
  function Current(m: MasterView): nat
    requires m.cycle.AtIndex? && m.cycle.index <= |m.slots|
  {
    FirstFrom(m.slots, m.cycle.index)
  }

  /** The turn of the current slot ends and the cycle moves on. */
  function EndTurn(m: MasterView): MasterView
    requires m.cycle.AtIndex? && m.cycle.index <= |m.slots|
  {
    var ended := m.history + [TurnEnded(Current(m))];
    match NextIndex(m.slots, m.cycle.index)
    case Some(next) => m.(cycle := AtIndex(next), history := ended)
    case None => m.(cycle := CycleCompleted, history := ended + [CycleReported])
  }

  /** A telegram was sent, there is nothing to send, or the program stops because a second event came up
      which it has no room for. */
  datatype Outcome = Sent(t: Telegram) | Nothing | NoRoomForEvent

  /** Give the turn to the current peripheral. */
  function GiveTurn(m: MasterView, fdl: Parameters): (MasterView, Turn)
    requires MasterOk(m, fdl) && m.cycle.AtIndex?
  {
    var i := Current(m);
    var (p, turn) := TakeTurn(m.slots[i].value, fdl);
    (m.(slots := m.slots[i := Some(p)]), turn)
  }

  /** The event that is known after the current peripheral has declined. */
  function Known(m: MasterView, event: Option<PeripheralEvent>, pending: Option<(Handle, PeripheralEvent)>)
    : Option<(Handle, PeripheralEvent)>
    requires m.cycle.AtIndex? && m.cycle.index <= |m.slots| && Current(m) < |m.slots|
  {
    var i := Current(m);
    if event.Some? then Some((Handle(i, m.slots[i].value.address), event.value)) else pending
  }

  /** Give the turn to one peripheral after the other until one transmits or the cycle is over. */
  function Visit(m: MasterView, fdl: Parameters, pending: Option<(Handle, PeripheralEvent)>): (r: (MasterView, Outcome))
    requires MasterOk(m, fdl)
    decreases if m.cycle.AtIndex? then |m.slots| - m.cycle.index else -1
  {
    match m.cycle
    case CycleCompleted => (m.(cycle := AtIndex(0), events := DpEvents(false, pending)), Nothing)
    case AtIndex(_) =>
      var (n, turn) := GiveTurn(m, fdl);
      match turn
      case Transmits(t) => (n.(events := DpEvents(false, pending)), Sent(t))
      case Declines(event) =>
        if event.Some? && pending.Some? then (n, NoRoomForEvent)
        else
          TurnKeepsOk(m, fdl);
          EndTurnKeepsOk(n, fdl);
          var o, known := EndTurn(n), Known(m, event, pending);
          if o.cycle.CycleCompleted? then (o.(cycle := AtIndex(0), events := DpEvents(true, known)), Nothing)
          else Visit(o, fdl, known)
  }

  lemma SlotChangeKeepsOk(m: MasterView, fdl: Parameters, i: nat, p: PeripheralView)
    requires MasterOk(m, fdl) && i < |m.slots| && m.slots[i].Some? && Fits(p) && p.retryCount <= fdl.maxRetryLimit + 1
    ensures var n := m.(slots := m.slots[i := Some(p)]);
            && MasterOk(n, fdl) && SameOccupied(m.slots, n.slots)
            && (m.cycle.AtIndex? ==>
                  && Current(n) == Current(m)
                  && NextIndex(n.slots, n.cycle.index) == NextIndex(m.slots, m.cycle.index))
  {
    hide FirstFrom, Fits;
    var slots := m.slots[i := Some(p)];
    assert SameOccupied(m.slots, slots);
    SameFirstFrom(m.slots, slots, 0);
    if m.cycle.AtIndex? {
      SameFirstFrom(m.slots, slots, m.cycle.index);
      SameFirstFrom(m.slots, slots, Current(m) + 1);
    }
  }

  lemma EventsKeepOk(m: MasterView, fdl: Parameters, events: DpEvents)
    ensures MasterOk(m, fdl) ==>
              MasterOk(m.(events := events), fdl) && MasterOk(m.(cycle := AtIndex(0), events := events), fdl)
  {
  }

  lemma TurnKeepsOk(m: MasterView, fdl: Parameters)
    requires MasterOk(m, fdl) && m.cycle.AtIndex?
    ensures var (n, turn) := GiveTurn(m, fdl);
            && MasterOk(n, fdl) && SameOccupied(m.slots, n.slots)
            && n == m.(slots := n.slots) && Current(n) == Current(m)
            && n.slots == m.slots[Current(m) := n.slots[Current(m)]]
            && n.slots[Current(m)].value.address == m.slots[Current(m)].value.address
            && (turn.Transmits? ==> ExpectedReplier(turn.t) == Some(m.slots[Current(m)].value.address))
  {
    hide FirstFrom;
    var i := Current(m);
    TurnKeepsPeripheral(m.slots[i].value, fdl);
    SlotChangeKeepsOk(m, fdl, i, TakeTurn(m.slots[i].value, fdl).0);
  }

  lemma ReplyKeepsOk(m: MasterView, fdl: Parameters, t: Telegram)
    requires MasterOk(m, fdl) && m.cycle.AtIndex? && IsReply(t)
    ensures var i := Current(m);
            var p := HearReply(m.slots[i].value, t).0;
            var n := m.(slots := m.slots[i := Some(p)]);
            && MasterOk(n, fdl) && Current(n) == i && SameOccupied(m.slots, n.slots)
  {
    hide FirstFrom, HearReply;
    var i := Current(m);
    ReplyKeepsPeripheral(m.slots[i].value, t);
    SlotChangeKeepsOk(m, fdl, i, HearReply(m.slots[i].value, t).0);
  }

  lemma EndTurnKeepsOk(m: MasterView, fdl: Parameters)
    requires MasterOk(m, fdl) && m.cycle.AtIndex?
    ensures MasterOk(EndTurn(m), fdl)
    ensures EndTurn(m).slots == m.slots && (EndTurn(m).cycle.AtIndex? ==> m.cycle.index < EndTurn(m).cycle.index)
  {
  }

  /** It is time to tell all slaves again in which state the master operates. */
  predicate GlobalControlDue(m: MasterView, now: int, fdl: Parameters) {
    m.lastGlobalControl.None? || Distance(now, m.lastGlobalControl.value) >= fdl.SlotTime() * 50
  }

  function GlobalControl(fdl: Parameters): (t: Telegram)
    requires fdl.address < 256
    ensures Encodable(t) && ExpectedReplier(t) == None
  {
    var fc := Request(Inactive, SdnLow);
    Data(Header(0x7F, fdl.address, Some(SAP_SLAVE_GLOBAL_CONTROL), Some(SAP_MASTER_MS0), fc), [0, 0])
  }

  /** The peripherals get the turn: the master operates, and no global control telegram comes first. */
  predicate GivesTurns(m: MasterView, now: int, fdl: Parameters, highPrioOnly: bool) {
    m.operatingState.Operate? && (highPrioOnly || !GlobalControlDue(m, now, fdl))
  }

  /** The active station asks the master for a telegram. */
  function AskMaster(m: MasterView, now: int, fdl: Parameters, highPrioOnly: bool): (MasterView, Outcome)
    requires MasterSound(m, fdl) && (GivesTurns(m, now, fdl, highPrioOnly) ==> MasterOk(m, fdl))
  {
    if m.operatingState.Stop? then (m.(events := NO_EVENTS), Nothing)
    else if !highPrioOnly && GlobalControlDue(m, now, fdl) then
      (m.(lastGlobalControl := Some(now), events := NO_EVENTS), Sent(GlobalControl(fdl)))
    else Visit(m, fdl, None)
  }

  /** Whose reply the master can take. */
  predicate Expects(m: MasterView, address: Byte)
    requires m.cycle.AtIndex? ==> m.cycle.index <= |m.slots|
  {
    m.cycle.AtIndex? && Current(m) < |m.slots| && m.slots[Current(m)].value.address == address
  }

  /** A reply has arrived. */
  function TellMaster(m: MasterView, fdl: Parameters, address: Byte, t: Telegram): MasterView
    requires MasterOk(m, fdl) && Expects(m, address) && IsReply(t)
  {
    var i := Current(m);
    var (p, event) := HearReply(m.slots[i].value, t);
    var n := EndTurn(m.(slots := m.slots[i := Some(p)]));
    var reported := if event.Some? then Some((Handle(i, address), event.value)) else None;
    n.(events := DpEvents(n.cycle.CycleCompleted?, reported))
  }

  // ---------------------------------------------------------------------------------------------
  // The master as an object
  // ---------------------------------------------------------------------------------------------

  class DpMaster {
    const peripherals: PeripheralSet
    var operatingState: OperatingState
    var lastGlobalControl: Option<int>
    var cycleState: CycleState
    var lastEvents: DpEvents
    /** How the cycle went on so far. */
    ghost var history: seq<Progress>

    ghost predicate Valid()
      reads this, peripherals
    {
      peripherals.Valid()
    }

    ghost function View(): MasterView
      reads this, peripherals, peripherals.Objects()
    {
      MasterView(peripherals.View(), operatingState, lastGlobalControl, cycleState, lastEvents, history)
    }

    constructor (peripherals: PeripheralSet)
      requires peripherals.Valid()
      ensures Valid() && this.peripherals == peripherals
      ensures View() == MasterView(peripherals.View(), Stop, None, AtIndex(0), NO_EVENTS, [])
    {
      this.peripherals := peripherals;
      operatingState := Stop;
      lastGlobalControl := None;
      cycleState := AtIndex(0);
      lastEvents := NO_EVENTS;
      history := [];
    }

    method EnterOperate()
      requires Valid()
      modifies this
      ensures Valid() && View() == old(View()).(operatingState := Operate, lastGlobalControl := None)
    {
      operatingState := Operate;
      lastGlobalControl := None;
    }

    method TakeLastEvents() returns (events: DpEvents)
      requires Valid()
      modifies this`lastEvents
      ensures Valid() && events == old(lastEvents) && View() == old(View()).(events := NO_EVENTS)
    {
      events := lastEvents;
      lastEvents := NO_EVENTS;
    }

    method IncrementCycleState(index: nat) returns (completed: bool)
      requires Valid() && cycleState == AtIndex(index) && index <= |peripherals.slots|
      modifies this`cycleState, this`history
      ensures Valid() && View() == EndTurn(old(View())) && completed == cycleState.CycleCompleted?
    {
      ghost var was := View();
      assert FirstFrom(peripherals.View(), index) == Current(was);
      history := history + [TurnEnded(FirstFrom(peripherals.View(), index))];
      assert history == was.history + [TurnEnded(Current(was))];
      var next := peripherals.GetNextIndex(index);
      assert peripherals.View() == was.slots;
      assert next == NextIndex(was.slots, was.cycle.index);
      if next.Some? {
        cycleState := AtIndex(next.value);
        completed := false;
      } else {
        cycleState := CycleCompleted;
        history := history + [CycleReported];
        completed := true;
      }
    }

    /** Give the turn to the peripheral in a slot. */
    method TransmitFor(i: nat, fdl: Parameters) returns (turn: Turn)
      requires Valid() && i < |peripherals.slots| && peripherals.slots[i] != null
      requires Fits(peripherals.slots[i].View()) && Consistent(fdl)
      modifies peripherals.Objects()
      ensures Valid()
      ensures var (p, t) := old(TakeTurn(peripherals.slots[i].View(), fdl));
              turn == t && View() == old(View()).(slots := old(peripherals.View())[i := Some(p)])
    {
      var p := peripherals.slots[i];
      assert p in peripherals.Objects();
      turn := p.TransmitTelegram(fdl);
    }

    /** The active station asks for a telegram. */
    method TransmitTelegram(now: int, fdl: Parameters, highPrioOnly: bool) returns (outcome: Outcome)
      requires Valid() && MasterSound(View(), fdl)
      requires GivesTurns(View(), now, fdl, highPrioOnly) ==> MasterOk(View(), fdl)
      modifies this, peripherals.Objects()
      ensures Valid() && (View(), outcome) == AskMaster(old(View()), now, fdl, highPrioOnly)
    {
      if operatingState.Stop? {
        lastEvents := NO_EVENTS;
        return Nothing;
      }
      if !highPrioOnly && (lastGlobalControl.None? || Distance(now, lastGlobalControl.value) >= fdl.SlotTime() * 50) {
        lastGlobalControl := Some(now);
        lastEvents := NO_EVENTS;
        return Sent(GlobalControl(fdl));
      }
      outcome := VisitPeripherals(fdl);
    }

    method VisitOne(fdl: Parameters) returns (i: nat, turn: Turn)
      requires Valid() && MasterOk(View(), fdl) && cycleState.AtIndex?
      modifies peripherals.Objects()
      ensures Valid() && MasterOk(View(), fdl) && (View(), turn) == GiveTurn(old(View()), fdl)
      ensures i == Current(View()) == Current(old(View())) && i < |peripherals.slots| && peripherals.slots[i] != null
    {
      hide TakeTurn, FirstFrom, NextIndex, Consistent, Fits;
      ghost var before := View();
      var found := peripherals.GetAtIndexMut(cycleState.index);
      i := found.value;
      turn := TransmitFor(i, fdl);
      TurnKeepsOk(before, fdl);
    }

    method VisitPeripherals(fdl: Parameters) returns (outcome: Outcome)
      requires Valid() && MasterOk(View(), fdl)
      modifies this, peripherals.Objects()
      ensures Valid() && (View(), outcome) == Visit(old(View()), fdl, None)
    {
      hide TakeTurn, FirstFrom, NextIndex, MasterSound, GiveTurn, EndTurn;
      var pending: Option<(Handle, PeripheralEvent)> := None;
      while true
        invariant Valid() && MasterOk(View(), fdl)
        invariant Visit(old(View()), fdl, None) == Visit(View(), fdl, pending)
        decreases if cycleState.AtIndex? then |peripherals.slots| - cycleState.index else -1
      {
        if cycleState.CycleCompleted? {
          cycleState := AtIndex(0);
          lastEvents := DpEvents(false, pending);
          return Nothing;
        }
        var index := cycleState.index;
        var i, turn := VisitOne(fdl);
        match turn
        case Transmits(t) =>
          lastEvents := DpEvents(false, pending);
          return Sent(t);
        case Declines(event) =>
          if event.Some? {
            if pending.Some? {
              return NoRoomForEvent;
            }
            pending := Some((Handle(i, peripherals.slots[i].address), event.value));
          }
          EndTurnKeepsOk(View(), fdl);
          var completed := IncrementCycleState(index);
          if completed {
            cycleState := AtIndex(0);
            lastEvents := DpEvents(true, pending);
            return Nothing;
          }
      }
    }

    /** A reply to the last request has arrived. */
    method ReceiveReply(fdl: Parameters, address: Byte, t: Telegram)
      requires Valid() && MasterOk(View(), fdl) && Expects(View(), address) && IsReply(t)
      modifies this, peripherals.Objects()
      ensures Valid() && View() == TellMaster(old(View()), fdl, address, t)
    {
      hide HearReply, FirstFrom, NextIndex, Consistent;
      var index := cycleState.index;
      var found := peripherals.GetAtIndexMut(index);
      var i := found.value;
      ghost var before := View();
      var event := ReplyFor(i, t);
      ReplyKeepsOk(before, fdl, t);
      var completed := IncrementCycleState(index);
      lastEvents := DpEvents(completed, if event.Some? then Some((Handle(i, address), event.value)) else None);
    }

    method ReplyFor(i: nat, t: Telegram) returns (event: Option<PeripheralEvent>)
      requires Valid() && i < |peripherals.slots| && peripherals.slots[i] != null
      requires IsReply(t) && !peripherals.slots[i].fcb.Inactive?
      modifies peripherals.Objects()
      ensures Valid()
      ensures var (p, e) := old(HearReply(peripherals.slots[i].View(), t));
              event == e && View() == old(View()).(slots := old(peripherals.View())[i := Some(p)])
    {
      var p := peripherals.slots[i];
      assert p in peripherals.Objects();
      event := p.ReceiveReply(t);
    }
  }
}
