/**
 What the DP master sends when it is asked, and what it reports after a reply.
 */
module MasterDecisions {
  import opened BusParameters
  import opened Telegrams
  import opened Peripherals
  import opened PeripheralDecisions
  import opened PeripheralSets
  import opened DpMasters

  /** The peripheral gives its turn away. */
  predicate KeepsQuiet(p: PeripheralView, fdl: Parameters) {
    p.retryCount > fdl.maxRetryLimit || HasNothing(p)
  }

  /** All peripherals in these slots give their turns away. */
  ghost predicate AllQuiet(slots: Slots, from: nat, to: nat, fdl: Parameters) {
    forall k | from <= k < to && k < |slots| && slots[k].Some? :: KeepsQuiet(slots[k].value, fdl)
  }

  /** The first peripheral from slot `from` on that does not keep quiet is in slot `i`, and `t` is what is due to it. */
  ghost predicate SendsFor(slots: Slots, from: nat, i: nat, fdl: Parameters, t: Telegram) {
    && from <= i < |slots| && slots[i].Some? && AllQuiet(slots, from, i, fdl)
    && var p := slots[i].value;
       && !KeepsQuiet(p, fdl) && IsRequestFor(t, p.address, p.options, fdl, p.piQ)
       && t.h.dsap == DueSap(p) && t.h.fc.fcb == p.fcb
  }

  /** The telegram that tells all slaves that the master operates: to address 127, from access point 62 to 58, not to
      be answered, with no control bits set. */
  predicate IsGlobalControl(t: Telegram, fdl: Parameters) {
    && t.Data? && t.h.da == 127 && t.h.sa == fdl.address && t.h.dsap == Some(58) && t.h.ssap == Some(62)
    && t.h.fc == Request(Inactive, SdnLow) && t.pdu == [0, 0]
  }

  lemma QuietAcrossGap(slots: Slots, from: nat, to: nat, fdl: Parameters)
    requires from <= to <= |slots| && forall k | from <= k < to :: slots[k].None?
    ensures AllQuiet(slots, from, to, fdl)
  {
  }

  /** One turn of the current peripheral. */
  lemma OneTurn(m: MasterView, fdl: Parameters)
    requires MasterOk(m, fdl) && m.cycle.AtIndex?
    ensures var (n, turn) := GiveTurn(m, fdl);
            var i := Current(m);
            && m.cycle.index <= i < |m.slots| && m.slots[i].Some?
            && (turn.Transmits? ==> SendsFor(m.slots, m.cycle.index, i, fdl, turn.t))
            && (turn.Declines? ==> AllQuiet(m.slots, m.cycle.index, i + 1, fdl))
            && n.slots == m.slots[i := n.slots[i]]
  {
    hide IsRequestFor, HasNothing, TakeTurn;
    TurnExactly(m.slots[Current(m)].value, fdl);
  }

  lemma EndTurnMovesOn(m: MasterView)
    requires m.cycle.AtIndex? && m.cycle.index <= |m.slots| && Current(m) < |m.slots|
    ensures var o := EndTurn(m);
            && o.slots == m.slots
            && if o.cycle.AtIndex? then
                 && Current(m) < o.cycle.index < |m.slots| && m.slots[o.cycle.index].Some?
                 && forall k | Current(m) < k < o.cycle.index :: m.slots[k].None?
               else forall k | Current(m) < k < |m.slots| :: m.slots[k].None?
  {
  }

  /** When the peripherals get the turn, the first one that has something to send is sent it, and everyone before it
      keeps quiet; nothing is sent only if everyone up to the last slot keeps quiet, and then the cycle is over. */
  lemma {:induction false} VisitExactly(m: MasterView, fdl: Parameters, pending: Option<(Handle, PeripheralEvent)>)
    requires MasterOk(m, fdl) && m.cycle.AtIndex?
    ensures var (n, outcome) := Visit(m, fdl, pending);
            match outcome
            case Sent(t) =>
              && n.cycle.AtIndex? && n.cycle.index <= |n.slots| && !n.events.cycleCompleted
              && SendsFor(m.slots, m.cycle.index, Current(n), fdl, t)
            case Nothing =>
              && n.cycle == AtIndex(0) && n.events.cycleCompleted
              && AllQuiet(m.slots, m.cycle.index, |m.slots|, fdl)
            case NoRoomForEvent => true
    decreases |m.slots| - m.cycle.index
  {
    hide FirstFrom, NextIndex, GiveTurn, KeepsQuiet, IsRequestFor, Consistent, Fits, EndTurn;
    var (n, turn) := GiveTurn(m, fdl);
    OneTurn(m, fdl);
    TurnKeepsOk(m, fdl);
    if turn.Declines? && !(turn.event.Some? && pending.Some?) {
      EndTurnKeepsOk(n, fdl);
      EndTurnMovesOn(n);
      var o := EndTurn(n);
      if o.cycle.AtIndex? {
        VisitExactly(o, fdl, Known(m, turn.event, pending));
        LaterSlotsDecide(m.slots, o.slots, m.cycle.index, Current(m), o.cycle.index, fdl);
      }
    }
  }

  /** What is found from a later slot on is found from an earlier one on, when everyone in between keeps quiet. */
  lemma LaterSlotsDecide(slots: Slots, later: Slots, from: nat, i: nat, next: nat, fdl: Parameters)
    requires from <= i < next <= |slots| == |later| && later == slots[i := later[i]]
    requires AllQuiet(slots, from, i + 1, fdl) && forall k | i < k < next :: later[k].None?
    ensures forall k: nat, t: Telegram | SendsFor(later, next, k, fdl, t) :: SendsFor(slots, from, k, fdl, t)
    ensures AllQuiet(later, next, |slots|, fdl) ==> AllQuiet(slots, from, |slots|, fdl)
  {
    hide KeepsQuiet, IsRequestFor;
    forall k: nat, t: Telegram | SendsFor(later, next, k, fdl, t) ensures SendsFor(slots, from, k, fdl, t) {
      forall j | from <= j < k && slots[j].Some? ensures KeepsQuiet(slots[j].value, fdl) {
        if j > i {
          assert later[j] == slots[j];
        }
      }
    }
    if AllQuiet(later, next, |slots|, fdl) {
      forall j | from <= j < |slots| && slots[j].Some? ensures KeepsQuiet(slots[j].value, fdl) {
        if j > i {
          assert later[j] == slots[j];
        }
      }
    }
  }

  /** In Stop nothing is ever sent.  In Operate the slaves are told so first, unless only high priority is allowed or
      they were told within the last 50 slots; then the peripherals get the turn, and right after the end of a cycle
      nobody does. */
  lemma AskedExactly(m: MasterView, now: int, fdl: Parameters, highPrioOnly: bool)
    requires MasterSound(m, fdl) && (GivesTurns(m, now, fdl, highPrioOnly) ==> MasterOk(m, fdl))
    ensures var (n, outcome) := AskMaster(m, now, fdl, highPrioOnly);
            var told := m.lastGlobalControl.Some? &&
                        Distance(now, m.lastGlobalControl.value) < 50 * fdl.baudrate.BitsToTime(fdl.slotBits);
            if m.operatingState.Stop? then outcome == Nothing && n == m.(events := DpEvents(false, None))
            else if !highPrioOnly && !told then
              && outcome.Sent? && IsGlobalControl(outcome.t, fdl)
              && n == m.(lastGlobalControl := Some(now), events := DpEvents(false, None))
            else if m.cycle.CycleCompleted? then
              outcome == Nothing && n == m.(cycle := AtIndex(0), events := DpEvents(false, None))
            else (n, outcome) == Visit(m, fdl, None)
  {
    hide FirstFrom, GiveTurn;
  }

  /** After a reply, only the peripheral whose turn it was has changed; its event, if it has one, is reported with its
      slot and address, and the cycle is reported as complete if and only if no later slot is occupied.  Otherwise the
      turn goes to the next occupied slot. */
  lemma ToldExactly(m: MasterView, fdl: Parameters, address: Byte, t: Telegram)
    requires MasterOk(m, fdl) && Expects(m, address) && IsReply(t)
    ensures var n, i := TellMaster(m, fdl, address, t), Current(m);
            var (p, event) := HearReply(m.slots[i].value, t);
            var later := exists k :: i < k < |m.slots| && m.slots[k].Some?;
            && n.slots == m.slots[i := Some(p)]
            && n.events.peripheral == (if event.Some? then Some((Handle(i, m.slots[i].value.address), event.value))
                                       else None)
            && (n.events.cycleCompleted <==> !later) && (n.cycle.AtIndex? <==> later)
            && (later ==>
                  && i < n.cycle.index < |m.slots| && m.slots[n.cycle.index].Some?
                  && forall k | i < k < n.cycle.index :: m.slots[k].None?)
            && n.operatingState == m.operatingState && n.lastGlobalControl == m.lastGlobalControl
  {
    hide HearReply, Consistent, FirstFrom, NextIndex;
    ReplyKeepsOk(m, fdl, t);
    var i := Current(m);
    EndTurnMovesOn(m.(slots := m.slots[i := Some(HearReply(m.slots[i].value, t).0)]));
  }
}
