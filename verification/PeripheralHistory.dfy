/**
 What must have happened on the bus before a peripheral exchanges data.

 The trace of a peripheral records only what can be seen from outside: the requests it was sent, the
 replies that came back, and the events that were reported.  Everything here is stated about that
 trace.
 */
module PeripheralHistory {
  import opened BusParameters
  import opened Telegrams
  import opened Peripherals
  import opened PeripheralDecisions

  /** A request was transmitted, a turn was given away, a reply arrived, or the user wrote the outputs or
      asked for a diagnosis. */
  datatype Entry =
    | Requested(t: Telegram)
    | Declined(event: Option<PeripheralEvent>)
    | Answered(reply: Telegram, event: Option<PeripheralEvent>)
    | OutputsWritten(outputs: seq<Byte>)
    | DiagnosisWanted

  /** A peripheral together with its trace. */
  datatype Life = Life(p: PeripheralView, trace: seq<Entry>)

  datatype LifeStep =
    | AskToTransmit
    | ReplyArrives(t: Telegram)
    | WriteOutputs(outputs: seq<Byte>)
    | WantDiagnosis

  /** The access point whose reply is awaited, if a request is waiting for one.  Once the user has asked for a
      diagnosis, the reply to cyclic data is taken for one. */
  function AwaitedSap(trace: seq<Entry>): Option<Option<Byte>> {
    if trace == [] then None
    else
      var before := trace[..|trace| - 1];
      match trace[|trace| - 1]
      case Requested(t) => if t.Data? then Some(t.h.dsap) else None
      case OutputsWritten(_) => AwaitedSap(before)
      case DiagnosisWanted => if AwaitedSap(before) == Some(None) then Some(Some(60)) else AwaitedSap(before)
      case _ => None
  }

  predicate Outstanding(trace: seq<Entry>) {
    AwaitedSap(trace).Some?
  }

  /** A reply comes after its request and before anything else is transmitted. */
  predicate LifeStepOk(l: Life, step: LifeStep) {
    match step
    case ReplyArrives(t) => Outstanding(l.trace) && IsReply(t)
    case WriteOutputs(outputs) => |outputs| == |l.p.piQ|
    case _ => true
  }

  function EntryOf(turn: Turn): Entry {
    match turn
    case Transmits(t) => Requested(t)
    case Declines(event) => Declined(event)
  }

  function Do(l: Life, fdl: Parameters, step: LifeStep): Life
    requires Fits(l.p) && Consistent(fdl) && LifeStepOk(l, step)
  {
    match step
    case AskToTransmit =>
      var (p, turn) := TakeTurn(l.p, fdl);
      Life(p, l.trace + [EntryOf(turn)])
    case ReplyArrives(t) =>
      var (p, event) := HearReply(l.p, t);
      Life(p, l.trace + [Answered(t, event)])
    case WriteOutputs(outputs) => Life(l.p.(piQ := outputs), l.trace + [OutputsWritten(outputs)])
    case WantDiagnosis => Life(l.p.(diagNeeded := true), l.trace + [DiagnosisWanted])
  }

  // ---------------------------------------------------------------------------------------------
  // Reading the trace
  // ---------------------------------------------------------------------------------------------

  /** Entry `i` is the reply that was awaited from the given access point. */
  predicate Answers(trace: seq<Entry>, i: nat, sap: Option<Byte>) {
    i < |trace| && trace[i].Answered? && AwaitedSap(trace[..i]) == Some(sap)
  }

  predicate Confirmed(trace: seq<Entry>, i: nat, sap: Byte) {
    Answers(trace, i, Some(sap)) && trace[i].reply.ShortConfirmation?
  }

  predicate Diagnosed(trace: seq<Entry>, i: nat) {
    Answers(trace, i, Some(60)) && IsDiagnosis(trace[i].reply)
  }

  predicate CameOnline(trace: seq<Entry>, i: nat) {
    Diagnosed(trace, i) && trace[i].event == Some(Online)
  }

  /** The slave reported that it is ready and finds nothing wrong with its set-up. */
  predicate FoundReady(trace: seq<Entry>, i: nat) {
    && Diagnosed(trace, i) && trace[i].event == Some(Configured)
    && var t := trace[i].reply;
       !ParameterFault(t) && !ConfigurationFault(t) && !WantsParameters(t) && !NotReady(t)
  }

  /** The slave finds nothing wrong, but says that it is not ready yet. */
  predicate FoundBusy(trace: seq<Entry>, i: nat) {
    && Diagnosed(trace, i)
    && var t := trace[i].reply;
       !ParameterFault(t) && !ConfigurationFault(t) && !WantsParameters(t) && NotReady(t)
  }

  /** The peripheral is not online any more after this entry. */
  predicate Drops(e: Entry) {
    match e
    case Declined(event) => event == Some(PeripheralEvent.Offline)
    case Answered(_, event) => event == Some(ParameterError) || event == Some(ConfigError)
    case _ => false
  }

  /** The slave refuses cyclic data and must be validated again. */
  predicate Refuses(trace: seq<Entry>, i: nat) {
    Answers(trace, i, None) && trace[i].reply.IsResponse() && trace[i].reply.h.fc.status.SapNotEnabled?
  }

  ghost predicate OnlineSince(trace: seq<Entry>, o: nat) {
    CameOnline(trace, o) && forall i | o < i < |trace| :: !Drops(trace[i])
  }

  ghost predicate ReadySince(trace: seq<Entry>, v: nat) {
    FoundReady(trace, v) && forall i | v < i < |trace| :: !Refuses(trace, i)
  }

  /** What a peripheral in the given state has behind it: coming online at entry `o`, the confirmation of
      its parameters at `j` and of its configuration at `k`, and the validation at `v`. */
  ghost predicate Behind(state: PeripheralState, trace: seq<Entry>, o: nat, j: nat, k: nat, v: nat) {
    && (!state.Offline? ==> OnlineSince(trace, o))
    && (!state.Offline? && !state.WaitForParam? ==> o < j && Confirmed(trace, j, 61))
    && (state.ValidateConfig? || state.PreDataExchange? || state.DataExchange? ==>
          j < k && Confirmed(trace, k, 62))
    && (state.PreDataExchange? || state.DataExchange? ==> k < v && ReadySince(trace, v))
  }

  /** The set-up is done but the slave has not been found ready yet. */
  predicate Validating(trace: seq<Entry>) {
    if trace == [] then false
    else
      var n := |trace| - 1;
      if Confirmed(trace, n, 62) || Refuses(trace, n) then true
      else if Drops(trace[n]) then false
      else if Diagnosed(trace, n) then
        Validating(trace[..n]) && FoundBusy(trace, n)
      else Validating(trace[..n])
  }

  /** The reply is what the request asked for, so the master goes on to the next frame count bit. */
  predicate Accepted(trace: seq<Entry>, i: nat) {
    || Diagnosed(trace, i)
    || Confirmed(trace, i, 61)
    || Confirmed(trace, i, 62)
    || Answers(trace, i, None)
  }

  function AcceptedReplies(trace: seq<Entry>): nat {
    if trace == [] then 0
    else AcceptedReplies(trace[..|trace| - 1]) + if Accepted(trace, |trace| - 1) then 1 else 0
  }

  /** The frame count bit after some number of accepted replies: at first none, then alternating. */
  function FcbAfter(accepted: nat): FrameCountBit {
    if accepted == 0 then FrameCountBit.First else if accepted % 2 == 1 then Low else High
  }

  /** How many requests went out since the last accepted reply, reply during validation, or turn that
      was given away. */
  function Unanswered(trace: seq<Entry>): nat {
    if trace == [] then 0
    else
      var n := |trace| - 1;
      match trace[n]
      case Requested(_) => Unanswered(trace[..n]) + 1
      case Declined(_) => 0
      case Answered(_, _) => if Accepted(trace, n) || Validating(trace[..n]) then 0 else Unanswered(trace[..n])
      case _ => Unanswered(trace[..n])
  }

  // ---------------------------------------------------------------------------------------------
  // The invariant of a life
  // ---------------------------------------------------------------------------------------------

  /** The reply that is awaited belongs to the present state. */
  predicate RequestMatches(l: Life) {
    Outstanding(l.trace) ==> AwaitedSap(l.trace) == Some(DueSap(l.p))
  }

  ghost predicate LifeOk(l: Life, fdl: Parameters) {
    && Fits(l.p) && Consistent(fdl) && l.p.retryCount <= fdl.maxRetryLimit + 1
    && RequestMatches(l)
    && l.p.fcb == FcbAfter(AcceptedReplies(l.trace))
    && l.p.retryCount == Unanswered(l.trace)
    && (l.p.state.ValidateConfig? <==> Validating(l.trace))
  }

  /** Appending an entry changes nothing about the entries before it. */
  lemma EarlierEntriesStay(trace: seq<Entry>, e: Entry, i: nat, sap: Option<Byte>)
    requires i < |trace|
    ensures Answers(trace + [e], i, sap) <==> Answers(trace, i, sap)
    ensures Refuses(trace + [e], i) <==> Refuses(trace, i)
    ensures trace == (trace + [e])[..|trace|]
  {
    assert (trace + [e])[..i] == trace[..i];
  }

  lemma OnlineStays(trace: seq<Entry>, e: Entry, o: nat)
    requires OnlineSince(trace, o) && !Drops(e)
    ensures OnlineSince(trace + [e], o)
  {
    EarlierEntriesStay(trace, e, o, Some(60));
  }

  lemma ReadyStays(trace: seq<Entry>, e: Entry, v: nat)
    requires ReadySince(trace, v) && !Refuses(trace + [e], |trace|)
    ensures ReadySince(trace + [e], v)
  {
    EarlierEntriesStay(trace, e, v, Some(60));
    forall i | v < i < |trace + [e]| ensures !Refuses(trace + [e], i) {
      if i < |trace| {
        EarlierEntriesStay(trace, e, i, None);
      }
    }
  }

  /** What lies behind a state stays behind it. */
  lemma BehindStays(state: PeripheralState, trace: seq<Entry>, e: Entry, o: nat, j: nat, k: nat, v: nat)
    requires Behind(state, trace, o, j, k, v) && !Drops(e)
    requires state.PreDataExchange? || state.DataExchange? ==> !Refuses(trace + [e], |trace|)
    ensures Behind(state, trace + [e], o, j, k, v)
  {
    if !state.Offline? {
      OnlineStays(trace, e, o);
      if !state.WaitForParam? {
        EarlierEntriesStay(trace, e, j, Some(61));
        if !state.WaitForConfig? {
          EarlierEntriesStay(trace, e, k, Some(62));
        }
      }
    }
    if state.PreDataExchange? || state.DataExchange? {
      ReadyStays(trace, e, v);
    }
  }

  lemma AskingKeepsHistory(l: Life, fdl: Parameters, o: nat, j: nat, k: nat, v: nat)
    requires LifeOk(l, fdl) && Behind(l.p.state, l.trace, o, j, k, v)
    ensures var m := Do(l, fdl, AskToTransmit); Behind(m.p.state, m.trace, o, j, k, v)
  {
    var (p, turn) := TakeTurn(l.p, fdl);
    if !Drops(EntryOf(turn)) {
      BehindStays(l.p.state, l.trace, EntryOf(turn), o, j, k, v);
    }
  }

  /** The next state of the set-up is behind as soon as this entry is in the trace. */
  lemma BehindGrows(state: PeripheralState, next: PeripheralState, trace: seq<Entry>, o: nat, j: nat, k: nat, v: nat)
    returns (o': nat, j': nat, k': nat, v': nat)
    requires trace != [] && var n := |trace| - 1;
             match next
             case WaitForParam => CameOnline(trace, n)
             case WaitForConfig => state.WaitForParam? && Confirmed(trace, n, 61)
             case ValidateConfig => state.WaitForConfig? && Confirmed(trace, n, 62)
             case PreDataExchange => state.ValidateConfig? && FoundReady(trace, n)
             case _ => false
    requires !next.WaitForParam? ==> o < |trace| - 1 && Behind(state, trace, o, j, k, v)
    requires next.ValidateConfig? ==> j < |trace| - 1
    requires next.PreDataExchange? ==> k < |trace| - 1
    ensures Behind(next, trace, o', j', k', v')
  {
    var n := |trace| - 1;
    o', j', k', v' := o, j, k, v;
    match next
    case WaitForParam => o' := n;
    case WaitForConfig => j' := n;
    case ValidateConfig => k' := n;
    case PreDataExchange => v' := n;
  }

  lemma BehindIsEarlier(state: PeripheralState, trace: seq<Entry>, o: nat, j: nat, k: nat, v: nat)
    requires Behind(state, trace, o, j, k, v) && !state.Offline?
    ensures o < |trace| && (!state.WaitForParam? ==> j < |trace|)
    ensures !state.WaitForParam? && !state.WaitForConfig? ==> k < |trace|
  {
  }

  /** What a reply leads to is found in the trace. */
  lemma ReplyIsRecorded(l: Life, fdl: Parameters, t: Telegram)
    requires LifeOk(l, fdl) && LifeStepOk(l, ReplyArrives(t))
    ensures var m, n := Do(l, fdl, ReplyArrives(t)), |l.trace|;
            match l.p.state
            case Offline =>
              if m.p.state.WaitForParam? then CameOnline(m.trace, n) else m.p.state.Offline?
            case WaitForParam =>
              if m.p.state.WaitForConfig? then Confirmed(m.trace, n, 61) else m.p.state.WaitForParam?
            case WaitForConfig =>
              if m.p.state.ValidateConfig? then Confirmed(m.trace, n, 62) else m.p.state.WaitForConfig?
            case ValidateConfig =>
              (m.p.state.PreDataExchange? && FoundReady(m.trace, n))
              || m.p.state.Offline? || m.p.state.WaitForParam? || m.p.state.ValidateConfig?
            case _ => (Exchanging(m.p) && !Refuses(m.trace, n)) || m.p.state.ValidateConfig?
    ensures var m, n := Do(l, fdl, ReplyArrives(t)), |l.trace|; Drops(m.trace[n]) ==> m.p.state.Offline?
  {
    hide FcbAfter, AcceptedReplies, Unanswered, Validating, HearReply, BitSet;
    var (p, event) := HearReply(l.p, t);
    assert l.trace == (l.trace + [Answered(t, event)])[..|l.trace|];
    match l.p.state
    case Offline => OnlineExactly(l.p, t);
    case WaitForParam => ConfirmedExactly(l.p, t);
    case WaitForConfig => ConfirmedExactly(l.p, t);
    case ValidateConfig => ValidatedExactly(l.p, t);
    case _ => ExchangedExactly(l.p, t);
  }

  lemma ReplyKeepsHistory(l: Life, fdl: Parameters, t: Telegram, o: nat, j: nat, k: nat, v: nat)
    returns (o': nat, j': nat, k': nat, v': nat)
    requires LifeOk(l, fdl) && Behind(l.p.state, l.trace, o, j, k, v) && LifeStepOk(l, ReplyArrives(t))
    ensures var m := Do(l, fdl, ReplyArrives(t)); Behind(m.p.state, m.trace, o', j', k', v')
  {
    hide RequestMatches, FcbAfter, Unanswered, Validating, HearReply, Drops, CameOnline, Confirmed, FoundReady;
    hide Refuses, OnlineSince, ReadySince, BitSet;
    var m, n := Do(l, fdl, ReplyArrives(t)), |l.trace|;
    ReplyIsRecorded(l, fdl, t);
    o', j', k', v' := o, j, k, v;
    var (from, to) := (l.p.state, m.p.state);
    if !to.Offline? {
      var same := if from.PreDataExchange? || from.DataExchange? then to else from;
      if !from.Offline? {
        BehindIsEarlier(from, l.trace, o, j, k, v);
        BehindStays(same, l.trace, m.trace[n], o, j, k, v);
      }
      if from.Offline? || (to != same && !to.WaitForParam?) {
        o', j', k', v' := BehindGrows(from, to, m.trace, o, j, k, v);
      }
    }
  }

  lemma StepKeepsHistory(l: Life, fdl: Parameters, step: LifeStep, o: nat, j: nat, k: nat, v: nat)
    returns (o': nat, j': nat, k': nat, v': nat)
    requires LifeOk(l, fdl) && Behind(l.p.state, l.trace, o, j, k, v) && LifeStepOk(l, step)
    ensures var m := Do(l, fdl, step); Behind(m.p.state, m.trace, o', j', k', v')
  {
    o', j', k', v' := o, j, k, v;
    match step
    case AskToTransmit => AskingKeepsHistory(l, fdl, o, j, k, v);
    case ReplyArrives(t) => o', j', k', v' := ReplyKeepsHistory(l, fdl, t, o, j, k, v);
    case WriteOutputs(outputs) => BehindStays(l.p.state, l.trace, OutputsWritten(outputs), o, j, k, v);
    case WantDiagnosis => BehindStays(l.p.state, l.trace, DiagnosisWanted, o, j, k, v);
  }

  /** Every step keeps the bookkeeping: the frame count bit, the retry count and the outstanding request
      are what the trace says. */
  lemma StepKeepsLife(l: Life, fdl: Parameters, step: LifeStep)
    requires LifeOk(l, fdl) && LifeStepOk(l, step)
    ensures LifeOk(Do(l, fdl, step), fdl)
  {
    match step
    case AskToTransmit => AskingKeepsLife(l, fdl);
    case ReplyArrives(t) => ReplyKeepsLife(l, fdl, t);
    case WriteOutputs(outputs) => assert (l.trace + [OutputsWritten(outputs)])[..|l.trace|] == l.trace;
    case WantDiagnosis => assert (l.trace + [DiagnosisWanted])[..|l.trace|] == l.trace;
  }

  lemma AskingKeepsLife(l: Life, fdl: Parameters)
    requires LifeOk(l, fdl)
    ensures LifeOk(Do(l, fdl, AskToTransmit), fdl)
  {
    var (p, turn) := TakeTurn(l.p, fdl);
    assert (l.trace + [EntryOf(turn)])[..|l.trace|] == l.trace;
  }

  /** What a reply does to the frame count bit and the retry count can be read off the trace. */
  lemma ReplyCounts(l: Life, fdl: Parameters, t: Telegram)
    requires LifeOk(l, fdl) && LifeStepOk(l, ReplyArrives(t))
    ensures var (p, event) := HearReply(l.p, t);
            var accepted := Accepted(l.trace + [Answered(t, event)], |l.trace|);
            && p.fcb == (if accepted then l.p.fcb.Cycled() else l.p.fcb)
            && p.retryCount == (if accepted || l.p.state.ValidateConfig? then 0 else l.p.retryCount)
  {
    hide FcbAfter, AcceptedReplies, Unanswered, Validating, HearReply, BitSet;
    var (p, event) := HearReply(l.p, t);
    assert l.trace == (l.trace + [Answered(t, event)])[..|l.trace|];
    match l.p.state
    case Offline => OnlineExactly(l.p, t);
    case WaitForParam => ConfirmedExactly(l.p, t);
    case WaitForConfig => ConfirmedExactly(l.p, t);
    case ValidateConfig => ValidatedExactly(l.p, t);
    case _ => ExchangedExactly(l.p, t);
  }

  /** So can whether the peripheral is validated next. */
  lemma ReplyValidates(l: Life, fdl: Parameters, t: Telegram)
    requires LifeOk(l, fdl) && LifeStepOk(l, ReplyArrives(t))
    ensures var (p, event) := HearReply(l.p, t);
            var (trace, n) := (l.trace + [Answered(t, event)], |l.trace|);
            p.state.ValidateConfig? <==>
              || Confirmed(trace, n, 62) || Refuses(trace, n)
              || (l.p.state.ValidateConfig? && !Drops(trace[n])
                  && (Diagnosed(trace, n) ==> FoundBusy(trace, n)))
  {
    hide FcbAfter, AcceptedReplies, Unanswered, Validating, HearReply, BitSet;
    var (p, event) := HearReply(l.p, t);
    assert l.trace == (l.trace + [Answered(t, event)])[..|l.trace|];
    match l.p.state
    case Offline => OnlineExactly(l.p, t);
    case WaitForParam => ConfirmedExactly(l.p, t);
    case WaitForConfig => ConfirmedExactly(l.p, t);
    case ValidateConfig => ValidatedExactly(l.p, t);
    case _ => ExchangedExactly(l.p, t);
  }

  lemma ReplyKeepsLife(l: Life, fdl: Parameters, t: Telegram)
    requires LifeOk(l, fdl) && LifeStepOk(l, ReplyArrives(t))
    ensures LifeOk(Do(l, fdl, ReplyArrives(t)), fdl)
  {
    hide FcbAfter, HearReply, Accepted, Diagnosed, Confirmed, Refuses;
    var (p, event) := HearReply(l.p, t);
    assert (l.trace + [Answered(t, event)])[..|l.trace|] == l.trace;
    FcbTellsRepeatFromNext(AcceptedReplies(l.trace));
    ReplyKeepsPeripheral(l.p, t);
    ReplyCounts(l, fdl, t);
    ReplyValidates(l, fdl, t);
  }

  // ---------------------------------------------------------------------------------------------
  // Whole lives
  // ---------------------------------------------------------------------------------------------

  /** What a new peripheral begins with, whatever its address, options and buffers are. */
  predicate IsNew(p: PeripheralView) {
    p == NewPeripheral(p.address, p.options, p.piI, p.piQ, p.extDiag.buffer)
  }

  function NewLife(p: PeripheralView): Life {
    Life(p, [])
  }

  /** The steps can be taken one after the other. */
  ghost predicate CanLive(l: Life, fdl: Parameters, steps: seq<LifeStep>)
    requires LifeOk(l, fdl)
    decreases |steps|
  {
    steps != [] ==>
      LifeStepOk(l, steps[0]) && (StepKeepsLife(l, fdl, steps[0]); CanLive(Do(l, fdl, steps[0]), fdl, steps[1..]))
  }

  ghost function Live(l: Life, fdl: Parameters, steps: seq<LifeStep>): (m: Life)
    requires LifeOk(l, fdl) && CanLive(l, fdl, steps)
    ensures LifeOk(m, fdl)
    decreases |steps|
  {
    if steps == [] then l
    else
      StepKeepsLife(l, fdl, steps[0]);
      Live(Do(l, fdl, steps[0]), fdl, steps[1..])
  }

  lemma NewLifeIsOk(p: PeripheralView, fdl: Parameters)
    requires Consistent(fdl) && IsNew(p) && Fits(p)
    ensures LifeOk(NewLife(p), fdl)
    ensures Behind(PeripheralState.Offline, [], 0, 0, 0, 0)
  {
  }

  lemma {:induction false} LivingKeepsHistory(l: Life, fdl: Parameters, steps: seq<LifeStep>,
                                              o: nat, j: nat, k: nat, v: nat)
    returns (o': nat, j': nat, k': nat, v': nat)
    requires LifeOk(l, fdl) && CanLive(l, fdl, steps) && Behind(l.p.state, l.trace, o, j, k, v)
    ensures var m := Live(l, fdl, steps); Behind(m.p.state, m.trace, o', j', k', v')
    decreases |steps|
  {
    hide Unanswered, AcceptedReplies, Validating, FcbAfter, RequestMatches, Behind;
    o', j', k', v' := o, j, k, v;
    if steps != [] {
      o', j', k', v' := StepKeepsHistory(l, fdl, steps[0], o, j, k, v);
      StepKeepsLife(l, fdl, steps[0]);
      o', j', k', v' := LivingKeepsHistory(Do(l, fdl, steps[0]), fdl, steps[1..], o', j', k', v');
    }
  }

  /** Whatever happens, a peripheral that exchanges data has come online and not been dropped since; after
      that it has confirmed its parameters, then its configuration, and then reported that it is
      ready and finds no fault; and it has not refused cyclic data since. */
  lemma ExchangeHasHistory(p: PeripheralView, fdl: Parameters, steps: seq<LifeStep>)
    returns (o: nat, j: nat, k: nat, v: nat)
    requires Consistent(fdl) && IsNew(p) && Fits(p)
    requires LifeOk(NewLife(p), fdl) && CanLive(NewLife(p), fdl, steps)
    ensures var m := Live(NewLife(p), fdl, steps);
            Exchanging(m.p) ==>
              && o < j < k < v < |m.trace|
              && OnlineSince(m.trace, o)
              && Confirmed(m.trace, j, 61)
              && Confirmed(m.trace, k, 62)
              && ReadySince(m.trace, v)
  {
    hide LifeOk;
    NewLifeIsOk(p, fdl);
    o, j, k, v := LivingKeepsHistory(NewLife(p), fdl, steps, 0, 0, 0, 0);
  }

  /** At any time in its life, a peripheral's turn makes it go offline exactly when one request more than
      the limit has gone out since the last reply that counts; and a request it transmits carries the
      frame count bit that the number of accepted replies determines. */
  lemma OfflineExactlyAfterLimit(l: Life, fdl: Parameters)
    requires LifeOk(l, fdl)
    ensures var m := Do(l, fdl, AskToTransmit);
            var e := m.trace[|l.trace|];
            && m.trace == l.trace + [e]
            && (e == Declined(Some(PeripheralEvent.Offline)) <==> Unanswered(l.trace) == fdl.maxRetryLimit + 1)
            && Unanswered(l.trace) <= fdl.maxRetryLimit + 1
            && (e.Requested? ==> e.t.Data? && e.t.h.fc == Request(FcbAfter(AcceptedReplies(l.trace)), e.t.h.fc.req))
  {
    hide Unanswered, AcceptedReplies, Validating, FcbAfter;
  }

  /** After an accepted reply, the next request carries the other value of the bit and marks it valid, so
      the slave can tell it from a repetition. */
  lemma FcbTellsRepeatFromNext(accepted: nat)
    ensures FcbAfter(accepted + 1).Fcv() && FcbAfter(accepted + 1).Fcb() != FcbAfter(accepted).Fcb()
    ensures !FcbAfter(accepted).Inactive? && FcbAfter(accepted + 1) == FcbAfter(accepted).Cycled()
  {
  }

  // ---------------------------------------------------------------------------------------------
  // What is sent
  // ---------------------------------------------------------------------------------------------

  /** The outputs that were written last, or those at the beginning. */
  function LatestOutputs(trace: seq<Entry>, initial: seq<Byte>): seq<Byte> {
    if trace == [] then initial
    else
      var e := trace[|trace| - 1];
      if e.OutputsWritten? then e.outputs else LatestOutputs(trace[..|trace| - 1], initial)
  }

  /** Every request so far was one for this peripheral with the outputs that were the latest ones then. */
  ghost predicate SentProperly(m: Life, fdl: Parameters, initial: seq<Byte>) {
    && m.p.piQ == LatestOutputs(m.trace, initial)
    && forall i | 0 <= i < |m.trace| && m.trace[i].Requested? ::
         IsRequestFor(m.trace[i].t, m.p.address, m.p.options, fdl, LatestOutputs(m.trace[..i], initial))
  }

  lemma AppendingSentProperly(l: Life, m: Life, fdl: Parameters, initial: seq<Byte>, e: Entry)
    requires SentProperly(l, fdl, initial) && m.trace == l.trace + [e]
    requires m.p.address == l.p.address && m.p.options == l.p.options
    requires m.p.piQ == if e.OutputsWritten? then e.outputs else l.p.piQ
    requires e.Requested? ==> IsRequestFor(e.t, l.p.address, l.p.options, fdl, l.p.piQ)
    ensures SentProperly(m, fdl, initial)
  {
    hide IsRequestFor;
    assert m.trace[..|m.trace| - 1] == l.trace;
    forall i | 0 <= i < |m.trace| && m.trace[i].Requested?
      ensures IsRequestFor(m.trace[i].t, m.p.address, m.p.options, fdl, LatestOutputs(m.trace[..i], initial))
    {
      if i < |l.trace| {
        assert m.trace[..i] == l.trace[..i] && m.trace[i] == l.trace[i];
      }
    }
  }

  lemma StepSendsProperly(l: Life, fdl: Parameters, step: LifeStep, initial: seq<Byte>)
    requires LifeOk(l, fdl) && LifeStepOk(l, step) && SentProperly(l, fdl, initial)
    ensures SentProperly(Do(l, fdl, step), fdl, initial)
  {
    hide RequestMatches, FcbAfter, AcceptedReplies, Unanswered, Validating, IsRequestFor, HearReply, TakeTurn;
    hide SentProperly;
    var m := Do(l, fdl, step);
    match step {
      case AskToTransmit => TurnExactly(l.p, fdl);
      case ReplyArrives(t) => ReplyKeepsPeripheral(l.p, t);
      case _ =>
    }
    AppendingSentProperly(l, m, fdl, initial, m.trace[|l.trace|]);
  }

  lemma {:induction false} LivingSendsProperly(l: Life, fdl: Parameters, steps: seq<LifeStep>, initial: seq<Byte>)
    requires LifeOk(l, fdl) && CanLive(l, fdl, steps) && SentProperly(l, fdl, initial)
    ensures SentProperly(Live(l, fdl, steps), fdl, initial)
    decreases |steps|
  {
    hide RequestMatches, FcbAfter, AcceptedReplies, Unanswered, Validating, SentProperly, Do;
    if steps != [] {
      StepSendsProperly(l, fdl, steps[0], initial);
      StepKeepsLife(l, fdl, steps[0]);
      LivingSendsProperly(Do(l, fdl, steps[0]), fdl, steps[1..], initial);
    }
  }

  /** Whatever happens in the life of a new peripheral, each telegram that it is sent is a proper one: the outputs that
      were written last before it, or the initial ones, an empty request for a diagnosis, the parameters, or the
      configuration. */
  lemma RequestsCarryLatestOutputs(p: PeripheralView, fdl: Parameters, steps: seq<LifeStep>, i: nat)
    requires Consistent(fdl) && IsNew(p) && Fits(p)
    requires LifeOk(NewLife(p), fdl) && CanLive(NewLife(p), fdl, steps)
    requires i < |Live(NewLife(p), fdl, steps).trace| && Live(NewLife(p), fdl, steps).trace[i].Requested?
    ensures var m := Live(NewLife(p), fdl, steps);
            IsRequestFor(m.trace[i].t, p.address, p.options, fdl, LatestOutputs(m.trace[..i], p.piQ))
  {
    hide LifeOk;
    LivingSendsProperly(NewLife(p), fdl, steps, p.piQ);
    LivingKeepsIdentity(NewLife(p), fdl, steps);
  }

  lemma {:induction false} LivingKeepsIdentity(l: Life, fdl: Parameters, steps: seq<LifeStep>)
    requires LifeOk(l, fdl) && CanLive(l, fdl, steps)
    ensures var m := Live(l, fdl, steps); m.p.address == l.p.address && m.p.options == l.p.options
    decreases |steps|
  {
    hide RequestMatches, FcbAfter, AcceptedReplies, Unanswered, Validating, HearReply, TakeTurn;
    if steps != [] {
      var m := Do(l, fdl, steps[0]);
      match steps[0] {
        case AskToTransmit => TurnExactly(l.p, fdl);
        case ReplyArrives(t) => ReplyKeepsPeripheral(l.p, t);
        case _ =>
      }
      StepKeepsLife(l, fdl, steps[0]);
      LivingKeepsIdentity(m, fdl, steps[1..]);
    }
  }

  // ---------------------------------------------------------------------------------------------
  // What is received
  // ---------------------------------------------------------------------------------------------

  /** The inputs of the last reply that was reported as an exchange of data, or those at the beginning. */
  function LatestInputs(trace: seq<Entry>, initial: seq<Byte>): seq<Byte> {
    if trace == [] then initial
    else
      var e := trace[|trace| - 1];
      if e.Answered? && e.event == Some(DataExchanged) then (if e.reply.Data? then e.reply.pdu else [])
      else LatestInputs(trace[..|trace| - 1], initial)
  }

  /** A reply that is reported as an exchange of data was awaited as one, and its inputs are stored. */
  lemma ReplyIsStored(l: Life, fdl: Parameters, t: Telegram, initial: seq<Byte>)
    requires LifeOk(l, fdl) && LifeStepOk(l, ReplyArrives(t)) && l.p.piI == LatestInputs(l.trace, initial)
    ensures var m := Do(l, fdl, ReplyArrives(t));
            && m.p.piI == LatestInputs(m.trace, initial)
            && (m.trace[|l.trace|].event == Some(DataExchanged) ==> Answers(m.trace, |l.trace|, None))
  {
    hide RequestMatches, FcbAfter, AcceptedReplies, Unanswered, Validating, HearReply, AwaitedSap;
    var m := Do(l, fdl, ReplyArrives(t));
    assert m.trace[..|l.trace|] == l.trace && m.trace[..|m.trace| - 1] == l.trace;
    InputsAreReported(l.p, t);
    if Exchanging(l.p) && !l.p.diagNeeded {
      ExchangeIsAwaited(l, fdl, t);
    }
  }

  lemma StepKeepsInputs(l: Life, fdl: Parameters, step: LifeStep, initial: seq<Byte>)
    requires LifeOk(l, fdl) && LifeStepOk(l, step) && l.p.piI == LatestInputs(l.trace, initial)
    ensures var m := Do(l, fdl, step); m.p.piI == LatestInputs(m.trace, initial)
  {
    hide RequestMatches, FcbAfter, AcceptedReplies, Unanswered, Validating, HearReply, TakeTurn, AwaitedSap;
    var m := Do(l, fdl, step);
    match step {
      case AskToTransmit =>
        TurnExactly(l.p, fdl);
        assert m.trace[..|m.trace| - 1] == l.trace;
      case ReplyArrives(t) => ReplyIsStored(l, fdl, t, initial);
      case _ => assert m.trace[..|m.trace| - 1] == l.trace;
    }
  }

  lemma ExchangeIsAwaited(l: Life, fdl: Parameters, t: Telegram)
    requires LifeOk(l, fdl) && LifeStepOk(l, ReplyArrives(t)) && Exchanging(l.p) && !l.p.diagNeeded
    ensures AwaitedSap(l.trace) == Some(None)
  {
  }

  /** Throughout the life of a new peripheral, its inputs are those of the reply that was reported last as an exchange
      of data. */
  lemma {:induction false} InputsAreLatest(l: Life, fdl: Parameters, steps: seq<LifeStep>, initial: seq<Byte>)
    requires LifeOk(l, fdl) && CanLive(l, fdl, steps) && l.p.piI == LatestInputs(l.trace, initial)
    ensures Live(l, fdl, steps).p.piI == LatestInputs(Live(l, fdl, steps).trace, initial)
    decreases |steps|
  {
    hide RequestMatches, FcbAfter, AcceptedReplies, Unanswered, Validating, Do;
    if steps != [] {
      StepKeepsInputs(l, fdl, steps[0], initial);
      StepKeepsLife(l, fdl, steps[0]);
      InputsAreLatest(Do(l, fdl, steps[0]), fdl, steps[1..], initial);
    }
  }

  /** A wish for a diagnosis that comes while the reply to cyclic data is on its way loses that reply: its inputs are
      not taken, nothing is reported, and the diagnosis request that follows carries the frame count bit of the request
      that was answered, as if it were repeated. */
  lemma LateWishLosesReply(l: Life, fdl: Parameters, t: Telegram)
    requires LifeOk(l, fdl) && AwaitedSap(l.trace) == Some(None) && Exchanging(l.p)
    requires l.p.retryCount <= fdl.maxRetryLimit
    requires IsReply(t) && !IsDiagnosis(t)
    ensures var wanted := Do(l, fdl, WantDiagnosis);
            && LifeOk(wanted, fdl) && LifeStepOk(wanted, ReplyArrives(t))
            && var answered := Do(wanted, fdl, ReplyArrives(t));
               && answered.p == l.p.(diagNeeded := true) && answered.trace == wanted.trace + [Answered(t, None)]
               && var (p, turn) := TakeTurn(answered.p, fdl);
                  turn.Transmits? && turn.t.Data? && turn.t.h.dsap == Some(60)
                  && turn.t.h.fc == Request(l.p.fcb, SrdLow)
  {
    hide RequestMatches, FcbAfter, AcceptedReplies, Unanswered, Validating, HearReply;
    var wanted := Do(l, fdl, WantDiagnosis);
    StepKeepsLife(l, fdl, WantDiagnosis);
    assert wanted.trace[..|l.trace|] == l.trace;
    ExchangedExactly(wanted.p, t);
  }
}
