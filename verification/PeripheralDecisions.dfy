/**
 What a peripheral sends and what it makes of each reply, said in bytes and bits.
 */
module PeripheralDecisions {
  import opened BusParameters
  import opened Telegrams
  import opened Peripherals

  // ---------------------------------------------------------------------------------------------
  // Diagnosis telegrams
  // ---------------------------------------------------------------------------------------------

  /** The telegram comes from the diagnosis access point 60 of the slave to access point 62 of the master, with all six
      bytes that every diagnosis has. */
  predicate IsDiagnosis(t: Telegram) {
    t.Data? && t.h.dsap == Some(62) && t.h.ssap == Some(60) && |t.pdu| >= 6
  }

  /** This bit of the diagnosis is set. */
  predicate BitSet(b: Byte, weight: int)
    requires weight > 0
  {
    b / weight % 2 == 1
  }

  predicate NotReady(t: Telegram)
    requires IsDiagnosis(t)
  {
    BitSet(t.pdu[0], 0x02)
  }

  predicate ConfigurationFault(t: Telegram)
    requires IsDiagnosis(t)
  {
    BitSet(t.pdu[0], 0x04)
  }

  predicate HasBlocks(t: Telegram)
    requires IsDiagnosis(t)
  {
    BitSet(t.pdu[0], 0x08)
  }

  predicate ParameterFault(t: Telegram)
    requires IsDiagnosis(t)
  {
    BitSet(t.pdu[0], 0x40)
  }

  predicate WantsParameters(t: Telegram)
    requires IsDiagnosis(t)
  {
    BitSet(t.pdu[1], 0x01)
  }

  /** The flags as they are stored: both bytes, without the bit that is always set. */
  function StoredFlags(low: Byte, high: Byte): int {
    low + 0x100 * high - if BitSet(high, 0x04) then 0x400 else 0
  }

  lemma QuotientIs(a: int, d: int, q: int, r: int)
    requires 0 <= r < d && a == d * q + r
    ensures a / d == q
  {
    var e, rest := a / d, a % d;
    assert a == d * e + rest;
    var x := q - e;
    assert d * x == d * q - d * e;
    OrderOfProducts(1, x, d);
    OrderOfProducts(x, -1, d);
  }

  /** The high byte of a word does not touch the bits of the low one. */
  lemma LowBit(high: nat, low: Byte, weight: int, half: int)
    requires weight > 0 && half > 0 && weight * (2 * half) == 0x100
    ensures (0x100 * high + low) / weight % 2 == low / weight % 2
  {
    var q := low / weight;
    assert weight * (2 * half * high) == weight * (2 * half) * high;
    assert weight * (2 * half * high + q) == weight * (2 * half * high) + weight * q;
    QuotientIs(0x100 * high + low, weight, 2 * half * high + q, low % weight);
    Parity(half * high, q);
    assert 2 * half * high == 2 * (half * high);
  }

  lemma Parity(x: int, y: int)
    ensures (2 * x + y) % 2 == y % 2
  {
  }

  lemma HighBits(high: nat, low: Byte)
    ensures (0x100 * high + low) / 0x100 == high
    ensures (0x100 * high + low) / 0x400 == high / 4
  {
    QuotientIs(0x100 * high + low, 0x100, high, low);
    QuotientIs(0x100 * high + low, 0x400, high / 4, 0x100 * (high % 4) + low);
  }

  lemma FlagsByBits(low: Byte, high: Byte)
    ensures StoredFlags(low, high) >= 0
    ensures var flags := StoredFlags(low, high);
            && (Has(flags, EXT_DIAG) <==> BitSet(low, 0x08)) && (Has(flags, STATION_NOT_READY) <==> BitSet(low, 0x02))
            && (Has(flags, CONFIGURATION_FAULT) <==> BitSet(low, 0x04))
            && (Has(flags, PARAMETER_FAULT) <==> BitSet(low, 0x40))
            && (Has(flags, PARAMETER_REQUIRED) <==> BitSet(high, 0x01))
    ensures Has(Word(high, low), PERMANENT_BIT) <==> BitSet(high, 0x04)
  {
    HighBits(high, low);
    var h := if BitSet(high, 0x04) then high - 4 else high;
    assert StoredFlags(low, high) == 0x100 * h + low;
    HighBits(h, low);
    LowBit(h, low, 0x02, 0x40);
    LowBit(h, low, 0x04, 0x20);
    LowBit(h, low, 0x08, 0x10);
    LowBit(h, low, 0x40, 0x02);
  }

  /** What a diagnosis says can be read off its bytes. */
  lemma DiagnosisByBytes(t: Telegram)
    ensures DiagnosisIn(t).Some? <==> IsDiagnosis(t)
    ensures IsDiagnosis(t) ==>
              var diag := DiagnosisIn(t).value;
              && diag.identNumber == 0x100 * (t.pdu[4] as int) + t.pdu[5]
              && diag.masterAddress == (if t.pdu[3] == 255 then None else Some(t.pdu[3]))
              && diag.flags == StoredFlags(t.pdu[0], t.pdu[1])
              && var flags := diag.flags;
                 && (Has(flags, EXT_DIAG) <==> HasBlocks(t)) && (Has(flags, STATION_NOT_READY) <==> NotReady(t))
                 && (Has(flags, CONFIGURATION_FAULT) <==> ConfigurationFault(t))
                 && (Has(flags, PARAMETER_FAULT) <==> ParameterFault(t))
                 && (Has(flags, PARAMETER_REQUIRED) <==> WantsParameters(t))
  {
    if IsDiagnosis(t) {
      FlagsByBits(t.pdu[0], t.pdu[1]);
    }
  }

  // ---------------------------------------------------------------------------------------------
  // Requests
  // ---------------------------------------------------------------------------------------------

  /** The parameters: the lock request, whether outputs and inputs are synchronized, the watchdog, the response time,
      the identity, the groups, and what the user adds. */
  ghost predicate AreParameters(pdu: seq<Byte>, options: Options, fdl: Parameters) {
    && |pdu| >= 7 && BitSet(pdu[0], 0x80) && !BitSet(pdu[0], 0x40) && pdu[0] % 8 == 0
    && (BitSet(pdu[0], 0x20) <==> options.syncMode)
    && (BitSet(pdu[0], 0x10) <==> options.freezeMode)
    && (BitSet(pdu[0], 0x08) <==> fdl.watchdogFactors.Some?)
    && (fdl.watchdogFactors.Some? ==> (pdu[1], pdu[2]) == fdl.watchdogFactors.value)
    && (fdl.watchdogFactors.None? ==> pdu[1] == pdu[2] == 0)
    && pdu[3] == fdl.minTsdrBits
    && 0x100 * (pdu[4] as int) + pdu[5] == options.identNumber
    && pdu[6] == options.groups
    && options.userParameters == Some(pdu[7..])
  }

  /** The telegram is one of the four that this peripheral may be sent: the outputs without access points, or between
      access point 62 of the master and one of the slave an empty request for a diagnosis to 60, the parameters to 61,
      or the configuration to 62. */
  ghost predicate IsRequestFor(t: Telegram, address: Byte, options: Options, fdl: Parameters, outputs: seq<Byte>) {
    && t.Data? && t.h.da == address && t.h.sa == fdl.address && t.h.fc.Request?
    && match t.h.dsap
       case None => t.h.ssap.None? && t.h.fc.req == SrdHigh && t.pdu == outputs
       case Some(sap) =>
         && t.h.ssap == Some(62) && t.h.fc.req == SrdLow
         && ((sap == 60 && t.pdu == [])
             || (sap == 61 && AreParameters(t.pdu, options, fdl))
             || (sap == 62 && options.config == Some(t.pdu)))
  }

  lemma ParametersAreReadable(options: Options, fdl: Parameters, user: seq<Byte>)
    requires Consistent(fdl) && options.identNumber < 0x1_0000 && options.userParameters == Some(user)
    ensures AreParameters(ParameterBytes(options, fdl, user), options, fdl)
  {
    var bytes := ParameterBytes(options, fdl, user);
    assert bytes[7..] == user;
    StatusByte(options.syncMode, options.freezeMode, fdl.watchdogFactors.Some?);
  }

  /** The bits of the first byte do not overlap. */
  lemma StatusByte(sync: bool, freeze: bool, watchdog: bool)
    ensures var b := 0x80 + (if sync then 0x20 else 0) + (if freeze then 0x10 else 0) + (if watchdog then 0x08 else 0);
            && b < 0x100 && BitSet(b, 0x80) && !BitSet(b, 0x40) && b % 8 == 0
            && BitSet(b, 0x20) == sync && BitSet(b, 0x10) == freeze && BitSet(b, 0x08) == watchdog
  {
  }

  /** The access point that is due in each state. */
  function DueSap(p: PeripheralView): Option<Byte> {
    match p.state
    case Offline => Some(60)
    case WaitForParam => Some(61)
    case WaitForConfig => Some(62)
    case ValidateConfig => Some(60)
    case _ => if p.diagNeeded then Some(60) else None
  }

  /** There is nothing to send: a silent peripheral is left alone for one turn after each request, and parameters or
      configuration may not be known yet. */
  predicate HasNothing(p: PeripheralView) {
    || (p.state.Offline? && p.retryCount != 0)
    || (p.state.WaitForParam? && p.options.userParameters.None?)
    || (p.state.WaitForConfig? && p.options.config.None?)
  }

  /** After more than the limit of requests the peripheral is given up; otherwise it is sent what is due, with its
      frame count bit, or nothing. */
  lemma TurnExactly(p: PeripheralView, fdl: Parameters)
    requires Fits(p) && Consistent(fdl)
    ensures var (q, turn) := TakeTurn(p, fdl);
            if p.retryCount > fdl.maxRetryLimit then
              && turn == Declines(Some(PeripheralEvent.Offline))
              && q == p.(state := PeripheralState.Offline, retryCount := 0)
            else if HasNothing(p) then turn == Declines(None) && q == p.(retryCount := 0)
            else
              && turn.Transmits? && IsRequestFor(turn.t, p.address, p.options, fdl, p.piQ)
              && turn.t.h.dsap == DueSap(p) && turn.t.h.fc.fcb == p.fcb
              && q == p.(retryCount := p.retryCount + 1)
  {
    if p.state.WaitForParam? && p.options.userParameters.Some? {
      ParametersAreReadable(p.options, fdl, p.options.userParameters.value);
    }
  }

  // ---------------------------------------------------------------------------------------------
  // Replies
  // ---------------------------------------------------------------------------------------------

  /** The peripheral that goes on to the next frame count bit. */
  function Advanced(p: PeripheralView): PeripheralView
    requires !p.fcb.Inactive?
  {
    p.(fcb := if p.fcb.Low? then High else Low, retryCount := 0)
  }

  /** The peripheral that has stored this diagnosis; extended diagnosis is stored with it if there is any. */
  ghost predicate HasStored(p: PeripheralView, q: PeripheralView, t: Telegram)
    requires !p.fcb.Inactive? && IsDiagnosis(t)
  {
    && q.diag.Some?
    && q.diag.value.flags == StoredFlags(t.pdu[0], t.pdu[1])
    && q.diag.value.identNumber == 0x100 * (t.pdu[4] as int) + t.pdu[5]
    && q.diag.value.masterAddress == (if t.pdu[3] == 255 then None else Some(t.pdu[3]))
    && q.extDiag == (if HasBlocks(t) then p.extDiag.Filled(t.pdu[6..]) else p.extDiag)
    && q == Advanced(p).(state := q.state, diag := q.diag, extDiag := q.extDiag, diagNeeded := q.diagNeeded)
  }

  lemma StoringByBytes(p: PeripheralView, t: Telegram)
    requires !p.fcb.Inactive?
    ensures StoreDiagnosis(p, t).(retryCount := 0) == StoreDiagnosis(p, t).(retryCount := 0, state := p.state)
    ensures IsDiagnosis(t) ==> HasStored(p, StoreDiagnosis(p, t).(retryCount := 0), t)
    ensures !IsDiagnosis(t) ==> StoreDiagnosis(p, t) == p
  {
    hide DiagnosisIn, StoredFlags, Has;
    DiagnosisByBytes(t);
  }

  /** While a diagnosis is awaited before parameterization, it brings the peripheral online, and nothing else does. */
  lemma OnlineExactly(p: PeripheralView, t: Telegram)
    requires IsReply(t) && !p.fcb.Inactive? && p.state.Offline?
    ensures var (q, event) := HearReply(p, t);
            if IsDiagnosis(t) then
              HasStored(p, q, t) && q.state.WaitForParam? && q.diagNeeded == p.diagNeeded && event == Some(Online)
            else q == p && event == None
  {
    hide DiagnosisIn, StoredFlags, Has;
    DiagnosisByBytes(t);
    StoringByBytes(p, t);
  }

  /** Parameters and configuration are confirmed by the short confirmation and by nothing else. */
  lemma ConfirmedExactly(p: PeripheralView, t: Telegram)
    requires IsReply(t) && !p.fcb.Inactive? && (p.state.WaitForParam? || p.state.WaitForConfig?)
    ensures HearReply(p, t)
            == if t == ShortConfirmation
               then (Advanced(p).(state := if p.state.WaitForParam? then WaitForConfig else ValidateConfig), None)
               else (p, None)
  {
    hide DiagnosisIn, StoredFlags, Has;
  }

  /** The diagnosis after the configuration: a fault sends the peripheral offline, a request for parameters back to
      parameterization, and otherwise it is ready exactly when it does not say that it is not. */
  lemma ValidatedExactly(p: PeripheralView, t: Telegram)
    requires IsReply(t) && !p.fcb.Inactive? && p.state.ValidateConfig?
    ensures var (q, event) := HearReply(p, t);
            if !IsDiagnosis(t) then q == p.(retryCount := 0) && event == None
            else
              && HasStored(p, q, t) && q.diagNeeded == p.diagNeeded
              && (q.state, event) ==
                 if ParameterFault(t) then (PeripheralState.Offline, Some(ParameterError))
                 else if ConfigurationFault(t) then (PeripheralState.Offline, Some(ConfigError))
                 else if WantsParameters(t) then (WaitForParam, None)
                 else if NotReady(t) then (ValidateConfig, None)
                 else (PreDataExchange, Some(Configured))
  {
    hide DiagnosisIn, StoredFlags, Has;
    DiagnosisByBytes(t);
    StoringByBytes(p, t);
  }

  /** The inputs that this reply brings, if it does: a response that says so, or the short confirmation if there are
      no inputs. */
  function InputsIn(t: Telegram): Option<seq<Byte>>
    requires IsReply(t)
  {
    match t
    case ShortConfirmation => Some([])
    case Data(h, pdu) => if h.fc.status in {Ok, DataLow, DataHigh} then Some(pdu) else None
  }

  /** In the cyclic exchange, inputs of the right size are taken and reported, and nothing else is.  The slave wants
      its diagnosis to be read exactly when it answers with high priority, and must be validated again exactly when its
      access point is not enabled.  A diagnosis that is wanted is awaited before anything else. */
  lemma ExchangedExactly(p: PeripheralView, t: Telegram)
    requires IsReply(t) && !p.fcb.Inactive? && Exchanging(p)
    ensures var (q, event) := HearReply(p, t);
            if p.diagNeeded then
              if IsDiagnosis(t) then
                && HasStored(p, q, t) && q.state == p.state && !q.diagNeeded
                && event == Some(PeripheralEvent.Diagnostics)
              else q == p && event == None
            else
              var taken := InputsIn(t).Some? && |InputsIn(t).value| == |p.piI|;
              && q == Advanced(p).(
                   piI := if taken then InputsIn(t).value else p.piI,
                   state := if taken then DataExchange
                            else if t.Data? && t.h.fc.status == SapNotEnabled then ValidateConfig else p.state,
                   diagNeeded := t.Data? && t.h.fc.status == DataHigh)
              && event == if taken then Some(DataExchanged) else None
  {
    hide DiagnosisIn, StoredFlags, Has;
    DiagnosisByBytes(t);
    StoringByBytes(p, t);
  }
}
