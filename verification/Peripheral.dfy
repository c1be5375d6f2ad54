/**
 A DP peripheral as the master sees it: parameterization, configuration, data exchange and diagnosis.

 `PeripheralView` is the value of a peripheral, and the functions on it say what each operation does.
 The class `Peripheral` updates its fields in place and is proved to do the same.
 */
module Peripherals {
  import opened BusParameters
  import opened Telegrams

  const SAP_MASTER_MS0: Byte := 62
  const SAP_SLAVE_GLOBAL_CONTROL: Byte := 58
  const SAP_SLAVE_DIAGNOSIS: Byte := 60
  const SAP_SLAVE_SET_PRM: Byte := 61
  const SAP_SLAVE_CHK_CFG: Byte := 62

  const EXT_DIAG: nat := 0x08
  const STATION_NOT_READY: nat := 0x02
  const CONFIGURATION_FAULT: nat := 0x04
  const PARAMETER_FAULT: nat := 0x40
  const PARAMETER_REQUIRED: nat := 0x100
  const PERMANENT_BIT: nat := 0x400

  /** Whether a flag of one bit is set. */
  predicate Has(flags: nat, flag: nat)
    requires flag > 0
  {
    flags / flag % 2 == 1
  }

  datatype Options = Options(
    identNumber: nat,
    syncMode: bool,
    freezeMode: bool,
    groups: Byte,
    userParameters: Option<seq<Byte>>,
    config: Option<seq<Byte>>)

  datatype PeripheralState = Offline | WaitForParam | WaitForConfig | ValidateConfig | PreDataExchange | DataExchange

  datatype PeripheralEvent =
    | Online | Configured | ConfigError | ParameterError | DataExchanged | Diagnostics | Offline

  datatype DiagnosticsInfo = DiagnosticsInfo(flags: nat, identNumber: nat, masterAddress: Option<Byte>)

  /** Storage for extended diagnosis: the blocks received last are the first `length` bytes of the buffer. */
  datatype ExtendedDiagnostics = ExtendedDiagnostics(buffer: seq<Byte>, length: nat) {
    /** Blocks that do not fit are ignored. */
    function Filled(blocks: seq<Byte>): (e: ExtendedDiagnostics)
      ensures |e.buffer| == |buffer| && (length <= |buffer| ==> e.length <= |e.buffer|)
      ensures buffer != [] && |blocks| <= |buffer| ==>
                e.length == |blocks| <= |e.buffer| && e.buffer[..e.length] == blocks
      ensures buffer == [] || |blocks| > |buffer| ==> e == this
    {
      if buffer == [] || |buffer| < |blocks| then this
      else ExtendedDiagnostics(blocks + buffer[|blocks|..], |blocks|)
    }
  }

  datatype PeripheralView = PeripheralView(
    address: Byte,
    options: Options,
    state: PeripheralState,
    retryCount: nat,
    fcb: FrameCountBit,
    piI: seq<Byte>,
    piQ: seq<Byte>,
    diag: Option<DiagnosticsInfo>,
    extDiag: ExtendedDiagnostics,
    diagNeeded: bool)

  function NewPeripheral(address: Byte, options: Options, piI: seq<Byte>, piQ: seq<Byte>, diagBuffer: seq<Byte>)
    : PeripheralView
  {
    PeripheralView(address, options, PeripheralState.Offline, 0, FrameCountBit.First, piI, piQ, None,
                   ExtendedDiagnostics(diagBuffer, 0), false)
  }

  /** Everything this peripheral is ever sent fits into a telegram. */
  predicate Fits(p: PeripheralView) {
    && p.options.identNumber < 0x1_0000
    && (p.options.userParameters.Some? ==> |p.options.userParameters.value| <= 237)
    && (p.options.config.Some? ==> |p.options.config.value| <= 244)
    && |p.piQ| <= 246
    && !p.fcb.Inactive?
  }

  // ---------------------------------------------------------------------------------------------
  // Requests
  // ---------------------------------------------------------------------------------------------

  predicate Exchanging(p: PeripheralView) {
    p.state.PreDataExchange? || p.state.DataExchange?
  }

  /** The access point of the slave that the peripheral's next request goes to; cyclic data has none. */
  function RequestSap(p: PeripheralView): Option<Byte> {
    match p.state
    case Offline => Some(SAP_SLAVE_DIAGNOSIS)
    case WaitForParam => Some(SAP_SLAVE_SET_PRM)
    case WaitForConfig => Some(SAP_SLAVE_CHK_CFG)
    case ValidateConfig => Some(SAP_SLAVE_DIAGNOSIS)
    case _ => if p.diagNeeded then Some(SAP_SLAVE_DIAGNOSIS) else None
  }

  function SetUpRequest(p: PeripheralView, fdl: Parameters, pdu: seq<Byte>): Telegram
    requires fdl.address < 256
  {
    Data(Header(p.address, fdl.address, RequestSap(p), Some(SAP_MASTER_MS0), Request(p.fcb, SrdLow)), pdu)
  }

  /** The parameter telegram: lock request, watchdog, response time, identity, groups, user parameters. */
  function ParameterBytes(options: Options, fdl: Parameters, user: seq<Byte>): seq<Byte>
    requires Consistent(fdl) && options.identNumber < 0x1_0000
  {
    var watchdog := fdl.watchdogFactors;
    [0x80 + (if options.syncMode then 0x20 else 0) + (if options.freezeMode then 0x10 else 0)
          + (if watchdog.Some? then 0x08 else 0),
     if watchdog.Some? then watchdog.value.0 else 0,
     if watchdog.Some? then watchdog.value.1 else 0,
     fdl.minTsdrBits,
     options.identNumber / 0x100,
     options.identNumber % 0x100,
     options.groups] + user
  }

  /** What the peripheral is sent in its present state, if it is known what to send. */
  function RequestOf(p: PeripheralView, fdl: Parameters): (r: Option<Telegram>)
    requires Fits(p) && Consistent(fdl)
    ensures r.Some? ==>
              && Encodable(r.value) && r.value.Data? && ExpectedReplier(r.value) == Some(p.address)
              && r.value.h.sa == fdl.address && r.value.h.dsap == RequestSap(p) && r.value.h.fc.fcb == p.fcb
              && (r.value.h.dsap == None ==> r.value.pdu == p.piQ)
              && (r.value.h.dsap == Some(60) ==> r.value.pdu == [])
              && (r.value.h.dsap == Some(61) ==>
                    |r.value.pdu| >= 7 && p.options.userParameters == Some(r.value.pdu[7..]))
              && (r.value.h.dsap == Some(62) ==> p.options.config == Some(r.value.pdu))
  {
    match p.state
    case Offline => Some(SetUpRequest(p, fdl, []))
    case WaitForParam =>
      (match p.options.userParameters
       case Some(user) => Some(SetUpRequest(p, fdl, ParameterBytes(p.options, fdl, user)))
       case None => None)
    case WaitForConfig =>
      (match p.options.config
       case Some(config) => Some(SetUpRequest(p, fdl, config))
       case None => None)
    case ValidateConfig => Some(SetUpRequest(p, fdl, []))
    case _ =>
      if p.diagNeeded then Some(SetUpRequest(p, fdl, []))
      else Some(Data(Header(p.address, fdl.address, None, None, Request(p.fcb, SrdHigh)), p.piQ))
  }

  datatype Turn = Transmits(t: Telegram) | Declines(event: Option<PeripheralEvent>)

  /** The peripheral's turn: it transmits, or it gives its turn away. */
  function TakeTurn(p: PeripheralView, fdl: Parameters): (r: (PeripheralView, Turn))
    requires Fits(p) && Consistent(fdl)
  {
    if p.retryCount > fdl.maxRetryLimit then
      (p.(state := PeripheralState.Offline, retryCount := 0), Declines(Some(PeripheralEvent.Offline)))
    else if p.state.Offline? && p.retryCount != 0 then
      (p.(retryCount := 0), Declines(None))
    else
      match RequestOf(p, fdl)
      case Some(t) => (p.(retryCount := p.retryCount + 1), Transmits(t))
      case None => (p.(retryCount := 0), Declines(None))
  }

  // ---------------------------------------------------------------------------------------------
  // Replies
  // ---------------------------------------------------------------------------------------------

  /** What the active station hands on as a reply: a response or a short confirmation. */
  predicate IsReply(t: Telegram) {
    t.ShortConfirmation? || t.IsResponse()
  }

  function Word(high: nat, low: nat): nat {
    0x100 * high + low
  }

  /** The content of a diagnosis, if the telegram is one. */
  function DiagnosisIn(t: Telegram): Option<DiagnosticsInfo> {
    if !t.Data? || t.h.dsap != Some(SAP_MASTER_MS0) || t.h.ssap != Some(SAP_SLAVE_DIAGNOSIS) || |t.pdu| < 6 then None
    else
      var flags := Word(t.pdu[1], t.pdu[0]);
      Some(DiagnosticsInfo(
        if Has(flags, PERMANENT_BIT) then flags - PERMANENT_BIT else flags,
        Word(t.pdu[4], t.pdu[5]),
        if t.pdu[3] == 255 then None else Some(t.pdu[3])))
  }

  /** Store a diagnosis. */
  function StoreDiagnosis(p: PeripheralView, t: Telegram): PeripheralView
    requires !p.fcb.Inactive?
  {
    match DiagnosisIn(t)
    case Some(diag) =>
      var extDiag := if Has(diag.flags, EXT_DIAG) then p.extDiag.Filled(t.pdu[6..]) else p.extDiag;
      p.(fcb := p.fcb.Cycled(), diag := Some(diag), extDiag := extDiag)
    case None => p
  }

  /** Parameters or configuration were confirmed. */
  function Confirm(p: PeripheralView, next: PeripheralState): PeripheralView
    requires !p.fcb.Inactive?
  {
    p.(fcb := p.fcb.Cycled(), state := next, retryCount := 0)
  }

  /** What the diagnosis after the configuration leads to. */
  function Validated(flags: nat): (PeripheralState, Option<PeripheralEvent>) {
    if Has(flags, PARAMETER_FAULT) then (PeripheralState.Offline, Some(ParameterError))
    else if Has(flags, CONFIGURATION_FAULT) then (PeripheralState.Offline, Some(ConfigError))
    else if Has(flags, PARAMETER_REQUIRED) then (WaitForParam, None)
    else if !Has(flags, STATION_NOT_READY) then (PreDataExchange, Some(Configured))
    else (ValidateConfig, None)
  }

  /** Store the inputs if they have the right size. */
  function AcceptInputs(p: PeripheralView, inputs: seq<Byte>): (PeripheralView, Option<PeripheralEvent>) {
    if |inputs| == |p.piI| then (p.(piI := inputs, state := DataExchange), Some(DataExchanged)) else (p, None)
  }

  /** The reply to cyclic data. */
  function HearInputs(p: PeripheralView, t: Telegram): (PeripheralView, Option<PeripheralEvent>)
    requires IsReply(t)
  {
    match t
    case Data(h, pdu) =>
      (match h.fc.status
       case SapNotEnabled => (p.(state := ValidateConfig), None)
       case Ok => AcceptInputs(p, pdu)
       case DataLow => AcceptInputs(p, pdu)
       case DataHigh => AcceptInputs(p.(diagNeeded := true), pdu)
       case _ => (p, None))
    case ShortConfirmation => AcceptInputs(p, [])
  }

  function HearReply(p: PeripheralView, t: Telegram): (PeripheralView, Option<PeripheralEvent>)
    requires IsReply(t) && !p.fcb.Inactive?
  {
    var diagnosed := DiagnosisIn(t).Some?;
    match p.state
    case Offline =>
      if diagnosed then (StoreDiagnosis(p, t).(state := WaitForParam, retryCount := 0), Some(Online)) else (p, None)
    case WaitForParam =>
      (if t.ShortConfirmation? then Confirm(p, WaitForConfig) else p, None)
    case WaitForConfig =>
      (if t.ShortConfirmation? then Confirm(p, ValidateConfig) else p, None)
    case ValidateConfig =>
      var q := StoreDiagnosis(p, t).(retryCount := 0);
      if diagnosed then
        var (state, event) := Validated(DiagnosisIn(t).value.flags);
        (q.(state := state), event)
      else (q, None)
    case _ =>
      if p.diagNeeded then
        if diagnosed then
          (StoreDiagnosis(p, t).(retryCount := 0, diagNeeded := false), Some(PeripheralEvent.Diagnostics))
        else (p, None)
      else
        var (q, event) := HearInputs(p, t);
        (q.(retryCount := 0, fcb := q.fcb.Cycled()), event)
  }

  /** A turn changes nothing but the state and the retry count, which never exceeds the limit by more than
      one. */
  lemma TurnKeepsPeripheral(p: PeripheralView, fdl: Parameters)
    requires Fits(p) && Consistent(fdl) && p.retryCount <= fdl.maxRetryLimit + 1
    ensures var q := TakeTurn(p, fdl).0;
            && Fits(q) && q.retryCount <= fdl.maxRetryLimit + 1
            && q == p.(state := q.state, retryCount := q.retryCount)
  {
    hide RequestOf;
  }

  /** A reply leaves the address, the options, the outputs and the size of the inputs alone, and never adds
      to the retry count. */
  lemma ReplyKeepsPeripheral(p: PeripheralView, t: Telegram)
    requires Fits(p) && IsReply(t)
    ensures var q := HearReply(p, t).0;
            && Fits(q) && q.retryCount <= p.retryCount
            && q.address == p.address && q.options == p.options && q.piQ == p.piQ && |q.piI| == |p.piI|
  {
    hide Has, Word;
  }

  /** What is received is handed out unchanged, and only together with the event that reports it. */
  lemma InputsAreReported(p: PeripheralView, t: Telegram)
    requires IsReply(t) && !p.fcb.Inactive?
    ensures var (q, event) := HearReply(p, t);
            if event == Some(DataExchanged) then
              && Exchanging(p) && !p.diagNeeded && q.state.DataExchange?
              && q.piI == (if t.Data? then t.pdu else [])
              && (t.Data? ==> t.h.fc.status in {Ok, DataLow, DataHigh} && |t.pdu| == |p.piI|)
            else q.piI == p.piI
  {
  }

  // ---------------------------------------------------------------------------------------------
  // The peripheral as an object
  // ---------------------------------------------------------------------------------------------

  class Peripheral {
    const address: Byte
    const options: Options
    var state: PeripheralState
    var retryCount: nat
    var fcb: FrameCountBit
    var piI: seq<Byte>
    var piQ: seq<Byte>
    var diag: Option<DiagnosticsInfo>
    var extDiag: ExtendedDiagnostics
    var diagNeeded: bool

    ghost function View(): PeripheralView
      reads this
    {
      PeripheralView(address, options, state, retryCount, fcb, piI, piQ, diag, extDiag, diagNeeded)
    }

    constructor (address: Byte, options: Options, piI: seq<Byte>, piQ: seq<Byte>, diagBuffer: seq<Byte>)
      ensures View() == NewPeripheral(address, options, piI, piQ, diagBuffer)
    {
      this.address, this.options := address, options;
      this.piI, this.piQ := piI, piQ;
      state := PeripheralState.Offline;
      retryCount := 0;
      fcb := FrameCountBit.First;
      diag := None;
      extDiag := ExtendedDiagnostics(diagBuffer, 0);
      diagNeeded := false;
    }

    /** Write the outputs that are sent with the next data exchange. */
    method WriteOutputs(outputs: seq<Byte>)
      requires |outputs| == |piQ|
      modifies this`piQ
      ensures View() == old(View()).(piQ := outputs)
    {
      piQ := outputs;
    }

    method RequestDiagnostics()
      modifies this`diagNeeded
      ensures View() == old(View()).(diagNeeded := true)
    {
      diagNeeded := true;
    }

    method DiagnosticsRequest(fdl: Parameters) returns (t: Telegram)
      requires Consistent(fdl) && RequestSap(View()) == Some(SAP_SLAVE_DIAGNOSIS)
      ensures t == SetUpRequest(View(), fdl, [])
    {
      t := SetUpRequestFor(SAP_SLAVE_DIAGNOSIS, fdl, []);
    }

    method TransmitTelegram(fdl: Parameters) returns (turn: Turn)
      requires Fits(View()) && Consistent(fdl)
      modifies this`state, this`retryCount
      ensures (View(), turn) == TakeTurn(old(View()), fdl)
    {
      if retryCount > fdl.maxRetryLimit {
        state := PeripheralState.Offline;
        turn := Declines(Some(PeripheralEvent.Offline));
      } else {
        match state
        case Offline =>
          if retryCount == 0 {
            var t := DiagnosticsRequest(fdl);
            turn := Transmits(t);
          } else {
            turn := Declines(None);
          }
        case WaitForParam =>
          if options.userParameters.Some? {
            turn := Transmits(SetUpRequestFor(SAP_SLAVE_SET_PRM, fdl,
                                              ParameterBytes(options, fdl, options.userParameters.value)));
          } else {
            turn := Declines(None);
          }
        case WaitForConfig =>
          if options.config.Some? {
            turn := Transmits(SetUpRequestFor(SAP_SLAVE_CHK_CFG, fdl, options.config.value));
          } else {
            turn := Declines(None);
          }
        case ValidateConfig =>
          var t := DiagnosticsRequest(fdl);
          turn := Transmits(t);
        case _ =>
          if diagNeeded {
            var t := DiagnosticsRequest(fdl);
            turn := Transmits(t);
          } else {
            turn := Transmits(Data(Header(address, fdl.address, None, None, Request(fcb, SrdHigh)), piQ));
          }
      }
      if turn.Transmits? {
        retryCount := retryCount + 1;
      } else {
        retryCount := 0;
      }
    }

    function SetUpRequestFor(sap: Byte, fdl: Parameters, pdu: seq<Byte>): Telegram
      requires fdl.address < 256
      reads this
    {
      Data(Header(address, fdl.address, Some(sap), Some(SAP_MASTER_MS0), Request(fcb, SrdLow)), pdu)
    }

    method HandleDiagnosticsResponse(t: Telegram) returns (found: Option<DiagnosticsInfo>)
      requires !fcb.Inactive?
      modifies this`fcb, this`diag, this`extDiag
      ensures found == DiagnosisIn(t) && View() == StoreDiagnosis(old(View()), t)
    {
      if !t.Data? {
        return None;
      }
      if t.h.dsap != Some(SAP_MASTER_MS0) {
        return None;
      }
      if t.h.ssap != Some(SAP_SLAVE_DIAGNOSIS) {
        return None;
      }
      if |t.pdu| < 6 {
        return None;
      }
      var masterAddress := if t.pdu[3] == 255 then None else Some(t.pdu[3]);
      var flags := Word(t.pdu[1], t.pdu[0]);
      if Has(flags, PERMANENT_BIT) {
        flags := flags - PERMANENT_BIT;
      }
      if Has(flags, EXT_DIAG) {
        extDiag := extDiag.Filled(t.pdu[6..]);
      }
      fcb := fcb.Cycled();
      diag := Some(DiagnosticsInfo(flags, Word(t.pdu[4], t.pdu[5]), masterAddress));
      found := diag;
    }

    method ReceiveInputs(t: Telegram) returns (event: Option<PeripheralEvent>)
      requires IsReply(t) && Exchanging(View())
      modifies this`state, this`piI, this`diagNeeded
      ensures (View(), event) == HearInputs(old(View()), t)
    {
      match t
      case Data(h, pdu) =>
        var dataOk := false;
        match h.fc.status {
          case SapNotEnabled => state := ValidateConfig;
          case Ok => dataOk := true;
          case DataLow => dataOk := true;
          case DataHigh =>
            diagNeeded := true;
            dataOk := true;
          case _ =>
        }
        event := None;
        if dataOk && |pdu| == |piI| {
          piI := pdu;
          state := DataExchange;
          event := Some(DataExchanged);
        }
      case ShortConfirmation =>
        event := None;
        if |piI| == 0 {
          state := DataExchange;
          event := Some(DataExchanged);
        }
    }

    method ReceiveReply(t: Telegram) returns (event: Option<PeripheralEvent>)
      requires IsReply(t) && !fcb.Inactive?
      modifies this
      ensures (View(), event) == HearReply(old(View()), t)
    {
      event := None;
      match state
      case Offline =>
        var found := HandleDiagnosticsResponse(t);
        if found.Some? {
          retryCount := 0;
          state := WaitForParam;
          event := Some(Online);
        }
      case WaitForParam =>
        if t.ShortConfirmation? {
          fcb := fcb.Cycled();
          state := WaitForConfig;
          retryCount := 0;
        }
      case WaitForConfig =>
        if t.ShortConfirmation? {
          fcb := fcb.Cycled();
          state := ValidateConfig;
          retryCount := 0;
        }
      case ValidateConfig =>
        retryCount := 0;
        var found := HandleDiagnosticsResponse(t);
        if found.Some? {
          var flags := found.value.flags;
          if Has(flags, PARAMETER_FAULT) {
            state := PeripheralState.Offline;
            event := Some(ParameterError);
          } else if Has(flags, CONFIGURATION_FAULT) {
            state := PeripheralState.Offline;
            event := Some(ConfigError);
          } else if Has(flags, PARAMETER_REQUIRED) {
            state := WaitForParam;
          } else if !Has(flags, STATION_NOT_READY) {
            state := PreDataExchange;
            event := Some(Configured);
          }
        }
      case _ =>
        if diagNeeded {
          var found := HandleDiagnosticsResponse(t);
          if found.Some? {
            retryCount := 0;
            diagNeeded := false;
            event := Some(PeripheralEvent.Diagnostics);
          }
        } else {
          event := ReceiveInputs(t);
          retryCount := 0;
          fcb := fcb.Cycled();
        }
    }
  }
}
