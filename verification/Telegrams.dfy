/**
 The telegram codec: frame formats, serialization and parsing.

 The three data formats follow IEC 61158-4-3: SD1 without data, SD3 with exactly eight bytes of
 data and SD2 with a length byte; next to them there are the token telegram and the short
 confirmation.
 */
module Telegrams {
  import opened BusParameters

  type Byte = b: int | 0 <= b < 256

  const SD1: Byte := 0x10
  const SD2: Byte := 0x68
  const SD3: Byte := 0xA2
  const SD4: Byte := 0xDC
  const ED: Byte := 0x16
  const SC: Byte := 0xE5

  // ---------------------------------------------------------------------------------------------
  // Function codes
  // ---------------------------------------------------------------------------------------------

  datatype RequestType =
    | ClockValue | TimeEvent | SdaLow | SdnLow | SdaHigh | SdnHigh
    | MulticastSrd | FdlStatus | SrdLow | SrdHigh | Ident | LsapStatus
  {
    function ToByte(): Byte {
      match this
      case ClockValue => 0x80
      case TimeEvent => 0
      case SdaLow => 3
      case SdnLow => 4
      case SdaHigh => 5
      case SdnHigh => 6
      case MulticastSrd => 7
      case FdlStatus => 9
      case SrdLow => 12
      case SrdHigh => 13
      case Ident => 14
      case LsapStatus => 15
    }

    static function FromByte(b: Byte): Option<RequestType> {
      match b
      case 0x80 => Some(ClockValue)
      case 0 => Some(TimeEvent)
      case 3 => Some(SdaLow)
      case 4 => Some(SdnLow)
      case 5 => Some(SdaHigh)
      case 6 => Some(SdnHigh)
      case 7 => Some(MulticastSrd)
      case 9 => Some(FdlStatus)
      case 12 => Some(SrdLow)
      case 13 => Some(SrdHigh)
      case 14 => Some(Ident)
      case 15 => Some(LsapStatus)
      case _ => None
    }

    predicate ExpectsReply() {
      this !in {ClockValue, TimeEvent, SdnLow, SdnHigh}
    }
  }

  datatype ResponseState = Slave | MasterNotReady | MasterWithoutToken | MasterInRing {
    function ToByte(): Byte {
      match this
      case Slave => 0
      case MasterNotReady => 1
      case MasterWithoutToken => 2
      case MasterInRing => 3
    }

    static function FromByte(b: Byte): Option<ResponseState> {
      match b
      case 0 => Some(Slave)
      case 1 => Some(MasterNotReady)
      case 2 => Some(MasterWithoutToken)
      case 3 => Some(MasterInRing)
      case _ => None
    }
  }

  datatype ResponseStatus =
    | Ok | UserError | NoResources | SapNotEnabled | DataLow | NoDataReady | DataHigh
    | NotReceivedDataLow | NotReceivedDataHigh
  {
    function ToByte(): Byte {
      match this
      case Ok => 0
      case UserError => 1
      case NoResources => 2
      case SapNotEnabled => 3
      case DataLow => 8
      case NoDataReady => 9
      case DataHigh => 10
      case NotReceivedDataLow => 12
      case NotReceivedDataHigh => 13
    }

    static function FromByte(b: Byte): Option<ResponseStatus> {
      match b
      case 0 => Some(Ok)
      case 1 => Some(UserError)
      case 2 => Some(NoResources)
      case 3 => Some(SapNotEnabled)
      case 8 => Some(DataLow)
      case 9 => Some(NoDataReady)
      case 10 => Some(DataHigh)
      case 12 => Some(NotReceivedDataLow)
      case 13 => Some(NotReceivedDataHigh)
      case _ => None
    }
  }

  /** The frame count bit detects lost telegrams; `First` and `Inactive` carry no valid bit. */
  datatype FrameCountBit = First | High | Low | Inactive {
    predicate Fcb() {
      First? || High?
    }

    predicate Fcv() {
      High? || Low?
    }

    static function FromFcvFcb(fcv: bool, fcb: bool): FrameCountBit {
      match (fcv, fcb)
      case (false, false) => Inactive
      case (false, true) => First
      case (true, true) => High
      case (true, false) => Low
    }

    /** The bit for the next telegram after this one was confirmed. */
    function Cycled(): (c: FrameCountBit)
      requires !Inactive?
      ensures c.Fcv() && (Fcv() ==> c.Fcb() != Fcb())
    {
      if Low? then High else Low
    }
  }

  datatype FunctionCode =
    | Request(fcb: FrameCountBit, req: RequestType)
    | Response(state: ResponseState, status: ResponseStatus)
  {
    function ToByte(): Byte {
      match this
      case Request(fcb, req) =>
        0x40 + req.ToByte() + (if fcb.Fcv() then 0x10 else 0) + (if fcb.Fcb() then 0x20 else 0)
      case Response(state, status) =>
        state.ToByte() * 0x10 + status.ToByte()
    }

    /** Bit `2^n` of a byte. */
    static predicate Bit(b: Byte, weight: int)
      requires weight > 0
    {
      b / weight % 2 == 1
    }

    static function FromByte(b: Byte): Option<FunctionCode> {
      if Bit(b, 0x40) then
        // Keep the top bit and the low four bits.
        match RequestType.FromByte(b / 0x80 * 0x80 + b % 0x10)
        case None => None
        case Some(req) => Some(Request(FrameCountBit.FromFcvFcb(Bit(b, 0x10), Bit(b, 0x20)), req))
      else
        match (ResponseState.FromByte(b / 0x10 % 4), ResponseStatus.FromByte(b % 0x10))
        case (Some(state), Some(status)) => Some(Response(state, status))
        case _ => None
    }
  }

  /** The fields of a request byte do not overlap. */
  lemma RequestByteFields(low: Byte, top: bool, fcv: bool, fcb: bool)
    requires low < 0x10
    ensures var b := 0x40 + ((if top then 0x80 else 0) + low) + (if fcv then 0x10 else 0) + (if fcb then 0x20 else 0);
            && b / 0x40 % 2 == 1
            && b / 0x80 * 0x80 + b % 0x10 == (if top then 0x80 else 0) + low
            && (b / 0x10 % 2 == 1) == fcv
            && (b / 0x20 % 2 == 1) == fcb
  {
  }

  lemma ResponseByteFields(high: Byte, low: Byte)
    requires high < 4 && low < 0x10
    ensures var b := high * 0x10 + low; b / 0x40 % 2 == 0 && b / 0x10 % 4 == high && b % 0x10 == low
  {
  }

  lemma RequestTypeRoundTrip(req: RequestType)
    ensures RequestType.FromByte(req.ToByte()) == Some(req)
    ensures req.ToByte() == 0x80 || req.ToByte() < 0x10
  {
  }

  lemma FunctionCodeRoundTrip(fc: FunctionCode)
    ensures FunctionCode.FromByte(fc.ToByte()) == Some(fc)
  {
    match fc
    case Request(fcb, req) =>
      RequestTypeRoundTrip(req);
      var r := req.ToByte();
      RequestByteFields(if r == 0x80 then 0 else r, r == 0x80, fcb.Fcv(), fcb.Fcb());
    case Response(state, status) =>
      ResponseByteFields(state.ToByte(), status.ToByte());
  }

  // ---------------------------------------------------------------------------------------------
  // Telegrams
  // ---------------------------------------------------------------------------------------------

  datatype Header = Header(da: Byte, sa: Byte, dsap: Option<Byte>, ssap: Option<Byte>, fc: FunctionCode) {
    /** The number of bytes from the destination address to the end of the data. */
    function LengthByte(pduLength: nat): nat {
      pduLength + (if dsap.Some? then 1 else 0) + (if ssap.Some? then 1 else 0) + 3
    }

    function TelegramLength(pduLength: nat): nat {
      var l := LengthByte(pduLength);
      if l == 3 || l == 11 then l + 3 else l + 6
    }
  }

  datatype Telegram =
    | Data(h: Header, pdu: seq<Byte>)
    | Token(da: Byte, sa: Byte)
    | ShortConfirmation
  {
    function SourceAddress(): Option<Byte> {
      match this
      case Data(h, _) => Some(h.sa)
      case Token(_, sa) => Some(sa)
      case ShortConfirmation => None
    }

    predicate IsStatusRequest() {
      Data? && h.fc.Request? && h.fc.req.FdlStatus?
    }

    predicate IsResponse() {
      Data? && h.fc.Response?
    }
  }

  function StatusRequest(da: Byte, sa: Byte): Telegram {
    Data(Header(da, sa, None, None, Request(Inactive, FdlStatus)), [])
  }

  function StatusResponse(da: Byte, sa: Byte, state: ResponseState): Telegram {
    Data(Header(da, sa, None, None, Response(state, Ok)), [])
  }

  /** The address that must answer this telegram before anything else is sent, if any. */
  function ExpectedReplier(t: Telegram): Option<Byte> {
    if t.Data? && t.h.fc.Request? && t.h.fc.req.ExpectsReply() then Some(t.h.da) else None
  }

  // ---------------------------------------------------------------------------------------------
  // Serialization
  // ---------------------------------------------------------------------------------------------

  function Sum(bytes: seq<Byte>): nat {
    if bytes == [] then 0 else Sum(bytes[..|bytes| - 1]) + bytes[|bytes| - 1]
  }

  /** The frame check sequence: the sum of the bytes with wrap-around. */
  function Checksum(bytes: seq<Byte>): Byte {
    Sum(bytes) % 256
  }

  /** Set the extension bit of an address byte. */
  function Extended(address: Byte, extend: bool): Byte {
    if extend && address < 0x80 then address + 0x80 else address
  }

  function OptionalByte(b: Option<Byte>): seq<Byte> {
    if b.Some? then [b.value] else []
  }

  /** The part of a data telegram that the checksum covers. */
  function Body(h: Header, pdu: seq<Byte>): (body: seq<Byte>)
    ensures |body| == h.LengthByte(|pdu|)
  {
    [Extended(h.da, h.dsap.Some?), Extended(h.sa, h.ssap.Some?), h.fc.ToByte()]
    + OptionalByte(h.dsap) + OptionalByte(h.ssap) + pdu
  }

  /** The bytes in front of the body. */
  function Lead(length: nat): seq<Byte>
    requires length <= 249
  {
    if length == 3 then [SD1]
    else if length == 11 then [SD3]
    else [SD2, length, length, SD2]
  }

  /** A telegram that fits into a frame. */
  predicate Encodable(t: Telegram) {
    t.Data? ==> t.h.LengthByte(|t.pdu|) <= 249
  }

  function Encode(t: Telegram): (bytes: seq<Byte>)
    requires Encodable(t)
    ensures |bytes| == TelegramLength(t) <= 255
  {
    match t
    case Data(h, pdu) =>
      var body := Body(h, pdu);
      Lead(|body|) + body + [Checksum(body), ED]
    case Token(da, sa) => [SD4, da, sa]
    case ShortConfirmation => [SC]
  }

  function TelegramLength(t: Telegram): (n: nat)
    ensures n >= 1
  {
    match t
    case Data(h, pdu) => h.TelegramLength(|pdu|)
    case Token(_, _) => 3
    case ShortConfirmation => 1
  }

  lemma SumOfConcat(a: seq<Byte>, b: seq<Byte>)
    ensures Sum(a + b) == Sum(a) + Sum(b)
  {
    if b == [] {
      assert a + b == a;
    } else {
      var n := |b| - 1;
      SumOfConcat(a, b[..n]);
      assert (a + b)[..|a + b| - 1] == a + b[..n];
    }
  }

  /** The sequence with some of its elements overwritten from position `at` on. */
  function Overwritten(s: seq<Byte>, at: nat, bytes: seq<Byte>): seq<Byte>
    requires at + |bytes| <= |s|
  {
    s[..at] + bytes + s[at + |bytes|..]
  }

  lemma OverwriteInSequence(s: seq<Byte>, a: seq<Byte>, b: seq<Byte>)
    requires |a| + |b| <= |s|
    ensures Overwritten(Overwritten(s, 0, a), |a|, b) == Overwritten(s, 0, a + b)
  {
  }

  /** Write the start delimiter and, where the format has one, the length. */
  method WriteLead(buffer: array<Byte>, lengthByte: nat) returns (cursor: nat)
    requires lengthByte <= 249 && buffer.Length >= 4
    modifies buffer
    ensures cursor == |Lead(lengthByte)|
    ensures buffer[..] == Overwritten(old(buffer[..]), 0, Lead(lengthByte))
  {
    cursor := 0;
    var sc := if lengthByte == 3 then SD1 else if lengthByte == 11 then SD3 else SD2;
    buffer[cursor] := sc;
    cursor := cursor + 1;
    if sc == SD2 {
      buffer[cursor] := lengthByte;
      buffer[cursor + 1] := lengthByte;
      buffer[cursor + 2] := sc;
      cursor := cursor + 3;
    }
  }

  /** Write addresses, function code and access points behind the lead. */
  method WriteHeader(h: Header, buffer: array<Byte>, start: nat) returns (cursor: nat)
    requires start + 5 <= buffer.Length
    modifies buffer
    ensures cursor == start + h.LengthByte(0)
    ensures buffer[..] == Overwritten(old(buffer[..]), start, Body(h, []))
  {
    buffer[start] := Extended(h.da, h.dsap.Some?);
    buffer[start + 1] := Extended(h.sa, h.ssap.Some?);
    buffer[start + 2] := h.fc.ToByte();
    cursor := start + 3;
    if h.dsap.Some? {
      buffer[cursor] := h.dsap.value;
      cursor := cursor + 1;
    }
    if h.ssap.Some? {
      buffer[cursor] := h.ssap.value;
      cursor := cursor + 1;
    }
  }

  /** Write everything that comes before the checksum. */
  method WriteUpToChecksum(h: Header, pdu: seq<Byte>, buffer: array<Byte>) returns (start: nat, cursor: nat)
    requires Encodable(Data(h, pdu)) && buffer.Length >= h.TelegramLength(|pdu|)
    modifies buffer
    ensures start == |Lead(h.LengthByte(|pdu|))| && cursor == start + h.LengthByte(|pdu|)
    ensures buffer[..] == Overwritten(old(buffer[..]), 0, Lead(h.LengthByte(|pdu|)) + Body(h, pdu))
  {
    var lengthByte := h.LengthByte(|pdu|);
    ghost var was, lead := buffer[..], Lead(lengthByte);
    start := WriteLead(buffer, lengthByte);
    cursor := WriteHeader(h, buffer, start);
    OverwriteInSequence(was, lead, Body(h, []));
    WriteBytes(buffer, cursor, pdu);
    OverwriteInSequence(was, lead + Body(h, []), pdu);
    cursor := cursor + |pdu|;
    assert lead + Body(h, []) + pdu == lead + Body(h, pdu);
  }

  lemma OverwrittenParts(s: seq<Byte>, a: seq<Byte>, b: seq<Byte>)
    requires |a| + |b| <= |s|
    ensures var o := Overwritten(s, 0, a + b);
            o[..|a| + |b|] == a + b && o[|a|..|a| + |b|] == b && o[|a| + |b|..] == s[|a| + |b|..]
  {
  }

  /** Write a data telegram into the front of a buffer. */
  method Serialize(h: Header, pdu: seq<Byte>, buffer: array<Byte>) returns (cursor: nat)
    requires Encodable(Data(h, pdu)) && buffer.Length >= h.TelegramLength(|pdu|)
    modifies buffer
    ensures cursor == h.TelegramLength(|pdu|)
    ensures buffer[..cursor] == Encode(Data(h, pdu))
    ensures buffer[cursor..] == old(buffer[cursor..])
  {
    ghost var was, lead, body := buffer[..], Lead(h.LengthByte(|pdu|)), Body(h, pdu);
    var start;
    start, cursor := WriteUpToChecksum(h, pdu, buffer);
    OverwrittenParts(was, lead, body);
    assert buffer[start..cursor] == buffer[..][start..cursor];
    var checksum := AddUp(buffer, start, cursor);
    WriteBytes(buffer, cursor, [checksum, ED]);
    OverwriteInSequence(was, lead + body, [checksum, ED]);
    OverwrittenParts(was, lead + body, [checksum, ED]);
    cursor := cursor + 2;
    assert buffer[..cursor] == buffer[..][..cursor] && buffer[cursor..] == buffer[..][cursor..];
  }

  method WriteBytes(buffer: array<Byte>, start: nat, bytes: seq<Byte>)
    requires start + |bytes| <= buffer.Length
    modifies buffer
    ensures buffer[..] == Overwritten(old(buffer[..]), start, bytes)
  {
    for i := 0 to |bytes|
      invariant buffer[..start] == old(buffer[..start])
      invariant buffer[start..start + i] == bytes[..i]
      invariant buffer[start + |bytes|..] == old(buffer[start + |bytes|..])
    {
      buffer[start + i] := bytes[i];
    }
  }

  /** The wrapping sum of a part of the buffer. */
  method AddUp(buffer: array<Byte>, lo: nat, hi: nat) returns (sum: Byte)
    requires lo <= hi <= buffer.Length
    ensures sum == Checksum(buffer[lo..hi])
  {
    sum := 0;
    for i := lo to hi
      invariant sum == Checksum(buffer[lo..i])
    {
      assert buffer[lo..i + 1][..i - lo] == buffer[lo..i];
      sum := (sum + buffer[i]) % 256;
    }
  }

  // ---------------------------------------------------------------------------------------------
  // Parsing
  // ---------------------------------------------------------------------------------------------

  /** The outcome of parsing the front of a receive buffer. */
  datatype Parsed =
    | Incomplete
    | Invalid
    | Complete(telegram: Telegram, length: nat)

  function ParseData(input: seq<Byte>): (p: Parsed)
    ensures p.Complete? ==> 6 <= p.length <= |input|
    ensures p.Complete? ==> p.telegram.Data? && p.telegram.h.da < 0x80 && p.telegram.h.sa < 0x80
  {
    if |input| < 6 then Incomplete
    else
      match input[0]
      case 0x10 => ParseFrame(input, 0, 6)
      case 0x68 =>
        if input[1] != input[2] then Invalid
        else if input[1] < 3 then Invalid
        else
          var l: nat := input[1];
          ParseFrame(input[3..], l - 3, l + 6)
      case 0xA2 => ParseFrame(input, 8, 14)
      case _ => Invalid
  }

  /** Parse a frame whose body starts behind the first byte of `buffer`; `length` bytes follow the
      function code. */
  function ParseFrame(buffer: seq<Byte>, length: nat, total: nat): (p: Parsed)
    requires |buffer| >= 1
    ensures p.Complete? ==> p.telegram.Data? && p.telegram.h.da < 0x80 && p.telegram.h.sa < 0x80
    ensures p.Complete? ==> |buffer| >= length + 6 && p.length == total
    ensures p.Incomplete? <==> |buffer| < length + 6
  {
    if |buffer| < length + 6 then Incomplete
    else
      var (hasDsap, da) := (buffer[1] >= 0x80, buffer[1] % 0x80);
      var (hasSsap, sa) := (buffer[2] >= 0x80, buffer[2] % 0x80);
      match FunctionCode.FromByte(buffer[3])
      case None => Invalid
      case Some(fc) =>
        if hasDsap && length < 1 then Invalid
        else
          var (dsap, rest1, length1) :=
            if hasDsap then (Some(buffer[4]), buffer[5..], length - 1) else (None, buffer[4..], length);
          if hasSsap && length1 < 1 then Invalid
          else
            var (ssap, rest2, length2) :=
              if hasSsap then (Some(rest1[0]), rest1[1..], length1 - 1) else (None, rest1, length1);
            if rest2[length2] != Checksum(buffer[1..length + 4]) then Invalid
            else if rest2[length2 + 1] != ED then Invalid
            else Complete(Data(Header(da, sa, dsap, ssap, fc), rest2[..length2]), total)
  }

  /** Parse the telegram at the front of a buffer. */
  function Parse(buffer: seq<Byte>): (p: Parsed)
    ensures p.Complete? ==> 1 <= p.length <= |buffer|
  {
    if |buffer| == 0 then Incomplete
    else
      match buffer[0]
      case 0xE5 => Complete(ShortConfirmation, 1)
      case 0xDC => if |buffer| < 3 then Incomplete else Complete(Token(buffer[1], buffer[2]), 3)
      case 0x10 => ParseData(buffer)
      case 0x68 => ParseData(buffer)
      case 0xA2 => ParseData(buffer)
      case _ => Invalid
  }

  // ---------------------------------------------------------------------------------------------
  // Round trip
  // ---------------------------------------------------------------------------------------------

  /** A telegram whose addresses leave the extension bit free. */
  predicate Addressable(t: Telegram) {
    t.Data? ==> t.h.da < 0x80 && t.h.sa < 0x80
  }

  /** Where the parts of a telegram stand in a frame. */
  lemma FrameParts(start: Byte, h: Header, pdu: seq<Byte>, rest: seq<Byte>)
    ensures var body := Body(h, pdu);
            var buffer := [start] + body + [Checksum(body), ED] + rest;
            var n, dsap := |body|, if h.dsap.Some? then 1 else 0;
            var saps := dsap + if h.ssap.Some? then 1 else 0;
            && buffer[1..n + 1] == body
            && buffer[1] == Extended(h.da, h.dsap.Some?) && buffer[2] == Extended(h.sa, h.ssap.Some?)
            && buffer[3] == h.fc.ToByte()
            && (h.dsap.Some? ==> buffer[4] == h.dsap.value)
            && (h.ssap.Some? ==> buffer[4 + dsap] == h.ssap.value)
            && buffer[4 + saps..4 + saps + |pdu|] == pdu
            && buffer[n + 1] == Checksum(body) && buffer[n + 2] == ED
  {
    hide Sum, Checksum, Extended;
    var body := Body(h, pdu);
    var n, saps := |body|, |body| - 3 - |pdu|;
    var buffer := [start] + body + [Checksum(body), ED] + rest;
    assert buffer[1..n + 1] == body;
    assert forall i | 0 <= i < n :: buffer[i + 1] == body[i];
    assert buffer[4 + saps..4 + saps + |pdu|] == body[3 + saps..] == pdu;
  }

  /** A frame around the given body parses to the telegram the body was made from, whatever
      follows the frame. */
  lemma FrameRoundTrip(start: Byte, h: Header, pdu: seq<Byte>, rest: seq<Byte>, total: nat)
    requires Addressable(Data(h, pdu))
    ensures var body := Body(h, pdu);
            ParseFrame([start] + body + [Checksum(body), ED] + rest, |body| - 3, total)
            == Complete(Data(h, pdu), total)
  {
    hide Body, Checksum, FunctionCode.FromByte, FunctionCode.ToByte;
    var body := Body(h, pdu);
    var buffer := [start] + body + [Checksum(body), ED] + rest;
    FunctionCodeRoundTrip(h.fc);
    FrameParts(start, h, pdu, rest);
    var saps := (if h.dsap.Some? then 1 else 0) + (if h.ssap.Some? then 1 else 0);
    var rest1 := if h.dsap.Some? then buffer[5..] else buffer[4..];
    var rest2 := if h.ssap.Some? then rest1[1..] else rest1;
    assert rest2 == buffer[4 + saps..];
    assert rest2[..|pdu|] == pdu;
  }

  lemma ShortFrameRoundTrip(t: Telegram, rest: seq<Byte>)
    requires t.Data? && Addressable(t) && Encodable(t) && (|Body(t.h, t.pdu)| == 3 || |Body(t.h, t.pdu)| == 11)
    ensures Parse(Encode(t) + rest) == Complete(t, |Encode(t)|)
  {
    hide Body, Checksum, ParseFrame;
    var body := Body(t.h, t.pdu);
    var input := Encode(t) + rest;
    assert input == [input[0]] + body + [Checksum(body), ED] + rest;
    FrameRoundTrip(input[0], t.h, t.pdu, rest, |body| + 3);
  }

  lemma LongFrameRoundTrip(t: Telegram, rest: seq<Byte>)
    requires t.Data? && Addressable(t) && Encodable(t) && |Body(t.h, t.pdu)| != 3 && |Body(t.h, t.pdu)| != 11
    ensures Parse(Encode(t) + rest) == Complete(t, |Encode(t)|)
  {
    hide Body, Checksum, ParseFrame;
    var body := Body(t.h, t.pdu);
    var input := Encode(t) + rest;
    assert input[..4] == [SD2, |body|, |body|, SD2];
    assert input[3..] == [SD2] + body + [Checksum(body), ED] + rest;
    FrameRoundTrip(SD2, t.h, t.pdu, rest, |body| + 6);
  }

  /** An encoded telegram parses to itself and its exact length, whatever follows it, if and only
      if its addresses fit into seven bits. */
  lemma RoundTrip(t: Telegram, rest: seq<Byte>)
    requires Encodable(t)
    ensures Parse(Encode(t) + rest) == Complete(t, |Encode(t)|) <==> Addressable(t)
  {
    if t.Data? && Addressable(t) {
      if |Body(t.h, t.pdu)| == 3 || |Body(t.h, t.pdu)| == 11 {
        ShortFrameRoundTrip(t, rest);
      } else {
        LongFrameRoundTrip(t, rest);
      }
    }
  }

  /** No strict prefix of an encoded telegram parses to anything. */
  lemma PrefixIsIncomplete(t: Telegram, k: nat)
    requires Encodable(t) && k < |Encode(t)|
    ensures Parse(Encode(t)[..k]) == Incomplete
  {
    var bytes := Encode(t);
    if k > 0 {
      assert bytes[..k][0] == bytes[0];
      if t.Data? && k >= 6 {
        assert bytes[..k][1] == bytes[1] && bytes[..k][2] == bytes[2];
      }
    }
  }

  /** Any buffer that starts like a telegram but is still incomplete is shorter than 261 bytes. */
  lemma IncompleteIsShort(buffer: seq<Byte>)
    ensures Parse(buffer).Incomplete? ==> |buffer| < 261
  {
  }
}
