/**
 The telegrams as bytes on the wire, after the tables of IEC 61158-4-3.
 */
module WireFormat {
  import opened Telegrams

  // ---------------------------------------------------------------------------------------------
  // Function codes
  // ---------------------------------------------------------------------------------------------

  /** The codes of the standard, as (request, code) and (response, code). */
  const REQUEST_TABLE: seq<(RequestType, int)> := [
    (TimeEvent, 0x40), (SdaLow, 0x43), (SdnLow, 0x44), (SdaHigh, 0x45), (SdnHigh, 0x46), (MulticastSrd, 0x47),
    (FdlStatus, 0x49), (SrdLow, 0x4C), (SrdHigh, 0x4D), (Ident, 0x4E), (LsapStatus, 0x4F), (ClockValue, 0xC0)]

  const STATE_TABLE: seq<(ResponseState, int)> := [
    (Slave, 0x00), (MasterNotReady, 0x10), (MasterWithoutToken, 0x20), (MasterInRing, 0x30)]

  const STATUS_TABLE: seq<(ResponseStatus, int)> := [
    (Ok, 0x0), (UserError, 0x1), (NoResources, 0x2), (SapNotEnabled, 0x3), (DataLow, 0x8), (NoDataReady, 0x9),
    (DataHigh, 0xA), (NotReceivedDataLow, 0xC), (NotReceivedDataHigh, 0xD)]

  /** The frame count bit is 0x20, and 0x10 says that it is valid. */
  const FCB_TABLE: seq<(FrameCountBit, int)> := [(Inactive, 0x00), (First, 0x20), (Low, 0x10), (High, 0x30)]

  /** Every request and every response has the code of the tables. */
  lemma CodesOnTheWire(i: nat, j: nat)
    ensures i < |REQUEST_TABLE| && j < |FCB_TABLE| ==>
              Request(FCB_TABLE[j].0, REQUEST_TABLE[i].0).ToByte() == REQUEST_TABLE[i].1 + FCB_TABLE[j].1
    ensures i < |STATE_TABLE| && j < |STATUS_TABLE| ==>
              Response(STATE_TABLE[i].0, STATUS_TABLE[j].0).ToByte() == STATE_TABLE[i].1 + STATUS_TABLE[j].1
  {
    if i < |REQUEST_TABLE| {
      var req := REQUEST_TABLE[i];
      assert req.0.ToByte() + 0x40 == req.1;
    }
    if j < |FCB_TABLE| {
      var fcb := FCB_TABLE[j];
      assert (if fcb.0.Fcv() then 0x10 else 0) + (if fcb.0.Fcb() then 0x20 else 0) == fcb.1;
    }
    if i < |STATE_TABLE| {
      assert STATE_TABLE[i].0.ToByte() * 0x10 == STATE_TABLE[i].1;
    }
  }

  // ---------------------------------------------------------------------------------------------
  // Frames
  // ---------------------------------------------------------------------------------------------

  /** The sum of the bytes, counted from the front. */
  function Total(bytes: seq<Byte>): int {
    if bytes == [] then 0 else bytes[0] + Total(bytes[1..])
  }

  lemma {:induction false} SumIsTotal(bytes: seq<Byte>)
    ensures Sum(bytes) == Total(bytes)
  {
    if bytes != [] {
      SumIsTotal(bytes[1..]);
      SumOfConcat([bytes[0]], bytes[1..]);
      assert [bytes[0]] + bytes[1..] == bytes;
      assert [bytes[0]][..0] == [];
    }
  }

  /** What a telegram says, as bytes: the addresses, whose top bit announces an access point, the function code, the
      access points, and the data. */
  function Content(h: Header, pdu: seq<Byte>): seq<Byte>
    requires h.da < 0x80 && h.sa < 0x80
  {
    [h.da + if h.dsap.Some? then 0x80 else 0, h.sa + if h.ssap.Some? then 0x80 else 0, h.fc.ToByte()]
    + (if h.dsap.Some? then [h.dsap.value] else []) + (if h.ssap.Some? then [h.ssap.value] else []) + pdu
  }

  /** Every data telegram is framed by the format for its length, and ends with the sum of its content modulo 256 and
      the end delimiter. */
  lemma FramesOnTheWire(h: Header, pdu: seq<Byte>)
    requires h.da < 0x80 && h.sa < 0x80 && Encodable(Data(h, pdu))
    ensures var c := Content(h, pdu);
            && |c| <= 249
            && Encode(Data(h, pdu)) ==
                 (if |c| == 3 then [0x10] else if |c| == 11 then [0xA2] else [0x68, |c|, |c|, 0x68])
                 + c + [Total(c) % 256, 0x16]
  {
    assert Content(h, pdu) == Body(h, pdu);
    SumIsTotal(Body(h, pdu));
  }

  lemma OtherTelegramsOnTheWire(da: Byte, sa: Byte)
    ensures Encode(Token(da, sa)) == [0xDC, da, sa] && Encode(ShortConfirmation) == [0xE5]
  {
  }

  lemma TotalOfThree(a: Byte, b: Byte, c: Byte)
    ensures Total([a, b, c]) == a + b + c
  {
    var one: seq<Byte>, two: seq<Byte>, three: seq<Byte> := [c], [b, c], [a, b, c];
    assert one[1..] == [] && two[1..] == one && three[1..] == two;
    assert Total(one) == c;
    assert Total(two) == b + c;
  }

  /** Status requests and their answers, and the two samples of the unit tests. */
  lemma StatusOnTheWire(da: Byte, sa: Byte, state: ResponseState)
    requires da < 0x80 && sa < 0x80
    ensures Encode(StatusRequest(da, sa)) == [0x10, da, sa, 0x49, (da + sa + 0x49) % 256, 0x16]
    ensures var code := match state
                        case Slave => 0x00
                        case MasterNotReady => 0x10
                        case MasterWithoutToken => 0x20
                        case MasterInRing => 0x30;
            Encode(StatusResponse(da, sa, state)) == [0x10, da, sa, code, (da + sa + code) % 256, 0x16]
    ensures (da, sa) == (34, 2) ==> Encode(StatusRequest(da, sa)) == [0x10, 0x22, 0x02, 0x49, 0x6D, 0x16]
    ensures (da, sa, state) == (2, 34, Slave) ==>
              Encode(StatusResponse(da, sa, state)) == [0x10, 0x02, 0x22, 0x00, 0x24, 0x16]
  {
    hide Encode, Total, TelegramLength;
    FramesOnTheWire(StatusRequest(da, sa).h, []);
    TotalOfThree(da, sa, 0x49);
    FramesOnTheWire(StatusResponse(da, sa, state).h, []);
    var code := StatusResponse(da, sa, state).h.fc.ToByte();
    TotalOfThree(da, sa, code);
    assert Content(StatusRequest(da, sa).h, []) == [da, sa, 0x49];
    assert Content(StatusResponse(da, sa, state).h, []) == [da, sa, code];
  }
}
