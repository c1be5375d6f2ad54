/**
 The receive side of the physical layer: a fixed buffer that is filled by the port, parsed
 telegram by telegram and shifted down in place.
 */
module PhysicalLayer {
  import opened BusParameters
  import opened Telegrams

  /** A telegram handed to the receiver; `isLast` when nothing is left in the buffer behind it. */
  datatype Delivery = Delivery(telegram: Telegram, isLast: bool)

  datatype Drained = Drained(deliveries: seq<Delivery>, rest: seq<Byte>)

  /** Everything that can be received from a buffer, and the bytes that stay in it. */
  function Drain(buffer: seq<Byte>): (d: Drained)
    ensures forall i | 0 <= i < |d.deliveries| :: d.deliveries[i].isLast ==> i == |d.deliveries| - 1 && d.rest == []
    ensures |d.rest| < 261
    decreases |buffer|
  {
    match Parse(buffer)
    case Invalid => Drained([], [])
    case Incomplete =>
      IncompleteIsShort(buffer);
      Drained([], buffer)
    case Complete(t, n) =>
      if n == |buffer| then Drained([Delivery(t, true)], [])
      else
        var d := Drain(buffer[n..]);
        Drained([Delivery(t, false)] + d.deliveries, d.rest)
  }

  /** One pass of the receive loop. */
  lemma DrainUnfolds(buffer: seq<Byte>, p: Parsed)
    requires p == Parse(buffer)
    ensures p.Invalid? ==> Drain(buffer) == Drained([], [])
    ensures p.Incomplete? ==> Drain(buffer) == Drained([], buffer)
    ensures p.Complete? && p.length == |buffer| ==> Drain(buffer) == Drained([Delivery(p.telegram, true)], [])
    ensures p.Complete? && p.length < |buffer| ==>
              var d := Drain(buffer[p.length..]);
              Drain(buffer) == Drained([Delivery(p.telegram, false)] + d.deliveries, d.rest)
    ensures Drain([]) == Drained([], [])
  {
  }

  /** Only the first telegram of a buffer, and the bytes that stay in it. */
  datatype FirstOnly = FirstOnly(telegram: Option<Telegram>, rest: seq<Byte>)

  function TakeFirst(buffer: seq<Byte>): FirstOnly {
    match Parse(buffer)
    case Invalid => FirstOnly(None, [])
    case Incomplete => FirstOnly(None, buffer)
    case Complete(t, n) => FirstOnly(Some(t), buffer[n..])
  }

  function TelegramsOf(ds: seq<Delivery>): seq<Telegram> {
    seq(|ds|, i requires 0 <= i < |ds| => ds[i].telegram)
  }

  /** Receiving one telegram leaves the others to be received later, and loses none of them. */
  lemma OneThenTheRest(buffer: seq<Byte>)
    ensures var (first, all) := (TakeFirst(buffer), Drain(buffer));
            match first.telegram
            case None => all.deliveries == [] && all.rest == first.rest
            case Some(t) =>
              && TelegramsOf(all.deliveries) == [t] + TelegramsOf(Drain(first.rest).deliveries)
              && all.rest == Drain(first.rest).rest
  {
    match Parse(buffer)
    case Complete(t, n) => assert buffer[|buffer|..] == [];
    case _ =>
  }

  // ---------------------------------------------------------------------------------------------
  // The buffer
  // ---------------------------------------------------------------------------------------------

  const BUFFER_SIZE: nat := 512

  class Phy {
    const buffer: array<Byte>
    var length: nat
    var transmitting: bool

    ghost predicate Valid()
      reads this
    {
      length <= buffer.Length == BUFFER_SIZE
    }

    /** The bytes that were received and not consumed yet. */
    ghost function Pending(): seq<Byte>
      requires Valid()
      reads this, buffer
    {
      buffer[..length]
    }

    constructor ()
      ensures Valid() && fresh(buffer) && !transmitting && Pending() == []
    {
      buffer := new Byte[BUFFER_SIZE](_ => 0);
      length := 0;
      transmitting := false;
    }

    /** Take up bytes that arrived at the port. */
    method Fill(arrived: seq<Byte>)
      requires Valid() && !transmitting && length + |arrived| <= BUFFER_SIZE
      modifies this`length, buffer
      ensures Valid() && Pending() == old(Pending()) + arrived
    {
      WriteBytes(buffer, length, arrived);
      assert buffer[..length] == buffer[..][..length];
      assert buffer[length..length + |arrived|] == buffer[..][length..length + |arrived|];
      length := length + |arrived|;
    }

    /** Drop bytes from the front by moving the remaining ones down. */
    method Drop(drop: nat)
      requires Valid() && drop <= length
      modifies this`length, buffer
      ensures Valid() && Pending() == old(Pending())[drop..]
    {
      if drop == 0 {
      } else if drop == length {
        length := 0;
      } else {
        for i := 0 to length - drop
          modifies buffer
          invariant forall j | 0 <= j < i :: buffer[j] == old(buffer[j + drop])
          invariant forall j | i <= j < length :: buffer[j] == old(buffer[j])
        {
          buffer[i] := buffer[i + drop];
        }
        length := length - drop;
      }
    }

    /** Receive at most one telegram. */
    method ReceiveTelegram() returns (telegram: Option<Telegram>)
      requires Valid() && !transmitting
      modifies this`length, buffer
      ensures Valid() && telegram == TakeFirst(old(Pending())).telegram
      ensures Pending() == TakeFirst(old(Pending())).rest
    {
      match Parse(buffer[..length])
      case Invalid =>
        telegram := None;
        Drop(length);
      case Incomplete =>
        telegram := None;
      case Complete(t, n) =>
        telegram := Some(t);
        Drop(n);
    }

    /** Receive all telegrams that are pending. */
    method ReceiveAllTelegrams() returns (deliveries: seq<Delivery>)
      requires Valid() && !transmitting
      modifies this`length, buffer
      ensures Valid() && deliveries == Drain(old(Pending())).deliveries
      ensures Pending() == Drain(old(Pending())).rest
    {
      hide Parse, Drain;
      deliveries := [];
      ghost var start := Drain(Pending());
      while true
        invariant Valid()
        invariant start == Drained(deliveries + Drain(Pending()).deliveries, Drain(Pending()).rest)
        decreases length
      {
        DrainUnfolds(Pending(), Parse(Pending()));
        match Parse(buffer[..length])
        case Invalid =>
          Drop(length);
          return;
        case Incomplete =>
          return;
        case Complete(t, n) =>
          var isLast := n == length;
          Drop(n);
          deliveries := deliveries + [Delivery(t, isLast)];
          if isLast {
              return;
          }
      }
    }

    /** Whether a transmission is still going on.  When it has ended, receiving starts over with an
        empty buffer. */
    method PollTransmission(stillBusy: bool) returns (busy: bool)
      requires Valid()
      modifies this
      ensures Valid() && busy == (old(transmitting) && stillBusy) && transmitting == busy
      ensures Pending() == if old(transmitting) && !stillBusy then [] else old(Pending())
    {
      busy := transmitting && stillBusy;
      if transmitting && !stillBusy {
        length := 0;
      }
      transmitting := busy;
    }

    /** Begin transmitting.  This must never happen during another transmission. */
    method Transmit(bytes: seq<Byte>)
      requires Valid() && !transmitting && |bytes| <= BUFFER_SIZE
      modifies this`transmitting, buffer
      ensures Valid() && transmitting && buffer[..|bytes|] == bytes
    {
      WriteBytes(buffer, 0, bytes);
      assert buffer[..|bytes|] == buffer[..][..|bytes|];
      transmitting := true;
    }
  }

  // ---------------------------------------------------------------------------------------------
  // Independence from how the bytes arrive
  // ---------------------------------------------------------------------------------------------

  predicate AllSendable(ts: seq<Telegram>) {
    forall t | t in ts :: Encodable(t) && Addressable(t)
  }

  function EncodeAll(ts: seq<Telegram>): seq<Byte>
    requires AllSendable(ts)
  {
    if ts == [] then [] else Encode(ts[0]) + EncodeAll(ts[1..])
  }

  /** Receive after each chunk of arriving bytes: all telegrams that are handed out, and the bytes
      that remain in the buffer. */
  function ReceiveChunks(buffer: seq<Byte>, chunks: seq<seq<Byte>>): (seq<Telegram>, seq<Byte>)
    decreases |chunks|
  {
    if chunks == [] then ([], buffer)
    else
      var d := Drain(buffer + chunks[0]);
      var (later, rest) := ReceiveChunks(d.rest, chunks[1..]);
      (TelegramsOf(d.deliveries) + later, rest)
  }

  function Flatten(chunks: seq<seq<Byte>>): seq<Byte> {
    if chunks == [] then [] else chunks[0] + Flatten(chunks[1..])
  }

  lemma DrainOne(t: Telegram, rest: seq<Byte>)
    requires Encodable(t) && Addressable(t)
    ensures Drain(Encode(t) + rest)
            == Drained([Delivery(t, rest == [])] + Drain(rest).deliveries, Drain(rest).rest)
  {
    RoundTrip(t, rest);
    assert (Encode(t) + rest)[|Encode(t)|..] == rest;
  }

  lemma TelegramsOfCons(d: Delivery, ds: seq<Delivery>)
    ensures TelegramsOf([d] + ds) == [d.telegram] + TelegramsOf(ds)
  {
  }

  /** Draining a beginning of an encoded stream hands out the telegrams that are complete and keeps
      the bytes of the one that is not. */
  lemma {:induction false} DrainBeginning(q: seq<Byte>, later: seq<Byte>, ts: seq<Telegram>) returns (k: nat)
    requires AllSendable(ts) && q + later == EncodeAll(ts)
    ensures k <= |ts| && TelegramsOf(Drain(q).deliveries) == ts[..k]
    ensures Drain(q).rest + later == EncodeAll(ts[k..])
    decreases |ts|
  {
    hide Parse, Encode;
    k := 0;
    if q != [] {
      var first := Encode(ts[0]);
      if |q| < |first| {
        assert q == (q + later)[..|q|] == first[..|q|];
        PrefixIsIncomplete(ts[0], |q|);
      } else {
        var rest := q[|first|..];
        assert first == (q + later)[..|first|] == q[..|first|];
        assert q + later == first + (rest + later);
        assert rest + later == (q + later)[|first|..] == EncodeAll(ts[1..]);
        k := DrainBeginningStep(q, later, ts, rest);
      }
    }
  }

  lemma {:induction false} DrainBeginningStep(q: seq<Byte>, later: seq<Byte>, ts: seq<Telegram>, rest: seq<Byte>)
    returns (k: nat)
    requires AllSendable(ts) && ts != [] && q == Encode(ts[0]) + rest && rest + later == EncodeAll(ts[1..])
    ensures k <= |ts| && TelegramsOf(Drain(q).deliveries) == ts[..k]
    ensures Drain(q).rest + later == EncodeAll(ts[k..])
    decreases |ts|, 0
  {
    DrainOne(ts[0], rest);
    var j := DrainBeginning(rest, later, ts[1..]);
    k := j + 1;
    TelegramsOfCons(Delivery(ts[0], rest == []), Drain(rest).deliveries);
    assert ts[..k] == [ts[0]] + ts[1..][..j];
    assert ts[k..] == ts[1..][j..];
  }

  /** However an encoded stream of telegrams is cut into chunks, receiving after each chunk hands out
      exactly these telegrams in order and leaves the buffer empty. */
  lemma {:induction false} ChunkingDoesNotMatter(buffer: seq<Byte>, chunks: seq<seq<Byte>>, ts: seq<Telegram>)
    requires AllSendable(ts) && buffer + Flatten(chunks) == EncodeAll(ts)
    requires Drain(buffer) == Drained([], buffer)
    ensures ReceiveChunks(buffer, chunks) == (ts, [])
    decreases |chunks|
  {
    if chunks == [] {
      assert buffer + Flatten(chunks) == buffer;
      assert buffer == EncodeAll(ts);
      var k := DrainBeginning(buffer, [], ts);
      assert k == 0;
      if ts != [] {
        RoundTrip(ts[0], EncodeAll(ts[1..]));
      }
    } else {
      var q, later := buffer + chunks[0], Flatten(chunks[1..]);
      assert q + later == buffer + Flatten(chunks);
      var k := DrainBeginning(q, later, ts);
      DrainTwice(q);
      ChunkingDoesNotMatter(Drain(q).rest, chunks[1..], ts[k..]);
      assert ts == ts[..k] + ts[k..];
    }
  }

  /** What draining leaves in the buffer is not worth draining again. */
  lemma {:induction false} DrainTwice(buffer: seq<Byte>)
    ensures Drain(Drain(buffer).rest) == Drained([], Drain(buffer).rest)
    decreases |buffer|
  {
    match Parse(buffer)
    case Complete(t, n) =>
      if n != |buffer| {
        DrainTwice(buffer[n..]);
      }
    case _ =>
  }

  /** Telegrams that arrive in front of a byte that begins none are handed out, and everything from that byte on is
      dropped, whatever follows it. */
  lemma {:induction false} GarbageDropsTheRest(ts: seq<Telegram>, garbage: seq<Byte>)
    requires AllSendable(ts) && garbage != [] && garbage[0] !in {0x10, 0x68, 0xA2, 0xDC, 0xE5}
    ensures var d := Drain(EncodeAll(ts) + garbage);
            && TelegramsOf(d.deliveries) == ts && d.rest == []
            && forall i | 0 <= i < |ts| :: !d.deliveries[i].isLast
  {
    hide Encode;
    if ts == [] {
      assert EncodeAll(ts) + garbage == garbage;
    } else {
      var later := EncodeAll(ts[1..]) + garbage;
      assert EncodeAll(ts) + garbage == Encode(ts[0]) + later;
      GarbageDropsTheRest(ts[1..], garbage);
      DrainOne(ts[0], later);
      TelegramsOfCons(Delivery(ts[0], false), Drain(later).deliveries);
    }
  }

  /** After any receive pass there is room for at least 252 more bytes, so the buffer cannot stall on
      an incomplete telegram. */
  lemma BufferCannotStall(buffer: seq<Byte>)
    ensures |Drain(buffer).rest| + 252 <= BUFFER_SIZE
    ensures Drain(buffer).deliveries == [] && Parse(buffer).Incomplete? ==> |buffer| <= 260
  {
    IncompleteIsShort(buffer);
  }
}
