/**
 What a single corrupted byte does to a data telegram on its way to the receiver.
 */
module ErrorDetection {
  import opened Telegrams

  lemma {:induction false} SumAfterChange(s: seq<Byte>, i: nat, b: Byte)
    requires i < |s|
    ensures Sum(s[i := b]) == Sum(s) - s[i] + b
  {
    var n := |s| - 1;
    if i == n {
      assert s[i := b][..n] == s[..n];
    } else {
      SumAfterChange(s[..n], i, b);
      assert s[i := b][..n] == s[..n][i := b];
    }
  }

  lemma ChecksumAfterChange(s: seq<Byte>, i: nat, b: Byte)
    requires i < |s| && b != s[i]
    ensures Checksum(s[i := b]) != Checksum(s)
  {
    SumAfterChange(s, i, b);
  }

  /** A frame only parses when the checksum and the end delimiter stand where the length says,
      wherever the access points move the other boundaries. */
  lemma CompleteFrameIsChecked(buffer: seq<Byte>, length: nat, total: nat)
    requires |buffer| >= 1
    ensures ParseFrame(buffer, length, total).Complete? ==>
              buffer[length + 4] == Checksum(buffer[1..length + 4]) && buffer[length + 5] == ED
  {
  }

  /** A frame with one byte changed behind its start delimiter never parses. */
  lemma ChangedFrameIsInvalid(start: Byte, body: seq<Byte>, rest: seq<Byte>, i: nat, b: Byte, total: nat)
    requires |body| >= 3 && 1 <= i <= |body| + 2
    requires b != ([start] + body + [Checksum(body), ED])[i]
    ensures ParseFrame(([start] + body + [Checksum(body), ED])[i := b] + rest, |body| - 3, total) == Invalid
  {
    var changed := ([start] + body + [Checksum(body), ED])[i := b] + rest;
    var n := |body|;
    if i <= n {
      assert changed[1..n + 1] == body[i - 1 := b];
      ChecksumAfterChange(body, i - 1, b);
    } else {
      assert changed[1..n + 1] == body;
    }
    CompleteFrameIsChecked(changed, n - 3, total);
  }

  /** The start delimiter of a frame is not looked at again. */
  lemma StartOfFrameIsIgnored(buffer: seq<Byte>, b: Byte, length: nat, total: nat)
    requires |buffer| >= 1
    ensures ParseFrame(buffer[0 := b], length, total) == ParseFrame(buffer, length, total)
  {
    var changed := buffer[0 := b];
    if |buffer| >= length + 6 {
      assert changed[4..] == buffer[4..] && changed[5..] == buffer[5..];
      assert changed[1..length + 4] == buffer[1..length + 4];
    }
  }

  /** The telegram uses the format with a length byte. */
  predicate HasLength(t: Telegram) {
    t.Data? && t.h.LengthByte(|t.pdu|) != 3 && t.h.LengthByte(|t.pdu|) != 11
  }

  lemma ShortFormatDetects(t: Telegram, rest: seq<Byte>, i: nat, b: Byte)
    requires t.Data? && Encodable(t) && !HasLength(t)
    requires 1 <= i < |Encode(t)| && b != Encode(t)[i]
    ensures Parse(Encode(t)[i := b] + rest) == Invalid
  {
    var body := Body(t.h, t.pdu);
    var input := Encode(t)[i := b] + rest;
    var start := Encode(t)[0];
    assert Encode(t) == [start] + body + [Checksum(body), ED];
    ChangedFrameIsInvalid(start, body, rest, i, b, |body| + 3);
    assert input[0] == start;
  }

  lemma LongFormatDetects(t: Telegram, rest: seq<Byte>, i: nat, b: Byte)
    requires Encodable(t) && HasLength(t)
    requires 4 <= i < |Encode(t)| && b != Encode(t)[i]
    ensures Parse(Encode(t)[i := b] + rest) == Invalid
  {
    hide Body, Checksum, ParseFrame;
    var body := Body(t.h, t.pdu);
    var input := Encode(t)[i := b] + rest;
    var frame := [SD2] + body + [Checksum(body), ED];
    assert Encode(t)[3..] == frame;
    assert input[3..] == frame[i - 3 := b] + rest;
    ChangedFrameIsInvalid(SD2, body, rest, i - 3, b, |body| + 6);
    assert input[..4] == [SD2, |body|, |body|, SD2];
  }

  lemma RepeatedDelimiterIsIgnored(t: Telegram, rest: seq<Byte>, b: Byte)
    requires Encodable(t) && HasLength(t)
    ensures Parse(Encode(t)[3 := b] + rest) == Parse(Encode(t) + rest)
  {
    hide Body, Checksum, ParseFrame;
    var input, changed := Encode(t) + rest, Encode(t)[3 := b] + rest;
    assert changed[..3] == input[..3];
    assert changed[3..] == input[3..][0 := b];
    var l: nat := input[1];
    if l >= 3 {
      StartOfFrameIsIgnored(input[3..], b, l - 3, l + 6);
    }
  }

  /** Changing any one byte of an encoded data telegram, other than the start delimiter, makes the
      receiver reject it, whatever follows it, with one exception: the repeated start delimiter of
      the format with a length byte is not checked, and then the telegram is read unchanged. */
  lemma SingleByteErrorIsDetected(t: Telegram, rest: seq<Byte>, i: nat, b: Byte)
    requires t.Data? && Encodable(t) && Addressable(t)
    requires 1 <= i < |Encode(t)| && b != Encode(t)[i]
    ensures Parse(Encode(t)[i := b] + rest)
            == if HasLength(t) && i == 3 then Complete(t, |Encode(t)|) else Invalid
  {
    if !HasLength(t) {
      ShortFormatDetects(t, rest, i, b);
    } else if i >= 4 {
      LongFormatDetects(t, rest, i, b);
    } else if i == 3 {
      RepeatedDelimiterIsIgnored(t, rest, b);
      RoundTrip(t, rest);
    } else {
      var input := Encode(t)[i := b] + rest;
      assert input[0] == SD2 && input[1] != input[2];
    }
  }

  // ---------------------------------------------------------------------------------------------
  // A corrupted start delimiter
  // ---------------------------------------------------------------------------------------------

  predicate IsStartDelimiter(b: Byte) {
    b == SD1 || b == SD2 || b == SD3 || b == SD4 || b == SC
  }

  /** How many of the two addresses behind the first byte announce an access point. */
  function AnnouncedSaps(frame: seq<Byte>): nat
    requires |frame| >= 3
  {
    (if frame[1] >= 0x80 then 1 else 0) + (if frame[2] >= 0x80 then 1 else 0)
  }

  /** The bytes behind the first one pass for a frame with `length` bytes behind the function code: the function
      code exists, the announced access points fit, and checksum and end delimiter are in their places. */
  predicate PassesForFrame(frame: seq<Byte>, length: nat) {
    && |frame| >= length + 6
    && FunctionCode.FromByte(frame[3]).Some? && AnnouncedSaps(frame) <= length
    && frame[length + 4] == Checksum(frame[1..length + 4]) && frame[length + 5] == ED
  }

  lemma FrameCompleteExactly(buffer: seq<Byte>, length: nat, total: nat)
    requires |buffer| >= 1
    ensures ParseFrame(buffer, length, total).Complete? <==> PassesForFrame(buffer, length)
  {
    hide Checksum, FunctionCode.FromByte;
  }

  /** A start delimiter that became one without a checksum is always taken for a whole telegram, and one that
      became no start delimiter at all is always rejected. */
  lemma UncheckedStartDelimiter(t: Telegram, rest: seq<Byte>, b: Byte)
    requires t.Data? && Encodable(t)
    ensures var bytes, p := Encode(t), Parse(Encode(t)[0 := b] + rest);
            && (b == SC ==> p == Complete(ShortConfirmation, 1))
            && (b == SD4 ==> p == Complete(Token(bytes[1], bytes[2]), 3))
            && (!IsStartDelimiter(b) ==> p == Invalid)
  {
    hide Body, Checksum, ParseFrame;
    var input := Encode(t)[0 := b] + rest;
    assert input[0] == b && input[1] == Encode(t)[1] && input[2] == Encode(t)[2];
  }

  /** The repeated start delimiter is no function code, so the format with a length byte never passes for one of
      the others. */
  lemma LongFormatIsNoShortOne(t: Telegram, rest: seq<Byte>, b: Byte)
    requires Encodable(t) && HasLength(t) && (b == SD1 || b == SD3)
    ensures !Parse(Encode(t)[0 := b] + rest).Complete?
  {
    hide Body, Checksum, ParseFrame;
    var input := Encode(t)[0 := b] + rest;
    assert input[0] == b && input[3] == SD2;
    FrameCompleteExactly(input, 0, 6);
    FrameCompleteExactly(input, 8, 14);
  }

  /** What the bytes of a telegram in one of the formats without a length byte, and those behind it, must look
      like to pass for another format. */
  predicate PassesFor(b: Byte, input: seq<Byte>)
    requires |input| >= 6
  {
    match b
    case 0x10 => PassesForFrame(input, 0)
    case 0xA2 => PassesForFrame(input, 8)
    case 0x68 => input[1] == input[2] >= 3 && PassesForFrame(input[3..], input[1] - 3)
    case _ => false
  }

  lemma ShortFormatConfusion(t: Telegram, rest: seq<Byte>, b: Byte)
    requires t.Data? && Encodable(t) && !HasLength(t) && (b == SD1 || b == SD2 || b == SD3)
    ensures Parse(Encode(t)[0 := b] + rest).Complete? <==> PassesFor(b, Encode(t) + rest)
  {
    hide Body, Checksum, ParseFrame, FunctionCode.FromByte;
    var was, input := Encode(t) + rest, Encode(t)[0 := b] + rest;
    assert input == was[0 := b];
    assert input[3..] == was[3..];
    if b == SD1 {
      FrameCompleteExactly(input, 0, 6);
      assert input[1..4] == was[1..4];
    } else if b == SD3 {
      FrameCompleteExactly(input, 8, 14);
      if |input| >= 14 {
        assert input[1..12] == was[1..12];
      }
    } else if input[1] == input[2] >= 3 {
      var l: nat := input[1];
      FrameCompleteExactly(input[3..], l - 3, l + 6);
    }
  }

  /** The telegram with eight bytes behind the function code passes for one without data exactly when it has no
      access points and its data begins with what would be the checksum and the end delimiter. */
  lemma EightBytesPassForNone(t: Telegram, rest: seq<Byte>)
    requires t.Data? && Addressable(t) && t.h.LengthByte(|t.pdu|) == 11
    ensures Parse(Encode(t)[0 := SD1] + rest).Complete?
            <==> t.h.dsap.None? && t.h.ssap.None?
                 && t.pdu[0] == (t.h.da + t.h.sa + t.h.fc.ToByte()) % 256 && t.pdu[1] == ED
  {
    hide Parse, FunctionCode.FromByte, FunctionCode.ToByte;
    var was := Encode(t) + rest;
    FunctionCodeRoundTrip(t.h.fc);
    ShortFormatConfusion(t, rest, SD1);
    assert was[1] == Extended(t.h.da, t.h.dsap.Some?) && was[2] == Extended(t.h.sa, t.h.ssap.Some?);
    assert was[3] == t.h.fc.ToByte();
    if t.h.dsap.None? && t.h.ssap.None? {
      assert was[4] == t.pdu[0] && was[5] == t.pdu[1];
      SumOfThree(was[1..4]);
    }
  }

  lemma SumOfThree(s: seq<Byte>)
    requires |s| == 3
    ensures var x: int, y: int, z: int := s[0], s[1], s[2]; Sum(s) == x + y + z
  {
    assert s[..2][..1] == s[..1] && s[..1][..0] == [];
    assert Sum(s[..1]) == s[0];
  }

  /** The telegram without data passes for one with eight bytes exactly when at least eight bytes follow it, of which
      the last two are the checksum over everything before and the end delimiter. */
  lemma NoBytesPassForEight(t: Telegram, rest: seq<Byte>)
    requires t.Data? && Addressable(t) && t.h.LengthByte(|t.pdu|) == 3
    ensures Parse(Encode(t)[0 := SD3] + rest).Complete?
            <==> |rest| >= 8 && rest[6] == Checksum(Encode(t)[1..] + rest[..6]) && rest[7] == ED
  {
    hide Parse, Checksum, FunctionCode.FromByte, FunctionCode.ToByte;
    var was := Encode(t) + rest;
    FunctionCodeRoundTrip(t.h.fc);
    ShortFormatConfusion(t, rest, SD3);
    assert was[3] == t.h.fc.ToByte();
    if |rest| >= 8 {
      assert was[1..12] == Encode(t)[1..] + rest[..6];
      assert was[12] == rest[6] && was[13] == rest[7];
    }
  }

  /** With its start delimiter replaced by another byte, a data telegram is taken for a whole telegram exactly when
      that byte is the short confirmation or the start of a token, or when a format without a length byte
      passes for one of the other formats. */
  lemma StartDelimiterErrorExactly(t: Telegram, rest: seq<Byte>, b: Byte)
    requires t.Data? && Encodable(t) && b != Encode(t)[0]
    ensures Parse(Encode(t)[0 := b] + rest).Complete?
            <==> b == SC || b == SD4 || (!HasLength(t) && PassesFor(b, Encode(t) + rest))
  {
    hide Parse, Body, Checksum, PassesForFrame;
    UncheckedStartDelimiter(t, rest, b);
    if b == SD1 || b == SD2 || b == SD3 {
      if HasLength(t) {
        LongFormatIsNoShortOne(t, rest, b);
      } else {
        ShortFormatConfusion(t, rest, b);
      }
    }
  }
}
