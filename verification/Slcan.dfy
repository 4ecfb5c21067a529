/**
 The SLCAN text form of CAN frames: the encoder inside CANDevice::sendMessage and the
 decoder inside CANDevice::parseCANData.
 */
module Slcan {
  import opened Bytes
  import opened Framing
  import opened Wrappers

  const CR := 13
  const LOWER_T := 116
  const UPPER_T := 84
  const DELIMITER: seq<byte> := [CR]

  datatype CanMessage = CanMessage(id: nat, data: seq<byte>, extended: bool, rtr: bool, fd: bool)

  // ----- hexadecimal text -----

  function HexDigit(n: nat): byte
    requires n < 16
  {
    if n < 10 then 48 + n else 87 + n
  }

  /** The value of a hexadecimal digit of either case, or -1. */
  function HexValue(b: byte): (v: int)
    ensures -1 <= v < 16
  {
    if 48 <= b <= 57 then b - 48
    else if 97 <= b <= 102 then b - 87
    else if 65 <= b <= 70 then b - 55
    else -1
  }

  function HexNumber(n: nat): (text: seq<byte>)
    ensures CR !in text
  {
    if n < 16 then [HexDigit(n)] else HexNumber(n / 16) + [HexDigit(n % 16)]
  }

  function PadZeros(text: seq<byte>, width: nat): (padded: seq<byte>)
    ensures CR !in text ==> CR !in padded
    decreases width - |text|
  {
    if |text| >= width then text else PadZeros([48] + text, width)
  }

  /** QByteArray::toHex. */
  function ToHex(data: seq<byte>): (text: seq<byte>)
    ensures |text| == 2 * |data| && CR !in text
  {
    if |data| == 0 then []
    else
      var last := data[|data| - 1];
      ToHex(data[..|data| - 1]) + [HexDigit(last / 16), HexDigit(last % 16)]
  }

  predicate AllHex(text: seq<byte>) {
    forall i :: 0 <= i < |text| ==> HexValue(text[i]) >= 0
  }

  function Value(text: seq<byte>): (v: nat)
    requires AllHex(text)
  {
    if |text| == 0 then 0 else 16 * Value(text[..|text| - 1]) + HexValue(text[|text| - 1])
  }

  /** toUInt(&ok, 16): zero when the text is not a number. */
  function ParseHex(text: seq<byte>): nat {
    if |text| > 0 && AllHex(text) then Value(text) else 0
  }

  predicate Digits(digits: seq<int>) {
    forall i :: 0 <= i < |digits| ==> 0 <= digits[i] < 16
  }

  function HexDigitsOf(text: seq<byte>): (digits: seq<int>)
    ensures |digits| <= |text|
    ensures Digits(digits)
  {
    if |text| == 0 then []
    else
      var v := HexValue(text[|text| - 1]);
      HexDigitsOf(text[..|text| - 1]) + if v >= 0 then [v] else []
  }

  function Combine(high: int, low: int): byte
    requires 0 <= high < 16 && 0 <= low < 16
  {
    16 * high + low
  }

  function PairUp(digits: seq<int>): seq<byte>
    requires Digits(digits)
  {
    var n := |digits|;
    if n == 0 then []
    else if n == 1 then [digits[0]]
    else PairUp(digits[..n - 2]) + [Combine(digits[n - 2], digits[n - 1])]
  }

  /** QByteArray::fromHex: other characters are skipped, digits are paired from the right. */
  function FromHex(text: seq<byte>): seq<byte> {
    PairUp(HexDigitsOf(text))
  }

  /** mid(pos, len): clamped to the text. */
  function Mid(text: seq<byte>, pos: nat, len: nat): (part: seq<byte>)
    ensures |part| <= len
  {
    if pos >= |text| then [] else if pos + len >= |text| then text[pos..] else text[pos..pos + len]
  }

  // ----- encoder and decoder -----

  /** An encoded message without its terminator: 't', the id, the length, the data. */
  function Body(m: CanMessage): (body: seq<byte>)
    ensures CR !in body
  {
    [LOWER_T] + PadZeros(HexNumber(m.id), 3) + HexNumber(|m.data|) + ToHex(m.data)
  }

  function Encode(m: CanMessage): seq<byte> {
    Body(m) + DELIMITER
  }

  function EncodeAll(messages: seq<CanMessage>): seq<byte> {
    if |messages| == 0 then []
    else EncodeAll(messages[..|messages| - 1]) + Encode(messages[|messages| - 1])
  }

  function Decode(frame: seq<byte>): Option<CanMessage> {
    if |frame| > 0 && (frame[0] == LOWER_T || frame[0] == UPPER_T) then
      var extended := frame[0] == UPPER_T;
      var id := ParseHex(Mid(frame, 1, if extended then 8 else 3));
      var len := ParseHex(Mid(frame, if extended then 9 else 4, 1));
      var text := Mid(frame, if extended then 10 else 5, len * 2);
      Some(CanMessage(id, FromHex(text), extended, false, false))
    else
      None
  }

  /** The messages of a list of frames; a frame of any other kind is dropped. */
  function DecodeAll(frames: seq<seq<byte>>): seq<CanMessage> {
    if |frames| == 0 then []
    else
      DecodeAll(frames[..|frames| - 1]) + Emitted(frames[|frames| - 1])
  }

  /** The message a frame gives rise to, if any. */
  function Emitted(frame: seq<byte>): seq<CanMessage> {
    match Decode(frame) {
      case None => []
      case Some(m) => [m]
    }
  }

  lemma DecodeAllAppend(frames: seq<seq<byte>>, frame: seq<byte>)
    ensures DecodeAll(frames + [frame]) == DecodeAll(frames) + Emitted(frame)
  {
    assert (frames + [frame])[..|frames|] == frames;
  }

  lemma {:induction false} DecodeAllConcat(a: seq<seq<byte>>, b: seq<seq<byte>>)
    ensures DecodeAll(a + b) == DecodeAll(a) + DecodeAll(b)
  {
    hide Emitted;
    if |b| == 0 {
      assert a + b == a;
    } else {
      var n := |b| - 1;
      var whole := a + b;
      assert whole[..|whole| - 1] == a + b[..n] && whole[|whole| - 1] == b[n];
      DecodeAllConcat(a, b[..n]);
    }
  }

  // ----- round trip of one message -----

  function High(b: byte): (h: int)
    ensures 0 <= h < 16
  {
    b / 16
  }

  function Low(b: byte): (l: int)
    ensures 0 <= l < 16
  {
    b % 16
  }

  function Nibbles(data: seq<byte>): (digits: seq<int>)
    ensures |digits| == 2 * |data|
    ensures Digits(digits)
  {
    if |data| == 0 then []
    else Nibbles(data[..|data| - 1]) + [High(data[|data| - 1]), Low(data[|data| - 1])]
  }

  lemma HexDigitsAppend(text: seq<byte>, n: nat)
    requires n < 16
    ensures HexDigitsOf(text + [HexDigit(n)]) == HexDigitsOf(text) + [n]
  {
    assert (text + [HexDigit(n)])[..|text|] == text;
  }

  lemma {:induction false} DigitsOfHex(data: seq<byte>)
    ensures HexDigitsOf(ToHex(data)) == Nibbles(data)
  {
    hide HexDigitsOf;
    if |data| == 0 {
      NoDigits();
    } else {
      var n := |data| - 1;
      var text, hi, lo := ToHex(data[..n]), data[n] / 16, data[n] % 16;
      DigitsOfHex(data[..n]);
      HexDigitsAppend(text, hi);
      HexDigitsAppend(text + [HexDigit(hi)], lo);
      assert ToHex(data) == (text + [HexDigit(hi)]) + [HexDigit(lo)];
    }
  }

  lemma NoDigits()
    ensures HexDigitsOf([]) == []
  {
  }

  lemma PairUpStep(digits: seq<int>)
    requires Digits(digits) && |digits| >= 2
    ensures var n := |digits|; PairUp(digits) == PairUp(digits[..n - 2]) + [Combine(digits[n - 2], digits[n - 1])]
  {
  }

  lemma PairUpAppend(init: seq<int>, digits: seq<int>, high: int, low: int)
    requires Digits(init) && Digits(digits) && digits == init + [high, low]
    requires 0 <= high < 16 && 0 <= low < 16
    ensures PairUp(digits) == PairUp(init) + [Combine(high, low)]
  {
    hide PairUp;
    PairUpStep(digits);
    assert digits[..|init|] == init;
  }

  lemma HighLow(b: byte)
    ensures Combine(High(b), Low(b)) == b
  {
  }

  lemma NibblesStep(data: seq<byte>)
    requires |data| > 0
    ensures var n := |data| - 1; Nibbles(data) == Nibbles(data[..n]) + [High(data[n]), Low(data[n])]
  {
  }

  lemma PairOneMore(data: seq<byte>)
    requires |data| > 0
    ensures PairUp(Nibbles(data)) == PairUp(Nibbles(data[..|data| - 1])) + [data[|data| - 1]]
  {
    hide PairUp, Nibbles, High, Low, Digits, Combine;
    var n := |data| - 1;
    HighLow(data[n]);
    NibblesStep(data);
    PairUpAppend(Nibbles(data[..n]), Nibbles(data), High(data[n]), Low(data[n]));
  }

  lemma {:induction false} PairNibbles(data: seq<byte>)
    ensures PairUp(Nibbles(data)) == data
  {
    if |data| == 0 {
      assert Nibbles(data) == [] && data == [];
    } else {
      hide PairUp, Nibbles, Digits;
      var n := |data| - 1;
      PairOneMore(data);
      PairNibbles(data[..n]);
      assert data == data[..n] + [data[n]];
    }
  }

  lemma HexDataRoundTrip(data: seq<byte>)
    ensures FromHex(ToHex(data)) == data
  {
    DigitsOfHex(data);
    PairNibbles(data);
  }

  lemma ThreeDigitId(id: nat)
    requires id < 4096
    ensures PadZeros(HexNumber(id), 3) == [HexDigit(id / 256), HexDigit(id / 16 % 16), HexDigit(id % 16)]
  {
    var text := HexNumber(id);
    if id < 16 {
      assert [48] + text == [48, HexDigit(id)];
      assert [48] + ([48] + text) == [48, 48, HexDigit(id)];
      assert PadZeros(text, 3) == PadZeros([48] + text, 3) == PadZeros([48] + ([48] + text), 3);
    } else if id < 256 {
      assert HexNumber(id / 16) == [HexDigit(id / 16)];
      assert text == [HexDigit(id / 16), HexDigit(id % 16)];
      assert PadZeros(text, 3) == PadZeros([48] + text, 3);
    } else {
      assert id / 16 / 16 == id / 256;
      assert HexNumber(id / 16 / 16) == [HexDigit(id / 16 / 16)];
      assert HexNumber(id / 16) == [HexDigit(id / 256), HexDigit(id / 16 % 16)];
      assert text == [HexDigit(id / 256), HexDigit(id / 16 % 16), HexDigit(id % 16)];
    }
  }

  lemma ThreeDigitValue(a: nat, b: nat, c: nat)
    requires a < 16 && b < 16 && c < 16
    ensures ParseHex([HexDigit(a), HexDigit(b), HexDigit(c)]) == 16 * (16 * a + b) + c
  {
    var x, y, z := HexDigit(a), HexDigit(b), HexDigit(c);
    assert [x, y, z][..2] == [x, y] && [x, y][..1] == [x] && [x][..0] == [];
    assert Value([x]) == a;
    assert Value([x, y]) == 16 * a + b;
  }

  lemma {:induction false} ValueBound(text: seq<byte>)
    requires AllHex(text) && |text| <= 3
    ensures Value(text) < if |text| == 0 then 1 else if |text| == 1 then 16 else if |text| == 2 then 256 else 4096
  {
    if |text| > 0 {
      ValueBound(text[..|text| - 1]);
    }
  }

  /** What the wire form can carry: no flags, a three-digit id, a one-digit length. */
  predicate Transmissible(m: CanMessage) {
    !m.extended && !m.rtr && !m.fd && m.id <= 0xFFF && |m.data| <= 15
  }

  /** A CAN 2.0 standard data message, the case CANDevice documents. */
  predicate Standard(m: CanMessage) {
    !m.extended && !m.rtr && !m.fd && m.id <= 0x7FF && |m.data| <= 8
  }

  lemma IdRoundTrip(id: nat)
    requires id < 4096
    ensures var text := PadZeros(HexNumber(id), 3);
            |text| == 3 && ParseHex(text) == id
  {
    hide ParseHex, PadZeros, HexNumber, HexDigit;
    ThreeDigitId(id);
    ThreeDigitValue(id / 256, id / 16 % 16, id % 16);
    assert id / 256 == id / 16 / 16;
  }

  lemma LengthRoundTrip(len: nat)
    requires len < 16
    ensures var text := HexNumber(len);
            |text| == 1 && ParseHex(text) == len
  {
    var text := HexNumber(len);
    assert text[..0] == [] && HexValue(text[0]) == len;
    assert Value(text) == 16 * Value(text[..0]) + HexValue(text[0]);
  }

  lemma TransmissibleDecodes(m: CanMessage)
    requires Transmissible(m)
    ensures Decode(Body(m)) == Some(m) && |Body(m)| == 5 + 2 * |m.data|
  {
    hide ParseHex, PadZeros, HexNumber, ToHex, FromHex;
    IdRoundTrip(m.id);
    LengthRoundTrip(|m.data|);
    HexDataRoundTrip(m.data);
    var id, len := PadZeros(HexNumber(m.id), 3), HexNumber(|m.data|);
    var body := Body(m);
    assert Mid(body, 1, 3) == id;
    assert Mid(body, 4, 1) == len;
    assert Mid(body, 5, 2 * |m.data|) == ToHex(m.data);
  }

  lemma {:induction false} PairUpSize(digits: seq<int>)
    requires Digits(digits)
    ensures 2 * |PairUp(digits)| <= |digits| + 1
  {
    if |digits| >= 2 {
      PairUpSize(digits[..|digits| - 2]);
    }
  }

  /** Three digits of id and one of length are all that a standard frame can carry. */
  lemma DecodedIsTransmissible(frame: seq<byte>)
    requires |frame| > 0 && frame[0] == LOWER_T
    ensures Decode(frame).Some? && Transmissible(Decode(frame).value)
  {
    hide HexDigitsOf, PairUp, Value;
    var idText, lenText := Mid(frame, 1, 3), Mid(frame, 4, 1);
    if AllHex(idText) { ValueBound(idText); }
    if AllHex(lenText) { ValueBound(lenText); }
    PairUpSize(HexDigitsOf(Mid(frame, 5, 2 * ParseHex(lenText))));
  }

  /** The decoder undoes the encoder exactly on the messages the wire form can carry;
      sendMessage sends the others anyway, and they come back changed. */
  lemma FrameRoundTripIff(m: CanMessage)
    ensures Decode(Body(m)) == Some(m) <==> Transmissible(m)
  {
    hide Decode, PadZeros, HexNumber, ToHex;
    if Transmissible(m) {
      TransmissibleDecodes(m);
    } else {
      DecodedIsTransmissible(Body(m));
    }
  }

  // ----- the bytes on the wire -----

  /** A character of a hexadecimal number, as it is written. */
  predicate IsHexChar(c: char, v: int) {
    || ('0' <= c <= '9' && v == c as int - '0' as int)
    || ('a' <= c <= 'f' && v == 10 + c as int - 'a' as int)
    || ('A' <= c <= 'F' && v == 10 + c as int - 'A' as int)
  }

  lemma HexValueIs(b: byte, v: nat)
    ensures HexValue(b) == v <==> IsHexChar(b as char, v)
  {
  }

  /** A frame that starts with T carries an id of eight digits, then the length, then the data. */
  lemma ExtendedFrame(id: seq<byte>, len: byte, data: seq<byte>, rest: seq<byte>)
    requires |id| == 8 && AllHex(id) && HexValue(len) == |data| <= 15
    ensures Decode(['T' as int] + id + [len] + ToHex(data) + rest) ==
            Some(CanMessage(Value(id), data, true, false, false))
  {
    var frame := ['T' as int] + id + [len] + ToHex(data) + rest;
    HexDataRoundTrip(data);
    SingleDigit(len);
    hide ParseHex, ToHex, FromHex;
    assert Mid(frame, 1, 8) == id;
    assert Mid(frame, 9, 1) == [len];
    assert Mid(frame, 10, 2 * |data|) == ToHex(data);
    EightDigits(id);
  }

  lemma SingleDigit(b: byte)
    requires HexValue(b) >= 0
    ensures ParseHex([b]) == HexValue(b)
  {
    assert [b][..0] == [] && Value([]) == 0;
    assert Value([b]) == 16 * Value([b][..0]) + HexValue(b);
  }

  lemma EightDigits(id: seq<byte>)
    requires |id| == 8 && AllHex(id)
    ensures ParseHex(id) == Value(id)
  {
  }

  /** On the wire: 't', three digits of id, the number of bytes, the bytes, carriage return. */
  lemma WireForm(m: CanMessage)
    requires Transmissible(m)
    ensures var wire := Encode(m);
            && |wire| == 6 + 2 * |m.data|
            && wire[0] as char == 't' && wire[|wire| - 1] as char == '\r'
            && IsHexChar(wire[1] as char, m.id / 256) && IsHexChar(wire[2] as char, m.id / 16 % 16)
            && IsHexChar(wire[3] as char, m.id % 16) && IsHexChar(wire[4] as char, |m.data|)
            && forall i :: 0 <= i < |m.data| ==>
                 && IsHexChar(wire[5 + 2 * i] as char, m.data[i] / 16)
                 && IsHexChar(wire[6 + 2 * i] as char, m.data[i] % 16)
  {
    hide PadZeros, HexNumber, ToHex, IsHexChar, HexDigit;
    TransmissibleDecodes(m);
    ThreeDigitId(m.id);
    DigitIs(m.id / 256);
    DigitIs(m.id / 16 % 16);
    DigitIs(m.id % 16);
    OneDigitLength(|m.data|);
    DigitIs(|m.data|);
    forall i | 0 <= i < |m.data|
      ensures IsHexChar(Encode(m)[5 + 2 * i] as char, m.data[i] / 16)
           && IsHexChar(Encode(m)[6 + 2 * i] as char, m.data[i] % 16)
    {
      ToHexAt(m.data, i);
      DigitIs(m.data[i] / 16);
      DigitIs(m.data[i] % 16);
    }
  }

  lemma DigitIs(n: nat)
    requires n < 16
    ensures IsHexChar(HexDigit(n) as char, n)
  {
  }

  lemma OneDigitLength(n: nat)
    requires n < 16
    ensures HexNumber(n) == [HexDigit(n)]
  {
  }

  lemma {:induction false} ToHexAt(data: seq<byte>, i: nat)
    requires i < |data|
    ensures ToHex(data)[2 * i] == HexDigit(data[i] / 16) && ToHex(data)[2 * i + 1] == HexDigit(data[i] % 16)
  {
    if i < |data| - 1 {
      ToHexAt(data[..|data| - 1], i);
    }
  }

  // ----- end to end -----

  lemma {:induction false} EncodedStream(messages: seq<CanMessage>)
    requires forall i :: 0 <= i < |messages| ==> Transmissible(messages[i])
    ensures Tail(EncodeAll(messages), DELIMITER) == []
    ensures DecodeAll(Frames(EncodeAll(messages), DELIMITER)) == messages
  {
    if |messages| == 0 {
      assert EncodeAll(messages) == [];
    } else {
      hide IndexOf, Frames, Tail, Body, Decode, DecodeAll, Transmissible;
      var n := |messages| - 1;
      var before, m := messages[..n], messages[n];
      assert messages == before + [m];
      EncodedStream(before);
      SplitScan(EncodeAll(before), Encode(m), DELIMITER);
      assert [] + Encode(m) == Encode(m);
      TerminatedBody(Body(m));
      DecodeAllAppend(Frames(EncodeAll(before), DELIMITER), Body(m));
      TransmissibleDecodes(m);
    }
  }

  lemma TerminatedBody(body: seq<byte>)
    requires CR !in body
    ensures Frames(body + DELIMITER, DELIMITER) == [body] && Tail(body + DELIMITER, DELIMITER) == []
  {
    var text := body + DELIMITER;
    var r := IndexOf(text, DELIMITER, 0);
    assert r == |body| by {
      hide IndexOf;
      assert At(text, DELIMITER, |body|);
      forall j | 0 <= j < |body| ensures !At(text, DELIMITER, j) {
        assert body[j] in body && text[j + 0] != DELIMITER[0];
      }
    }
    SingleFrame(body, DELIMITER);
  }

  /** Stopping anywhere inside the stream leaves less than one frame behind. */
  lemma {:induction false} PrefixTail(messages: seq<CanMessage>, prefix: seq<byte>)
    requires forall i :: 0 <= i < |messages| ==> Transmissible(messages[i])
    requires prefix <= EncodeAll(messages)
    ensures |Tail(prefix, DELIMITER)| <= 36
  {
    hide IndexOf, Body, Decode, Transmissible;
    if |messages| > 0 {
      var n := |messages| - 1;
      var before, m := EncodeAll(messages[..n]), messages[n];
      if |prefix| <= |before| {
        assert prefix <= before;
        PrefixTail(messages[..n], prefix);
      } else {
        EncodedStream(messages[..n]);
        var part := prefix[|before|..];
        assert prefix == before + part;
        SplitScan(before, part, DELIMITER);
        assert [] + part == part;
        TransmissibleDecodes(m);
        TransmissibleSize(m);
      }
    }
  }

  lemma TransmissibleSize(m: CanMessage)
    requires Transmissible(m)
    ensures |m.data| <= 15
  {
  }

  /** Sender to receiver: whatever way the transport cuts the bytes, the receiver emits the
      sent messages, keeps nothing back, and never drops its buffer. */
  lemma SlcanEndToEnd(messages: seq<CanMessage>, chunks: seq<seq<byte>>)
    requires forall i :: 0 <= i < |messages| ==> Transmissible(messages[i])
    requires Flatten(chunks) == EncodeAll(messages)
    ensures DecodeAll(FeedAll(DELIMITER, chunks).frames) == messages
    ensures FeedAll(DELIMITER, chunks).buffer == []
    ensures forall k :: 0 <= k <= |chunks| ==> |Tail(Flatten(chunks[..k]), DELIMITER)| <= 36
  {
    hide IndexOf, Decode, Transmissible;
    forall k | 0 <= k <= |chunks| ensures |Tail(Flatten(chunks[..k]), DELIMITER)| <= 36 {
      assert chunks == chunks[..k] + chunks[k..];
      FlattenConcat(chunks[..k], chunks[k..]);
      PrefixTail(messages, Flatten(chunks[..k]));
    }
    FeedAllScansWhole(DELIMITER, chunks);
    EncodedStream(messages);
  }

  lemma StandardIsTransmissible(m: CanMessage)
    requires Standard(m)
    ensures Transmissible(m) && Decode(Body(m)) == Some(m)
  {
    TransmissibleDecodes(m);
  }
}
