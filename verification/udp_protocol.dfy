// The packet format: headers, messages, the builder that fills a buffer in place, and the
// parser. A packet is at most 1400 bytes.
module UdpProtocol {
  import opened Common
  import opened UdpWire

  const PROTOCOL_VERSION: byte := 1
  const PACKET_HEADER_LEN := 24
  const MESSAGE_HEADER_LEN := 4
  const MAX_MTU := 1400
  const MAX_PAYLOAD := MAX_MTU - PACKET_HEADER_LEN

  datatype MessageType =
    | OrderNew | OrderCancel | OrderReplace | MatchEvent | BookSnapshot | BookUpdate
    | PositionUpdate | Heartbeat | Control
  {
    function Code(): byte {
      match this
      case OrderNew => 0x01
      case OrderCancel => 0x02
      case OrderReplace => 0x03
      case MatchEvent => 0x10
      case BookSnapshot => 0x11
      case BookUpdate => 0x12
      case PositionUpdate => 0x20
      case Heartbeat => 0x30
      case Control => 0x40
    }
  }

  // from_u8
  function TypeOfCode(value: byte): Option<MessageType> {
    if value == 0x01 then Some(OrderNew)
    else if value == 0x02 then Some(OrderCancel)
    else if value == 0x03 then Some(OrderReplace)
    else if value == 0x10 then Some(MatchEvent)
    else if value == 0x11 then Some(BookSnapshot)
    else if value == 0x12 then Some(BookUpdate)
    else if value == 0x20 then Some(PositionUpdate)
    else if value == 0x30 then Some(Heartbeat)
    else if value == 0x40 then Some(Control)
    else None
  }

  lemma TypeCodesRoundTrip(t: MessageType, value: byte)
    ensures TypeOfCode(t.Code()) == Some(t)
    ensures TypeOfCode(value).Some? ==> TypeOfCode(value).value.Code() == value
  {
    match t case _ =>
  }

  // The codes on the wire, and no others.
  lemma TypeCodesAreFixed(value: byte)
    ensures OrderNew.Code() == 1 && OrderCancel.Code() == 2 && OrderReplace.Code() == 3
    ensures MatchEvent.Code() == 16 && BookSnapshot.Code() == 17 && BookUpdate.Code() == 18
    ensures PositionUpdate.Code() == 32 && Heartbeat.Code() == 48 && Control.Code() == 64
    ensures TypeOfCode(value).Some? <==> value in {1, 2, 3, 16, 17, 18, 32, 48, 64}
  {
  }

  datatype ProtocolError =
    | BufferTooSmall(needed: nat, available: nat)
    | InvalidVersion(expectedVersion: byte, gotVersion: byte)
    | InvalidHeaderLength(expectedLen: byte, gotLen: byte)

  datatype PacketHeader = PacketHeader(msgCount: nat, streamId: nat, packetSeq: nat, firstMsgSeq: nat) {
    // The fields fit their u16, u32 and u64 slots.
    predicate Fits() {
      msgCount < U16 && streamId < U32 && packetSeq < U64 && firstMsgSeq < U64
    }

    predicate IsHeartbeat() {
      msgCount == 0
    }
  }

  // A message on the wire: its type byte, its flags and its payload.
  datatype RawMessage = RawMessage(code: byte, flags: byte, payload: seq<byte>)

  datatype Message = Message(raw: RawMessage, seqNo: nat)

  datatype Packet = Packet(header: PacketHeader, messages: seq<Message>)

  // ---------- encoding ----------

  function EncodeHeader(h: PacketHeader): (s: seq<byte>)
    ensures |s| == PACKET_HEADER_LEN
  {
    [PROTOCOL_VERSION, PACKET_HEADER_LEN as byte] + ToLittleEndian(2, h.msgCount) + ToLittleEndian(4, h.streamId)
    + ToLittleEndian(8, h.packetSeq) + ToLittleEndian(8, h.firstMsgSeq)
  }

  // The length is cast to u16.
  function EncodeMessage(m: RawMessage): (s: seq<byte>)
    ensures |s| == MESSAGE_HEADER_LEN + |m.payload|
  {
    [m.code, m.flags] + ToLittleEndian(2, |m.payload| % U16) + m.payload
  }

  function EncodeMessages(ms: seq<RawMessage>): seq<byte> {
    if ms == [] then [] else EncodeMessage(ms[0]) + EncodeMessages(ms[1..])
  }

  function EncodePacket(h: PacketHeader, ms: seq<RawMessage>): seq<byte> {
    EncodeHeader(h) + EncodeMessages(ms)
  }

  // ---------- decoding ----------

  function DecodeHeader(buf: seq<byte>): Result<PacketHeader, ProtocolError> {
    if |buf| < PACKET_HEADER_LEN then Err(BufferTooSmall(PACKET_HEADER_LEN, |buf|))
    else if buf[0] != PROTOCOL_VERSION then Err(InvalidVersion(PROTOCOL_VERSION, buf[0]))
    else if buf[1] != PACKET_HEADER_LEN then Err(InvalidHeaderLength(PACKET_HEADER_LEN as byte, buf[1]))
    else Ok(PacketHeader(FromLittleEndian(buf[2..4]), FromLittleEndian(buf[4..8]),
                         FromLittleEndian(buf[8..16]), FromLittleEndian(buf[16..24])))
  }

  lemma {:induction false} HeaderRoundTrip(h: PacketHeader, rest: seq<byte>)
    requires h.Fits()
    ensures DecodeHeader(EncodeHeader(h) + rest) == Ok(h)
  {
    var buf := EncodeHeader(h) + rest;
    CapacityOfWords();
    LittleEndianRoundTrip(2, h.msgCount);
    LittleEndianRoundTrip(4, h.streamId);
    LittleEndianRoundTrip(8, h.packetSeq);
    LittleEndianRoundTrip(8, h.firstMsgSeq);
    hide ToLittleEndian, FromLittleEndian, Capacity;
    assert buf[2..4] == ToLittleEndian(2, h.msgCount);
    assert buf[4..8] == ToLittleEndian(4, h.streamId);
    assert buf[8..16] == ToLittleEndian(8, h.packetSeq);
    assert buf[16..24] == ToLittleEndian(8, h.firstMsgSeq);
  }

  // Any header that decodes is the encoding of what it decodes to.
  lemma {:induction false} HeaderIsEncoded(buf: seq<byte>)
    requires DecodeHeader(buf).Ok?
    ensures DecodeHeader(buf).value.Fits() && |buf| >= PACKET_HEADER_LEN
    ensures EncodeHeader(DecodeHeader(buf).value) == buf[..PACKET_HEADER_LEN]
  {
    CapacityOfWords();
    BytesRoundTrip(buf[2..4]);
    BytesRoundTrip(buf[4..8]);
    BytesRoundTrip(buf[8..16]);
    BytesRoundTrip(buf[16..24]);
    hide ToLittleEndian, FromLittleEndian, Capacity;
    assert buf[..PACKET_HEADER_LEN] == buf[..2] + buf[2..4] + buf[4..8] + buf[8..16] + buf[16..24];
    assert buf[..2] == [buf[0], buf[1]];
  }

  // ---------- the bytes themselves ----------

  // The k-th byte of a number, counted from the least significant one.
  function ByteOf(v: nat, k: nat): byte {
    if k == 0 then v % 256 else ByteOf(v / 256, k - 1)
  }

  lemma {:induction false} LittleEndianByte(n: nat, v: nat, k: nat)
    requires k < n
    ensures ToLittleEndian(n, v)[k] == ByteOf(v, k)
  {
    if k > 0 {
      LittleEndianByte(n - 1, v / 256, k - 1);
    }
  }

  // Where the fields of a header are: version 1, the length 24, then message count, stream, packet
  // number and first message number, each with its least significant byte first.
  lemma HeaderLayout(h: PacketHeader)
    ensures var s := EncodeHeader(h);
      && |s| == 24 && s[0] == 1 && s[1] == 24
      && (forall k: nat :: k < 2 ==> s[2 + k] == ByteOf(h.msgCount, k))
      && (forall k: nat :: k < 4 ==> s[4 + k] == ByteOf(h.streamId, k))
      && (forall k: nat :: k < 8 ==> s[8 + k] == ByteOf(h.packetSeq, k))
      && (forall k: nat :: k < 8 ==> s[16 + k] == ByteOf(h.firstMsgSeq, k))
  {
    hide ToLittleEndian, ByteOf;
    forall n: nat, v: nat, k: nat | k < n
      ensures ToLittleEndian(n, v)[k] == ByteOf(v, k)
    {
      LittleEndianByte(n, v, k);
    }
    var s := EncodeHeader(h);
    assert s[2..4] == ToLittleEndian(2, h.msgCount);
    assert s[4..8] == ToLittleEndian(4, h.streamId);
    assert s[8..16] == ToLittleEndian(8, h.packetSeq);
    assert s[16..24] == ToLittleEndian(8, h.firstMsgSeq);
    assert forall k: nat :: k < 2 ==> s[2 + k] == s[2..4][k];
    assert forall k: nat :: k < 4 ==> s[4 + k] == s[4..8][k];
    assert forall k: nat :: k < 8 ==> s[8 + k] == s[8..16][k];
    assert forall k: nat :: k < 8 ==> s[16 + k] == s[16..24][k];
  }

  // A message: its type code, its flags, the length of its payload, the payload.
  lemma MessageLayout(m: RawMessage)
    requires |m.payload| < 65_536
    ensures var s := EncodeMessage(m);
      && |s| == 4 + |m.payload| && s[0] == m.code && s[1] == m.flags
      && s[2] == ByteOf(|m.payload|, 0) && s[3] == ByteOf(|m.payload|, 1)
      && s[4..] == m.payload
  {
    hide ToLittleEndian, ByteOf;
    LittleEndianByte(2, |m.payload|, 0);
    LittleEndianByte(2, |m.payload|, 1);
    var s := EncodeMessage(m);
    assert s[2] == ToLittleEndian(2, |m.payload|)[0] && s[3] == ToLittleEndian(2, |m.payload|)[1];
  }

  // Up to `left` messages from the end `rest` of a buffer of `size` bytes. A buffer that ends
  // between two messages ends the packet early; one that ends inside a message is an error.
  function DecodeMessages(rest: seq<byte>, left: nat, seqNo: nat, size: nat): Result<seq<Message>, ProtocolError>
    requires |rest| <= size
    decreases left
  {
    if left == 0 || rest == [] then Ok([])
    else if |rest| < MESSAGE_HEADER_LEN then Err(BufferTooSmall(MESSAGE_HEADER_LEN, |rest|))
    else
      var end := MESSAGE_HEADER_LEN + FromLittleEndian(rest[2..4]);
      if end > |rest| then Err(BufferTooSmall(size - |rest| + end, size))
      else
        match DecodeMessages(rest[end..], left - 1, seqNo + 1, size)
        case Err(e) => Err(e)
        case Ok(later) =>
          Ok([Message(RawMessage(rest[0], rest[1], rest[MESSAGE_HEADER_LEN..end]), Wrap64(seqNo))] + later)
  }

  function DecodePacket(buf: seq<byte>): Result<Packet, ProtocolError> {
    match DecodeHeader(buf)
    case Err(e) => Err(e)
    case Ok(h) =>
      match DecodeMessages(buf[PACKET_HEADER_LEN..], h.msgCount, h.firstMsgSeq, |buf|)
      case Err(e) => Err(e)
      case Ok(ms) => Ok(Packet(h, ms))
  }

  // Messages numbered consecutively, in u64.
  function NumberFrom(ms: seq<RawMessage>, seqNo: nat): (r: seq<Message>)
    ensures |r| == |ms|
    ensures forall i :: 0 <= i < |ms| ==> r[i] == Message(ms[i], Wrap64(seqNo + i))
  {
    if ms == [] then [] else [Message(ms[0], Wrap64(seqNo))] + NumberFrom(ms[1..], seqNo + 1)
  }

  ghost predicate PayloadsFit(ms: seq<RawMessage>) {
    forall i :: 0 <= i < |ms| ==> |ms[i].payload| < U16
  }

  // Encoded messages are read back, whatever follows them; if nothing does, fewer than announced.
  lemma {:induction false} MessagesRoundTrip(ms: seq<RawMessage>, rest: seq<byte>, left: nat, seqNo: nat, size: nat)
    requires PayloadsFit(ms) && |EncodeMessages(ms) + rest| <= size
    requires left == |ms| || (left > |ms| && rest == [])
    ensures DecodeMessages(EncodeMessages(ms) + rest, left, seqNo, size) == Ok(NumberFrom(ms, seqNo))
  {
    hide Wrap64, EncodeMessage, EncodeMessages, FromLittleEndian, NumberFrom;
    NumberFromSplits(ms, seqNo);
    EncodedSplits(ms, rest);
    if ms != [] {
      var m, tail := ms[0], EncodeMessages(ms[1..]) + rest;
      MessagesRoundTrip(ms[1..], rest, left - 1, seqNo + 1, size);
      FirstMessage(m, tail);
    }
  }

  lemma EncodedSplits(ms: seq<RawMessage>, rest: seq<byte>)
    ensures EncodeMessages(ms) + rest
      == if ms == [] then rest else EncodeMessage(ms[0]) + (EncodeMessages(ms[1..]) + rest)
  {
    hide EncodeMessage;
  }

  lemma NumberFromSplits(ms: seq<RawMessage>, seqNo: nat)
    ensures NumberFrom(ms, seqNo) == if ms == [] then [] else [Message(ms[0], Wrap64(seqNo))] + NumberFrom(ms[1..], seqNo + 1)
  {
    hide Wrap64;
  }

  // An encoded message, read from the front of a buffer.
  lemma FirstMessage(m: RawMessage, tail: seq<byte>)
    requires |m.payload| < U16
    ensures var buf, end := EncodeMessage(m) + tail, MESSAGE_HEADER_LEN + |m.payload|;
      && end <= |buf| && buf[0] == m.code && buf[1] == m.flags && FromLittleEndian(buf[2..4]) == |m.payload|
      && buf[MESSAGE_HEADER_LEN..end] == m.payload && buf[end..] == tail
  {
    hide ToLittleEndian, FromLittleEndian, Capacity;
    CapacityOfWords();
    LittleEndianRoundTrip(2, |m.payload|);
    var buf := EncodeMessage(m) + tail;
    assert buf[2..4] == ToLittleEndian(2, |m.payload|);
  }

  // Parsing what was encoded gives back the header and the messages, numbered from its first.
  // Bytes behind the announced messages do not matter, and a packet may end before them all.
  lemma {:induction false} PacketRoundTrip(h: PacketHeader, ms: seq<RawMessage>, rest: seq<byte>)
    requires h.Fits() && PayloadsFit(ms)
    requires h.msgCount == |ms| || (h.msgCount > |ms| && rest == [])
    ensures DecodePacket(EncodePacket(h, ms) + rest) == Ok(Packet(h, NumberFrom(ms, h.firstMsgSeq)))
  {
    hide EncodeHeader, DecodeHeader, EncodeMessages, DecodeMessages, NumberFrom;
    var buf := EncodePacket(h, ms) + rest;
    assert buf == EncodeHeader(h) + (EncodeMessages(ms) + rest);
    HeaderRoundTrip(h, EncodeMessages(ms) + rest);
    MessagesRoundTrip(ms, rest, h.msgCount, h.firstMsgSeq, |buf|);
    assert buf[PACKET_HEADER_LEN..] == EncodeMessages(ms) + rest;
  }

  lemma {:induction false} MessageErrors(rest: seq<byte>, left: nat, seqNo: nat, size: nat)
    requires |rest| <= size
    ensures var r := DecodeMessages(rest, left, seqNo, size);
      r.Err? ==> r.error.BufferTooSmall? && r.error.available < r.error.needed
    decreases left
  {
    hide FromLittleEndian, Wrap64;
    if left > 0 && |rest| >= MESSAGE_HEADER_LEN {
      var end := MESSAGE_HEADER_LEN + FromLittleEndian(rest[2..4]);
      if end <= |rest| {
        MessageErrors(rest[end..], left - 1, seqNo + 1, size);
      }
    }
  }

  // Why a buffer does not parse: it is shorter than a header, of another version, of another
  // header length, or it ends inside a message.
  lemma ParseErrors(buf: seq<byte>)
    ensures |buf| < 24 ==> DecodePacket(buf) == Err(BufferTooSmall(24, |buf|))
    ensures |buf| >= 24 && buf[0] != 1 ==> DecodePacket(buf) == Err(InvalidVersion(1, buf[0]))
    ensures |buf| >= 24 && buf[0] == 1 && buf[1] != 24 ==> DecodePacket(buf) == Err(InvalidHeaderLength(24, buf[1]))
    ensures |buf| >= 24 && buf[0] == 1 && buf[1] == 24 && DecodePacket(buf).Err? ==>
      DecodePacket(buf).error.BufferTooSmall? && DecodePacket(buf).error.available < DecodePacket(buf).error.needed
  {
    hide FromLittleEndian, DecodeMessages;
    if DecodeHeader(buf).Ok? {
      var h := DecodeHeader(buf).value;
      MessageErrors(buf[PACKET_HEADER_LEN..], h.msgCount, h.firstMsgSeq, |buf|);
    }
  }

  function Raws(ms: seq<Message>): (r: seq<RawMessage>)
    ensures |r| == |ms|
    ensures forall i :: 0 <= i < |ms| ==> r[i] == ms[i].raw
  {
    if ms == [] then [] else [ms[0].raw] + Raws(ms[1..])
  }

  lemma {:induction false} MessageIsEncoded(rest: seq<byte>, end: nat)
    requires MESSAGE_HEADER_LEN <= |rest| && end == MESSAGE_HEADER_LEN + FromLittleEndian(rest[2..4]) <= |rest|
    ensures EncodeMessage(RawMessage(rest[0], rest[1], rest[MESSAGE_HEADER_LEN..end])) == rest[..end]
  {
    hide ToLittleEndian, FromLittleEndian, Capacity;
    CapacityOfWords();
    BytesRoundTrip(rest[2..4]);
    var payload := rest[MESSAGE_HEADER_LEN..end];
    assert |payload| % U16 == FromLittleEndian(rest[2..4]);
    var encoded := [rest[0], rest[1]] + rest[2..4] + payload;
    assert encoded == rest[..end];
  }

  lemma {:induction false} MessagesAreEncoded(rest: seq<byte>, left: nat, seqNo: nat, size: nat) returns (trailing: seq<byte>)
    requires |rest| <= size && DecodeMessages(rest, left, seqNo, size).Ok?
    ensures var ms := DecodeMessages(rest, left, seqNo, size).value;
      && |ms| <= left && ms == NumberFrom(Raws(ms), seqNo)
      && rest == EncodeMessages(Raws(ms)) + trailing
      && (|ms| < left ==> trailing == [])
    decreases left
  {
    hide EncodeMessage, FromLittleEndian, Wrap64, NumberFrom, EncodeMessages, Raws;
    if left == 0 || rest == [] {
      trailing := rest;
      NothingEncoded(seqNo, rest);
    } else {
      var end := MESSAGE_HEADER_LEN + FromLittleEndian(rest[2..4]);
      trailing := MessagesAreEncoded(rest[end..], left - 1, seqNo + 1, size);
      MessageIsEncoded(rest, end);
      var later := DecodeMessages(rest[end..], left - 1, seqNo + 1, size).value;
      var head := RawMessage(rest[0], rest[1], rest[MESSAGE_HEADER_LEN..end]);
      OneMoreEncoded(head, later, seqNo, trailing);
      assert rest == rest[..end] + rest[end..];
    }
  }

  lemma NothingEncoded(seqNo: nat, rest: seq<byte>)
    ensures [] == NumberFrom(Raws([]), seqNo) && rest == EncodeMessages(Raws([])) + rest
  {
  }

  lemma OneMoreEncoded(head: RawMessage, later: seq<Message>, seqNo: nat, trailing: seq<byte>)
    requires later == NumberFrom(Raws(later), seqNo + 1)
    ensures var ms := [Message(head, Wrap64(seqNo))] + later;
      && ms == NumberFrom(Raws(ms), seqNo)
      && EncodeMessages(Raws(ms)) + trailing == EncodeMessage(head) + (EncodeMessages(Raws(later)) + trailing)
  {
    hide EncodeMessage, Wrap64, NumberFrom;
    var ms := [Message(head, Wrap64(seqNo))] + later;
    assert ms[1..] == later && Raws(ms)[1..] == Raws(later);
    NumberFromSplits(Raws(ms), seqNo);
  }

  // Any packet that parses is what its buffer encodes: the header, then the messages, then
  // only bytes beyond the announced count. Fewer messages than announced means that the
  // buffer ended after the last of them.
  lemma {:induction false} ParsedPacketIsEncoded(buf: seq<byte>) returns (trailing: seq<byte>)
    requires DecodePacket(buf).Ok?
    ensures var p := DecodePacket(buf).value;
      && buf == EncodePacket(p.header, Raws(p.messages)) + trailing
      && |p.messages| <= p.header.msgCount
      && (|p.messages| < p.header.msgCount ==> trailing == [])
      && p.messages == NumberFrom(Raws(p.messages), p.header.firstMsgSeq)
  {
    hide EncodeHeader, EncodeMessages, DecodeMessages, DecodeHeader, NumberFrom, Raws;
    HeaderIsEncoded(buf);
    var h := DecodeHeader(buf).value;
    var body := buf[PACKET_HEADER_LEN..];
    trailing := MessagesAreEncoded(body, h.msgCount, h.firstMsgSeq, |buf|);
    assert buf == buf[..PACKET_HEADER_LEN] + body;
    var encoded := EncodeMessages(Raws(DecodePacket(buf).value.messages));
    assert EncodeHeader(h) + (encoded + trailing) == (EncodeHeader(h) + encoded) + trailing;
  }

  // One message read at `offset` is the head of what is decoded from there.
  lemma {:induction false} DecodeStep(buf: seq<byte>, offset: nat, left: nat, seqNo: nat, before: seq<Message>)
    requires offset < |buf| && 0 < left
    ensures |buf| - offset < MESSAGE_HEADER_LEN ==>
      DecodeMessages(buf[offset..], left, seqNo, |buf|) == Err(BufferTooSmall(MESSAGE_HEADER_LEN, |buf| - offset))
    ensures |buf| - offset >= MESSAGE_HEADER_LEN ==>
      var end := offset + MESSAGE_HEADER_LEN + FromLittleEndian(buf[offset + 2..offset + 4]);
      if end > |buf| then DecodeMessages(buf[offset..], left, seqNo, |buf|) == Err(BufferTooSmall(end, |buf|))
      else
        var m := Message(RawMessage(buf[offset], buf[offset + 1], buf[offset + MESSAGE_HEADER_LEN..end]), Wrap64(seqNo));
        Prepend(before, DecodeMessages(buf[offset..], left, seqNo, |buf|))
          == Prepend(before + [m], DecodeMessages(buf[end..], left - 1, seqNo + 1, |buf|))
  {
    hide Wrap64, FromLittleEndian, Prepend;
    var rest := buf[offset..];
    if |rest| >= MESSAGE_HEADER_LEN {
      assert rest[2..4] == buf[offset + 2..offset + 4];
      var length := MESSAGE_HEADER_LEN + FromLittleEndian(rest[2..4]);
      if length <= |rest| {
        assert rest[length..] == buf[offset + length..];
        assert rest[MESSAGE_HEADER_LEN..length] == buf[offset + MESSAGE_HEADER_LEN..offset + length];
        var later := DecodeMessages(rest[length..], left - 1, seqNo + 1, |buf|);
        var m := Message(RawMessage(rest[0], rest[1], rest[MESSAGE_HEADER_LEN..length]), Wrap64(seqNo));
        PrependOne(before, m, later);
      }
    }
  }

  lemma PrependOne(before: seq<Message>, m: Message, later: Result<seq<Message>, ProtocolError>)
    ensures Prepend(before, if later.Ok? then Ok([m] + later.value) else later) == Prepend(before + [m], later)
  {
    if later.Ok? {
      assert before + ([m] + later.value) == before + [m] + later.value;
    }
  }

  // The loop of Packet::parse.
  method ParseMessages(buf: seq<byte>, header: PacketHeader) returns (r: Result<seq<Message>, ProtocolError>)
    requires |buf| >= PACKET_HEADER_LEN
    ensures r == DecodeMessages(buf[PACKET_HEADER_LEN..], header.msgCount, header.firstMsgSeq, |buf|)
  {
    hide FromLittleEndian, Prepend, Wrap64;
    var messages: seq<Message> := [];
    var offset := PACKET_HEADER_LEN;
    ghost var goal := DecodeMessages(buf[PACKET_HEADER_LEN..], header.msgCount, header.firstMsgSeq, |buf|);
    PrependNothing(goal);
    var i := 0;
    while i < header.msgCount
      invariant 0 <= i <= header.msgCount && 0 <= offset <= |buf|
      invariant goal == Prepend(messages, DecodeMessages(buf[offset..], header.msgCount - i, header.firstMsgSeq + i, |buf|))
    {
      if offset >= |buf| {
        break;
      }
      DecodeStep(buf, offset, header.msgCount - i, header.firstMsgSeq + i, messages);
      hide DecodeMessages;
      if |buf| - offset < MESSAGE_HEADER_LEN {
        PrependError(messages, BufferTooSmall(MESSAGE_HEADER_LEN, |buf| - offset));
        return Err(BufferTooSmall(MESSAGE_HEADER_LEN, |buf| - offset));
      }
      var code, flags := buf[offset], buf[offset + 1];
      var msgLen := FromLittleEndian(buf[offset + 2..offset + 4]);
      var payloadStart := offset + MESSAGE_HEADER_LEN;
      var payloadEnd := payloadStart + msgLen;
      if payloadEnd > |buf| {
        PrependError(messages, BufferTooSmall(payloadEnd, |buf|));
        return Err(BufferTooSmall(payloadEnd, |buf|));
      }
      var payload := buf[payloadStart..payloadEnd];
      messages := messages + [Message(RawMessage(code, flags, payload), Wrap64(header.firstMsgSeq + i))];
      assert goal == Prepend(messages, DecodeMessages(buf[payloadEnd..], header.msgCount - i - 1, header.firstMsgSeq + i + 1, |buf|));
      offset := payloadEnd;
      i := i + 1;
    }
    PrependToNothing(messages);
    return Ok(messages);
  }

  // Packet::parse
  method Parse(buf: seq<byte>) returns (r: Result<Packet, ProtocolError>)
    ensures r == DecodePacket(buf)
  {
    var decoded := DecodeHeader(buf);
    match decoded
    case Err(e) =>
      r := Err(e);
    case Ok(header) =>
      var messages := ParseMessages(buf, header);
      match messages
      case Err(e) => r := Err(e);
      case Ok(ms) => r := Ok(Packet(header, ms));
  }

  lemma PrependNothing(r: Result<seq<Message>, ProtocolError>)
    ensures Prepend([], r) == r
  {
    if r.Ok? {
      assert [] + r.value == r.value;
    }
  }

  lemma PrependToNothing(ms: seq<Message>)
    ensures Prepend(ms, Ok([])) == Ok(ms)
  {
    assert ms + [] == ms;
  }

  lemma PrependError(ms: seq<Message>, e: ProtocolError)
    ensures Prepend(ms, Err(e)) == Err(e)
  {
  }

  ghost function Prepend(ms: seq<Message>, r: Result<seq<Message>, ProtocolError>): Result<seq<Message>, ProtocolError> {
    match r
    case Err(e) => Err(e)
    case Ok(later) => Ok(ms + later)
  }
}
