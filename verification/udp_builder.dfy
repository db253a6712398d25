// PacketBuilder: messages are written into one buffer in place, the header last.
module UdpBuilder {
  import opened Common
  import opened UdpWire
  import opened UdpProtocol

  lemma {:induction false} EncodeMessagesAppend(ms: seq<RawMessage>, m: RawMessage)
    ensures EncodeMessages(ms + [m]) == EncodeMessages(ms) + EncodeMessage(m)
  {
    hide EncodeMessage;
    if ms == [] {
      assert ms + [m] == [m];
      assert EncodeMessages([m]) == EncodeMessage(m) + EncodeMessages([]);
    } else {
      assert (ms + [m])[1..] == ms[1..] + [m];
      EncodeMessagesAppend(ms[1..], m);
    }
  }

  // Every message takes at least its header, so a packet never announces more than 344.
  lemma {:induction false} MessagesTakeRoom(ms: seq<RawMessage>)
    ensures MESSAGE_HEADER_LEN * |ms| <= |EncodeMessages(ms)|
    ensures forall i :: 0 <= i < |ms| ==> |ms[i].payload| <= |EncodeMessages(ms)|
  {
    if ms != [] {
      MessagesTakeRoom(ms[1..]);
      assert forall i :: 0 < i < |ms| ==> ms[i] == ms[1..][i - 1];
    }
  }

  lemma EncodedParts(m: RawMessage)
    ensures EncodeMessage(m) == ([m.code, m.flags] + ToLittleEndian(2, |m.payload| % U16)) + m.payload
  {
  }

  lemma CountStays(count: nat)
    requires MESSAGE_HEADER_LEN * count <= MAX_PAYLOAD
    ensures (count + 1) % U16 == count + 1
  {
  }

  // copy_from_slice
  method CopyInto(a: array<byte>, at: nat, s: seq<byte>)
    requires at + |s| <= a.Length
    modifies a
    ensures a[at..at + |s|] == s
    ensures a[..at] == old(a[..at]) && a[at + |s|..] == old(a[at + |s|..])
  {
    for i := 0 to |s|
      invariant a[at..at + i] == s[..i]
      invariant forall k :: 0 <= k < a.Length && !(at <= k < at + i) ==> a[k] == old(a[k])
    {
      a[at + i] := s[i];
      assert a[at..at + i + 1] == a[at..at + i] + [s[i]];
    }
  }

  lemma SlicesJoin(b: seq<byte>, i: nat, j: nat, k: nat, l: nat)
    requires i <= j <= k <= l <= |b|
    ensures b[i..l] == b[i..j] + (b[j..k] + b[k..l])
  {
  }

  class PacketBuilder {
    const buf: array<byte>
    const streamId: nat
    const packetSeq: nat
    const firstMsgSeq: nat
    var msgCount: nat
    var writeOffset: nat
    ghost var added: seq<RawMessage>

    ghost predicate Valid()
      reads this, buf
    {
      && buf.Length == MAX_MTU
      && streamId < U32 && packetSeq < U64 && firstMsgSeq < U64
      && PACKET_HEADER_LEN <= writeOffset <= MAX_MTU
      && msgCount == |added|
      && buf[PACKET_HEADER_LEN..writeOffset] == EncodeMessages(added)
    }

    constructor (streamId: nat, packetSeq: nat, firstMsgSeq: nat)
      requires streamId < U32 && packetSeq < U64 && firstMsgSeq < U64
      ensures Valid() && fresh(buf) && added == [] && writeOffset == PACKET_HEADER_LEN
      ensures this.streamId == streamId && this.packetSeq == packetSeq && this.firstMsgSeq == firstMsgSeq
    {
      buf := new byte[MAX_MTU](_ => 0);
      this.streamId, this.packetSeq, this.firstMsgSeq := streamId, packetSeq, firstMsgSeq;
      msgCount, writeOffset, added := 0, PACKET_HEADER_LEN, [];
    }

    function RemainingCapacity(): nat
      reads this, buf
      requires Valid()
    {
      MAX_MTU - writeOffset
    }

    predicate IsEmpty()
      reads this
    {
      msgCount == 0
    }

    // The header and the payload of a message go behind what is there.
    method Put(header: seq<byte>, payload: seq<byte>)
      requires PACKET_HEADER_LEN <= writeOffset && writeOffset + |header| + |payload| <= buf.Length
      modifies this`writeOffset, buf
      ensures writeOffset == old(writeOffset) + |header| + |payload|
      ensures buf[PACKET_HEADER_LEN..writeOffset] == old(buf[PACKET_HEADER_LEN..writeOffset]) + (header + payload)
    {
      ghost var before, start := buf[PACKET_HEADER_LEN..writeOffset], writeOffset;
      CopyInto(buf, writeOffset, header);
      assert buf[PACKET_HEADER_LEN..start] == before;
      writeOffset := writeOffset + |header|;
      CopyInto(buf, writeOffset, payload);
      assert buf[PACKET_HEADER_LEN..start] == before;
      assert buf[start..writeOffset] == header;
      writeOffset := writeOffset + |payload|;
      SlicesJoin(buf[..], PACKET_HEADER_LEN, start, start + |header|, writeOffset);
    }

    // Nothing is lost: a message that does not fit leaves the builder as it was. The u16
    // count never wraps.
    method TryAddMessage(msgType: MessageType, payload: seq<byte>) returns (ok: bool)
      requires Valid()
      modifies this, buf
      ensures Valid()
      ensures ok <==> MESSAGE_HEADER_LEN + |payload| <= old(RemainingCapacity())
      ensures ok ==>
        && added == old(added) + [RawMessage(msgType.Code(), 0, payload)]
        && writeOffset == old(writeOffset) + MESSAGE_HEADER_LEN + |payload|
      ensures !ok ==> added == old(added) && writeOffset == old(writeOffset)
    {
      hide EncodeMessages, EncodeMessage, ToLittleEndian;
      var needed := MESSAGE_HEADER_LEN + |payload|;
      if needed > RemainingCapacity() {
        return false;
      }
      ghost var m := RawMessage(msgType.Code(), 0, payload);
      EncodeMessagesAppend(added, m);
      MessagesTakeRoom(added);
      CountStays(msgCount);
      EncodedParts(m);
      Put([msgType.Code(), 0] + ToLittleEndian(2, |payload| % U16), payload);
      added := added + [m];
      msgCount := (msgCount + 1) % U16;
      return true;
    }

    // The header goes in front; the buffer is cut at the write offset.
    method Finish() returns (packet: seq<byte>)
      requires Valid()
      modifies buf
      ensures packet == EncodePacket(PacketHeader(|added|, streamId, packetSeq, firstMsgSeq), added)
      ensures |packet| <= MAX_MTU
    {
      var header := EncodeHeader(PacketHeader(msgCount, streamId, packetSeq, firstMsgSeq));
      CopyInto(buf, 0, header);
      assert buf[..PACKET_HEADER_LEN] == header;
      packet := buf[..writeOffset];
      assert packet == buf[..PACKET_HEADER_LEN] + buf[PACKET_HEADER_LEN..writeOffset];
      assert buf[PACKET_HEADER_LEN..writeOffset] == old(buf[PACKET_HEADER_LEN..])[..writeOffset - PACKET_HEADER_LEN];
    }
  }

  // PacketBuilder::heartbeat
  function HeartbeatPacket(streamId: nat, packetSeq: nat, msgSeq: nat): seq<byte> {
    EncodePacket(PacketHeader(0, streamId, packetSeq, msgSeq), [])
  }

  lemma {:induction false} HeartbeatRoundTrip(streamId: nat, packetSeq: nat, msgSeq: nat)
    requires streamId < U32 && packetSeq < U64 && msgSeq < U64
    ensures DecodePacket(HeartbeatPacket(streamId, packetSeq, msgSeq))
      == Ok(Packet(PacketHeader(0, streamId, packetSeq, msgSeq), []))
  {
    var h := PacketHeader(0, streamId, packetSeq, msgSeq);
    PacketRoundTrip(h, [], []);
    assert EncodePacket(h, []) + [] == EncodePacket(h, []);
  }
}
