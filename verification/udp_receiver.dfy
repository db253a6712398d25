// The receiver: packets older than expected are dropped, a jump in the packet numbers is
// recorded as a gap, and messages are handed on in the order of their numbers.
module UdpReceiver {
  import opened Common
  import opened UdpWire
  import opened UdpProtocol

  const GAPS_KEPT := 100

  datatype StreamState = Initializing | Active | Degraded | Down

  // A recorded gap: the message numbers from expectedSeq up to receivedSeq.
  datatype Gap = Gap(expectedSeq: nat, receivedSeq: nat, size: nat)

  datatype Received = Received(msgType: MessageType, payload: seq<byte>, seqNo: nat, streamId: nat)

  // Counters wrap around like the u64 they are.
  datatype Stats = Stats(packets: nat, messages: nat, bytes: nat, heartbeats: nat, duplicates: nat,
                         gaps: nat, gapMessages: nat, errors: nat)

  // What the receiver holds, with what it has handed on and every gap it ever recorded.
  datatype Receiver = Receiver(initialized: bool, expectedPacketSeq: nat, expectedMsgSeq: nat, state: StreamState,
                               stats: Stats, gaps: seq<Gap>, handedOn: seq<Received>, gapLog: seq<Gap>)

  const NEW := Receiver(false, 0, 0, Initializing, Stats(0, 0, 0, 0, 0, 0, 0, 0), [], [], [])

  // The messages of a packet that have a known type.
  function Known(ms: seq<Message>, streamId: nat): seq<Received> {
    if ms == [] then []
    else
      var earlier := Known(ms[..|ms| - 1], streamId);
      var m := ms[|ms| - 1];
      match TypeOfCode(m.raw.code)
      case None => earlier
      case Some(t) => earlier + [Received(t, m.raw.payload, m.seqNo, streamId)]
  }

  // update_state_active
  function Woken(s: StreamState): StreamState {
    if s.Initializing? || s.Down? then Active else s
  }

  function LastGaps(gaps: seq<Gap>): seq<Gap> {
    if |gaps| > GAPS_KEPT then gaps[|gaps| - GAPS_KEPT..] else gaps
  }

  // record_gap
  function WithGap(r: Receiver, g: Gap): Receiver {
    r.(stats := r.stats.(gaps := Wrap64(r.stats.gaps + 1), gapMessages := Wrap64(r.stats.gapMessages + g.size)),
       gaps := LastGaps(r.gaps + [g]), state := Degraded, gapLog := r.gapLog + [g])
  }

  function Started(r: Receiver, h: PacketHeader): Receiver {
    if r.initialized then r
    else r.(initialized := true, expectedPacketSeq := h.packetSeq, expectedMsgSeq := h.firstMsgSeq, state := Woken(r.state))
  }

  function Caught(r: Receiver, h: PacketHeader): Receiver {
    if h.packetSeq > r.expectedPacketSeq then
      WithGap(r, Gap(r.expectedMsgSeq, h.firstMsgSeq, Sub64(h.firstMsgSeq, r.expectedMsgSeq)))
    else r
  }

  // A counter after n increments.
  function Tally(count: nat, n: nat): nat {
    if n == 0 then count else Wrap64(count + n)
  }

  function HandedOn(r: Receiver, p: Packet): Receiver {
    var known := Known(p.messages, p.header.streamId);
    r.(stats := r.stats.(messages := Tally(r.stats.messages, |known|)), handedOn := r.handedOn + known,
       expectedPacketSeq := Wrap64(p.header.packetSeq + 1),
       expectedMsgSeq := Wrap64(p.header.firstMsgSeq + p.header.msgCount))
  }

  // What a well-formed packet does. A heartbeat says only that the stream is alive.
  function Accept(filter: nat, r: Receiver, p: Packet): Receiver {
    var h := p.header;
    if filter != 0 && h.streamId != filter then r
    else
      var seen := r.(stats := r.stats.(packets := Wrap64(r.stats.packets + 1)));
      if h.IsHeartbeat() then
        seen.(stats := seen.stats.(heartbeats := Wrap64(seen.stats.heartbeats + 1)), state := Woken(seen.state))
      else
        var started := Started(seen, h);
        if h.packetSeq < started.expectedPacketSeq then
          started.(stats := started.stats.(duplicates := Wrap64(started.stats.duplicates + 1)))
        else
          HandedOn(Caught(started, h), p)
  }

  // What the socket loop does with the bytes of one datagram; its buffer holds one MTU.
  function Receive(filter: nat, r: Receiver, datagram: seq<byte>): Receiver {
    var data := if |datagram| > MAX_MTU then datagram[..MAX_MTU] else datagram;
    var counted := r.(stats := r.stats.(bytes := Wrap64(r.stats.bytes + |data|)));
    match DecodePacket(data)
    case Err(_) => counted.(stats := counted.stats.(errors := Wrap64(counted.stats.errors + 1)))
    case Ok(p) => Accept(filter, counted, p)
  }

  function Silenced(r: Receiver): Receiver {
    if r.initialized then r.(state := Down) else r
  }

  function Recovered(r: Receiver): Receiver {
    r.(gaps := [], state := if r.state.Degraded? then Active else r.state)
  }

  class ReceiverWorker {
    const filter: nat
    var initialized: bool
    var expectedPacketSeq: nat
    var expectedMsgSeq: nat
    var state: StreamState
    var stats: Stats
    var gaps: seq<Gap>
    // The messages given to the consumer's channel.
    var handedOn: seq<Received>
    ghost var gapLog: seq<Gap>

    ghost function Now(): Receiver
      reads this
    {
      Receiver(initialized, expectedPacketSeq, expectedMsgSeq, state, stats, gaps, handedOn, gapLog)
    }

    constructor (filter: nat)
      ensures this.filter == filter && Now() == NEW
    {
      this.filter := filter;
      initialized, expectedPacketSeq, expectedMsgSeq, state := false, 0, 0, Initializing;
      stats, gaps, handedOn, gapLog := Stats(0, 0, 0, 0, 0, 0, 0, 0), [], [], [];
    }

    method UpdateStateActive()
      modifies `state
      ensures state == Woken(old(state))
    {
      if state == Initializing || state == Down {
        state := Active;
      }
    }

    method RecordGap(expected: nat, received: nat, size: nat)
      requires |gaps| <= GAPS_KEPT
      modifies this
      ensures Now() == WithGap(old(Now()), Gap(expected, received, size))
    {
      hide Wrap64;
      stats := stats.(gaps := Wrap64(stats.gaps + 1));
      stats := stats.(gapMessages := Wrap64(stats.gapMessages + size));
      var gap := Gap(expected, received, size);
      gaps := gaps + [gap];
      ghost var before, all := Now(), gaps;
      while |gaps| > GAPS_KEPT
        invariant |gaps| >= GAPS_KEPT || gaps == all
        invariant LastGaps(gaps) == LastGaps(all)
        invariant Now() == before.(gaps := gaps)
      {
        gaps := gaps[1..];
      }
      state := Degraded;
      gapLog := gapLog + [gap];
    }

    // The loop over the messages of a packet.
    method HandOn(messages: seq<Message>, streamId: nat)
      modifies this
      ensures var known := Known(messages, streamId);
        Now() == old(Now()).(stats := old(stats).(messages := Tally(old(stats).messages, |known|)),
                             handedOn := old(handedOn) + known)
    {
      ghost var before := Now();
      ghost var count := stats.messages;
      hide Wrap64;
      var i := 0;
      assert messages[..0] == [];
      while i < |messages|
        invariant 0 <= i <= |messages|
        invariant var known := Known(messages[..i], streamId);
          && Now() == before.(stats := before.stats.(messages := stats.messages), handedOn := before.handedOn + known)
          && stats.messages == Tally(count, |known|)
      {
        var m := messages[i];
        assert messages[..i + 1][..i] == messages[..i];
        var t := TypeOfCode(m.raw.code);
        if t.Some? {
          WrapAdds(count, |Known(messages[..i], streamId)| + 1);
          WrapAdds(count + |Known(messages[..i], streamId)|, 1);
          stats := stats.(messages := Wrap64(stats.messages + 1));
          handedOn := handedOn + [Received(t.value, m.raw.payload, m.seqNo, streamId)];
        }
        i := i + 1;
      }
      assert messages[..i] == messages;
    }

    // A packet of messages.
    method AcceptMessages(packet: Packet)
      requires |gaps| <= GAPS_KEPT
      modifies this
      ensures |gaps| <= GAPS_KEPT
      ensures var started := Started(old(Now()), packet.header);
        Now() == if packet.header.packetSeq < started.expectedPacketSeq
                 then started.(stats := started.stats.(duplicates := Wrap64(started.stats.duplicates + 1)))
                 else HandedOn(Caught(started, packet.header), packet)
    {
      hide Wrap64, Sub64, Known, Tally;
      if !initialized {
        expectedPacketSeq := packet.header.packetSeq;
        expectedMsgSeq := packet.header.firstMsgSeq;
        initialized := true;
        UpdateStateActive();
      }
      if packet.header.packetSeq < expectedPacketSeq {
        stats := stats.(duplicates := Wrap64(stats.duplicates + 1));
        return;
      }
      if packet.header.packetSeq > expectedPacketSeq {
        var gapSize := Sub64(packet.header.firstMsgSeq, expectedMsgSeq);
        RecordGap(expectedMsgSeq, packet.header.firstMsgSeq, gapSize);
      }
      HandOn(packet.messages, packet.header.streamId);
      expectedPacketSeq := Wrap64(packet.header.packetSeq + 1);
      expectedMsgSeq := Wrap64(packet.header.firstMsgSeq + packet.header.msgCount);
    }

    method ProcessPacket(data: seq<byte>) returns (error: Option<ProtocolError>)
      requires |gaps| <= GAPS_KEPT
      modifies this
      ensures |gaps| <= GAPS_KEPT
      ensures match DecodePacket(data)
        case Err(e) => error == Some(e) && Now() == old(Now())
        case Ok(p) => error == None && Now() == Accept(filter, old(Now()), p)
    {
      hide Wrap64, DecodePacket, HandedOn, Caught, Started;
      var parsed := Parse(data);
      if parsed.Err? {
        return Some(parsed.error);
      }
      var packet := parsed.value;
      if filter != 0 && packet.header.streamId != filter {
        return None;
      }
      stats := stats.(packets := Wrap64(stats.packets + 1));
      if packet.header.IsHeartbeat() {
        stats := stats.(heartbeats := Wrap64(stats.heartbeats + 1));
        UpdateStateActive();
        return None;
      }
      AcceptMessages(packet);
      return None;
    }

    // One datagram from the socket.
    method OnDatagram(datagram: seq<byte>)
      requires |gaps| <= GAPS_KEPT
      modifies this
      ensures |gaps| <= GAPS_KEPT && Now() == Receive(filter, old(Now()), datagram)
    {
      var data := if |datagram| > MAX_MTU then datagram[..MAX_MTU] else datagram;
      stats := stats.(bytes := Wrap64(stats.bytes + |data|));
      var error := ProcessPacket(data);
      if error.Some? {
        stats := stats.(errors := Wrap64(stats.errors + 1));
      }
    }

    // Nothing arrived within the stream timeout.
    method OnTimeout()
      modifies this
      ensures Now() == Silenced(old(Now()))
    {
      if initialized && state != Down {
        state := Down;
      }
    }

    method ClearGaps()
      modifies this
      ensures Now() == Recovered(old(Now()))
    {
      gaps := [];
      if state == Degraded {
        state := Active;
      }
    }
  }
}
