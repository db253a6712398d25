// The batching sender: messages are collected into packets, a packet is sent when it is full
// or after a pause, and heartbeats are sent on an idle stream.
module UdpSender {
  import opened Common
  import opened UdpWire
  import opened UdpProtocol
  import opened UdpBuilder

  datatype OutMsg = OutMsg(msgType: MessageType, payload: seq<byte>) {
    // The size check at enqueue.
    predicate Fits() {
      |payload| <= MAX_PAYLOAD - MESSAGE_HEADER_LEN
    }

    function Raw(): RawMessage {
      RawMessage(msgType.Code(), 0, payload)
    }
  }

  datatype SendError = MessageTooLarge(size: nat, max: nat)

  // try_send and send, up to the channel.
  function Enqueue(msgType: MessageType, payload: seq<byte>): (r: Result<OutMsg, SendError>)
    ensures r.Ok? <==> 24 + 4 + |payload| <= 1400
    ensures r.Ok? <==> OutMsg(msgType, payload).Fits()
    ensures r.Err? ==> r.error == MessageTooLarge(|payload|, 1372)
    ensures r.Ok? ==> r.value == OutMsg(msgType, payload)
  {
    if |payload| > MAX_PAYLOAD - MESSAGE_HEADER_LEN then Err(MessageTooLarge(|payload|, MAX_PAYLOAD - MESSAGE_HEADER_LEN))
    else Ok(OutMsg(msgType, payload))
  }

  // What one wait on the channel gives: a message, a pause (long enough for a heartbeat or
  // not), or the news that every producer is gone.
  datatype Tick = Took(msg: OutMsg) | TimedOut(heartbeatDue: bool) | Disconnected

  // The messages taken from the channel before it was found disconnected.
  function TakenBy(ticks: seq<Tick>): seq<OutMsg> {
    if ticks == [] || ticks[0].Disconnected? then []
    else if ticks[0].Took? then [ticks[0].msg] + TakenBy(ticks[1..])
    else TakenBy(ticks[1..])
  }

  function TookOf(tick: Tick): seq<OutMsg> {
    if tick.Took? then [tick.msg] else []
  }

  ghost predicate AllFit(ms: seq<OutMsg>) {
    forall i :: 0 <= i < |ms| ==> ms[i].Fits()
  }

  ghost predicate TicksFit(ticks: seq<Tick>) {
    forall i :: 0 <= i < |ticks| && ticks[i].Took? ==> ticks[i].msg.Fits()
  }

  ghost predicate NoPause(ticks: seq<Tick>) {
    forall i :: 0 <= i < |ticks| ==> !ticks[i].TimedOut?
  }

  function RawOf(ms: seq<OutMsg>): (r: seq<RawMessage>)
    ensures |r| == |ms|
    ensures forall i :: 0 <= i < |ms| ==> r[i] == ms[i].Raw()
  {
    if ms == [] then [] else [ms[0].Raw()] + RawOf(ms[1..])
  }

  // ---------- what is sent ----------

  // A datagram, with its unbounded numbers: a packet of messages or a heartbeat.
  datatype Datagram = Data(packetNo: nat, first: nat, msgs: seq<OutMsg>) | Beat(packetNo: nat, first: nat)

  function Wire(streamId: nat, d: Datagram): seq<byte> {
    match d
    case Data(packetNo, first, msgs) =>
      EncodePacket(PacketHeader(|msgs|, streamId, Wrap64(packetNo), Wrap64(first)), RawOf(msgs))
    case Beat(packetNo, first) => HeartbeatPacket(streamId, Wrap64(packetNo), Wrap64(first))
  }

  function Wires(streamId: nat, log: seq<Datagram>): seq<seq<byte>> {
    if log == [] then [] else Wires(streamId, log[..|log| - 1]) + [Wire(streamId, log[|log| - 1])]
  }

  lemma {:induction false} WiresAt(streamId: nat, log: seq<Datagram>, i: nat)
    requires i < |log|
    ensures |Wires(streamId, log)| == |log| && Wires(streamId, log)[i] == Wire(streamId, log[i])
  {
    hide Wire;
    var earlier := log[..|log| - 1];
    if earlier != [] {
      WiresAt(streamId, earlier, if i < |earlier| then i else 0);
    } else {
      assert Wires(streamId, earlier) == [];
    }
  }

  lemma WireParts(streamId: nat, packetNo: nat, first: nat, msgs: seq<OutMsg>)
    ensures Wire(streamId, Data(packetNo, first, msgs))
      == EncodePacket(PacketHeader(|msgs|, streamId, Wrap64(packetNo), Wrap64(first)), RawOf(msgs))
    ensures Wire(streamId, Beat(packetNo, first)) == HeartbeatPacket(streamId, Wrap64(packetNo), Wrap64(first))
  {
  }

  // The messages of all data packets, in order.
  function AllMsgs(log: seq<Datagram>): seq<OutMsg> {
    if log == [] then []
    else
      var last := log[|log| - 1];
      if last.Data? then AllMsgs(log[..|log| - 1]) + last.msgs else AllMsgs(log[..|log| - 1])
  }

  // The packet number given to the next data packet. It was fixed when the previous data
  // packet was sent, so heartbeats in between do not move it.
  function Resume(log: seq<Datagram>): nat {
    if log == [] then 0
    else if log[|log| - 1].Data? then |log|
    else Resume(log[..|log| - 1])
  }

  ghost predicate DatagramOk(before: seq<Datagram>, d: Datagram) {
    && d.first == |AllMsgs(before)|
    && d.packetNo == (if d.Data? then Resume(before) else |before|)
    && (d.Data? ==> d.msgs != [] && |EncodeMessages(RawOf(d.msgs))| <= MAX_PAYLOAD)
  }

  // Every datagram is numbered after those before it.
  ghost predicate LogOk(log: seq<Datagram>) {
    log == [] || (LogOk(log[..|log| - 1]) && DatagramOk(log[..|log| - 1], log[|log| - 1]))
  }

  lemma {:induction false} LogOkPrefix(log: seq<Datagram>, n: nat)
    requires LogOk(log) && n <= |log|
    ensures LogOk(log[..n])
  {
    hide DatagramOk;
    if n < |log| {
      assert log[..|log| - 1][..n] == log[..n];
      LogOkPrefix(log[..|log| - 1], n);
    } else {
      assert log[..n] == log;
    }
  }

  lemma DatagramAt(log: seq<Datagram>, i: nat)
    requires LogOk(log) && i < |log|
    ensures DatagramOk(log[..i], log[i])
  {
    hide DatagramOk;
    LogOkPrefix(log, i + 1);
    assert log[..i + 1][..i] == log[..i];
  }

  lemma {:induction false} LogExtends(streamId: nat, log: seq<Datagram>, d: Datagram)
    requires LogOk(log) && DatagramOk(log, d)
    ensures LogOk(log + [d])
    ensures Wires(streamId, log + [d]) == Wires(streamId, log) + [Wire(streamId, d)]
    ensures AllMsgs(log + [d]) == if d.Data? then AllMsgs(log) + d.msgs else AllMsgs(log)
    ensures Resume(log + [d]) == if d.Data? then |log| + 1 else Resume(log)
  {
    hide DatagramOk, Wire;
    assert (log + [d])[..|log|] == log;
  }

  lemma CountersAdvance(log: seq<Datagram>, d: Datagram)
    requires LogOk(log) && DatagramOk(log, d)
    ensures Wrap64(|log + [d]|) == Wrap64(Wrap64(|log|) + 1)
    ensures Wrap64(|AllMsgs(log + [d])|)
      == if d.Data? then Wrap64(Wrap64(|AllMsgs(log)|) + |d.msgs|) else Wrap64(|AllMsgs(log)|)
  {
    hide LogOk, DatagramOk, Wrap64, AllMsgs, Wires, Resume;
    LogExtends(0, log, d);
    WrapAdds(|log|, 1);
    if d.Data? {
      WrapAdds(|AllMsgs(log)|, |d.msgs|);
    }
  }

  // ---------- how full the packets are ----------

  // What messages take in a packet: four bytes and the payload each.
  function Size(ms: seq<OutMsg>): nat {
    if ms == [] then 0 else 4 + |ms[0].payload| + Size(ms[1..])
  }

  lemma {:induction false} SizeIsEncoded(ms: seq<OutMsg>)
    ensures |EncodeMessages(RawOf(ms))| == Size(ms)
  {
    if ms != [] {
      assert RawOf(ms)[1..] == RawOf(ms[1..]);
      SizeIsEncoded(ms[1..]);
    }
  }

  // The message has no room behind the batch in a packet of 1400 bytes, 24 of them header.
  predicate Overflows(batch: seq<OutMsg>, msg: OutMsg) {
    24 + Size(batch) + 4 + |msg.payload| > 1400
  }

  // No packet of messages begins with one that the packet before had room for.
  ghost predicate Packed(log: seq<Datagram>) {
    forall k :: 0 < k < |log| && log[k - 1].Data? && log[k].Data? && log[k].msgs != [] ==>
      Overflows(log[k - 1].msgs, log[k].msgs[0])
  }

  // Nor does the batch being collected, which is empty only at the beginning.
  ghost predicate Filling(log: seq<Datagram>, pending: seq<OutMsg>) {
    && Packed(log)
    && (pending == [] ==> log == [])
    && (log != [] && log[|log| - 1].Data? && pending != [] ==> Overflows(log[|log| - 1].msgs, pending[0]))
  }

  lemma KeepsFilling(log: seq<Datagram>, pending: seq<OutMsg>, msg: OutMsg, packetNo: nat, first: nat)
    ensures Filling(log, pending) ==> Filling(log, pending + [msg])
    ensures Filling(log, pending) && pending != [] && Overflows(pending, msg) ==>
      Filling(log + [Data(packetNo, first, pending)], [msg])
  {
    hide Overflows;
  }

  lemma LastFilling(log: seq<Datagram>, pending: seq<OutMsg>, packetNo: nat, first: nat)
    requires Filling(log, pending)
    ensures Packed(log + [Data(packetNo, first, pending)])
  {
    hide Overflows;
  }

  class SenderWorker {
    const streamId: nat
    var packetSeq: nat
    var msgSeq: nat
    // The datagrams handed to the socket.
    var sent: seq<seq<byte>>
    ghost var log: seq<Datagram>

    ghost predicate SentOk()
      reads this
    {
      && streamId < U32 && LogOk(log)
      && packetSeq == Wrap64(|log|) && msgSeq == Wrap64(|AllMsgs(log)|)
      && sent == Wires(streamId, log)
    }

    // The batch being collected.
    ghost predicate Batch(builder: PacketBuilder, pending: seq<OutMsg>)
      reads this, builder, builder.buf
    {
      && builder.Valid() && builder.streamId == streamId
      && builder.packetSeq == Wrap64(Resume(log)) && builder.firstMsgSeq == Wrap64(|AllMsgs(log)|)
      && builder.added == RawOf(pending)
    }

    constructor (streamId: nat)
      requires streamId < U32
      ensures this.streamId == streamId && SentOk() && sent == [] && log == []
    {
      this.streamId := streamId;
      packetSeq, msgSeq, sent, log := 0, 0, [], [];
    }

    // Send the batch and start the next one.
    method SendBatch(builder: PacketBuilder, ghost pending: seq<OutMsg>) returns (next: PacketBuilder)
      requires SentOk() && Batch(builder, pending) && pending != []
      modifies this, builder.buf
      ensures SentOk() && Batch(next, []) && fresh(next) && fresh(next.buf)
      ensures next.writeOffset == PACKET_HEADER_LEN
      ensures log == old(log) + [Data(Resume(old(log)), |AllMsgs(old(log))|, pending)]
    {
      hide LogOk, Resume, AllMsgs, Wrap64, EncodePacket, EncodeHeader, EncodeMessages, RawOf, Wires, Wire,
           HeartbeatPacket, ToLittleEndian;
      ghost var d := Data(Resume(log), |AllMsgs(log)|, pending);
      WrapFits(packetSeq + 1);
      WrapFits(msgSeq + builder.msgCount);
      ghost var log' := log + [d];
      assert |EncodeMessages(RawOf(pending))| <= MAX_PAYLOAD;
      LogExtends(streamId, log, d);
      CountersAdvance(log, d);
      WireParts(streamId, d.packetNo, d.first, pending);
      var msgCount := builder.msgCount;
      var packet := builder.Finish();
      sent := sent + [packet];
      packetSeq := Wrap64(packetSeq + 1);
      msgSeq := Wrap64(msgSeq + msgCount);
      next := new PacketBuilder(streamId, packetSeq, msgSeq);
      log := log';
      NoRaws();
    }

    method SendHeartbeat()
      requires SentOk()
      modifies this
      ensures SentOk() && log == old(log) + [Beat(|old(log)|, |AllMsgs(old(log))|)]
      ensures Resume(log) == old(Resume(log)) && AllMsgs(log) == old(AllMsgs(log))
    {
      ghost var d := Beat(|log|, |AllMsgs(log)|);
      hide LogOk, Resume, AllMsgs, Wrap64, HeartbeatPacket, EncodePacket, EncodeHeader, EncodeMessages, Wires, Wire,
           ToLittleEndian;
      ghost var log' := log + [d];
      LogExtends(streamId, log, d);
      CountersAdvance(log, d);
      WireParts(streamId, d.packetNo, d.first, []);
      var heartbeat := HeartbeatPacket(streamId, packetSeq, msgSeq);
      sent := sent + [heartbeat];
      packetSeq := Wrap64(packetSeq + 1);
      log := log';
    }

    // Put a message into the batch, sending the batch first if the message does not fit. The
    // second attempt cannot fail: an empty batch has room for every message that was let into
    // the channel.
    method AddToBatch(builder: PacketBuilder, msg: OutMsg, ghost pending: seq<OutMsg>)
      returns (next: PacketBuilder, ghost pending': seq<OutMsg>)
      requires SentOk() && Batch(builder, pending) && msg.Fits()
      modifies this, builder, builder.buf
      ensures SentOk() && Batch(next, pending')
      ensures next == builder || (fresh(next) && fresh(next.buf))
      ensures AllMsgs(log) + pending' == old(AllMsgs(log)) + pending + [msg]
      // The batch goes out exactly if the message has no room in it.
      ensures !Overflows(pending, msg) ==> log == old(log) && pending' == pending + [msg]
      ensures Overflows(pending, msg) ==>
        log == old(log) + [Data(Resume(old(log)), |AllMsgs(old(log))|, pending)] && pending' == [msg]
      ensures Filling(old(log), pending) ==> Filling(log, pending')
    {
      hide LogOk, Resume, AllMsgs, RawOf, EncodeMessages, EncodePacket, EncodeHeader, HeartbeatPacket, Wrap64,
           Wires, Wire, ToLittleEndian, Filling, Size;
      KeepsFilling(log, pending, msg, Resume(log), |AllMsgs(log)|);
      next := builder;
      EmptyBatch(builder, pending);
      RawOfAppend(pending, msg);
      SizeIsEncoded(pending);
      var added := builder.TryAddMessage(msg.msgType, msg.payload);
      if added {
        pending' := pending + [msg];
      } else {
        AllMsgsAppend(log, Data(Resume(log), |AllMsgs(log)|, pending));
        next := SendBatch(builder, pending);
        NoRaws();
        RawOfAppend([], msg);
        var addedNow := next.TryAddMessage(msg.msgType, msg.payload);
        assert addedNow;
        pending' := [msg];
      }
    }

    // What one wait on the channel makes the worker do.
    method OnTick(builder: PacketBuilder, tick: Tick, ghost pending: seq<OutMsg>)
      returns (next: PacketBuilder, ghost pending': seq<OutMsg>, stop: bool)
      requires SentOk() && Batch(builder, pending) && (tick.Took? ==> tick.msg.Fits())
      modifies this, builder, builder.buf
      ensures SentOk() && Batch(next, pending')
      ensures next == builder || (fresh(next) && fresh(next.buf))
      ensures stop <==> tick.Disconnected?
      ensures AllMsgs(log) + pending' == old(AllMsgs(log)) + pending + TookOf(tick)
      ensures tick.TimedOut? ==> pending' == []
      ensures tick.Took? ==> (log == old(log) && pending' == pending + [tick.msg] <==> !Overflows(pending, tick.msg))
      ensures !tick.TimedOut? && Filling(old(log), pending) ==> Filling(log, pending')
      // A pause sends the batch, or a heartbeat that is due, and nothing else.
      ensures tick.TimedOut? && pending != [] ==>
        log == old(log) + [Data(Resume(old(log)), |AllMsgs(old(log))|, pending)]
      ensures tick.TimedOut? && pending == [] ==>
        log == if tick.heartbeatDue then old(log) + [Beat(|old(log)|, |AllMsgs(old(log))|)] else old(log)
      ensures tick.Disconnected? ==> log == old(log) && pending' == pending
    {
      hide LogOk, Resume, AllMsgs, RawOf, EncodeMessages, EncodePacket, EncodeHeader, HeartbeatPacket, Wrap64,
           Wires, Wire, ToLittleEndian;
      EmptyBatch(builder, pending);
      next, pending', stop := builder, pending, false;
      match tick
      case Took(msg) =>
        next, pending' := AddToBatch(builder, msg, pending);
      case TimedOut(heartbeatDue) =>
        if !builder.IsEmpty() {
          AllMsgsAppend(log, Data(Resume(log), |AllMsgs(log)|, pending));
          next := SendBatch(builder, pending);
          pending' := [];
        } else if heartbeatDue {
          SendHeartbeat();
        }
      case Disconnected =>
        stop := true;
    }

    // Put everything still queued into batches.
    method Drain(builder: PacketBuilder, queued: seq<OutMsg>, ghost pending: seq<OutMsg>)
      returns (next: PacketBuilder, ghost pending': seq<OutMsg>)
      requires SentOk() && Batch(builder, pending) && AllFit(queued)
      modifies this, builder, builder.buf
      ensures SentOk() && Batch(next, pending')
      ensures next == builder || (fresh(next) && fresh(next.buf))
      ensures AllMsgs(log) + pending' == old(AllMsgs(log)) + pending + queued
      ensures Filling(old(log), pending) ==> Filling(log, pending')
    {
      hide LogOk, Resume, AllMsgs, RawOf, EncodeMessages, EncodePacket, EncodeHeader, HeartbeatPacket, Wrap64,
           Wires, Wire, ToLittleEndian;
      next, pending' := builder, pending;
      var j := 0;
      while j < |queued|
        invariant 0 <= j <= |queued|
        invariant SentOk() && Batch(next, pending')
        invariant next == builder || (fresh(next) && fresh(next.buf))
        invariant AllMsgs(log) + pending' == old(AllMsgs(log)) + pending + queued[..j]
        invariant Filling(old(log), pending) ==> Filling(log, pending')
      {
        next, pending' := AddToBatch(next, queued[j], pending');
        assert queued[..j + 1] == queued[..j] + [queued[j]];
        j := j + 1;
      }
      assert queued[..j] == queued;
    }

    // The main loop: until the channel is disconnected or the worker is told to stop.
    method Collect(builder: PacketBuilder, ticks: seq<Tick>)
      returns (next: PacketBuilder, ghost pending: seq<OutMsg>)
      requires SentOk() && Batch(builder, []) && TicksFit(ticks)
      modifies this, builder, builder.buf
      ensures SentOk() && Batch(next, pending)
      ensures next == builder || (fresh(next) && fresh(next.buf))
      ensures AllMsgs(log) + pending == old(AllMsgs(log)) + TakenBy(ticks)
      ensures NoPause(ticks) && Filling(old(log), []) ==> Filling(log, pending)
    {
      hide LogOk, Resume, AllMsgs, RawOf, EncodeMessages, EncodePacket, EncodeHeader, HeartbeatPacket, Wrap64,
           Wires, Wire, ToLittleEndian, TakenBy, PacketBuilder.Valid, Filling, Overflows, SentOk, Flow, Size, TookOf;
      next, pending := builder, [];
      var i, stop := 0, false;
      ghost var later := TakenBy(ticks);
      ghost var flow := Flow(log, [], later);
      assert ticks[0..] == ticks;
      BeginFlow(log, later);
      while i < |ticks| && !stop
        invariant 0 <= i <= |ticks|
        invariant SentOk() && Batch(next, pending)
        invariant next == builder || (fresh(next) && fresh(next.buf))
        invariant later == if stop then [] else TakenBy(ticks[i..])
        invariant Flow(log, pending, later) == flow
        invariant NoPause(ticks) && Filling(old(log), []) ==> Filling(log, pending)
      {
        ghost var log0, pending0 := log, pending;
        next, pending, stop := OnTick(next, ticks[i], pending);
        FlowStep(ticks, i, log0, pending0, log, pending);
        i := i + 1;
        later := if stop then [] else TakenBy(ticks[i..]);
      }
      NothingTaken(ticks[i..]);
      EndFlow(log, pending, later);
    }

    // The worker: collect, then drain what is still queued and flush. Nothing is lost, doubled
    // or reordered.
    method Run(ticks: seq<Tick>, queued: seq<OutMsg>)
      requires SentOk() && log == [] && TicksFit(ticks) && AllFit(queued)
      modifies this
      ensures LogOk(log) && sent == Wires(streamId, log)
      ensures AllMsgs(log) == TakenBy(ticks) + queued
      // Without pauses every packet is as full as it can be.
      ensures NoPause(ticks) ==> Packed(log)
    {
      hide LogOk, Resume, AllMsgs, RawOf, EncodeMessages, EncodePacket, EncodeHeader, HeartbeatPacket, Wrap64,
           Wires, Wire, ToLittleEndian, TakenBy;
      NoRaws();
      NoDatagrams();
      WrapFits(|log|);
      WrapFits(|AllMsgs(log)|);
      var builder := new PacketBuilder(streamId, packetSeq, msgSeq);
      ghost var pending: seq<OutMsg>;
      builder, pending := Collect(builder, ticks);
      assert AllMsgs(log) + pending == TakenBy(ticks);
      builder, pending := Drain(builder, queued, pending);
      assert AllMsgs(log) + [] == AllMsgs(log);
      EmptyBatch(builder, pending);
      if !builder.IsEmpty() {
        Flush(builder, pending);
      }
    }

    // The last batch. The counters are not advanced any more.
    method Flush(builder: PacketBuilder, ghost pending: seq<OutMsg>)
      requires SentOk() && Batch(builder, pending) && pending != []
      modifies this, builder.buf
      ensures LogOk(log) && sent == Wires(streamId, log)
      ensures AllMsgs(log) == AllMsgs(old(log)) + pending
      ensures Filling(old(log), pending) ==> Packed(log)
    {
      hide LogOk, Resume, AllMsgs, Wrap64, EncodePacket, EncodeHeader, EncodeMessages, RawOf, Wires, Wire,
           HeartbeatPacket, ToLittleEndian, Filling, Packed;
      ghost var d := Data(Resume(log), |AllMsgs(log)|, pending);
      if Filling(log, pending) {
        LastFilling(log, pending, d.packetNo, d.first);
      }
      ghost var log' := log + [d];
      assert |EncodeMessages(RawOf(pending))| <= MAX_PAYLOAD;
      LogExtends(streamId, log, d);
      WireParts(streamId, d.packetNo, d.first, pending);
      var packet := builder.Finish();
      sent := sent + [packet];
      log := log';
    }
  }

  // Sent, pending and still to come.
  ghost function Flow(log: seq<Datagram>, pending: seq<OutMsg>, later: seq<OutMsg>): seq<OutMsg> {
    AllMsgs(log) + pending + later
  }

  lemma BeginFlow(log: seq<Datagram>, later: seq<OutMsg>)
    ensures Flow(log, [], later) == AllMsgs(log) + later
  {
  }

  lemma FlowStep(ticks: seq<Tick>, i: nat, log: seq<Datagram>, pending: seq<OutMsg>, log': seq<Datagram>, pending': seq<OutMsg>)
    requires i < |ticks| && AllMsgs(log') + pending' == AllMsgs(log) + pending + TookOf(ticks[i])
    ensures Flow(log', pending', if ticks[i].Disconnected? then [] else TakenBy(ticks[i + 1..]))
      == Flow(log, pending, TakenBy(ticks[i..]))
  {
    hide AllMsgs, TakenBy;
    TakenStep(ticks, i);
    var later := if ticks[i].Disconnected? then [] else TakenBy(ticks[i + 1..]);
    assert TakenBy(ticks[i..]) == TookOf(ticks[i]) + later;
    assert AllMsgs(log) + pending + (TookOf(ticks[i]) + later) == AllMsgs(log) + pending + TookOf(ticks[i]) + later;
  }

  lemma EndFlow(log: seq<Datagram>, pending: seq<OutMsg>, later: seq<OutMsg>)
    ensures later == [] ==> Flow(log, pending, later) == AllMsgs(log) + pending
  {
  }

  lemma NothingTaken(ticks: seq<Tick>)
    ensures ticks == [] ==> TakenBy(ticks) == []
  {
  }

  lemma NoDatagrams()
    ensures AllMsgs([]) == [] && Resume([]) == 0 && LogOk([])
  {
  }

  lemma TakenStep(ticks: seq<Tick>, i: nat)
    requires i < |ticks|
    ensures TakenBy(ticks[i..])
      == match ticks[i]
         case Took(msg) => [msg] + TakenBy(ticks[i + 1..])
         case TimedOut(_) => TakenBy(ticks[i + 1..])
         case Disconnected => []
  {
    assert ticks[i..][1..] == ticks[i + 1..];
  }

  // A batch without messages is an empty buffer.
  lemma EmptyBatch(builder: PacketBuilder, pending: seq<OutMsg>)
    requires builder.Valid() && builder.added == RawOf(pending)
    ensures pending == [] ==> builder.writeOffset == PACKET_HEADER_LEN
    ensures builder.IsEmpty() <==> pending == []
  {
    if pending == [] {
      assert |EncodeMessages(builder.added)| == 0;
    }
  }

  lemma {:induction false} RawOfAppend(ms: seq<OutMsg>, m: OutMsg)
    ensures RawOf(ms + [m]) == RawOf(ms) + [m.Raw()]
  {
  }

  lemma AllMsgsAppend(log: seq<Datagram>, d: Datagram)
    ensures AllMsgs(log + [d]) == if d.Data? then AllMsgs(log) + d.msgs else AllMsgs(log)
  {
    assert (log + [d])[..|log|] == log;
  }

  lemma NoRaws()
    ensures RawOf([]) == []
  {
  }

  // ---------- what the datagrams say ----------

  // The messages of the packets that parse, in order.
  function ParsedMessages(packets: seq<seq<byte>>): seq<Message> {
    if packets == [] then []
    else
      var last := DecodePacket(packets[|packets| - 1]);
      ParsedMessages(packets[..|packets| - 1]) + if last.Ok? then last.value.messages else []
  }

  lemma {:induction false} NumberFromWraps(ms: seq<RawMessage>, seqNo: nat)
    ensures NumberFrom(ms, Wrap64(seqNo)) == NumberFrom(ms, seqNo)
  {
    hide Wrap64, NumberFrom;
    forall i | 0 <= i < |ms|
      ensures NumberFrom(ms, Wrap64(seqNo))[i] == NumberFrom(ms, seqNo)[i]
    {
      WrapAdds(seqNo, i);
    }
  }

  lemma {:induction false} NumberFromConcat(a: seq<RawMessage>, b: seq<RawMessage>, seqNo: nat)
    ensures NumberFrom(a + b, seqNo) == NumberFrom(a, seqNo) + NumberFrom(b, seqNo + |a|)
  {
    hide Wrap64, NumberFrom;
  }

  lemma BatchFits(msgs: seq<OutMsg>)
    requires |EncodeMessages(RawOf(msgs))| <= MAX_PAYLOAD
    ensures |msgs| < U16 && PayloadsFit(RawOf(msgs))
  {
    hide EncodeMessages, RawOf;
    MessagesTakeRoom(RawOf(msgs));
  }

  // A datagram parses to its messages with the numbers the sender gave them; a heartbeat to
  // none. Every datagram is within the MTU, and every packet of messages has some.
  lemma {:induction false} DatagramRoundTrip(streamId: nat, log: seq<Datagram>, i: nat)
    requires streamId < U32 && LogOk(log) && i < |log|
    ensures |Wire(streamId, log[i])| <= MAX_MTU
    ensures log[i].Data? ==> log[i].msgs != []
    ensures DecodePacket(Wire(streamId, log[i]))
      == Ok(Packet(PacketHeader(if log[i].Data? then |log[i].msgs| else 0, streamId, Wrap64(log[i].packetNo), Wrap64(log[i].first)),
                   if log[i].Data? then NumberFrom(RawOf(log[i].msgs), log[i].first) else []))
  {
    var d := log[i];
    DatagramAt(log, i);
    hide LogOk, Resume, AllMsgs, EncodeHeader, EncodeMessages, RawOf, NumberFrom, Wrap64, DecodePacket;
    WrapFits(d.packetNo);
    WrapFits(d.first);
    match d
    case Data(packetNo, first, msgs) =>
      BatchFits(msgs);
      var h := PacketHeader(|msgs|, streamId, Wrap64(packetNo), Wrap64(first));
      PacketRoundTrip(h, RawOf(msgs), []);
      assert EncodePacket(h, RawOf(msgs)) + [] == EncodePacket(h, RawOf(msgs));
      NumberFromWraps(RawOf(msgs), first);
    case Beat(packetNo, first) =>
      HeartbeatRoundTrip(streamId, Wrap64(packetNo), Wrap64(first));
      NoMessages();
  }

  lemma NoMessages()
    ensures EncodeMessages([]) == []
  {
  }

  lemma {:induction false} WiresPrefix(streamId: nat, log: seq<Datagram>)
    requires log != []
    ensures var wires := Wires(streamId, log);
      && |wires| == |log| && wires[..|log| - 1] == Wires(streamId, log[..|log| - 1])
      && wires[|log| - 1] == Wire(streamId, log[|log| - 1])
  {
    hide Wire;
    WiresAt(streamId, log, 0);
    var earlier := log[..|log| - 1];
    if earlier != [] {
      WiresAt(streamId, earlier, 0);
    }
  }

  // Lossless batching: parsing everything a run sent, in order, gives back the accepted
  // messages, numbered 0, 1, 2, ...
  lemma {:induction false} LosslessBatching(streamId: nat, log: seq<Datagram>)
    requires streamId < U32 && LogOk(log)
    ensures ParsedMessages(Wires(streamId, log)) == NumberFrom(RawOf(AllMsgs(log)), 0)
  {
    hide DecodePacket, Wire, Wires, LogOk, NumberFrom, RawOf, Wrap64, Resume;
    if log != [] {
      var n := |log| - 1;
      var earlier, d := log[..n], log[n];
      LogOkPrefix(log, n);
      LosslessBatching(streamId, earlier);
      DatagramRoundTrip(streamId, log, n);
      WiresPrefix(streamId, log);
      DatagramAt(log, n);
      hide DatagramOk;
      if d.Data? {
        RawOfConcat(AllMsgs(earlier), d.msgs);
        NumberFromConcat(RawOf(AllMsgs(earlier)), RawOf(d.msgs), 0);
      }
    } else {
      NothingSent(streamId);
    }
  }

  lemma NothingSent(streamId: nat)
    ensures Wires(streamId, []) == [] && NumberFrom(RawOf([]), 0) == []
  {
  }

  lemma {:induction false} RawOfConcat(a: seq<OutMsg>, b: seq<OutMsg>)
    ensures RawOf(a + b) == RawOf(a) + RawOf(b)
  {
  }
}
