// Exactly what a receiver makes of any delivery of a sender's datagrams: lost, repeated,
// reordered, and mixed with noise.
module UdpDelivery {
  import opened Common
  import opened UdpWire
  import opened UdpProtocol
  import opened UdpSender
  import opened UdpReceiver
  import opened UdpStream

  // The i-th datagram of the sender arrives, something else does, nothing does for too long, or
  // the consumer clears the gaps.
  datatype Delivery = Ours(i: nat) | Other(datagram: seq<byte>) | Quiet | Cleared

  ghost predicate DeliveryOk(filter: nat, log: seq<Datagram>, d: Delivery) {
    && (d.Ours? ==> d.i < |log|)
    && (d.Other? ==> Noise(filter, d.datagram))
  }

  ghost predicate DeliveriesOk(filter: nat, log: seq<Datagram>, ds: seq<Delivery>) {
    forall k :: 0 <= k < |ds| ==> DeliveryOk(filter, log, ds[k])
  }

  function EventOf(streamId: nat, log: seq<Datagram>, d: Delivery): Event
    requires d.Ours? ==> d.i < |log|
  {
    match d
    case Ours(i) => Arrives(Wire(streamId, log[i]))
    case Other(datagram) => Arrives(datagram)
    case Quiet => Silence
    case Cleared => Recovery
  }

  function EventsOf(streamId: nat, log: seq<Datagram>, ds: seq<Delivery>): seq<Event>
    requires forall k :: 0 <= k < |ds| && ds[k].Ours? ==> ds[k].i < |log|
  {
    if ds == [] then []
    else EventsOf(streamId, log, ds[..|ds| - 1]) + [EventOf(streamId, log, ds[|ds| - 1])]
  }

  // ---------- what should happen, from the sender's log alone ----------

  predicate IsData(log: seq<Datagram>, d: Delivery) {
    d.Ours? && d.i < |log| && log[d.i].Data?
  }

  // The latest sent data packet among those delivered, if any.
  function Newest(log: seq<Datagram>, ds: seq<Delivery>): (n: int)
    ensures -1 <= n < |log|
    ensures n >= 0 ==> log[n].Data?
  {
    if ds == [] then -1
    else
      var earlier, d := Newest(log, ds[..|ds| - 1]), ds[|ds| - 1];
      if IsData(log, d) && d.i > earlier then d.i else earlier
  }

  // Delivery k is of a data packet sent later than any delivered before.
  predicate IsFresh(log: seq<Datagram>, ds: seq<Delivery>, k: nat)
    requires k < |ds|
  {
    IsData(log, ds[k]) && ds[k].i > Newest(log, ds[..k])
  }

  // The messages of a data packet, as the consumer should see them.
  function MessagesOf(streamId: nat, d: Datagram): (r: seq<Received>)
    requires d.Data?
    ensures |r| == |d.msgs|
    ensures forall k :: 0 <= k < |r| ==> r[k] == Received(d.msgs[k].msgType, d.msgs[k].payload, d.first + k, streamId)
  {
    seq(|d.msgs|, k requires 0 <= k < |d.msgs| => Received(d.msgs[k].msgType, d.msgs[k].payload, d.first + k, streamId))
  }

  // The messages of the fresh packets.
  function FreshMessages(streamId: nat, log: seq<Datagram>, ds: seq<Delivery>): seq<Received> {
    if ds == [] then []
    else
      var n := |ds| - 1;
      FreshMessages(streamId, log, ds[..n]) + if IsFresh(log, ds, n) then MessagesOf(streamId, log[ds[n].i]) else []
  }

  // A fresh packet skips if its number does not follow that of the newest one so far.
  predicate Skips(log: seq<Datagram>, ds: seq<Delivery>, k: nat)
    requires k < |ds|
  {
    var newest := Newest(log, ds[..k]);
    IsFresh(log, ds, k) && newest >= 0 && log[ds[k].i].packetNo != log[newest].packetNo + 1
  }

  // From the end of the newest packet to the start of the one that skips.
  function GapsOf(log: seq<Datagram>, ds: seq<Delivery>): seq<Gap> {
    if ds == [] then []
    else
      var n := |ds| - 1;
      var newest := Newest(log, ds[..n]);
      if Skips(log, ds, n) then
        GapsOf(log, ds[..n])
          + [Gap(End(log[newest]), log[ds[n].i].first, Apart(End(log[newest]), log[ds[n].i].first))]
      else GapsOf(log, ds[..n])
  }

  function Apart(from: nat, to: nat): nat {
    if from <= to then to - from else 0
  }

  // A gap degrades, silence takes a started stream down, a heartbeat or the first data packet
  // wakes it, and clearing ends degradation; repeated and consecutive data do nothing.
  function StateAfter(log: seq<Datagram>, ds: seq<Delivery>): StreamState {
    if ds == [] then Initializing
    else
      var n := |ds| - 1;
      NextState(StateAfter(log, ds[..n]), ds[n], IsData(log, ds[n]), Newest(log, ds[..n]) >= 0, Skips(log, ds, n))
  }

  function NextState(state: StreamState, d: Delivery, data: bool, started: bool, skips: bool): StreamState {
    match d
    case Quiet => if started then Down else state
    case Cleared => if state == Degraded then Active else state
    case Other(_) => state
    case Ours(_) =>
      if skips then Degraded
      else if data && started then state
      else if state == Degraded then Degraded
      else Active
  }

  // How many deliveries of a kind there were.
  datatype Kind = OfStream | Beats | Repeated | Unreadable

  predicate IsOf(log: seq<Datagram>, ds: seq<Delivery>, k: nat, kind: Kind)
    requires k < |ds|
  {
    match kind
    case OfStream => ds[k].Ours?
    case Beats => ds[k].Ours? && !IsData(log, ds[k])
    case Repeated => IsData(log, ds[k]) && !IsFresh(log, ds, k)
    case Unreadable => ds[k].Other? && DecodePacket(Cut(ds[k].datagram)).Err?
  }

  function Count(log: seq<Datagram>, ds: seq<Delivery>, kind: Kind): nat {
    if ds == [] then 0
    else Count(log, ds[..|ds| - 1], kind) + if IsOf(log, ds, |ds| - 1, kind) then 1 else 0
  }

  // What the socket delivered, in bytes.
  function Bytes(streamId: nat, log: seq<Datagram>, ds: seq<Delivery>): nat {
    if ds == [] then 0
    else Bytes(streamId, log, ds[..|ds| - 1]) + BytesOf(streamId, log, ds[|ds| - 1])
  }

  function BytesOf(streamId: nat, log: seq<Datagram>, d: Delivery): nat {
    match d
    case Ours(i) => if i < |log| then |Wire(streamId, log[i])| else 0
    case Other(datagram) => |Cut(datagram)|
    case _ => 0
  }

  // ---------- what does happen ----------

  ghost predicate CountsOk(streamId: nat, log: seq<Datagram>, ds: seq<Delivery>, s: Stats) {
    && s.packets == Wrap64(Count(log, ds, OfStream))
    && s.heartbeats == Wrap64(Count(log, ds, Beats))
    && s.duplicates == Wrap64(Count(log, ds, Repeated))
    && s.errors == Wrap64(Count(log, ds, Unreadable))
    && s.bytes == Wrap64(Bytes(streamId, log, ds))
  }

  // The receiver holds exactly what follows from the deliveries.
  ghost predicate Follows(streamId: nat, log: seq<Datagram>, ds: seq<Delivery>, r: Receiver) {
    Core(streamId, log, ds, r) && CountsOk(streamId, log, ds, r.stats)
  }

  // Data packets are numbered in the order they were sent.
  lemma SentInOrder(log: seq<Datagram>, i: nat, j: nat)
    requires LogOk(log) && i < |log| && j < |log| && log[i].Data? && log[j].Data?
    ensures i < j <==> log[i].packetNo < log[j].packetNo
    ensures i < j ==> End(log[i]) <= log[j].first
  {
    hide LogOk, Resume, AllMsgs;
    if i < j {
      EarlierNumber(log, i, j);
    } else if j < i {
      EarlierNumber(log, j, i);
    }
  }

  lemma EarlierNumber(log: seq<Datagram>, i: nat, j: nat)
    requires LogOk(log) && i < j < |log| && log[i].Data? && log[j].Data?
    ensures log[i].packetNo < log[j].packetNo && End(log[i]) <= log[j].first
  {
    hide LogOk, Resume, AllMsgs;
    NumbersOf(log, i);
    NumbersOf(log, j);
    ResumeIsEarlier(log[..i]);
    ResumeBounds(log, i, j);
  }

  lemma HandsOnMessages(streamId: nat, log: seq<Datagram>, i: nat)
    requires LogOk(log) && NoWrap(log) && i < |log| && log[i].Data?
    ensures Known(Arrived(streamId, log[i]).messages, streamId) == MessagesOf(streamId, log[i])
  {
    hide LogOk, Known, NumberFrom, RawOf, AllMsgs, Wrap64, NoWrap;
    KnownOf(log[i].msgs, log[i].first, streamId);
    var known := Known(Arrived(streamId, log[i]).messages, streamId);
    forall k | 0 <= k < |log[i].msgs|
      ensures known[k] == MessagesOf(streamId, log[i])[k]
    {
      MessageNumberFits(log, i, k);
    }
  }

  lemma LastFresh(streamId: nat, log: seq<Datagram>, ds: seq<Delivery>, d: Delivery)
    ensures var all := ds + [d];
      && Newest(log, all) == (if IsData(log, d) && d.i > Newest(log, ds) then d.i else Newest(log, ds))
      && (IsFresh(log, all, |ds|) <==> IsData(log, d) && d.i > Newest(log, ds))
      && (Skips(log, all, |ds|) <==>
          IsFresh(log, all, |ds|) && Newest(log, ds) >= 0 && log[d.i].packetNo != log[Newest(log, ds)].packetNo + 1)
      && FreshMessages(streamId, log, all)
         == FreshMessages(streamId, log, ds) + (if IsFresh(log, all, |ds|) then MessagesOf(streamId, log[d.i]) else [])
      && GapsOf(log, all)
         == GapsOf(log, ds) + (if Skips(log, all, |ds|) then
              [Gap(End(log[Newest(log, ds)]), log[d.i].first, Apart(End(log[Newest(log, ds)]), log[d.i].first))] else [])
  {
    hide MessagesOf;
    assert (ds + [d])[..|ds|] == ds;
    assert FreshMessages(streamId, log, ds) + [] == FreshMessages(streamId, log, ds);
    assert GapsOf(log, ds) + [] == GapsOf(log, ds);
  }

  lemma LastState(log: seq<Datagram>, ds: seq<Delivery>, d: Delivery)
    ensures StateAfter(log, ds + [d])
      == NextState(StateAfter(log, ds), d, IsData(log, d), Newest(log, ds) >= 0, Skips(log, ds + [d], |ds|))
  {
    assert (ds + [d])[..|ds|] == ds;
  }

  lemma LastCount(log: seq<Datagram>, ds: seq<Delivery>, d: Delivery, kind: Kind)
    ensures Count(log, ds + [d], kind) == Count(log, ds, kind) + if IsOf(log, ds + [d], |ds|, kind) then 1 else 0
  {
    hide IsOf;
    assert (ds + [d])[..|ds|] == ds;
  }

  lemma LastBytes(streamId: nat, log: seq<Datagram>, ds: seq<Delivery>, d: Delivery)
    ensures Bytes(streamId, log, ds + [d]) == Bytes(streamId, log, ds) + BytesOf(streamId, log, d)
  {
    hide BytesOf;
    assert (ds + [d])[..|ds|] == ds;
  }

  // A gap is recorded only by a stream that has started.
  lemma {:induction false} StartedFirst(log: seq<Datagram>, ds: seq<Delivery>)
    ensures Newest(log, ds) < 0 ==> StateAfter(log, ds) == Initializing || StateAfter(log, ds) == Active
    ensures Newest(log, ds) >= 0 ==> StateAfter(log, ds) != Initializing
  {
    if ds != [] {
      StartedFirst(log, ds[..|ds| - 1]);
    }
  }

  lemma ArrivedHeader(streamId: nat, log: seq<Datagram>, i: nat)
    requires LogOk(log) && NoWrap(log) && i < |log| && log[i].Data?
    ensures Arrived(streamId, log[i]).header == PacketHeader(|log[i].msgs|, streamId, log[i].packetNo, log[i].first)
  {
    hide LogOk, NoWrap, NumberFrom, RawOf, Wrap64;
    NumbersFit(log, i);
  }

  // What a receiver holds after a data packet that it does not drop.
  lemma DataHandsOn(streamId: nat, log: seq<Datagram>, r: Receiver, i: nat)
    requires LogOk(log) && NoWrap(log) && i < |log| && log[i].Data?
    requires r.initialized ==> r.expectedPacketSeq <= log[i].packetNo && r.expectedMsgSeq <= log[i].first
    ensures var p := Arrived(streamId, log[i]);
      var started := Started(r, p.header);
      var r' := HandedOn(Caught(started, p.header), p);
      var skips := r.initialized && log[i].packetNo != r.expectedPacketSeq;
      && p.header.packetSeq >= started.expectedPacketSeq
      && r'.initialized && r'.expectedPacketSeq == log[i].packetNo + 1 && r'.expectedMsgSeq == End(log[i])
      && r'.handedOn == r.handedOn + MessagesOf(streamId, log[i])
      && r'.gapLog == (if skips then r.gapLog + [Gap(r.expectedMsgSeq, log[i].first, log[i].first - r.expectedMsgSeq)]
                       else r.gapLog)
      && r'.state == (if skips then Degraded else if r.initialized then r.state else Woken(r.state))
  {
    hide LogOk, NoWrap, Known, Arrived, NumberFrom, RawOf, AllMsgs, Wrap64, Sub64, LastGaps, Tally, MessagesOf;
    ArrivedHeader(streamId, log, i);
    NumbersFit(log, i);
    NumbersBelow(log, i);
    HandsOnMessages(streamId, log, i);
    if r.initialized {
      SubFits(log[i].first, r.expectedMsgSeq);
    }
  }

  // The newest packet so far, in a receiver that stands as it should.
  lemma FreshFollows(streamId: nat, log: seq<Datagram>, ds: seq<Delivery>, r: Receiver, i: nat)
    requires LogOk(log) && NoWrap(log) && i < |log| && log[i].Data?
    requires Core(streamId, log, ds, r) && i > Newest(log, ds)
    ensures var p := Arrived(streamId, log[i]);
      var started := Started(r, p.header);
      && p.header.packetSeq >= started.expectedPacketSeq
      && Core(streamId, log, ds + [Ours(i)], HandedOn(Caught(started, p.header), p))
  {
    hide LogOk, NoWrap, Arrived, HandedOn, Caught, Started, Newest, FreshMessages, GapsOf, StateAfter, MessagesOf, IsFresh,
         Skips;
    var newest := Newest(log, ds);
    if newest >= 0 {
      SentInOrder(log, newest, i);
    }
    DataHandsOn(streamId, log, r, i);
    LastFresh(streamId, log, ds, Ours(i));
    LastState(log, ds, Ours(i));
    StartedFirst(log, ds);
  }

  lemma StaleFollows(streamId: nat, log: seq<Datagram>, ds: seq<Delivery>, r: Receiver, i: nat)
    requires LogOk(log) && NoWrap(log) && i < |log| && log[i].Data?
    requires Core(streamId, log, ds, r) && i <= Newest(log, ds)
    ensures var p := Arrived(streamId, log[i]);
      && Started(r, p.header) == r && p.header.packetSeq < r.expectedPacketSeq
      && Core(streamId, log, ds + [Ours(i)], r)
  {
    hide LogOk, NoWrap, NumberFrom, RawOf, Wrap64, Newest, FreshMessages, GapsOf, StateAfter, MessagesOf, IsFresh, Skips;
    var newest := Newest(log, ds);
    NumbersFit(log, i);
    SentInOrder(log, i, newest);
    LastFresh(streamId, log, ds, Ours(i));
    LastState(log, ds, Ours(i));
  }

  // One of the sender's data packets.
  lemma DataFollows(streamId: nat, log: seq<Datagram>, ds: seq<Delivery>, r: Receiver, i: nat)
    requires LogOk(log) && NoWrap(log) && i < |log| && log[i].Data?
    requires Core(streamId, log, ds, r)
    ensures var p := Arrived(streamId, log[i]);
      var started := Started(r, p.header);
      Core(streamId, log, ds + [Ours(i)],
           if p.header.packetSeq < started.expectedPacketSeq then started else HandedOn(Caught(started, p.header), p))
    ensures Arrived(streamId, log[i]).header.packetSeq < Started(r, Arrived(streamId, log[i]).header).expectedPacketSeq
      <==> !IsFresh(log, ds + [Ours(i)], |ds|)
  {
    hide LogOk, NoWrap, Arrived, HandedOn, Caught, Started, Newest, FreshMessages, GapsOf, StateAfter, MessagesOf, IsFresh,
         Skips, Core;
    LastFresh(streamId, log, ds, Ours(i));
    if i > Newest(log, ds) {
      FreshFollows(streamId, log, ds, r, i);
    } else {
      StaleFollows(streamId, log, ds, r, i);
    }
  }

  // Everything but the counters.
  ghost predicate Core(streamId: nat, log: seq<Datagram>, ds: seq<Delivery>, r: Receiver) {
    var newest := Newest(log, ds);
    && (r.initialized <==> newest >= 0)
    && (newest >= 0 ==> r.expectedPacketSeq == log[newest].packetNo + 1 && r.expectedMsgSeq == End(log[newest]))
    && r.handedOn == FreshMessages(streamId, log, ds)
    && r.gapLog == GapsOf(log, ds)
    && r.state == StateAfter(log, ds)
  }

  function Bumped(count: nat, bump: bool): nat {
    if bump then Wrap64(count + 1) else count
  }

  lemma CountsFollow(streamId: nat, log: seq<Datagram>, ds: seq<Delivery>, d: Delivery, s: Stats, s': Stats)
    requires CountsOk(streamId, log, ds, s)
    requires s'.packets == Bumped(s.packets, IsOf(log, ds + [d], |ds|, OfStream))
    requires s'.heartbeats == Bumped(s.heartbeats, IsOf(log, ds + [d], |ds|, Beats))
    requires s'.duplicates == Bumped(s.duplicates, IsOf(log, ds + [d], |ds|, Repeated))
    requires s'.errors == Bumped(s.errors, IsOf(log, ds + [d], |ds|, Unreadable))
    requires s'.bytes == Wrap64(s.bytes + BytesOf(streamId, log, d))
    ensures CountsOk(streamId, log, ds + [d], s')
  {
    hide Wrap64, IsOf, Count, Bytes, BytesOf;
    LastBytes(streamId, log, ds, d);
    WrapAdds(Bytes(streamId, log, ds), BytesOf(streamId, log, d));
    LastCount(log, ds, d, OfStream);
    LastCount(log, ds, d, Beats);
    LastCount(log, ds, d, Repeated);
    LastCount(log, ds, d, Unreadable);
    WrapAdds(Count(log, ds, OfStream), 1);
    WrapAdds(Count(log, ds, Beats), 1);
    WrapAdds(Count(log, ds, Repeated), 1);
    WrapAdds(Count(log, ds, Unreadable), 1);
  }

  // The kinds of a delivery that comes last.
  lemma KindsOf(log: seq<Datagram>, ds: seq<Delivery>, d: Delivery)
    ensures var all, n := ds + [d], |ds|;
      && (IsOf(log, all, n, OfStream) <==> d.Ours?)
      && (IsOf(log, all, n, Beats) <==> d.Ours? && !IsData(log, d))
      && (IsOf(log, all, n, Repeated) <==> IsData(log, d) && !IsFresh(log, all, n))
      && (IsOf(log, all, n, Unreadable) <==> d.Other? && DecodePacket(Cut(d.datagram)).Err?)
  {
    hide IsFresh, DecodePacket, Cut;
  }

  lemma BytesWrap(streamId: nat, log: seq<Datagram>, ds: seq<Delivery>, s: Stats)
    requires CountsOk(streamId, log, ds, s)
    ensures Wrap64(s.bytes) == s.bytes
  {
  }

  lemma OtherFollows(filter: nat, streamId: nat, log: seq<Datagram>, ds: seq<Delivery>, d: Delivery, r: Receiver)
    requires DeliveryOk(filter, log, d) && !d.Ours? && Follows(streamId, log, ds, r)
    ensures Follows(streamId, log, ds + [d], Step(filter, r, EventOf(streamId, log, d)))
  {
    hide Wrap64, DecodePacket, Receive, Noise, CountsOk, Newest, FreshMessages, GapsOf, StateAfter, IsFresh, Skips, IsOf;
    LastFresh(streamId, log, ds, d);
    LastState(log, ds, d);
    KindsOf(log, ds, d);
    BytesWrap(streamId, log, ds, r.stats);
    if d.Other? {
      NoiseIsIgnored(filter, r, d.datagram);
    }
    CountsFollow(streamId, log, ds, d, r.stats, Step(filter, r, EventOf(streamId, log, d)).stats);
  }

  lemma CoreWithStats(streamId: nat, log: seq<Datagram>, ds: seq<Delivery>, r: Receiver, r': Receiver)
    requires Core(streamId, log, ds, r) && r' == r.(stats := r'.stats)
    ensures Core(streamId, log, ds, r')
  {
    hide Newest, FreshMessages, GapsOf, StateAfter;
  }

  lemma BeatFollows(streamId: nat, log: seq<Datagram>, ds: seq<Delivery>, r: Receiver, i: nat)
    requires i < |log| && !log[i].Data? && Core(streamId, log, ds, r)
    ensures Core(streamId, log, ds + [Ours(i)], r.(state := Woken(r.state)))
  {
    hide Newest, FreshMessages, GapsOf, StateAfter, IsFresh, Skips;
    LastFresh(streamId, log, ds, Ours(i));
    LastState(log, ds, Ours(i));
  }

  // What accepting does to the counters other than those of messages and gaps.
  lemma AcceptBumps(filter: nat, r: Receiver, p: Packet)
    requires filter == 0 || p.header.streamId == filter
    ensures var s, s' := r.stats, Accept(filter, r, p).stats;
      var late := p.header.msgCount != 0 && p.header.packetSeq < Started(r, p.header).expectedPacketSeq;
      && s'.packets == Wrap64(s.packets + 1)
      && s'.heartbeats == Bumped(s.heartbeats, p.header.msgCount == 0)
      && s'.duplicates == Bumped(s.duplicates, late)
      && s'.errors == s.errors && s'.bytes == s.bytes
  {
    hide Wrap64, Known, Sub64, Tally;
  }

  // What accepting does to everything else.
  lemma AcceptLeaves(filter: nat, r: Receiver, p: Packet)
    requires filter == 0 || p.header.streamId == filter
    ensures var started := Started(r, p.header);
      var r', expected :=
        Accept(filter, r, p),
        if p.header.msgCount == 0 then r.(state := Woken(r.state))
        else if p.header.packetSeq < started.expectedPacketSeq then started
        else HandedOn(Caught(started, p.header), p);
      r' == expected.(stats := r'.stats)
  {
    hide Wrap64, Known, Sub64, Tally;
  }

  lemma OursFollows(filter: nat, streamId: nat, log: seq<Datagram>, ds: seq<Delivery>, i: nat, r: Receiver)
    requires streamId < U32 && LogOk(log) && NoWrap(log) && (filter == 0 || filter == streamId) && i < |log|
    requires Follows(streamId, log, ds, r)
    ensures Follows(streamId, log, ds + [Ours(i)], Step(filter, r, EventOf(streamId, log, Ours(i))))
  {
    hide LogOk, NoWrap, Wrap64, Known, NumberFrom, RawOf, AllMsgs, Newest, FreshMessages, GapsOf, StateAfter, IsFresh,
         Skips, Receive, Accept, HandedOn, Caught, Wire, CountsOk, Resume, IsOf, Core, EncodeMessages;
    var d, p, wire := Ours(i), Arrived(streamId, log[i]), Wire(streamId, log[i]);
    var counted := Counted(r, |wire|);
    var r' := Accept(filter, counted, p);
    ReceiveIsAccept(filter, streamId, log, r, i);
    NumbersOf(log, i);
    CoreWithStats(streamId, log, ds, r, counted);
    AcceptLeaves(filter, counted, p);
    AcceptBumps(filter, counted, p);
    KindsOf(log, ds, d);
    if log[i].Data? {
      DataFollows(streamId, log, ds, counted, i);
      CoreWithStats(streamId, log, ds + [d],
        if p.header.packetSeq < Started(counted, p.header).expectedPacketSeq then Started(counted, p.header)
        else HandedOn(Caught(Started(counted, p.header), p.header), p), r');
    } else {
      BeatFollows(streamId, log, ds, counted, i);
      CoreWithStats(streamId, log, ds + [d], counted.(state := Woken(counted.state)), r');
    }
    CountsFollow(streamId, log, ds, d, r.stats, r'.stats);
  }

  // For every run of the sender and every delivery: the consumer gets exactly the messages of the
  // data packets that are newer than all before them; each of these that does not follow on records
  // the gap in between; and state and counters say what was delivered.
  lemma {:induction false} DeliveryIsExact(filter: nat, streamId: nat, log: seq<Datagram>, ds: seq<Delivery>)
    requires streamId < U32 && LogOk(log) && NoWrap(log) && (filter == 0 || filter == streamId)
    requires DeliveriesOk(filter, log, ds)
    ensures Follows(streamId, log, ds, Observe(filter, EventsOf(streamId, log, ds)))
  {
    hide LogOk, NoWrap, Follows, Step, EventOf, Noise;
    if ds == [] {
      NothingFollows(streamId, log);
    } else {
      var n := |ds| - 1;
      var earlier, d := ds[..n], ds[n];
      DeliveryIsExact(filter, streamId, log, earlier);
      assert ds == earlier + [d] && DeliveryOk(filter, log, d);
      var events := EventsOf(streamId, log, ds);
      assert events[..|events| - 1] == EventsOf(streamId, log, earlier);
      NextFollows(filter, streamId, log, earlier, d, Observe(filter, EventsOf(streamId, log, earlier)));
    }
  }

  lemma NextFollows(filter: nat, streamId: nat, log: seq<Datagram>, ds: seq<Delivery>, d: Delivery, r: Receiver)
    requires streamId < U32 && LogOk(log) && NoWrap(log) && (filter == 0 || filter == streamId)
    requires DeliveryOk(filter, log, d) && Follows(streamId, log, ds, r)
    ensures Follows(streamId, log, ds + [d], Step(filter, r, EventOf(streamId, log, d)))
  {
    hide LogOk, NoWrap, Follows, Step, EventOf;
    if d.Ours? {
      OursFollows(filter, streamId, log, ds, d.i, r);
    } else {
      OtherFollows(filter, streamId, log, ds, d, r);
    }
  }

  lemma NothingFollows(streamId: nat, log: seq<Datagram>)
    ensures Follows(streamId, log, [], NEW)
  {
  }
}
