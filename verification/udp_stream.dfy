// Sender, network and receiver together: message accounting is exact whatever the network
// loses, repeats or reorders.
module UdpStream {
  import opened UdpWire
  import opened UdpProtocol
  import opened UdpSender
  import opened UdpReceiver

  // What happens to the receiver: a datagram arrives, the stream is silent, gaps are cleared.
  datatype Event = Arrives(datagram: seq<byte>) | Silence | Recovery

  function Step(filter: nat, r: Receiver, e: Event): Receiver {
    match e
    case Arrives(datagram) => Receive(filter, r, datagram)
    case Silence => Silenced(r)
    case Recovery => Recovered(r)
  }

  function Observe(filter: nat, events: seq<Event>): Receiver {
    if events == [] then NEW else Step(filter, Observe(filter, events[..|events| - 1]), events[|events| - 1])
  }

  // What the socket's buffer holds of a datagram.
  function Cut(datagram: seq<byte>): seq<byte> {
    if |datagram| > MAX_MTU then datagram[..MAX_MTU] else datagram
  }

  // A datagram that does not parse, or is of a stream the receiver does not listen to.
  predicate Noise(filter: nat, datagram: seq<byte>) {
    match DecodePacket(Cut(datagram))
    case Err(_) => true
    case Ok(p) => filter != 0 && p.header.streamId != filter
  }

  // The network delivers what was sent, as often and in any order as it likes, with any noise.
  ghost predicate FromNetwork(filter: nat, events: seq<Event>, sent: seq<seq<byte>>) {
    forall k :: 0 <= k < |events| && events[k].Arrives? ==> events[k].datagram in sent || Noise(filter, events[k].datagram)
  }

  // ---------- other streams ----------

  // Noise moves nothing but the byte counter, and the error counter if it does not parse.
  lemma NoiseIsIgnored(filter: nat, r: Receiver, datagram: seq<byte>)
    requires Noise(filter, datagram)
    ensures var data := Cut(datagram);
      Receive(filter, r, datagram) == r.(stats := r.stats.(
        bytes := Wrap64(r.stats.bytes + |data|),
        errors := if DecodePacket(data).Err? then Wrap64(r.stats.errors + 1) else r.stats.errors))
  {
    hide Wrap64, DecodePacket;
  }

  // One of the nine type codes.
  predicate HasKnownType(m: Message) {
    m.raw.code in {1, 2, 3, 16, 17, 18, 32, 48, 64}
  }

  function CountKnown(ms: seq<Message>): nat {
    if ms == [] then 0 else CountKnown(ms[..|ms| - 1]) + if HasKnownType(ms[|ms| - 1]) then 1 else 0
  }

  ghost predicate ComesFrom(r: Received, ms: seq<Message>) {
    exists m :: m in ms && HasKnownType(m) && r.msgType.Code() == m.raw.code && r.payload == m.raw.payload && r.seqNo == m.seqNo
  }

  // Of a packet's messages exactly those of a known type are handed on, as they are.
  lemma {:induction false} KnownAreKnown(ms: seq<Message>, streamId: nat)
    ensures |Known(ms, streamId)| == CountKnown(ms)
    ensures forall r :: r in Known(ms, streamId) ==> ComesFrom(r, ms)
  {
    if ms != [] {
      var n := |ms| - 1;
      var earlier, m := Known(ms[..n], streamId), ms[n];
      KnownAreKnown(ms[..n], streamId);
      TypeCodesAreFixed(m.raw.code);
      TypeCodesRoundTrip(Heartbeat, m.raw.code);
      hide TypeOfCode, MessageType.Code, HasKnownType;
      assert ms == ms[..n] + [m];
      forall r | r in earlier
        ensures ComesFrom(r, ms)
      {
        FromMore(r, ms[..n], m);
      }
      assert HasKnownType(m) <==> TypeOfCode(m.raw.code).Some?;
    }
  }

  lemma FromMore(r: Received, ms: seq<Message>, m: Message)
    requires ComesFrom(r, ms)
    ensures ComesFrom(r, ms + [m])
  {
    hide HasKnownType;
    var from :| from in ms && HasKnownType(from) && r.msgType.Code() == from.raw.code && r.payload == from.raw.payload
      && r.seqNo == from.seqNo;
    assert from in ms + [m];
  }

  ghost predicate OfStream(handed: seq<Received>, streamId: nat) {
    forall k :: 0 <= k < |handed| ==> handed[k].streamId == streamId
  }

  lemma {:induction false} KnownStream(ms: seq<Message>, streamId: nat)
    ensures OfStream(Known(ms, streamId), streamId)
  {
    if ms != [] {
      KnownStream(ms[..|ms| - 1], streamId);
    }
  }

  // A receiver that listens to one stream never hands on a message of another, whatever arrives.
  lemma {:induction false} OnlyOwnStream(filter: nat, events: seq<Event>)
    requires filter != 0
    ensures OfStream(Observe(filter, events).handedOn, filter)
  {
    hide Wrap64, DecodePacket, Accept;
    if events != [] {
      var n := |events| - 1;
      OnlyOwnStream(filter, events[..n]);
      if events[n].Arrives? {
        var before, data := Observe(filter, events[..n]), Cut(events[n].datagram);
        var decoded := DecodePacket(data);
        if decoded.Ok? {
          AcceptHandsOn(filter, before.(stats := before.stats.(bytes := Wrap64(before.stats.bytes + |data|))), decoded.value);
          KnownStream(decoded.value.messages, decoded.value.header.streamId);
        }
      }
    }
  }

  lemma AcceptHandsOn(filter: nat, r: Receiver, p: Packet)
    ensures var handed := Accept(filter, r, p).handedOn;
      handed == r.handedOn
      || (handed == r.handedOn + Known(p.messages, p.header.streamId) && (filter == 0 || p.header.streamId == filter))
  {
    hide Wrap64, Known, Sub64, Tally;
  }

  // ---------- counters, for any datagrams at all ----------

  function TotalSize(gaps: seq<Gap>): nat {
    if gaps == [] then 0 else TotalSize(gaps[..|gaps| - 1]) + gaps[|gaps| - 1].size
  }

  lemma TotalSizeAppend(gaps: seq<Gap>, g: Gap)
    ensures TotalSize(gaps + [g]) == TotalSize(gaps) + g.size
  {
    assert (gaps + [g])[..|gaps|] == gaps;
  }

  // The gap counters count the gaps ever recorded and their sizes; the kept gaps are the most
  // recent ones.
  ghost predicate CountersOk(r: Receiver) {
    && r.stats.gaps == Wrap64(|r.gapLog|)
    && r.stats.gapMessages == Wrap64(TotalSize(r.gapLog))
    && r.stats.messages == Wrap64(|r.handedOn|)
    && |r.gaps| <= GAPS_KEPT && |r.gaps| <= |r.gapLog|
    && r.gaps == r.gapLog[|r.gapLog| - |r.gaps|..]
  }

  lemma CaughtCounts(r: Receiver, h: PacketHeader)
    requires CountersOk(r)
    ensures CountersOk(Caught(r, h))
  {
    hide Wrap64, Sub64, TotalSize, LastGaps;
    if h.packetSeq > r.expectedPacketSeq {
      var g := Gap(r.expectedMsgSeq, h.firstMsgSeq, Sub64(h.firstMsgSeq, r.expectedMsgSeq));
      TotalSizeAppend(r.gapLog, g);
      WrapAdds(|r.gapLog|, 1);
      WrapAdds(TotalSize(r.gapLog), g.size);
      RecentGaps(r.gaps, r.gapLog, g);
    }
  }

  // The most recent gaps, after one more.
  lemma RecentGaps(gaps: seq<Gap>, gapLog: seq<Gap>, g: Gap)
    requires |gaps| <= GAPS_KEPT && |gaps| <= |gapLog| && gaps == gapLog[|gapLog| - |gaps|..]
    ensures var kept, all := LastGaps(gaps + [g]), gapLog + [g];
      |kept| <= GAPS_KEPT && |kept| <= |all| && kept == all[|all| - |kept|..]
  {
    assert gaps + [g] == (gapLog + [g])[|gapLog| - |gaps|..];
  }

  lemma HandedOnCounts(r: Receiver, p: Packet)
    requires CountersOk(r)
    ensures CountersOk(HandedOn(r, p))
  {
    hide Wrap64, TotalSize, Known;
    WrapAdds(|r.handedOn|, |Known(p.messages, p.header.streamId)|);
  }

  lemma AcceptCounts(filter: nat, r: Receiver, p: Packet)
    requires CountersOk(r)
    ensures CountersOk(Accept(filter, r, p))
  {
    hide Wrap64, TotalSize, HandedOn, Caught;
    var seen := r.(stats := r.stats.(packets := Wrap64(r.stats.packets + 1)));
    var started := Started(seen, p.header);
    CaughtCounts(started, p.header);
    HandedOnCounts(Caught(started, p.header), p);
  }

  lemma {:induction false} CountersCount(filter: nat, events: seq<Event>)
    ensures CountersOk(Observe(filter, events))
  {
    hide Wrap64, TotalSize, Accept, DecodePacket;
    if events == [] {
      NothingCounted();
    } else {
      var n := |events| - 1;
      CountersCount(filter, events[..n]);
      var before := Observe(filter, events[..n]);
      match events[n]
      case Silence =>
      case Recovery =>
      case Arrives(datagram) =>
        var data := if |datagram| > MAX_MTU then datagram[..MAX_MTU] else datagram;
        var counted := before.(stats := before.stats.(bytes := Wrap64(before.stats.bytes + |data|)));
        var decoded := DecodePacket(data);
        if decoded.Ok? {
          AcceptCounts(filter, counted, decoded.value);
        }
    }
  }

  // How many gaps had been recorded when they were last cleared.
  function GapsCleared(filter: nat, events: seq<Event>): nat {
    if events == [] then 0
    else if events[|events| - 1].Recovery? then |Observe(filter, events[..|events| - 1]).gapLog|
    else GapsCleared(filter, events[..|events| - 1])
  }

  // The kept gaps are those since the last clearing, the hundred most recent ones if there are
  // more.
  ghost predicate KeepsGaps(r: Receiver, cleared: nat) {
    && cleared <= |r.gapLog| && |r.gaps| == (if |r.gapLog| - cleared > 100 then 100 else |r.gapLog| - cleared)
    && r.gaps == r.gapLog[|r.gapLog| - |r.gaps|..]
  }

  lemma KeepOneMore(r: Receiver, g: Gap, cleared: nat)
    requires KeepsGaps(r, cleared)
    ensures KeepsGaps(WithGap(r, g), cleared)
  {
    hide Wrap64;
    assert r.gaps + [g] == (r.gapLog + [g])[|r.gapLog| - |r.gaps|..];
  }

  lemma AcceptKeepsGaps(filter: nat, r: Receiver, p: Packet, cleared: nat)
    requires KeepsGaps(r, cleared)
    ensures KeepsGaps(Accept(filter, r, p), cleared)
  {
    hide Wrap64, Sub64, Known, Tally, WithGap, KeepsGaps;
    var h := p.header;
    var seen := r.(stats := r.stats.(packets := Wrap64(r.stats.packets + 1)));
    var started := Started(seen, h);
    SameGaps(r, started, cleared);
    if h.packetSeq > started.expectedPacketSeq {
      KeepOneMore(started, Gap(started.expectedMsgSeq, h.firstMsgSeq, Sub64(h.firstMsgSeq, started.expectedMsgSeq)), cleared);
      SameGaps(Caught(started, h), HandedOn(Caught(started, h), p), cleared);
    }
    SameGaps(started, HandedOn(started, p), cleared);
    if Accept(filter, r, p).gapLog == r.gapLog && Accept(filter, r, p).gaps == r.gaps {
      SameGaps(r, Accept(filter, r, p), cleared);
    }
  }

  lemma SameGaps(r: Receiver, r': Receiver, cleared: nat)
    requires KeepsGaps(r, cleared) && r'.gaps == r.gaps && r'.gapLog == r.gapLog
    ensures KeepsGaps(r', cleared)
  {
  }

  lemma {:induction false} GapsAreKept(filter: nat, events: seq<Event>)
    ensures KeepsGaps(Observe(filter, events), GapsCleared(filter, events))
  {
    hide Wrap64, Accept, DecodePacket;
    if events != [] {
      var n := |events| - 1;
      GapsAreKept(filter, events[..n]);
      var before := Observe(filter, events[..n]);
      if events[n].Arrives? {
        var data := Cut(events[n].datagram);
        var counted := before.(stats := before.stats.(bytes := Wrap64(before.stats.bytes + |data|)));
        var decoded := DecodePacket(data);
        if decoded.Ok? {
          AcceptKeepsGaps(filter, counted, decoded.value, GapsCleared(filter, events[..n]));
        }
      }
    }
  }

  lemma NothingCounted()
    ensures CountersOk(NEW)
  {
  }

  // ---------- the state of the stream, for any datagrams at all ----------

  // How many gaps had been recorded when the stream was last silent or last recovered.
  function GapsSettled(filter: nat, events: seq<Event>): nat {
    if events == [] then 0
    else if events[|events| - 1].Arrives? then GapsSettled(filter, events[..|events| - 1])
    else |Observe(filter, events[..|events| - 1]).gapLog|
  }

  ghost predicate StateOk(r: Receiver, settled: nat) {
    && settled <= |r.gapLog|
    && (r.state.Degraded? <==> settled < |r.gapLog|)
    && (r.state.Degraded? ==> r.gaps != [])
    && (r.state.Down? ==> r.initialized)
    && (r.state.Initializing? ==> !r.initialized)
    && (!r.initialized ==> r.gapLog == [] && r.handedOn == [])
  }

  lemma AcceptKeepsState(filter: nat, r: Receiver, p: Packet, settled: nat)
    requires StateOk(r, settled)
    ensures StateOk(Accept(filter, r, p), settled)
  {
    hide Wrap64, Sub64, Known, Tally;
  }

  // A stream is degraded exactly when a gap was recorded since it was last silent or recovered:
  // a silence in between hides a gap that is still open. A stream that is down or degraded has
  // started, and until it starts nothing is handed on and no gap recorded.
  lemma {:induction false} StatesOverRuns(filter: nat, events: seq<Event>)
    ensures StateOk(Observe(filter, events), GapsSettled(filter, events))
  {
    hide Wrap64, Accept, DecodePacket;
    if events != [] {
      var n := |events| - 1;
      StatesOverRuns(filter, events[..n]);
      var before := Observe(filter, events[..n]);
      if events[n].Arrives? {
        var datagram := events[n].datagram;
        var data := if |datagram| > MAX_MTU then datagram[..MAX_MTU] else datagram;
        var counted := before.(stats := before.stats.(bytes := Wrap64(before.stats.bytes + |data|)));
        var decoded := DecodePacket(data);
        if decoded.Ok? {
          AcceptKeepsState(filter, counted, decoded.value, GapsSettled(filter, events[..n]));
        }
      }
    }
  }

  // ---------- tiling ----------

  ghost predicate IsHanded(handed: seq<Received>, n: int) {
    exists k :: 0 <= k < |handed| && handed[k].seqNo == n
  }

  ghost predicate InGap(gaps: seq<Gap>, n: int) {
    exists g :: 0 <= g < |gaps| && gaps[g].expectedSeq <= n < gaps[g].receivedSeq
  }

  // Delivered numbers and gaps tile [lo, hi): delivered numbers strictly increase, gaps follow
  // one another, each number is delivered or in a gap but not both, and the sizes add up. The
  // subtraction that gave a gap its size did not underflow.
  ghost predicate Tiles(handed: seq<Received>, gaps: seq<Gap>, lo: nat, hi: nat) {
    && lo <= hi
    && (forall k :: 0 <= k < |handed| ==> lo <= handed[k].seqNo < hi)
    && (forall k, l :: 0 <= k < l < |handed| ==> handed[k].seqNo < handed[l].seqNo)
    && (forall g :: 0 <= g < |gaps| ==>
        lo <= gaps[g].expectedSeq <= gaps[g].receivedSeq <= hi
        && gaps[g].size == gaps[g].receivedSeq - gaps[g].expectedSeq)
    && (forall g, h :: 0 <= g < h < |gaps| ==> gaps[g].receivedSeq <= gaps[h].expectedSeq)
    && (forall n :: lo <= n < hi ==> (IsHanded(handed, n) <==> !InGap(gaps, n)))
    && |handed| + TotalSize(gaps) == hi - lo
  }

  lemma GapTiles(handed: seq<Received>, gaps: seq<Gap>, lo: nat, hi: nat, hi': nat)
    requires Tiles(handed, gaps, lo, hi) && hi <= hi'
    ensures Tiles(handed, gaps + [Gap(hi, hi', hi' - hi)], lo, hi')
  {
    var g := Gap(hi, hi', hi' - hi);
    TotalSizeAppend(gaps, g);
    hide TotalSize;
    var gaps' := gaps + [g];
    forall n | lo <= n < hi'
      ensures IsHanded(handed, n) <==> !InGap(gaps', n)
    {
      if n >= hi {
        assert gaps'[|gaps|] == g;
      } else if InGap(gaps, n) {
        var i :| 0 <= i < |gaps| && gaps[i].expectedSeq <= n < gaps[i].receivedSeq;
        assert gaps'[i] == gaps[i];
      }
    }
  }

  ghost predicate Consecutive(batch: seq<Received>, first: nat) {
    forall k :: 0 <= k < |batch| ==> batch[k].seqNo == first + k
  }

  lemma BatchTiles(handed: seq<Received>, gaps: seq<Gap>, lo: nat, hi: nat, batch: seq<Received>)
    requires Tiles(handed, gaps, lo, hi) && Consecutive(batch, hi)
    ensures Tiles(handed + batch, gaps, lo, hi + |batch|)
  {
    hide TotalSize;
    var handed' := handed + batch;
    forall n | lo <= n < hi + |batch|
      ensures IsHanded(handed', n) <==> !InGap(gaps, n)
    {
      if n >= hi {
        assert handed'[|handed| + (n - hi)].seqNo == n;
      } else if IsHanded(handed, n) {
        var k :| 0 <= k < |handed| && handed[k].seqNo == n;
        assert handed'[k] == handed[k];
      }
    }
  }

  // ---------- the sender's numbers ----------

  function End(d: Datagram): nat
    requires d.Data?
  {
    d.first + |d.msgs|
  }

  lemma NumbersOf(log: seq<Datagram>, i: nat)
    requires LogOk(log) && i < |log|
    ensures log[i].first == |AllMsgs(log[..i])|
    ensures log[i].packetNo == (if log[i].Data? then Resume(log[..i]) else i)
    ensures log[i].Data? ==> log[i].msgs != []
  {
    DatagramAt(log, i);
  }

  lemma {:induction false} ResumeBounds(log: seq<Datagram>, j: nat, i: nat)
    requires LogOk(log) && j < i <= |log| && log[j].Data?
    ensures j + 1 <= Resume(log[..i]) <= i
    ensures End(log[j]) <= |AllMsgs(log[..i])|
    ensures Resume(log[..i]) == j + 1 ==> |AllMsgs(log[..i])| == End(log[j])
  {
    hide LogOk;
    NumbersOf(log, j);
    PrefixStep(log, i - 1);
    if i > j + 1 {
      ResumeBounds(log, j, i - 1);
    }
  }

  lemma PrefixStep(log: seq<Datagram>, i: nat)
    requires i < |log|
    ensures Resume(log[..i + 1]) == if log[i].Data? then i + 1 else Resume(log[..i])
    ensures AllMsgs(log[..i + 1]) == AllMsgs(log[..i]) + if log[i].Data? then log[i].msgs else []
  {
    assert log[..i + 1][..i] == log[..i];
    assert AllMsgs(log[..i]) + [] == AllMsgs(log[..i]);
  }

  lemma {:induction false} ResumeIsEarlier(log: seq<Datagram>)
    ensures Resume(log) <= |log|
  {
    if log != [] {
      ResumeIsEarlier(log[..|log| - 1]);
    }
  }

  // A data packet with a larger number was sent later; with the next number, it carries on
  // where the other ended.
  lemma LaterNumbers(log: seq<Datagram>, j: nat, i: nat)
    requires LogOk(log) && i < |log| && j < |log| && log[i].Data? && log[j].Data?
    requires log[i].packetNo > log[j].packetNo
    ensures j < i && End(log[j]) <= log[i].first
    ensures log[i].packetNo == log[j].packetNo + 1 ==> log[i].first == End(log[j])
  {
    hide LogOk, Resume, AllMsgs;
    NumbersOf(log, i);
    NumbersOf(log, j);
    ResumeIsEarlier(log[..i]);
    ResumeIsEarlier(log[..j]);
    if i < j {
      ResumeBounds(log, i, j);
    }
    assert j < i;
    ResumeBounds(log, j, i);
  }

  lemma {:induction false} ResumeIsAtBeat(log: seq<Datagram>)
    ensures Resume(log) < |log| <==> log != [] && log[|log| - 1].Beat?
    ensures Resume(log) < |log| ==> log[Resume(log)].Beat?
  {
    ResumeIsEarlier(log);
    if log != [] && log[|log| - 1].Beat? {
      ResumeIsEarlier(log[..|log| - 1]);
      ResumeIsAtBeat(log[..|log| - 1]);
    }
  }

  // Two datagrams share a packet number exactly when a data packet follows a heartbeat: its
  // number was fixed before the heartbeat was numbered.
  lemma HeartbeatNumberReused(log: seq<Datagram>, i: nat)
    requires LogOk(log) && i < |log| && log[i].Data?
    ensures (exists b :: 0 <= b < i && log[b].packetNo == log[i].packetNo) <==> i > 0 && log[i - 1].Beat?
  {
    hide LogOk, Resume, AllMsgs;
    NumbersOf(log, i);
    ResumeIsEarlier(log[..i]);
    ResumeIsAtBeat(log[..i]);
    if i > 0 && log[i - 1].Beat? {
      NumbersOf(log, log[i].packetNo);
    }
    forall b | 0 <= b < i && log[b].packetNo == log[i].packetNo
      ensures i > 0 && log[i - 1].Beat?
    {
      NumbersOf(log, b);
      ResumeIsEarlier(log[..b]);
    }
  }

  lemma {:induction false} AllMsgsGrow(log: seq<Datagram>, i: nat)
    requires i <= |log|
    ensures AllMsgs(log[..i]) <= AllMsgs(log)
  {
    if i < |log| {
      assert log[..|log| - 1][..i] == log[..i];
      AllMsgsGrow(log[..|log| - 1], i);
    } else {
      assert log[..i] == log;
    }
  }

  // The numbers of one data packet, none of which wraps.
  lemma DatagramNumbers(log: seq<Datagram>, i: nat)
    requires LogOk(log) && i < |log|
    ensures log[i].packetNo <= i && log[i].first <= |AllMsgs(log)|
    ensures log[i].Data? ==> End(log[i]) <= |AllMsgs(log)|
    ensures log[i].Data? ==> forall k :: 0 <= k < |log[i].msgs| ==> AllMsgs(log)[log[i].first + k] == log[i].msgs[k]
  {
    hide LogOk, Resume, AllMsgs;
    NumbersOf(log, i);
    ResumeIsEarlier(log[..i]);
    AllMsgsGrow(log, i);
    AllMsgsGrow(log, i + 1);
    PrefixStep(log, i);
    if log[i].Data? {
      forall k | 0 <= k < |log[i].msgs|
        ensures AllMsgs(log)[log[i].first + k] == log[i].msgs[k]
      {
        assert AllMsgs(log[..i + 1])[log[i].first + k] == log[i].msgs[k];
      }
    }
  }

  // ---------- what the receiver makes of one packet ----------

  lemma {:induction false} KnownOf(msgs: seq<OutMsg>, first: nat, streamId: nat)
    ensures var known := Known(NumberFrom(RawOf(msgs), first), streamId);
      && |known| == |msgs|
      && forall k :: 0 <= k < |msgs| ==>
        known[k] == Received(msgs[k].msgType, msgs[k].payload, Wrap64(first + k), streamId)
  {
    hide Wrap64, NumberFrom, RawOf, TypeOfCode;
    if msgs != [] {
      var n := |msgs| - 1;
      KnownOf(msgs[..n], first, streamId);
      var ms := NumberFrom(RawOf(msgs), first);
      assert ms[..n] == NumberFrom(RawOf(msgs[..n]), first);
      assert ms[n] == Message(msgs[n].Raw(), Wrap64(first + n));
      TypeCodesRoundTrip(msgs[n].msgType, 0);
    }
  }

  // Every message handed on is the sender's message of that number.
  ghost predicate Authentic(handed: seq<Received>, streamId: nat, all: seq<OutMsg>) {
    forall k :: 0 <= k < |handed| ==>
      && handed[k].seqNo < |all|
      && handed[k] == Received(all[handed[k].seqNo].msgType, all[handed[k].seqNo].payload, handed[k].seqNo, streamId)
  }

  // Where the receiver stands: `last` is the data packet it accepted last.
  ghost predicate Standing(streamId: nat, log: seq<Datagram>, r: Receiver, last: nat) {
    if !r.initialized then r.handedOn == [] && r.gapLog == []
    else
      && last < |log| && log[last].Data?
      && r.expectedPacketSeq == log[last].packetNo + 1
      && r.expectedMsgSeq == End(log[last])
      && r.handedOn != []
      && Tiles(r.handedOn, r.gapLog, r.handedOn[0].seqNo, r.expectedMsgSeq)
      && Authentic(r.handedOn, streamId, AllMsgs(log))
  }

  // The numbers a sender's u64 counters hold.
  ghost predicate NoWrap(log: seq<Datagram>) {
    |log| < U64 && |AllMsgs(log)| < U64
  }

  // What arrives as the i-th datagram, parsed.
  function Arrived(streamId: nat, d: Datagram): Packet {
    Packet(PacketHeader(if d.Data? then |d.msgs| else 0, streamId, Wrap64(d.packetNo), Wrap64(d.first)),
           if d.Data? then NumberFrom(RawOf(d.msgs), d.first) else [])
  }

  lemma NumbersBelow(log: seq<Datagram>, i: nat)
    requires LogOk(log) && NoWrap(log) && i < |log|
    ensures log[i].packetNo + 1 < U64 && log[i].first < U64
    ensures log[i].Data? ==> End(log[i]) < U64
  {
    hide LogOk, AllMsgs;
    DatagramNumbers(log, i);
  }

  // None of the numbers of datagram i wraps.
  lemma NumbersFit(log: seq<Datagram>, i: nat)
    requires LogOk(log) && NoWrap(log) && i < |log|
    ensures Wrap64(log[i].packetNo) == log[i].packetNo && Wrap64(log[i].packetNo + 1) == log[i].packetNo + 1
    ensures Wrap64(log[i].first) == log[i].first
    ensures log[i].Data? ==> Wrap64(End(log[i])) == End(log[i])
  {
    hide LogOk, AllMsgs, Wrap64;
    NumbersBelow(log, i);
    WrapFits(log[i].packetNo);
    WrapFits(log[i].packetNo + 1);
    WrapFits(log[i].first);
    if log[i].Data? {
      WrapFits(End(log[i]));
    }
  }

  lemma MessageNumberFits(log: seq<Datagram>, i: nat, k: nat)
    requires LogOk(log) && NoWrap(log) && i < |log| && log[i].Data? && k < |log[i].msgs|
    ensures Wrap64(log[i].first + k) == log[i].first + k
  {
    hide LogOk, AllMsgs, Wrap64;
    NumbersBelow(log, i);
    WrapFits(log[i].first + k);
  }

  // The batch that packet i hands on.
  lemma BatchOf(streamId: nat, log: seq<Datagram>, i: nat)
    requires LogOk(log) && NoWrap(log) && i < |log| && log[i].Data?
    ensures var batch := Known(Arrived(streamId, log[i]).messages, streamId);
      && |batch| == |log[i].msgs| > 0 && Consecutive(batch, log[i].first) && Authentic(batch, streamId, AllMsgs(log))
  {
    hide LogOk, Known, NumberFrom, RawOf, AllMsgs, Wrap64, EncodeMessages, NoWrap, Resume;
    NumbersOf(log, i);
    DatagramNumbers(log, i);
    KnownOf(log[i].msgs, log[i].first, streamId);
    var batch := Known(Arrived(streamId, log[i]).messages, streamId);
    forall k | 0 <= k < |batch|
      ensures batch[k].seqNo == log[i].first + k
    {
      MessageNumberFits(log, i, k);
    }
  }

  // Handing on a batch whose numbers start where the tiling ends.
  lemma HandedOnTiles(handed: seq<Received>, gaps: seq<Gap>, lo: nat, hi: nat, batch: seq<Received>, streamId: nat, all: seq<OutMsg>)
    requires Tiles(handed, gaps, lo, hi) && Consecutive(batch, hi) && batch != []
    requires handed == [] ==> lo == hi
    requires handed != [] ==> lo == handed[0].seqNo
    requires Authentic(handed, streamId, all) && Authentic(batch, streamId, all)
    ensures Authentic(handed + batch, streamId, all)
    ensures Tiles(handed + batch, gaps, (handed + batch)[0].seqNo, hi + |batch|)
  {
    BatchTiles(handed, gaps, lo, hi, batch);
    hide Tiles;
    assert (handed + batch)[0] == if handed == [] then batch[0] else handed[0];
  }

  // Accepting data packet i when its number is the next one or a later one.
  lemma PassedOn(streamId: nat, log: seq<Datagram>, r: Receiver, last: nat, i: nat)
    requires LogOk(log) && NoWrap(log) && i < |log| && log[i].Data?
    requires r.initialized && Standing(streamId, log, r, last) && log[i].packetNo >= r.expectedPacketSeq
    ensures Standing(streamId, log, HandedOn(Caught(r, Arrived(streamId, log[i]).header), Arrived(streamId, log[i])), i)
  {
    hide LogOk, Known, NumberFrom, RawOf, AllMsgs, Wrap64, Sub64, Tiles, Resume, TotalSize, NoWrap, Authentic,
         LastGaps, Tally, Consecutive;
    var d, p := log[i], Arrived(streamId, log[i]);
    LaterNumbers(log, last, i);
    NumbersFit(log, i);
    BatchOf(streamId, log, i);
    var lo, batch := r.handedOn[0].seqNo, Known(p.messages, streamId);
    var gaps := r.gapLog;
    if d.packetNo > r.expectedPacketSeq {
      NumbersBelow(log, i);
      SubFits(d.first, r.expectedMsgSeq);
      GapTiles(r.handedOn, gaps, lo, r.expectedMsgSeq, d.first);
      gaps := gaps + [Gap(r.expectedMsgSeq, d.first, d.first - r.expectedMsgSeq)];
    }
    HandedOnTiles(r.handedOn, gaps, lo, d.first, batch, streamId, AllMsgs(log));
  }

  // The first data packet starts the accounting at its own first number.
  lemma FirstOn(streamId: nat, log: seq<Datagram>, r: Receiver, i: nat)
    requires LogOk(log) && NoWrap(log) && i < |log| && log[i].Data?
    requires !r.initialized && r.handedOn == [] && r.gapLog == []
    ensures var p := Arrived(streamId, log[i]);
      Standing(streamId, log, HandedOn(Caught(Started(r, p.header), p.header), p), i)
  {
    hide LogOk, Known, NumberFrom, RawOf, AllMsgs, Wrap64, Sub64, Tiles, Resume, TotalSize, NoWrap, LastGaps, Tally,
         Consecutive;
    var d, p := log[i], Arrived(streamId, log[i]);
    NumbersFit(log, i);
    BatchOf(streamId, log, i);
    NothingTiles(d.first);
    HandedOnTiles([], [], d.first, d.first, Known(p.messages, streamId), streamId, AllMsgs(log));
  }

  lemma NothingTiles(at: nat)
    ensures Tiles([], [], at, at)
  {
  }

  lemma AcceptStands(filter: nat, streamId: nat, log: seq<Datagram>, r: Receiver, last: nat, i: nat)
    returns (last': nat)
    requires LogOk(log) && NoWrap(log) && i < |log| && (filter == 0 || filter == streamId)
    requires Standing(streamId, log, r, last)
    ensures Standing(streamId, log, Accept(filter, r, Arrived(streamId, log[i])), last')
  {
    hide LogOk, Known, NumberFrom, RawOf, AllMsgs, Wrap64, Tiles, Resume, TotalSize, HandedOn, Caught, Authentic,
         EncodeMessages, NoWrap;
    var d, p := log[i], Arrived(streamId, log[i]);
    NumbersOf(log, i);
    NumbersFit(log, i);
    var seen := r.(stats := r.stats.(packets := Wrap64(r.stats.packets + 1)));
    last' := last;
    if d.Data? {
      if !r.initialized {
        last' := i;
        FirstOn(streamId, log, seen, i);
      } else if d.packetNo >= r.expectedPacketSeq {
        last' := i;
        PassedOn(streamId, log, seen, last, i);
      }
    }
  }

  function Counted(r: Receiver, bytes: nat): Receiver {
    r.(stats := r.stats.(bytes := Wrap64(r.stats.bytes + bytes)))
  }

  lemma CountedSame(r: Receiver, bytes: nat)
    ensures Counted(r, bytes) == r.(stats := Counted(r, bytes).stats)
  {
  }

  // Receiving datagram i is accepting what it was encoded from.
  lemma ReceiveIsAccept(filter: nat, streamId: nat, log: seq<Datagram>, r: Receiver, i: nat)
    requires streamId < U32 && LogOk(log) && i < |log|
    ensures var wire := Wire(streamId, log[i]);
      Receive(filter, r, wire) == Accept(filter, Counted(r, |wire|), Arrived(streamId, log[i]))
  {
    hide LogOk, NumberFrom, RawOf, Wrap64, Accept, Wire, DecodePacket;
    DatagramRoundTrip(streamId, log, i);
  }

  // Every event keeps the accounting.
  lemma EventStands(filter: nat, streamId: nat, log: seq<Datagram>, r: Receiver, last: nat, e: Event) returns (last': nat)
    requires streamId < U32 && LogOk(log) && NoWrap(log) && (filter == 0 || filter == streamId)
    requires Standing(streamId, log, r, last)
    requires e.Arrives? ==> e.datagram in Wires(streamId, log) || Noise(filter, e.datagram)
    ensures Standing(streamId, log, Step(filter, r, e), last')
  {
    hide LogOk, Arrived, AllMsgs, Wrap64, Tiles, TotalSize, Accept, Receive, Authentic, Wires, Wire, NoWrap, Noise, DecodePacket;
    last' := last;
    if e.Arrives? && Noise(filter, e.datagram) {
      NoiseIsIgnored(filter, r, e.datagram);
    } else if e.Arrives? {
      var sent := Wires(streamId, log);
      var i :| 0 <= i < |sent| && sent[i] == e.datagram;
      WiresLength(streamId, log);
      WiresAt(streamId, log, i);
      ReceiveIsAccept(filter, streamId, log, r, i);
      last' := AcceptStands(filter, streamId, log, Counted(r, |e.datagram|), last, i);
    }
  }

  lemma {:induction false} WiresLength(streamId: nat, log: seq<Datagram>)
    ensures |Wires(streamId, log)| == |log|
  {
    if log != [] {
      WiresAt(streamId, log, 0);
    }
  }

  // For every run of the sender and every network, with silences, recoveries and noise in between.
  lemma {:induction false} AccountingIsExact(filter: nat, streamId: nat, log: seq<Datagram>, events: seq<Event>) returns (last: nat)
    requires streamId < U32 && LogOk(log) && NoWrap(log) && (filter == 0 || filter == streamId)
    requires FromNetwork(filter, events, Wires(streamId, log))
    ensures Standing(streamId, log, Observe(filter, events), last)
  {
    hide LogOk, Tiles, Authentic, Wires, Step, NoWrap, Noise;
    if events == [] {
      last := 0;
    } else {
      var n := |events| - 1;
      last := AccountingIsExact(filter, streamId, log, events[..n]);
      last := EventStands(filter, streamId, log, Observe(filter, events[..n]), last, events[n]);
    }
  }

  // ---------- the well-behaved network ----------

  // The first n datagrams, each once and in order.
  function InOrder(streamId: nat, log: seq<Datagram>, n: nat): seq<Event>
    requires n <= |log|
  {
    if n == 0 then [] else InOrder(streamId, log, n - 1) + [Arrives(Wire(streamId, log[n - 1]))]
  }

  // Everything the first n datagrams carried was handed on, numbered from 0, and the only gaps
  // are empty ones.
  ghost predicate AllSoFar(streamId: nat, log: seq<Datagram>, r: Receiver, n: nat)
    requires n <= |log|
  {
    && (r.initialized <==> AllMsgs(log[..n]) != [])
    && (r.initialized ==> r.expectedMsgSeq == |AllMsgs(log[..n])| && r.expectedPacketSeq <= Resume(log[..n]))
    && |r.handedOn| == |AllMsgs(log[..n])|
    && (forall k :: 0 <= k < |r.handedOn| ==> r.handedOn[k].seqNo == k)
    && (forall g :: 0 <= g < |r.gapLog| ==> r.gapLog[g].size == 0)
  }

  lemma NextInOrder(filter: nat, streamId: nat, log: seq<Datagram>, r: Receiver, n: nat)
    requires LogOk(log) && NoWrap(log) && n < |log| && (filter == 0 || filter == streamId)
    requires AllSoFar(streamId, log, r, n)
    ensures AllSoFar(streamId, log, Accept(filter, r, Arrived(streamId, log[n])), n + 1)
  {
    hide LogOk, Known, NumberFrom, RawOf, AllMsgs, Wrap64, Sub64, Resume, TotalSize, NoWrap, LastGaps, Tally,
         Authentic, EncodeMessages;
    var d, p := log[n], Arrived(streamId, log[n]);
    NumbersOf(log, n);
    NumbersFit(log, n);
    NumbersBelow(log, n);
    PrefixStep(log, n);
    if d.Data? {
      ResumeIsEarlier(log[..n]);
      BatchOf(streamId, log, n);
      if r.initialized {
        SubFits(d.first, r.expectedMsgSeq);
      }
    }
  }

  lemma {:induction false} InOrderSoFar(filter: nat, streamId: nat, log: seq<Datagram>, n: nat)
    requires streamId < U32 && LogOk(log) && NoWrap(log) && (filter == 0 || filter == streamId) && n <= |log|
    ensures AllSoFar(streamId, log, Observe(filter, InOrder(streamId, log, n)), n)
  {
    hide LogOk, NoWrap, Wire, Arrived, Counted, Accept, Receive, AllSoFar;
    if n == 0 {
      NothingInOrder(streamId, log);
    } else {
      InOrderSoFar(filter, streamId, log, n - 1);
      var events, wire := InOrder(streamId, log, n), Wire(streamId, log[n - 1]);
      assert events[..|events| - 1] == InOrder(streamId, log, n - 1);
      var before := Observe(filter, InOrder(streamId, log, n - 1));
      ReceiveIsAccept(filter, streamId, log, before, n - 1);
      CountedSame(before, |wire|);
      SameSoFar(streamId, log, before, Counted(before, |wire|), n - 1);
      NextInOrder(filter, streamId, log, Counted(before, |wire|), n - 1);
    }
  }

  lemma {:induction false} InOrderIsFromNetwork(filter: nat, streamId: nat, log: seq<Datagram>, n: nat)
    requires n <= |log|
    ensures FromNetwork(filter, InOrder(streamId, log, n), Wires(streamId, log))
  {
    hide Wire, Wires, Noise;
    if n > 0 {
      InOrderIsFromNetwork(filter, streamId, log, n - 1);
      WiresAt(streamId, log, n - 1);
    }
  }

  // A network that delivers everything once and in order: every message is handed on, as it
  // was sent and with its number. Any gap that is recorded (after heartbeats) is empty.
  lemma InOrderLosesNothing(filter: nat, streamId: nat, log: seq<Datagram>)
    requires streamId < U32 && LogOk(log) && NoWrap(log) && (filter == 0 || filter == streamId)
    ensures var r := Observe(filter, InOrder(streamId, log, |log|)); var all := AllMsgs(log);
      && |r.handedOn| == |all|
      && (forall k :: 0 <= k < |all| ==> r.handedOn[k] == Received(all[k].msgType, all[k].payload, k, streamId))
      && (forall g :: 0 <= g < |r.gapLog| ==> r.gapLog[g].size == 0)
  {
    hide LogOk, NoWrap, InOrder, Observe, Wires, Tiles, AllMsgs;
    assert log[..|log|] == log;
    InOrderSoFar(filter, streamId, log, |log|);
    InOrderIsFromNetwork(filter, streamId, log, |log|);
    var last := AccountingIsExact(filter, streamId, log, InOrder(streamId, log, |log|));
  }

  lemma NothingInOrder(streamId: nat, log: seq<Datagram>)
    ensures AllSoFar(streamId, log, NEW, 0)
  {
  }

  lemma SameSoFar(streamId: nat, log: seq<Datagram>, r: Receiver, s: Receiver, n: nat)
    requires n <= |log| && AllSoFar(streamId, log, r, n) && s == r.(stats := s.stats)
    ensures AllSoFar(streamId, log, s, n)
  {
    hide AllMsgs, Resume;
  }
}
