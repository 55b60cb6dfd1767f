/** When a removed message was heard, and when it was delivered: both exactly. */
module Acknowledgements {
  import opened Text
  import opened Addresses
  import opened Frames
  import opened Mailboxes
  import opened Passes
  import opened Network
  import opened NetworkInvariant
  import opened NetworkTheorems

  // ---------- soundness when the two identities agree ----------

  /** What a step adds to the acknowledged messages is what the arriving acknowledgement names. */
  lemma NewlyAcked(cfg: Config, s: System, e: Event, a: Endpoint, m: Queued)
    requires Inv(cfg, s) && Separated(cfg) && a in s.peers
    requires a in Next(cfg, s, e).peers && m in Next(cfg, s, e).peers[a].acked && m !in s.peers[a].acked
    ensures m in s.peers[a].box.outgoing
    ensures Key(m.to) in s.peers && Heard(s.peers[Key(m.to)], a, m.seqNum)
  {
    assert Enabled(cfg, s, e) && e.ArriveEvent? && e.d.dst == a;
    var d, p := e.d, s.peers[a];
    var q, f := p.box.outgoing, ParseFrame(d.payload).value;
    var i := AckIndex(q, Bound(d.src), f.seqNum);
    assert m == q[i] && m in q;
    assert Faithful(cfg, p, m);
    assert LooselyEqual(m.to, Bound(d.src));
    ArrivalMeans(cfg, s, d);
  }

  lemma NextKeepsAcksSound(cfg: Config, s: System, e: Event)
    requires Inv(cfg, s) && Separated(cfg) && AcksSound(s)
    ensures AcksSound(Next(cfg, s, e))
  {
    var s' := Next(cfg, s, e);
    forall a, m | a in s'.peers && m in s'.peers[a].acked
      ensures Key(m.to) in s'.peers && Heard(s'.peers[Key(m.to)], a, m.seqNum)
    {
      NextKeepsInv(cfg, s, e);
      if m !in s.peers[a].acked {
        NewlyAcked(cfg, s, e, a, m);
      }
      NextGrows(cfg, s, e, Key(m.to));
    }
  }

  lemma {:induction false} RunsKeepAcksSound(cfg: Config, events: seq<Event>)
    requires Separated(cfg)
    ensures AcksSound(After(cfg, events))
  {
    if events != [] {
      var s := After(cfg, events[..|events| - 1]);
      RunInv(cfg, events[..|events| - 1]);
      RunsKeepAcksSound(cfg, events[..|events| - 1]);
      NextKeepsAcksSound(cfg, s, events[|events| - 1]);
    }
  }

  // ---------- delivery when at most one message is outstanding ----------

  /** Only the latest message to a destination is in the queue. */
  ghost predicate LatestOnly(p: Peer) {
    forall e :: e in p.box.outgoing ==> e.seqNum + 1 == |Sent(p, Key(e.to))|
  }

  lemma {:induction false} NoneOutstanding(q: seq<Queued>, to: Endpoint, e: Queued)
    requires Outstanding(q, to) == 0 && e in q
    ensures Key(e.to) != to
  {
    if e in q[..|q| - 1] {
      NoneOutstanding(q[..|q| - 1], to, e);
    }
  }

  lemma SendKeepsLatestOnly(cfg: Config, p: Peer, now: int, to: Address, message: Bytes)
    requires SenderOk(cfg, p) && LatestOnly(p) && MaySend(cfg, p, to, message)
    requires cfg.limit.AtMost? && cfg.limit.n <= 1
    ensures LatestOnly(PeerSend(p, now, to, message))
  {
    var p' := PeerSend(p, now, to, message);
    SendCounts(cfg, p, now, to, message, Key(to));
    forall e | e in p'.box.outgoing ensures e.seqNum + 1 == |Sent(p', Key(e.to))| {
      if e in p.box.outgoing {
        NoneOutstanding(p.box.outgoing, Key(to), e);
      }
    }
  }

  lemma PassKeepsLatestOnly(p: Peer, now: int)
    requires LatestOnly(p)
    ensures LatestOnly(PeerPass(p, now))
  {
    forall m | m in Kept(p.box.outgoing, now) ensures m.seqNum + 1 == |Sent(p, Key(m.to))| {
      KeptFrom(p.box.outgoing, now, m);
    }
  }

  lemma FewerKeepLatestOnly(p: Peer, p': Peer)
    requires LatestOnly(p) && p'.sent == p.sent
    requires forall e :: e in p'.box.outgoing ==> e in p.box.outgoing
    ensures LatestOnly(p')
  {
    assert forall to :: Sent(p', to) == Sent(p, to);
  }

  lemma NextKeepsLatestOnly(cfg: Config, s: System, e: Event, a: Endpoint)
    requires Inv(cfg, s) && a in s.peers && LatestOnly(s.peers[a])
    requires cfg.limit.AtMost? && cfg.limit.n <= 1
    ensures a in Next(cfg, s, e).peers && LatestOnly(Next(cfg, s, e).peers[a])
  {
    if Enabled(cfg, s, e) {
      var p := s.peers[a];
      match e {
        case SendEvent(at, now, to, message) =>
          if at == a {
            SendKeepsLatestOnly(cfg, p, now, to, message);
          }
        case PassEvent(at, now) => PassKeepsLatestOnly(p, now);
        case ArriveEvent(d) =>
          if d.dst == a {
            FewerKeepLatestOnly(p, PeerArrive(p, d));
          }
        case SaveEvent(at) =>
          if at == a {
            FewerKeepLatestOnly(p, PeerSave(p));
          }
        case _ =>
      }
    }
  }

  /** A delivered message stays delivered, and one in hand becomes delivered. */
  lemma NextKeepsDelivery(cfg: Config, s: System, e: Event, b: Endpoint, a: Endpoint, n: nat)
    requires Inv(cfg, s) && b in s.peers
    requires WasDelivered(s.peers[b], a, n) || InHand(s.peers[b], a, n)
    ensures b in Next(cfg, s, e).peers
    ensures WasDelivered(Next(cfg, s, e).peers[b], a, n) || InHand(Next(cfg, s, e).peers[b], a, n)
  {
    NextKeepsDelivered(cfg, s, e, b, a);
    var p, p' := s.peers[b], Next(cfg, s, e).peers[b];
    if WasDelivered(p, a, n) {
      var i :| 0 <= i < |Delivered(p, a)| && Delivered(p, a)[i].seqNum == n;
      assert Delivered(p', a)[i].seqNum == n;
    } else if Enabled(cfg, s, e) && e.EnqueueEvent? && e.at == b {
      DeliveredGrows(p, e.now, a);
      var i := |Delivered(p, a)|;
      assert Delivered(p', a)[i].seqNum == n;
    }
  }

  /** The last message sent, once heard, is delivered or in hand. */
  lemma LatestHeard(sent: seq<Original>, p: Peer, a: Endpoint, n: nat)
    requires LinkOk(sent, p, a) && Heard(p, a, n) && n + 1 == |sent|
    ensures WasDelivered(p, a, n) || InHand(p, a, n)
  {
    var d := Delivered(p, a);
    if a in p.box.incomingSeqNums && n <= p.box.incomingSeqNums[a] && d != [] {
      assert Genuine(sent, d[|d| - 1].seqNum, d[|d| - 1].message);
    }
  }

  lemma NewlyAckedIsDelivered(cfg: Config, s: System, e: Event, a: Endpoint, m: Queued)
    requires Inv(cfg, s) && Separated(cfg) && a in s.peers && LatestOnly(s.peers[a])
    requires a in Next(cfg, s, e).peers && m in Next(cfg, s, e).peers[a].acked && m !in s.peers[a].acked
    ensures HasArrived(s, a, m)
  {
    var b := Key(m.to);
    NewlyAcked(cfg, s, e, a, m);
    assert LinkOk(SentBy(s, a, b), s.peers[b], a);
    LatestHeard(SentBy(s, a, b), s.peers[b], a, m.seqNum);
  }

  lemma NextKeepsAckedIsDelivered(cfg: Config, s: System, e: Event)
    requires Inv(cfg, s) && Separated(cfg) && AckedIsDelivered(s)
    requires forall a :: a in s.peers ==> LatestOnly(s.peers[a])
    ensures AckedIsDelivered(Next(cfg, s, e))
  {
    var s' := Next(cfg, s, e);
    NextKeepsInv(cfg, s, e);
    forall a, m | a in s'.peers && m in s'.peers[a].acked ensures HasArrived(s', a, m) {
      if m !in s.peers[a].acked {
        NewlyAckedIsDelivered(cfg, s, e, a, m);
      }
      assert HasArrived(s, a, m);
      NextKeepsDelivery(cfg, s, e, Key(m.to), a, m.seqNum);
    }
  }

  lemma {:induction false} StopAndWaitRuns(cfg: Config, events: seq<Event>)
    requires Separated(cfg) && cfg.limit.AtMost? && cfg.limit.n <= 1
    ensures AckedIsDelivered(After(cfg, events))
    ensures forall a :: a in After(cfg, events).peers ==> LatestOnly(After(cfg, events).peers[a])
  {
    if events != [] {
      var s, e := After(cfg, events[..|events| - 1]), events[|events| - 1];
      RunInv(cfg, events[..|events| - 1]);
      RunInv(cfg, events);
      StopAndWaitRuns(cfg, events[..|events| - 1]);
      NextKeepsAckedIsDelivered(cfg, s, e);
      forall a | a in Next(cfg, s, e).peers ensures LatestOnly(Next(cfg, s, e).peers[a]) {
        NextKeepsLatestOnly(cfg, s, e, a);
      }
    }
  }

  lemma DeliveredGenuine(sent: seq<Original>, p: Peer, a: Endpoint, i: nat)
    requires LinkOk(sent, p, a) && i < |Delivered(p, a)|
    ensures Genuine(sent, Delivered(p, a)[i].seqNum, Delivered(p, a)[i].message)
    ensures forall j :: 0 <= j < |Delivered(p, a)| && Delivered(p, a)[j].seqNum == Delivered(p, a)[i].seqNum ==> j == i
  {
  }

  /** What is in hand is not delivered yet, and is what was sent. */
  lemma InHandIsNew(sent: seq<Original>, p: Peer, a: Endpoint, n: nat)
    requires LinkOk(sent, p, a) && InHand(p, a, n)
    ensures forall j :: 0 <= j < |Delivered(p, a)| ==> Delivered(p, a)[j].seqNum != n
    ensures Genuine(sent, n, p.receiver.message)
  {
    var d := Delivered(p, a);
    assert forall j :: 0 <= j < |d| ==> d[j].seqNum <= d[|d| - 1].seqNum;
  }

  /** Message n from a, as the wire leaves it, has been delivered once, at position i; or it is in the hands of
      the receiving thread and has not been delivered before. */
  ghost predicate ArrivedOnce(p: Peer, a: Endpoint, n: nat, message: Bytes, i: nat) {
    var d := Delivered(p, a);
    if InHand(p, a, n) then
      && p.receiver.message == Canonical(message)
      && forall j :: 0 <= j < |d| ==> d[j].seqNum != n
    else
      && i < |d| && d[i].seqNum == n && d[i].message == Canonical(message)
      && forall j :: 0 <= j < |d| && d[j].seqNum == n ==> j == i
  }

  /** Then an acknowledged message has been delivered exactly once, or is just being delivered for the first
      time. */
  lemma AckedIsDeliveredOnce(cfg: Config, s: System, a: Endpoint, e: Queued) returns (i: nat)
    requires Separated(cfg) && cfg.limit.AtMost? && cfg.limit.n <= 1
    requires Reachable(cfg, s) && a in s.peers && e in s.peers[a].acked
    ensures Key(e.to) in s.peers && ArrivedOnce(s.peers[Key(e.to)], a, e.seqNum, e.message, i)
  {
    var events :| After(cfg, events) == s;
    StopAndWaitRuns(cfg, events);
    ReachableInv(cfg, s);
    assert HasArrived(s, a, e);
    var p := s.peers[Key(e.to)];
    assert LinkOk(SentBy(s, a, Key(e.to)), p, a);
    RetriesAreOnSchedule(cfg, s, a, e);
    if InHand(p, a, e.seqNum) {
      InHandIsNew(SentBy(s, a, Key(e.to)), p, a, e.seqNum);
      i := 0;
    } else {
      i :| 0 <= i < |Delivered(p, a)| && Delivered(p, a)[i].seqNum == e.seqNum;
      DeliveredGenuine(SentBy(s, a, Key(e.to)), p, a, i);
    }
  }

  // ---------- the runs that go wrong otherwise ----------

  /** An empty message numbered n to `to` that has been tried once, at time 0. */
  function Tried(to: Address, n: SeqNum): Queued {
    Queued(0, n, 1, NOWHERE, to, [], [0])
  }

  /** Peer p has queued q and has heard nothing; the others have done nothing. */
  ghost predicate OnlySent(s: System, p: Endpoint, q: seq<Queued>) {
    && p in s.peers
    && s.peers[p].box.outgoing == q && s.peers[p].acked == []
    && s.peers[p].receiver.Idle? && s.peers[p].handed == [] == s.peers[p].box.incoming
    && s.peers[p].box.incomingSeqNums == map[]
    && forall b :: b in s.peers && b != p ==> s.peers[b] == NEW_PEER
  }

  lemma EmptyIsNoAck()
    ensures !LooksLikeAck([])
  {
    assert Canonical([]) == [];
  }

  lemma OutstandingOne(e: Queued, to: Endpoint)
    ensures Outstanding([e], to) == if Key(e.to) == to then 1 else 0
  {
    assert [e][..0] == [];
  }

  lemma PassOfTwo(e: Queued, f: Queued)
    requires e.time == f.time == 0 && e.attempts == f.attempts == 0
    ensures Kept([e, f], 0) == [Attempted(e, 0), Attempted(f, 0)]
    ensures Transmitted([e, f], 0) == [Outbound(e.to, Frame(e.seqNum, e.message)),
                                       Outbound(f.to, Frame(f.seqNum, f.message))]
  {
    assert [e, f][..1] == [e] && [e][..0] == [];
    KeptOfOne(e, 0);
    assert Transmitted([e], 0) == TransmittedOne(e, 0);
  }

  /** A message to `to`, queued at time 0 under number n. */
  function Waiting(to: Address, n: SeqNum): Queued {
    Queued(0, n, 0, NOWHERE, to, [], [])
  }

  lemma SendEmpty(cfg: Config, s: System, p: Endpoint, q: seq<Queued>, to: Address) returns (s': System)
    requires Reachable(cfg, s) && OnlySent(s, p, q)
    requires to in cfg.book && (cfg.limit.AtMost? ==> Outstanding(q, Key(to)) < cfg.limit.n)
    requires Key(to) in s.peers[p].box.outgoingSeqNums ==> s.peers[p].box.outgoingSeqNums[Key(to)] == 0
    ensures Reachable(cfg, s') && s'.peers.Keys == s.peers.Keys
    ensures var n := if Key(to) in s.peers[p].box.outgoingSeqNums then 1 else 0;
            && OnlySent(s', p, q + [Waiting(to, n)])
            && s'.peers[p].box.outgoingSeqNums == s.peers[p].box.outgoingSeqNums[Key(to) := n]
  {
    EmptyIsNoAck();
    s' := Next(cfg, s, SendEvent(p, 0, to, []));
    ReachNext(cfg, s, SendEvent(p, 0, to, []));
  }

  lemma PassOverTwo(cfg: Config, s: System, p: Endpoint, x: Address, y: Address, n: SeqNum) returns (s': System)
    requires Reachable(cfg, s) && OnlySent(s, p, [Waiting(x, 0), Waiting(y, n)])
    ensures Reachable(cfg, s') && OnlySent(s', p, [Tried(x, 0), Tried(y, n)])
    ensures Datagram(p, Key(x), Frame(0, [])) in s'.net && Datagram(p, Key(y), Frame(n, [])) in s'.net
  {
    PassOfTwo(Waiting(x, 0), Waiting(y, n));
    assert Attempted(Waiting(x, 0), 0) == Tried(x, 0) && Attempted(Waiting(y, n), 0) == Tried(y, n);
    s' := Next(cfg, s, PassEvent(p, 0));
    ReachNext(cfg, s, PassEvent(p, 0));
    var out := Transmitted([Waiting(x, 0), Waiting(y, n)], 0);
    assert out[0] in out && out[1] in out;
  }

  lemma TwoMessagesTried(cfg: Config, p: Endpoint, x: Address, y: Address) returns (s: System)
    requires p in cfg.peers && x in cfg.book && y in cfg.book
    requires cfg.limit.AtMost? ==> cfg.limit.n >= (if Key(x) == Key(y) then 2 else 1)
    ensures Reachable(cfg, s)
    ensures var n := if Key(x) == Key(y) then 1 else 0;
            && OnlySent(s, p, [Tried(x, 0), Tried(y, n)])
            && Datagram(p, Key(x), Frame(0, [])) in s.net && Datagram(p, Key(y), Frame(n, [])) in s.net
  {
    assert After(cfg, []) == Start(cfg);
    var s1 := SendEmpty(cfg, Start(cfg), p, [], x);
    OutstandingOne(Waiting(x, 0), Key(y));
    var s2 := SendEmpty(cfg, s1, p, [Waiting(x, 0)], y);
    s := PassOverTwo(cfg, s2, p, x, y, if Key(x) == Key(y) then 1 else 0);
  }

  lemma SmallNumberParses(n: SeqNum)
    requires n < 10
    ensures ParseFrame(Frame(n, [])) == Some(Packet(n, []))
  {
    FrameRoundTripIff(n);
    assert Canonical([]) == [];
  }

  /** Peer p receives its own frame n and acknowledges it. */
  lemma OwnFrameArrives(cfg: Config, s: System, p: Endpoint, n: SeqNum) returns (s': System)
    requires Reachable(cfg, s) && p in s.peers && s.peers[p].receiver.Idle?
    requires Datagram(p, p, Frame(n, [])) in s.net && n < 10
    ensures Reachable(cfg, s') && Datagram(p, p, AckFrame(n)) in s'.net && s.net <= s'.net
    ensures s'.peers == s.peers[p := s.peers[p].(receiver := AckSent(Bound(p), Bound(p), n, []))]
  {
    var d := Datagram(p, p, Frame(n, []));
    SmallNumberParses(n);
    s' := Next(cfg, s, ArriveEvent(d));
    ReachNext(cfg, s, ArriveEvent(d));
    var r := Outbound(Bound(p), AckFrame(n));
    assert Replies(s.peers[p], d) == [r] && r in [r];
    assert s.peers[p].acked + [] == s.peers[p].acked;
  }

  /** A fresh frame is then delivered. */
  lemma OwnFrameDelivered(cfg: Config, s: System, p: Endpoint, n: SeqNum) returns (s': System)
    requires Reachable(cfg, s) && p in s.peers && s.peers[p].receiver == AckSent(Bound(p), Bound(p), n, [])
    requires p !in s.peers[p].box.incomingSeqNums
    ensures Reachable(cfg, s') && s'.net == s.net
    ensures var q := s.peers[p];
            s'.peers == s.peers[p := q.(receiver := Idle,
                                        box := q.box.(incoming := q.box.incoming
                                                                  + [Queued(0, n, 0, Bound(p), Bound(p), [], [])],
                                                      incomingSeqNums := q.box.incomingSeqNums[p := n]))]
  {
    assert Key(Bound(p)) == p;
    var m := Next(cfg, s, SaveEvent(p));
    ReachNext(cfg, s, SaveEvent(p));
    s' := Next(cfg, m, EnqueueEvent(p, 0));
    ReachNext(cfg, m, EnqueueEvent(p, 0));
  }

  lemma OwnFrameTaken(cfg: Config, s: System, p: Endpoint, q: seq<Queued>, n: SeqNum) returns (s': System)
    requires Reachable(cfg, s) && OnlySent(s, p, q) && Datagram(p, p, Frame(n, [])) in s.net && n < 10
    ensures Reachable(cfg, s') && Datagram(p, p, AckFrame(n)) in s'.net && s.net <= s'.net
    ensures s'.peers.Keys == s.peers.Keys && forall b :: b in s.peers && b != p ==> s'.peers[b] == NEW_PEER
    ensures var r := s'.peers[p];
            && r.box.outgoing == q && r.acked == [] && r.receiver.Idle? && r.handed == []
            && r.box.incoming == [Queued(0, n, 0, Bound(p), Bound(p), [], [])]
            && r.box.incomingSeqNums == map[p := n]
  {
    var m := OwnFrameArrives(cfg, s, p, n);
    s' := OwnFrameDelivered(cfg, m, p, n);
  }

  /** A frame below the watermark is dropped. */
  lemma OwnFrameDropped(cfg: Config, s: System, p: Endpoint, n: SeqNum) returns (s': System)
    requires Reachable(cfg, s) && p in s.peers && s.peers[p].receiver == AckSent(Bound(p), Bound(p), n, [])
    requires p in s.peers[p].box.incomingSeqNums && n <= s.peers[p].box.incomingSeqNums[p]
    ensures Reachable(cfg, s') && s'.net == s.net
    ensures s'.peers == s.peers[p := s.peers[p].(receiver := Idle)]
  {
    assert Key(Bound(p)) == p;
    s' := Next(cfg, s, SaveEvent(p));
    ReachNext(cfg, s, SaveEvent(p));
  }

  /** The acknowledgement of number 0 removes the first message the loose comparison accepts. */
  lemma OwnAckArrives(cfg: Config, s: System, p: Endpoint) returns (s': System)
    requires Reachable(cfg, s) && p in s.peers && s.peers[p].receiver.Idle?
    requires Datagram(p, p, AckFrame(0)) in s.net
    requires s.peers[p].box.outgoing != [] && Acknowledges(s.peers[p].box.outgoing[0], Bound(p), 0)
    ensures Reachable(cfg, s')
    ensures var q := s.peers[p];
            s'.peers == s.peers[p := q.(box := q.box.(outgoing := q.box.outgoing[1..]),
                                        acked := q.acked + [q.box.outgoing[0]])]
  {
    var d := Datagram(p, p, AckFrame(0));
    AckRoundTrip(0);
    s' := Next(cfg, s, ArriveEvent(d));
    ReachNext(cfg, s, ArriveEvent(d));
    var q := s.peers[p].box.outgoing;
    assert AckIndex(q, Bound(p), 0) == 0;
    assert q[..0] + q[1..] == q[1..];
  }

  /** A message to a peer that has done nothing is acknowledged. */
  lemma UnheardAcked(s: System, p: Endpoint, x: Address)
    requires p in s.peers && s.peers[p].acked == [Tried(x, 0)]
    requires Key(x) in s.peers ==> s.peers[Key(x)] == NEW_PEER
    ensures !AcksSound(s)
  {
    assert Tried(x, 0) in s.peers[p].acked;
  }

  /** If x, to which p has sent, loosely equals p's own address, an acknowledgement of p's message to
      itself removes the one to x. */
  lemma WrongMessageAcked(cfg: Config, p: Endpoint, x: Address, y: Address) returns (s: System)
    requires p in cfg.peers && x in cfg.book && y in cfg.book && cfg.limit != AtMost(0)
    requires Key(y) == p && Key(x) != p && LooselyEqual(x, Bound(p))
    ensures Reachable(cfg, s) && !AcksSound(s)
  {
    var s1 := TwoMessagesTried(cfg, p, x, y);
    var s2 := OwnFrameTaken(cfg, s1, p, [Tried(x, 0), Tried(y, 0)], 0);
    s := OwnAckArrives(cfg, s2, p);
    UnheardAcked(s, p, x);
  }

  /** With two messages outstanding, the later one can arrive first; the earlier one is then
      acknowledged and dropped. */
  lemma EarlierMessageDropped(cfg: Config, p: Endpoint, y: Address) returns (s: System)
    requires p in cfg.peers && y in cfg.book && Key(y) == p
    requires cfg.limit.AtMost? ==> cfg.limit.n >= 2
    ensures Reachable(cfg, s) && p in s.peers && Datagram(p, p, AckFrame(0)) in s.net
    ensures var q := s.peers[p];
            && q.box.outgoing == [Tried(y, 0), Tried(y, 1)] && q.acked == [] && q.receiver.Idle?
            && q.handed == [] && q.box.incoming == [Queued(0, 1, 0, Bound(p), Bound(p), [], [])]
  {
    var s1 := TwoMessagesTried(cfg, p, y, y);
    var s2 := OwnFrameTaken(cfg, s1, p, [Tried(y, 0), Tried(y, 1)], 1);
    var s3 := OwnFrameArrives(cfg, s2, p, 0);
    s := OwnFrameDropped(cfg, s3, p, 0);
  }

  lemma DeliveredOne(p: Peer, m: Queued, a: Endpoint)
    requires p.handed == [] && p.box.incoming == [m] && Key(m.from) == a
    ensures Delivered(p, a) == [m]
  {
    var q := [m];
    assert p.handed + p.box.incoming == q && q[..|q| - 1] == [] && q[|q| - 1] == m;
    assert FromPeer(q, a) == FromPeer([], a) + [m];
  }

  /** The first message has been acknowledged, and only the second delivered. */
  lemma UndeliveredAcked(s: System, p: Endpoint, y: Address)
    requires p in s.peers && Key(y) == p && s.peers[p].acked == [Tried(y, 0)] && s.peers[p].receiver.Idle?
    requires s.peers[p].handed == [] && s.peers[p].box.incoming == [Queued(0, 1, 0, Bound(p), Bound(p), [], [])]
    ensures !AckedIsDelivered(s)
  {
    var m := Queued(0, 1, 0, Bound(p), Bound(p), [], []);
    DeliveredOne(s.peers[p], m, p);
    assert !WasDelivered(s.peers[p], p, 0);
    assert Tried(y, 0) in s.peers[p].acked;
    assert !HasArrived(s, p, Tried(y, 0));
  }

  lemma OvertakenMessageAcked(cfg: Config, p: Endpoint, y: Address) returns (s: System)
    requires p in cfg.peers && y in cfg.book && Key(y) == p
    requires cfg.limit.AtMost? ==> cfg.limit.n >= 2
    ensures Reachable(cfg, s) && !AckedIsDelivered(s)
  {
    var s1 := EarlierMessageDropped(cfg, p, y);
    s := OwnAckArrives(cfg, s1, p);
    UndeliveredAcked(s, p, y);
  }

  // ---------- the two exact conditions ----------

  /** Every peer can be sent to. */
  ghost predicate Addressable(cfg: Config) {
    forall p :: p in cfg.peers ==> exists y :: y in cfg.book && Key(y) == p
  }

  /** In all runs every removed message was heard by the peer it was sent to, if and only if `operator==`
      agrees with the maps' identity on the addresses in use. */
  lemma AcksSoundIffSeparated(cfg: Config)
    requires Addressable(cfg) && cfg.limit != AtMost(0)
    ensures (forall s :: Reachable(cfg, s) ==> AcksSound(s)) <==> Separated(cfg)
  {
    if Separated(cfg) {
      forall s | Reachable(cfg, s) ensures AcksSound(s) {
        var events :| After(cfg, events) == s;
        RunsKeepAcksSound(cfg, events);
      }
    } else {
      var x, p :| x in cfg.book && p in cfg.peers && LooselyEqual(x, Bound(p)) && Key(x) != p;
      var y :| y in cfg.book && Key(y) == p;
      var s := WrongMessageAcked(cfg, p, x, y);
    }
  }

  /** In all runs every removed message was delivered (or is just being delivered), if and only if senders
      keep at most one message per destination outstanding. */
  lemma AckedIsDeliveredIffStopAndWait(cfg: Config)
    requires Addressable(cfg) && Separated(cfg) && cfg.peers != {}
    ensures (forall s :: Reachable(cfg, s) ==> AckedIsDelivered(s)) <==> cfg.limit.AtMost? && cfg.limit.n <= 1
  {
    if cfg.limit.AtMost? && cfg.limit.n <= 1 {
      forall s | Reachable(cfg, s) ensures AckedIsDelivered(s) {
        var events :| After(cfg, events) == s;
        StopAndWaitRuns(cfg, events);
      }
    } else {
      var p :| p in cfg.peers;
      var y :| y in cfg.book && Key(y) == p;
      var s := OvertakenMessageAcked(cfg, p, y);
    }
  }

  /** Numbers only work until the counter wraps: a receiver whose watermark is the sender's counter takes
      the next message exactly when the counter does not wrap. */
  lemma NextIsFreshIffNoWrap(sender: Mailbox, receiver: Mailbox, to: Address, from: Address)
    requires Key(to) in sender.outgoingSeqNums && Key(from) in receiver.incomingSeqNums
    requires receiver.incomingSeqNums[Key(from)] == sender.outgoingSeqNums[Key(to)]
    ensures Fresh(receiver, from, NextSeqNum(sender, to)) <==> sender.outgoingSeqNums[Key(to)] as int + 1 < TWO_64
  {
    var n: int := sender.outgoingSeqNums[Key(to)];
    assert n + 1 < TWO_64 ==> (n + 1) % TWO_64 == n + 1;
    assert n + 1 == TWO_64 ==> (n + 1) % TWO_64 == 0;
  }
}
