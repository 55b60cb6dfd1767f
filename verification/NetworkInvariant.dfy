/** The invariant of every run over the network. */
module NetworkInvariant {
  import opened Text
  import opened Addresses
  import opened Frames
  import opened Mailboxes
  import opened Passes
  import opened Network

  // ---------- one peer as a sender ----------

  /** A queued message is one that was sent, under its own number, and on schedule. */
  ghost predicate Faithful(cfg: Config, p: Peer, e: Queued) {
    && e.to in cfg.book
    && e.seqNum < |Sent(p, Key(e.to))|
    && Sent(p, Key(e.to))[e.seqNum] == Original(e.time, e.message)
    && OnSchedule(e)
  }

  /** Numbers are issued 0, 1, 2, ... per destination, and every one is queued, acked or expired, once. */
  ghost predicate Conserved(p: Peer, to: Endpoint, n: nat) {
    Count(p.box.outgoing, to, n) + Count(p.acked, to, n) + Count(p.expired, to, n)
      == if n < |Sent(p, to)| then 1 else 0
  }

  ghost predicate Counted(p: Peer, to: Endpoint) {
    if to in p.box.outgoingSeqNums then |Sent(p, to)| - 1 == p.box.outgoingSeqNums[to] else Sent(p, to) == []
  }

  ghost predicate NoAcks(p: Peer, to: Endpoint) {
    forall k :: 0 <= k < |Sent(p, to)| ==> !LooksLikeAck(Sent(p, to)[k].message)
  }

  ghost predicate SenderOk(cfg: Config, p: Peer) {
    && (forall to :: Counted(p, to) && NoAcks(p, to))
    && (forall e :: e in p.box.outgoing ==> Faithful(cfg, p, e))
    && (forall e :: e in p.acked ==> Faithful(cfg, p, e))
    && (forall e :: e in p.expired ==> Faithful(cfg, p, e) && e.attempts == MAX_RETRIES)
    && Ordered(p.box.outgoing)
    && (forall to, n :: Conserved(p, to, n))
  }

  // ---------- one pair, as seen by the receiver ----------

  /** Entry or in-flight message `n` is message number `n` of what was sent, as the wire leaves it. */
  ghost predicate Genuine(sent: seq<Original>, n: nat, message: Bytes) {
    n < |sent| && message == Canonical(sent[n].message)
  }

  ghost predicate Increasing(d: seq<Queued>) {
    forall i, j :: 0 <= i < j < |d| ==> d[i].seqNum < d[j].seqNum
  }

  /** The watermark for `a` is the last number delivered, or the one about to be. */
  ghost predicate WatermarkOk(p: Peer, a: Endpoint, d: seq<Queued>) {
    var marks := p.box.incomingSeqNums;
    if p.receiver.Saved? && Key(p.receiver.from) == a then
      && a in marks && marks[a] == p.receiver.seqNum
      && forall i :: 0 <= i < |d| ==> d[i].seqNum < p.receiver.seqNum
    else if d == [] then a !in marks
    else a in marks && marks[a] == d[|d| - 1].seqNum
  }

  ghost predicate LinkOk(sent: seq<Original>, p: Peer, a: Endpoint) {
    LinkOn(sent, p, a, Delivered(p, a))
  }

  ghost predicate LinkOn(sent: seq<Original>, p: Peer, a: Endpoint, d: seq<Queued>) {
    && Increasing(d)
    && (forall i :: 0 <= i < |d| ==> Genuine(sent, d[i].seqNum, d[i].message))
    && (!p.receiver.Idle? && Key(p.receiver.from) == a ==> Genuine(sent, p.receiver.seqNum, p.receiver.message))
    && WatermarkOk(p, a, d)
  }

  // ---------- the network ----------

  ghost predicate IsFrame(p: Peer, d: Datagram, n: nat) {
    n < |Sent(p, d.dst)| && n < TWO_64 && d.payload == Frame(n, Sent(p, d.dst)[n].message)
  }

  ghost predicate IsAck(p: Peer, d: Datagram, n: nat) {
    n < TWO_64 && d.payload == AckFrame(n) && Heard(p, d.dst, n)
  }

  /** Everything in the network is a frame of something its source sent, or an acknowledgement of
      something its source heard. */
  ghost predicate DatagramOk(p: Peer, d: Datagram) {
    exists n: nat :: IsFrame(p, d, n) || IsAck(p, d, n)
  }

  ghost predicate Inv(cfg: Config, s: System) {
    && s.peers.Keys == cfg.peers
    && (forall a :: a in s.peers ==> SenderOk(cfg, s.peers[a]))
    && (forall a, b :: b in s.peers ==> LinkOk(SentBy(s, a, b), s.peers[b], a))
    && (forall d :: d in s.net ==> d.src in s.peers && DatagramOk(s.peers[d.src], d))
  }

  // ---------- what never goes back ----------

  /** A step of a peer only adds to what it sent and to what it heard. */
  ghost predicate Grows(p: Peer, p': Peer) {
    && (forall to :: Sent(p, to) <= Sent(p', to))
    && (forall a, n :: Heard(p, a, n) ==> Heard(p', a, n))
  }

  lemma LinkMonotone(sent: seq<Original>, sent': seq<Original>, p: Peer, a: Endpoint)
    requires LinkOk(sent, p, a) && sent <= sent'
    ensures LinkOk(sent', p, a)
  {
    forall n: nat, m | Genuine(sent, n, m) ensures Genuine(sent', n, m) {
      assert sent'[n] == sent[n];
    }
  }

  lemma DatagramMonotone(p: Peer, p': Peer, d: Datagram)
    requires DatagramOk(p, d) && Grows(p, p')
    ensures DatagramOk(p', d)
  {
    var n: nat :| IsFrame(p, d, n) || IsAck(p, d, n);
    if IsFrame(p, d, n) {
      assert Sent(p, d.dst) <= Sent(p', d.dst);
      assert IsFrame(p', d, n);
    } else {
      assert IsAck(p', d, n);
    }
  }

  /** One peer takes a step that keeps its own obligations and puts only proper datagrams out. */
  lemma PeerStepKeepsInv(cfg: Config, s: System, at: Endpoint, p': Peer, net': set<Datagram>)
    requires Inv(cfg, s) && at in s.peers
    requires SenderOk(cfg, p') && Grows(s.peers[at], p')
    requires forall a :: LinkOk(SentBy(s, a, at), p', a)
    requires forall d :: d in net' && d !in s.net ==> d.src == at && DatagramOk(p', d)
    ensures Inv(cfg, System(s.peers[at := p'], net'))
  {
    var s' := System(s.peers[at := p'], net');
    forall a, b | b in s'.peers ensures LinkOk(SentBy(s', a, b), s'.peers[b], a) {
      assert SentBy(s, a, b) <= SentBy(s', a, b);
      LinkMonotone(SentBy(s, a, b), SentBy(s', a, b), s'.peers[b], a);
    }
    forall d | d in s'.net ensures d.src in s'.peers && DatagramOk(s'.peers[d.src], d) {
      if d in s.net && d.src == at {
        DatagramMonotone(s.peers[at], p', d);
      }
    }
  }

  // ---------- sending ----------

  lemma FaithfulMonotone(cfg: Config, p: Peer, p': Peer, e: Queued)
    requires Faithful(cfg, p, e) && Grows(p, p')
    ensures Faithful(cfg, p', e)
  {
    assert Sent(p, Key(e.to)) <= Sent(p', Key(e.to));
  }

  lemma NewEntryFollows(cfg: Config, p: Peer, e: Queued)
    requires SenderOk(cfg, p) && e.seqNum >= |Sent(p, Key(e.to))|
    ensures Ordered(p.box.outgoing + [e])
  {
    var q := p.box.outgoing;
    forall i | 0 <= i < |q| && Key(q[i].to) == Key(e.to) ensures q[i].seqNum < e.seqNum {
      assert q[i] in q;
    }
  }

  lemma SendGrows(p: Peer, now: int, to: Address, message: Bytes)
    ensures Grows(p, PeerSend(p, now, to, message))
  {
  }

  lemma SendCounts(cfg: Config, p: Peer, now: int, to: Address, message: Bytes, dst: Endpoint)
    requires SenderOk(cfg, p) && MaySend(cfg, p, to, message)
    ensures Counted(PeerSend(p, now, to, message), dst) && NoAcks(PeerSend(p, now, to, message), dst)
    ensures NextSeqNum(p.box, to) == |Sent(p, Key(to))|
  {
    assert Counted(p, Key(to)) && NoAcks(p, Key(to));
    assert Counted(p, dst) && NoAcks(p, dst);
    if Key(to) in p.box.outgoingSeqNums {
      var n := p.box.outgoingSeqNums[Key(to)] + 1;
      assert n < TWO_64;
      assert n % TWO_64 == n;
    }
  }

  lemma SendConserves(cfg: Config, p: Peer, now: int, to: Address, message: Bytes, dst: Endpoint, n: nat)
    requires SenderOk(cfg, p) && MaySend(cfg, p, to, message)
    ensures Conserved(PeerSend(p, now, to, message), dst, n)
  {
    SendCounts(cfg, p, now, to, message, dst);
    var e := Queued(now, NextSeqNum(p.box, to), 0, NOWHERE, to, message, []);
    assert Conserved(p, dst, n);
    CountConcat(p.box.outgoing, [e], dst, n);
    CountOne(e, dst, n);
  }

  lemma SendKeepsSender(cfg: Config, p: Peer, now: int, to: Address, message: Bytes)
    requires SenderOk(cfg, p) && MaySend(cfg, p, to, message)
    ensures SenderOk(cfg, PeerSend(p, now, to, message))
  {
    var p' := PeerSend(p, now, to, message);
    SendGrows(p, now, to, message);
    forall dst ensures Counted(p', dst) && NoAcks(p', dst) {
      SendCounts(cfg, p, now, to, message, dst);
    }
    forall dst, n ensures Conserved(p', dst, n) {
      SendConserves(cfg, p, now, to, message, dst, n);
    }
    SendCounts(cfg, p, now, to, message, Key(to));
    var e := Queued(now, NextSeqNum(p.box, to), 0, NOWHERE, to, message, []);
    NewEntryFollows(cfg, p, e);
    forall o | o in p'.box.outgoing ensures Faithful(cfg, p', o) {
      if o in p.box.outgoing {
        FaithfulMonotone(cfg, p, p', o);
      } else {
        assert o == e;
      }
    }
    forall o | o in p'.acked || o in p'.expired ensures Faithful(cfg, p', o) {
      FaithfulMonotone(cfg, p, p', o);
    }
  }

  // ---------- passes ----------

  lemma PassKeepsSender(cfg: Config, p: Peer, now: int)
    requires SenderOk(cfg, p)
    ensures SenderOk(cfg, PeerPass(p, now)) && Grows(p, PeerPass(p, now))
  {
    var p' := PeerPass(p, now);
    var q := p.box.outgoing;
    forall to ensures Counted(p', to) && NoAcks(p', to) {
      assert Counted(p, to) && NoAcks(p, to);
    }
    PassKeepsFaithful(cfg, p, now);
    PassKeepsOrder(q, now);
    forall to, n ensures Conserved(p', to, n) {
      PassKeepsCount(p, now, to, n);
    }
  }

  lemma PassKeepsFaithful(cfg: Config, p: Peer, now: int)
    requires SenderOk(cfg, p)
    ensures var p' := PeerPass(p, now);
            && (forall e :: e in p'.box.outgoing ==> Faithful(cfg, p', e))
            && (forall e :: e in p'.expired ==> Faithful(cfg, p', e) && e.attempts == MAX_RETRIES)
  {
    var p' := PeerPass(p, now);
    var q := p.box.outgoing;
    forall e | e in p'.box.outgoing ensures Faithful(cfg, p', e) {
      KeptFrom(q, now, e);
      var o :| o in q && !Exhausted(o) && e == (if Due(o, now) then Attempted(o, now) else o);
      if Due(o, now) {
        AttemptKeepsSchedule(o, now);
      }
    }
    forall e | e in p'.expired ensures Faithful(cfg, p', e) && e.attempts == MAX_RETRIES {
      if e !in p.expired {
        GivenUpFrom(q, e);
      }
    }
  }

  lemma PassKeepsCount(p: Peer, now: int, to: Endpoint, n: nat)
    requires Conserved(p, to, n)
    ensures Conserved(PeerPass(p, now), to, n)
  {
    PassConserves(p.box.outgoing, now, to, n);
    CountConcat(p.expired, GivenUp(p.box.outgoing), to, n);
  }

  lemma {:induction false} TransmittedFrom(q: seq<Queued>, now: int, o: Outbound)
    requires o in Transmitted(q, now)
    ensures exists e :: e in q && o == Outbound(e.to, Frame(e.seqNum, e.message))
  {
    var p, l := q[..|q| - 1], q[|q| - 1];
    if o in Transmitted(p, now) {
      TransmittedFrom(p, now, o);
      var e :| e in p && o == Outbound(e.to, Frame(e.seqNum, e.message));
      assert e in q;
    } else {
      assert o in TransmittedOne(l, now) && l in q;
    }
  }

  lemma PassSendsFrames(cfg: Config, p: Peer, now: int, at: Endpoint, d: Datagram)
    requires SenderOk(cfg, p) && d in Datagrams(at, Transmitted(p.box.outgoing, now))
    ensures d.src == at && DatagramOk(PeerPass(p, now), d)
  {
    var o :| o in Transmitted(p.box.outgoing, now) && d == Datagram(at, Key(o.to), o.payload);
    TransmittedFrom(p.box.outgoing, now, o);
    var e :| e in p.box.outgoing && o == Outbound(e.to, Frame(e.seqNum, e.message));
    assert Faithful(cfg, p, e);
    assert IsFrame(PeerPass(p, now), d, e.seqNum);
  }

  // ---------- receiving ----------

  /** An acknowledgement moves one entry from the queue to the acknowledged ones. */
  lemma RemovalKeepsSender(cfg: Config, p: Peer, p': Peer, i: nat)
    requires SenderOk(cfg, p) && i < |p.box.outgoing|
    requires p' == p.(box := p.box.(outgoing := Without(p.box.outgoing, i)), acked := p.acked + [p.box.outgoing[i]])
    ensures SenderOk(cfg, p')
  {
    var q := p.box.outgoing;
    assert q[i] in q;
    forall to ensures Counted(p', to) && NoAcks(p', to) {
      assert Counted(p, to) && NoAcks(p, to);
    }
    forall e | Faithful(cfg, p, e) ensures Faithful(cfg, p', e) {
    }
    forall e | e in Without(q, i) ensures e in q {
    }
    RemovalKeepsOrder(q, i);
    forall to, n ensures Conserved(p', to, n) {
      assert Conserved(p, to, n);
      RemovalConserves(q, i, to, n);
      CountConcat(p.acked, [q[i]], to, n);
    }
  }

  lemma ArriveKeepsSender(cfg: Config, p: Peer, d: Datagram)
    requires SenderOk(cfg, p)
    ensures SenderOk(cfg, PeerArrive(p, d))
  {
    var p', q := PeerArrive(p, d), p.box.outgoing;
    if Removed(p, Bound(d.src), d.payload) == [] {
      assert p'.acked == p.acked && p'.box.outgoing == q;
      SameSenderOk(cfg, p, p');
    } else {
      var i := AckIndex(q, Bound(d.src), ParseFrame(d.payload).value.seqNum);
      RemovalKeepsSender(cfg, p, p'.(receiver := p.receiver), i);
      SameSenderOk(cfg, p'.(receiver := p.receiver), p');
    }
  }

  lemma ArriveGrows(p: Peer, d: Datagram)
    requires p.receiver.Idle?
    ensures Grows(p, PeerArrive(p, d))
  {
  }

  /** What an arriving datagram of the network means. */
  lemma ArrivalMeans(cfg: Config, s: System, d: Datagram)
    requires Inv(cfg, s) && d in s.net && d.dst in s.peers && s.peers[d.dst].receiver.Idle?
    ensures var p := PeerArrive(s.peers[d.dst], d);
            p.receiver.AckSent? ==>
              && p.receiver.from == Bound(d.src)
              && Genuine(SentBy(s, d.src, d.dst), p.receiver.seqNum, p.receiver.message)
    ensures var f := ParseFrame(d.payload);
            f.Some? && f.value.message == ACK ==> Heard(s.peers[d.src], d.dst, f.value.seqNum)
  {
    var ps := s.peers[d.src];
    var n: nat :| IsFrame(ps, d, n) || IsAck(ps, d, n);
    if IsFrame(ps, d, n) {
      FrameRoundTrip(n, Sent(ps, d.dst)[n].message);
      assert NoAcks(ps, d.dst);
    } else {
      AckRoundTrip(n);
    }
  }

  lemma ArriveKeepsLinks(cfg: Config, s: System, d: Datagram, a: Endpoint)
    requires Inv(cfg, s) && d in s.net && d.dst in s.peers && s.peers[d.dst].receiver.Idle?
    ensures LinkOk(SentBy(s, a, d.dst), PeerArrive(s.peers[d.dst], d), a)
  {
    assert LinkOk(SentBy(s, a, d.dst), s.peers[d.dst], a);
    ArrivalMeans(cfg, s, d);
  }

  lemma RepliesAreAcks(p: Peer, d: Datagram, r: Datagram)
    requires r in Datagrams(d.dst, Replies(p, d))
    ensures r.src == d.dst && DatagramOk(PeerArrive(p, d), r)
  {
    var n := ParseFrame(d.payload).value.seqNum;
    assert IsAck(PeerArrive(p, d), r, n);
  }

  /** Raising the watermark, enqueueing and taking a message touch nothing of the sender. */
  ghost predicate SameSender(p: Peer, p': Peer) {
    && p'.box.outgoing == p.box.outgoing && p'.box.outgoingSeqNums == p.box.outgoingSeqNums
    && p'.sent == p.sent && p'.acked == p.acked && p'.expired == p.expired
  }

  lemma SameSenderOk(cfg: Config, p: Peer, p': Peer)
    requires SenderOk(cfg, p) && SameSender(p, p')
    ensures SenderOk(cfg, p')
  {
    forall to ensures Counted(p', to) && NoAcks(p', to) {
      assert Counted(p, to) && NoAcks(p, to);
    }
    forall to, n ensures Conserved(p', to, n) {
      assert Conserved(p, to, n);
    }
    forall e | Faithful(cfg, p, e) ensures Faithful(cfg, p', e) {
    }
  }

  lemma SaveGrows(p: Peer)
    requires p.receiver.AckSent?
    ensures Grows(p, PeerSave(p)) && SameSender(p, PeerSave(p))
  {
  }

  lemma SaveKeepsLink(sent: seq<Original>, p: Peer, a: Endpoint)
    requires p.receiver.AckSent? && LinkOk(sent, p, a)
    ensures LinkOk(sent, PeerSave(p), a)
  {
    assert Delivered(PeerSave(p), a) == Delivered(p, a);
    SaveKeepsLinkOn(sent, p, a, Delivered(p, a));
  }

  lemma SaveKeepsLinkOn(sent: seq<Original>, p: Peer, a: Endpoint, d: seq<Queued>)
    requires p.receiver.AckSent? && LinkOn(sent, p, a, d)
    ensures LinkOn(sent, PeerSave(p), a, d)
  {
    var r := p.receiver;
    if Key(r.from) == a && Fresh(p.box, r.from, r.seqNum) && d != [] {
      assert forall i :: 0 <= i < |d| ==> d[i].seqNum <= d[|d| - 1].seqNum;
    }
  }

  lemma DeliveredGrows(p: Peer, now: int, a: Endpoint)
    requires p.receiver.Saved?
    ensures Delivered(PeerEnqueue(p, now), a) == Delivered(p, a) +
            if Key(p.receiver.from) == a
            then [Queued(now, p.receiver.seqNum, 0, p.receiver.from, p.receiver.to, p.receiver.message, [])]
            else []
  {
    var q, e := p.handed + p.box.incoming,
                Queued(now, p.receiver.seqNum, 0, p.receiver.from, p.receiver.to, p.receiver.message, []);
    var q' := PeerEnqueue(p, now).handed + PeerEnqueue(p, now).box.incoming;
    assert q' == q + [e];
    assert q'[..|q'| - 1] == q;
  }

  lemma LinkExtended(sent: seq<Original>, p: Peer, p': Peer, a: Endpoint, d: seq<Queued>, e: Queued)
    requires LinkOn(sent, p, a, d) && p.receiver.Saved? && Key(p.receiver.from) == a
    requires p'.receiver.Idle? && p'.box.incomingSeqNums == p.box.incomingSeqNums
    requires e.seqNum == p.receiver.seqNum && e.message == p.receiver.message
    ensures LinkOn(sent, p', a, d + [e])
  {
  }

  lemma EnqueueKeepsLink(sent: seq<Original>, p: Peer, now: int, a: Endpoint)
    requires p.receiver.Saved? && LinkOk(sent, p, a)
    ensures LinkOk(sent, PeerEnqueue(p, now), a)
  {
    DeliveredGrows(p, now, a);
    var r := p.receiver;
    if Key(r.from) == a {
      var e := Queued(now, r.seqNum, 0, r.from, r.to, r.message, []);
      LinkExtended(sent, p, PeerEnqueue(p, now), a, Delivered(p, a), e);
    } else {
      assert LinkOn(sent, PeerEnqueue(p, now), a, Delivered(p, a));
    }
  }

  lemma TakeKeepsDelivered(p: Peer, a: Endpoint)
    requires p.box.incoming != []
    ensures Delivered(PeerTake(p), a) == Delivered(p, a)
  {
    assert PeerTake(p).handed + PeerTake(p).box.incoming == p.handed + p.box.incoming;
  }

  // ---------- the invariant over every run ----------

  lemma NextKeepsInv(cfg: Config, s: System, e: Event)
    requires Inv(cfg, s)
    ensures Inv(cfg, Next(cfg, s, e))
  {
    if Enabled(cfg, s, e) {
      match e {
        case SendEvent(at, now, to, message) => SendKeepsInv(cfg, s, at, now, to, message);
        case PassEvent(at, now) => PassKeepsInv(cfg, s, at, now);
        case ArriveEvent(d) => ArriveKeepsInv(cfg, s, d);
        case SaveEvent(at) => SaveKeepsInv(cfg, s, at);
        case EnqueueEvent(at, now) => EnqueueKeepsInv(cfg, s, at, now);
        case TakeEvent(at) => TakeKeepsInv(cfg, s, at);
        case LoseEvent(d) => LoseKeepsInv(cfg, s, d);
      }
    }
  }

  /** A step that leaves the receiving side alone. */
  ghost predicate SameReceiver(p: Peer, p': Peer) {
    && p'.receiver == p.receiver && p'.handed == p.handed
    && p'.box.incoming == p.box.incoming && p'.box.incomingSeqNums == p.box.incomingSeqNums
  }

  lemma SameReceiverLink(sent: seq<Original>, p: Peer, p': Peer, a: Endpoint)
    requires LinkOk(sent, p, a) && SameReceiver(p, p')
    ensures LinkOk(sent, p', a)
  {
  }

  lemma SendingKeepsLinks(cfg: Config, s: System, at: Endpoint, p': Peer)
    requires Inv(cfg, s) && at in s.peers && SameReceiver(s.peers[at], p')
    ensures forall a :: LinkOk(SentBy(s, a, at), p', a)
  {
    forall a ensures LinkOk(SentBy(s, a, at), p', a) {
      SameReceiverLink(SentBy(s, a, at), s.peers[at], p', a);
    }
  }

  lemma SendKeepsInv(cfg: Config, s: System, at: Endpoint, now: int, to: Address, message: Bytes)
    requires Inv(cfg, s) && Enabled(cfg, s, SendEvent(at, now, to, message))
    ensures Inv(cfg, Next(cfg, s, SendEvent(at, now, to, message)))
  {
    var p := s.peers[at];
    var p' := PeerSend(p, now, to, message);
    SendKeepsSender(cfg, p, now, to, message);
    SendGrows(p, now, to, message);
    SendingKeepsLinks(cfg, s, at, p');
    PeerStepKeepsInv(cfg, s, at, p', s.net);
  }

  lemma PassKeepsInv(cfg: Config, s: System, at: Endpoint, now: int)
    requires Inv(cfg, s) && at in s.peers
    ensures Inv(cfg, Next(cfg, s, PassEvent(at, now)))
  {
    var p := s.peers[at];
    var out := Datagrams(at, Transmitted(p.box.outgoing, now));
    PassKeepsSender(cfg, p, now);
    SendingKeepsLinks(cfg, s, at, PeerPass(p, now));
    forall d | d in out ensures d.src == at && DatagramOk(PeerPass(p, now), d) {
      PassSendsFrames(cfg, p, now, at, d);
    }
    PeerStepKeepsInv(cfg, s, at, PeerPass(p, now), s.net + out);
  }

  lemma ArriveKeepsInv(cfg: Config, s: System, d: Datagram)
    requires Inv(cfg, s) && Enabled(cfg, s, ArriveEvent(d))
    ensures Inv(cfg, Next(cfg, s, ArriveEvent(d)))
  {
    var p := s.peers[d.dst];
    var out := Datagrams(d.dst, Replies(p, d));
    ArriveKeepsSender(cfg, p, d);
    ArriveGrows(p, d);
    forall a ensures LinkOk(SentBy(s, a, d.dst), PeerArrive(p, d), a) {
      ArriveKeepsLinks(cfg, s, d, a);
    }
    forall r | r in out ensures r.src == d.dst && DatagramOk(PeerArrive(p, d), r) {
      RepliesAreAcks(p, d, r);
    }
    PeerStepKeepsInv(cfg, s, d.dst, PeerArrive(p, d), s.net + out);
  }

  lemma SaveKeepsInv(cfg: Config, s: System, at: Endpoint)
    requires Inv(cfg, s) && Enabled(cfg, s, SaveEvent(at))
    ensures Inv(cfg, Next(cfg, s, SaveEvent(at)))
  {
    var p := s.peers[at];
    SaveGrows(p);
    SameSenderOk(cfg, p, PeerSave(p));
    forall a ensures LinkOk(SentBy(s, a, at), PeerSave(p), a) {
      SaveKeepsLink(SentBy(s, a, at), p, a);
    }
    PeerStepKeepsInv(cfg, s, at, PeerSave(p), s.net);
  }

  lemma EnqueueKeepsInv(cfg: Config, s: System, at: Endpoint, now: int)
    requires Inv(cfg, s) && Enabled(cfg, s, EnqueueEvent(at, now))
    ensures Inv(cfg, Next(cfg, s, EnqueueEvent(at, now)))
  {
    var p := s.peers[at];
    SameSenderOk(cfg, p, PeerEnqueue(p, now));
    forall a ensures LinkOk(SentBy(s, a, at), PeerEnqueue(p, now), a) {
      EnqueueKeepsLink(SentBy(s, a, at), p, now, a);
    }
    PeerStepKeepsInv(cfg, s, at, PeerEnqueue(p, now), s.net);
  }

  lemma TakeKeepsInv(cfg: Config, s: System, at: Endpoint)
    requires Inv(cfg, s) && Enabled(cfg, s, TakeEvent(at))
    ensures Inv(cfg, Next(cfg, s, TakeEvent(at)))
  {
    var p := s.peers[at];
    SameSenderOk(cfg, p, PeerTake(p));
    forall a ensures LinkOk(SentBy(s, a, at), PeerTake(p), a) {
      assert LinkOk(SentBy(s, a, at), p, a);
      TakeKeepsDelivered(p, a);
    }
    PeerStepKeepsInv(cfg, s, at, PeerTake(p), s.net);
  }

  lemma LoseKeepsInv(cfg: Config, s: System, d: Datagram)
    requires Inv(cfg, s)
    ensures Inv(cfg, Next(cfg, s, LoseEvent(d)))
  {
    var s' := Next(cfg, s, LoseEvent(d));
    forall a, b | b in s'.peers ensures LinkOk(SentBy(s', a, b), s'.peers[b], a) {
      assert SentBy(s', a, b) == SentBy(s, a, b);
    }
  }

  lemma StartInv(cfg: Config)
    ensures Inv(cfg, Start(cfg))
  {
  }

  lemma {:induction false} RunInv(cfg: Config, events: seq<Event>)
    ensures Inv(cfg, After(cfg, events))
  {
    if events == [] {
      StartInv(cfg);
    } else {
      RunInv(cfg, events[..|events| - 1]);
      NextKeepsInv(cfg, After(cfg, events[..|events| - 1]), events[|events| - 1]);
    }
  }
}
