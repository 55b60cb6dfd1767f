/** What one pass, one arrival and one acknowledgement do, exactly, in any reachable state. */
module Deliveries {
  import opened Text
  import opened Addresses
  import opened Frames
  import opened Mailboxes
  import opened Passes
  import opened Network
  import opened NetworkInvariant
  import opened NetworkTheorems
  import opened Transmissions

  // ---------- a pass ----------

  lemma SameEntry(q: seq<Queued>, e: Queued, o: Queued)
    requires Ordered(q) && e in q && o in q && Key(e.to) == Key(o.to) && e.seqNum == o.seqNum
    ensures e == o
  {
  }

  lemma ExhaustedLeaves(q: seq<Queued>, e: Queued, now: int)
    requires Ordered(q) && e in q && Count(q, Key(e.to), e.seqNum) == 1
    ensures Count(Kept(q, now), Key(e.to), e.seqNum) == if Exhausted(e) then 0 else 1
    ensures Count(GivenUp(q), Key(e.to), e.seqNum) == if Exhausted(e) then 1 else 0
  {
    var to, n := Key(e.to), e.seqNum;
    PassConserves(q, now, to, n);
    CountMember(Kept(q, now), to, n);
    CountMember(GivenUp(q), to, n);
    if Exhausted(e) {
      forall k | k in Kept(q, now) && Is(k, to, n) ensures false {
        KeptFrom(q, now, k);
        var o :| o in q && !Exhausted(o) && k == (if Due(o, now) then Attempted(o, now) else o);
        SameEntry(q, e, o);
      }
    } else {
      forall k | k in GivenUp(q) && Is(k, to, n) ensures false {
        GivenUpFrom(q, k);
        SameEntry(q, e, k);
      }
    }
  }

  /** In any reachable state, what a pass does about message n that is still queued: after five transmissions it is
      given up; otherwise it is transmitted once when 2 seconds for each transmission so far have passed since `Send`,
      and stays queued in any case. */
  lemma PassDecides(cfg: Config, s: System, a: Endpoint, to: Endpoint, n: nat, now: int)
    requires Reachable(cfg, s) && a in s.peers && Count(s.peers[a].box.outgoing, to, n) == 1
    ensures n < |Sent(s.peers[a], to)|
    ensures var p, p' := s.peers[a], PeerPass(s.peers[a], now);
            var clocks := Clocks(p.transmissions, to, n);
            && Next(cfg, s, PassEvent(a, now)).peers[a] == p'
            && Count(p'.box.outgoing, to, n) == (if |clocks| == 5 then 0 else 1)
            && Count(p'.expired, to, n) == (if |clocks| == 5 then 1 else 0)
            && Clocks(p'.transmissions, to, n) == clocks +
                 if |clocks| < 5 && now >= Sent(p, to)[n].time + 2_000_000_000 * |clocks| then [now] else []
  {
    var events :| After(cfg, events) == s;
    RunLog(cfg, events);
    ReachableInv(cfg, s);
    PeerDecides(cfg, s.peers[a], to, n, now);
  }

  lemma PeerDecides(cfg: Config, p: Peer, to: Endpoint, n: nat, now: int)
    requires SenderOk(cfg, p) && Logged(p) && Count(p.box.outgoing, to, n) == 1
    ensures n < |Sent(p, to)|
    ensures var p', clocks := PeerPass(p, now), Clocks(p.transmissions, to, n);
            && Count(p'.box.outgoing, to, n) == (if |clocks| == 5 then 0 else 1)
            && Count(p'.expired, to, n) == (if |clocks| == 5 then 1 else 0)
            && Clocks(p'.transmissions, to, n) == clocks +
                 if |clocks| < 5 && now >= Sent(p, to)[n].time + 2_000_000_000 * |clocks| then [now] else []
  {
    assert Conserved(p, to, n);
    CountMember(p.box.outgoing, to, n);
    var e :| e in p.box.outgoing && Is(e, to, n);
    assert TimesAgree(p, e) && Faithful(cfg, p, e);
    PassTransmits(cfg, p, now, e);
    ExhaustedLeaves(p.box.outgoing, e, now);
    CountConcat(p.expired, GivenUp(p.box.outgoing), to, n);
  }

  // ---------- an arrival ----------

  /** A message that arrives at an idle peer is acknowledged to its source in any case. It is delivered, with its number
      and what the frame held, exactly when every message delivered from that source has a smaller number. */
  lemma NewerIsDelivered(cfg: Config, s: System, d: Datagram, n: SeqNum, message: Bytes, now: int)
    requires Reachable(cfg, s) && d in s.net && d.dst in s.peers && s.peers[d.dst].receiver.Idle?
    requires ParseFrame(d.payload) == Some(Packet(n, message)) && message != [97, 99, 107]
    ensures var s1 := Next(cfg, s, ArriveEvent(d));
            var s3 := Next(cfg, Next(cfg, s1, SaveEvent(d.dst)), EnqueueEvent(d.dst, now));
            var was := Delivered(s.peers[d.dst], d.src);
            && s1.net == s3.net == s.net + {Datagram(d.dst, d.src, SeqBytes(n) + [97, 99, 107])}
            && d.dst in s3.peers
            && Delivered(s3.peers[d.dst], d.src) == was +
                 if forall i :: 0 <= i < |was| ==> was[i].seqNum < n
                 then [Queued(now, n, 0, Bound(d.src), Bound(d.dst), message, [])] else []
  {
    NewerIffFresh(cfg, s, d.src, d.dst, n);
    PeerReceives(s.peers[d.dst], d, n, message, now);
    ThreeStepsAtPeer(cfg, s, d, now, AllSteps(s.peers[d.dst], d, now));
    assert Datagrams(d.dst, [Outbound(Bound(d.src), AckFrame(n))]) == {Datagram(d.dst, d.src, AckFrame(n))};
  }

  /** The three steps of the receiving thread. */
  function AllSteps(p: Peer, d: Datagram, now: int): Peer {
    var p1 := PeerArrive(p, d);
    var p2 := if p1.receiver.AckSent? then PeerSave(p1) else p1;
    if p2.receiver.Saved? then PeerEnqueue(p2, now) else p2
  }

  lemma ThreeStepsAtPeer(cfg: Config, s: System, d: Datagram, now: int, p: Peer)
    requires Enabled(cfg, s, ArriveEvent(d)) && p == AllSteps(s.peers[d.dst], d, now)
    ensures var s1 := Next(cfg, s, ArriveEvent(d));
            var s3 := Next(cfg, Next(cfg, s1, SaveEvent(d.dst)), EnqueueEvent(d.dst, now));
            && s1.net == s3.net == s.net + Datagrams(d.dst, Replies(s.peers[d.dst], d))
            && d.dst in s3.peers && s3.peers[d.dst] == p
  {
  }

  lemma PeerReceives(p: Peer, d: Datagram, n: SeqNum, message: Bytes, now: int)
    requires p.receiver.Idle? && ParseFrame(d.payload) == Some(Packet(n, message)) && message != ACK
    ensures Replies(p, d) == [Outbound(Bound(d.src), AckFrame(n))]
    ensures Delivered(AllSteps(p, d, now), d.src) == Delivered(p, d.src) +
              if Fresh(p.box, Bound(d.src), n)
              then [Queued(now, n, 0, Bound(d.src), Bound(d.dst), message, [])] else []
  {
    var p1 := PeerArrive(p, d);
    assert Delivered(p1, d.src) == Delivered(p, d.src);
    assert Delivered(PeerSave(p1), d.src) == Delivered(p, d.src);
    if PeerSave(p1).receiver.Saved? {
      DeliveredGrows(PeerSave(p1), now, d.src);
    }
  }

  lemma NewerIffFresh(cfg: Config, s: System, a: Endpoint, b: Endpoint, n: SeqNum)
    requires Reachable(cfg, s) && b in s.peers && s.peers[b].receiver.Idle?
    ensures var was := Delivered(s.peers[b], a);
            Fresh(s.peers[b].box, Bound(a), n) <==> forall i :: 0 <= i < |was| ==> was[i].seqNum < n
  {
    ReachableInv(cfg, s);
    assert LinkOk(SentBy(s, a, b), s.peers[b], a);
    NewerIffAboveMark(s.peers[b], a, n, Delivered(s.peers[b], a));
  }

  lemma NewerIffAboveMark(p: Peer, a: Endpoint, n: SeqNum, d: seq<Queued>)
    requires p.receiver.Idle? && Increasing(d) && WatermarkOk(p, a, d)
    ensures Fresh(p.box, Bound(a), n) <==> forall i :: 0 <= i < |d| ==> d[i].seqNum < n
  {
  }

  // ---------- an acknowledgement ----------

  /** Exactly the entry of message n to b is taken out of the queue, if there is one. */
  ghost predicate OneLeaves(q: seq<Queued>, q': seq<Queued>, b: Endpoint, n: nat) {
    || (q' == q && forall e :: e in q ==> !Is(e, b, n))
    || (exists i :: 0 <= i < |q| && Is(q[i], b, n) && q' == q[..i] + q[i + 1..])
  }

  /** The acknowledgement of message n by b takes message n to b out of the queue and nothing else, where the two
      identities of addresses agree. */
  lemma AckRemoves(cfg: Config, s: System, d: Datagram, n: SeqNum)
    requires Reachable(cfg, s) && Separated(cfg) && d.src in cfg.peers
    requires Enabled(cfg, s, ArriveEvent(d)) && d.payload == SeqBytes(n) + [97, 99, 107]
    ensures var s1 := Next(cfg, s, ArriveEvent(d));
            && s1.net == s.net && s1.peers[d.dst].receiver.Idle?
            && OneLeaves(s.peers[d.dst].box.outgoing, s1.peers[d.dst].box.outgoing, d.src, n)
            && Delivered(s1.peers[d.dst], d.src) == Delivered(s.peers[d.dst], d.src)
  {
    ReachableInv(cfg, s);
    AckRoundTrip(n);
    var p := s.peers[d.dst];
    var q := p.box.outgoing;
    forall e | e in q ensures Acknowledges(e, Bound(d.src), n) <==> Is(e, d.src, n) {
      assert Faithful(cfg, p, e);
    }
    var i := AckIndex(q, Bound(d.src), n);
    assert Next(cfg, s, ArriveEvent(d)).peers[d.dst].box.outgoing == Without(q, i);
    if i < |q| {
      assert q[i] in q;
    }
  }

  // ---------- what is delivered names its source ----------

  /** An entry from a datagram is labelled with the two ends the socket reported. */
  predicate Labelled(e: Queued, b: Endpoint) {
    && e.from.ip == e.from.resolved == Key(e.from).host && e.to == Address(b.host, b.host, b.port)
    && e.attempts == 0 && e.sentAt == []
  }

  ghost predicate AllLabelled(p: Peer, b: Endpoint) {
    && (forall e :: e in p.box.incoming ==> Labelled(e, b))
    && (forall e :: e in p.handed ==> Labelled(e, b))
    && (!p.receiver.Idle? ==> p.receiver.from == Bound(Key(p.receiver.from)) && p.receiver.to == Bound(b))
  }

  ghost predicate Labels(s: System) {
    forall b :: b in s.peers ==> AllLabelled(s.peers[b], b)
  }

  lemma StepLabels(p: Peer, b: Endpoint, d: Datagram, now: int)
    requires AllLabelled(p, b) && (p.receiver.Idle? ==> d.dst == b)
    ensures p.receiver.Idle? ==> AllLabelled(PeerArrive(p, d), b)
    ensures p.receiver.AckSent? ==> AllLabelled(PeerSave(p), b)
    ensures p.receiver.Saved? ==> AllLabelled(PeerEnqueue(p, now), b)
    ensures p.box.incoming != [] ==> AllLabelled(PeerTake(p), b)
  {
  }

  lemma NextLabels(cfg: Config, s: System, e: Event)
    requires Labels(s)
    ensures Labels(Next(cfg, s, e))
  {
    if Enabled(cfg, s, e) {
      forall b | b in s.peers ensures AllLabelled(Next(cfg, s, e).peers[b], b) {
        StepLabels(s.peers[b], b, if e.ArriveEvent? && e.d.dst == b then e.d else Datagram(b, b, []),
                   if e.EnqueueEvent? then e.now else 0);
      }
    }
  }

  lemma {:induction false} RunLabels(cfg: Config, events: seq<Event>)
    ensures Labels(After(cfg, events))
  {
    if events != [] {
      RunLabels(cfg, events[..|events| - 1]);
      NextLabels(cfg, After(cfg, events[..|events| - 1]), events[|events| - 1]);
    }
  }

  /** In every run, a message that `Receive` returns or will return says where it came from and where it went: `from`
      prints as the source's host and port, `to` is the peer itself. */
  lemma DeliveredAreLabelled(cfg: Config, s: System, b: Endpoint, e: Queued)
    requires Reachable(cfg, s) && b in s.peers && (e in s.peers[b].box.incoming || e in s.peers[b].handed)
    ensures e.to == Address(b.host, b.host, b.port)
    ensures e in Delivered(s.peers[b], Key(e.from))
    ensures e.from.ip == e.from.resolved
    ensures Print(e.from.ip, e.from.port) == Print(Key(e.from).host, Key(e.from).port)
  {
    var events :| After(cfg, events) == s;
    RunLabels(cfg, events);
    assert Labelled(e, b);
    var q := s.peers[b].handed + s.peers[b].box.incoming;
    assert e in q;
    InFromPeer(q, e);
  }

  lemma {:induction false} InFromPeer(q: seq<Queued>, e: Queued)
    requires e in q
    ensures e in FromPeer(q, Key(e.from))
  {
    if e != q[|q| - 1] {
      InFromPeer(q[..|q| - 1], e);
    }
  }
}
