/** What passes hand to the socket, over every run: for each message exactly the attempts of its entry. */
module Transmissions {
  import opened Text
  import opened Addresses
  import opened Frames
  import opened Mailboxes
  import opened Passes
  import opened Network
  import opened NetworkInvariant
  import opened NetworkTheorems

  // ---------- the transmissions of one message ----------

  /** The sequence number on the wire. */
  function NumberOf(payload: Bytes): nat {
    if |payload| < HEADER then 0 else ReadSeqNum(payload[..HEADER])
  }

  lemma NumberOfFrame(n: SeqNum, message: Bytes)
    ensures NumberOf(Frame(n, message)) == n
  {
    assert Frame(n, message)[..HEADER] == SeqBytes(n);
  }

  predicate IsOf(t: Transmission, to: Endpoint, n: nat) {
    Key(t.out.to) == to && NumberOf(t.out.payload) == n
  }

  /** The clock readings of the transmissions of message n to a destination, in order. */
  function Clocks(ts: seq<Transmission>, to: Endpoint, n: nat): seq<int> {
    if ts == [] then [] else
      Clocks(ts[..|ts| - 1], to, n) + if IsOf(ts[|ts| - 1], to, n) then [ts[|ts| - 1].at] else []
  }

  lemma {:induction false} ClocksConcat(p: seq<Transmission>, q: seq<Transmission>, to: Endpoint, n: nat)
    ensures Clocks(p + q, to, n) == Clocks(p, to, n) + Clocks(q, to, n)
  {
    if q == [] {
      assert p + q == p;
    } else {
      ClocksConcat(p, q[..|q| - 1], to, n);
      assert (p + q)[..|p + q| - 1] == p + q[..|q| - 1];
    }
  }

  lemma {:induction false} ClocksNone(ts: seq<Transmission>, to: Endpoint, n: nat)
    requires forall t :: t in ts ==> !IsOf(t, to, n)
    ensures Clocks(ts, to, n) == []
  {
    if ts != [] {
      ClocksNone(ts[..|ts| - 1], to, n);
      assert ts[|ts| - 1] in ts;
    }
  }

  // ---------- the transmissions of one pass ----------

  function PassClocksOne(e: Queued, now: int, to: Endpoint, n: nat): seq<int> {
    if Is(e, to, n) && !Exhausted(e) && Due(e, now) then [now] else []
  }

  function PassClocks(q: seq<Queued>, now: int, to: Endpoint, n: nat): seq<int> {
    if q == [] then [] else PassClocks(q[..|q| - 1], now, to, n) + PassClocksOne(q[|q| - 1], now, to, n)
  }

  lemma StampedConcat(p: seq<Outbound>, q: seq<Outbound>, now: int)
    ensures Stamped(p + q, now) == Stamped(p, now) + Stamped(q, now)
  {
  }

  lemma ClocksOfOne(e: Queued, now: int, to: Endpoint, n: nat)
    ensures Clocks(Stamped(TransmittedOne(e, now), now), to, n) == PassClocksOne(e, now, to, n)
  {
    if !Exhausted(e) && Due(e, now) {
      var t := Transmission(now, Outbound(e.to, Frame(e.seqNum, e.message)));
      NumberOfFrame(e.seqNum, e.message);
      assert Stamped(TransmittedOne(e, now), now) == [t] && [t][..0] == [];
    }
  }

  lemma {:induction false} ClocksOfPass(q: seq<Queued>, now: int, to: Endpoint, n: nat)
    ensures Clocks(Stamped(Transmitted(q, now), now), to, n) == PassClocks(q, now, to, n)
  {
    if q != [] {
      var p, e := q[..|q| - 1], q[|q| - 1];
      ClocksOfPass(p, now, to, n);
      ClocksOfOne(e, now, to, n);
      StampedConcat(Transmitted(p, now), TransmittedOne(e, now), now);
      ClocksConcat(Stamped(Transmitted(p, now), now), Stamped(TransmittedOne(e, now), now), to, n);
    }
  }

  lemma {:induction false} NoClocks(q: seq<Queued>, now: int, to: Endpoint, n: nat)
    requires Count(q, to, n) == 0
    ensures PassClocks(q, now, to, n) == []
  {
    if q != [] {
      NoClocks(q[..|q| - 1], now, to, n);
    }
  }

  /** The one entry of a message decides whether a pass transmits the message. */
  lemma {:induction false} OneClock(q: seq<Queued>, now: int, e: Queued)
    requires e in q && Count(q, Key(e.to), e.seqNum) == 1
    ensures PassClocks(q, now, Key(e.to), e.seqNum) == PassClocksOne(e, now, Key(e.to), e.seqNum)
  {
    var p, l, to, n := q[..|q| - 1], q[|q| - 1], Key(e.to), e.seqNum;
    if Is(l, to, n) {
      CountMember(p, to, n);
      assert Is(e, to, n) && e !in p;
      NoClocks(p, now, to, n);
    } else {
      assert e in p;
      OneClock(p, now, e);
    }
  }

  // ---------- one peer ----------

  /** The entry's attempts are the transmissions of its message. */
  ghost predicate TimesAgree(p: Peer, e: Queued) {
    Clocks(p.transmissions, Key(e.to), e.seqNum) == e.sentAt
  }

  /** What was transmitted is the frame of a message that was sent. */
  ghost predicate Proper(p: Peer, t: Transmission) {
    var n, sent := NumberOf(t.out.payload), Sent(p, Key(t.out.to));
    n < |sent| && n < TWO_64 && t.out.payload == Frame(n, sent[n].message)
  }

  ghost predicate Logged(p: Peer) {
    && (forall e :: e in p.box.outgoing ==> TimesAgree(p, e))
    && (forall e :: e in p.acked ==> TimesAgree(p, e))
    && (forall e :: e in p.expired ==> TimesAgree(p, e))
    && (forall t :: t in p.transmissions ==> Proper(p, t))
  }

  lemma UnsentHasNoClocks(p: Peer, to: Endpoint, n: nat)
    requires Logged(p) && n >= |Sent(p, to)|
    ensures Clocks(p.transmissions, to, n) == []
  {
    forall t | t in p.transmissions ensures !IsOf(t, to, n) {
      assert Proper(p, t);
    }
    ClocksNone(p.transmissions, to, n);
  }

  lemma SendKeepsLogged(cfg: Config, p: Peer, now: int, to: Address, message: Bytes)
    requires SenderOk(cfg, p) && MaySend(cfg, p, to, message) && Logged(p)
    ensures Logged(PeerSend(p, now, to, message))
  {
    var p' := PeerSend(p, now, to, message);
    SendCounts(cfg, p, now, to, message, Key(to));
    UnsentHasNoClocks(p, Key(to), |Sent(p, Key(to))|);
    var m := Queued(now, NextSeqNum(p.box, to), 0, NOWHERE, to, message, []);
    assert p'.box.outgoing == p.box.outgoing + [m] && TimesAgree(p', m);
    forall e | TimesAgree(p, e) ensures TimesAgree(p', e) {
    }
    forall t | t in p'.transmissions ensures Proper(p', t) {
      MoreSentIsProper(p, p', t);
    }
  }

  lemma MoreSentIsProper(p: Peer, p': Peer, t: Transmission)
    requires Proper(p, t) && Sent(p, Key(t.out.to)) <= Sent(p', Key(t.out.to))
    ensures Proper(p', t)
  {
  }

  /** A message with an entry among the acknowledged or expired ones is not transmitted any more. */
  lemma PassLeavesAlone(cfg: Config, p: Peer, now: int, e: Queued)
    requires SenderOk(cfg, p) && TimesAgree(p, e) && (e in p.acked || e in p.expired)
    ensures TimesAgree(PeerPass(p, now), e)
  {
    var to, n := Key(e.to), e.seqNum;
    assert Is(e, to, n) && Conserved(p, to, n);
    CountMember(p.acked, to, n);
    CountMember(p.expired, to, n);
    NoClocks(p.box.outgoing, now, to, n);
    PassAddsClocks(p, now, to, n);
  }

  lemma PassAddsClocks(p: Peer, now: int, to: Endpoint, n: nat)
    ensures Clocks(PeerPass(p, now).transmissions, to, n)
         == Clocks(p.transmissions, to, n) + PassClocks(p.box.outgoing, now, to, n)
  {
    ClocksConcat(p.transmissions, Stamped(Transmitted(p.box.outgoing, now), now), to, n);
    ClocksOfPass(p.box.outgoing, now, to, n);
  }

  /** A queued message is transmitted by the pass exactly when its entry is due. */
  lemma PassTransmits(cfg: Config, p: Peer, now: int, o: Queued)
    requires SenderOk(cfg, p) && TimesAgree(p, o) && o in p.box.outgoing
    ensures Clocks(PeerPass(p, now).transmissions, Key(o.to), o.seqNum)
         == o.sentAt + if !Exhausted(o) && Due(o, now) then [now] else []
  {
    var to, n := Key(o.to), o.seqNum;
    assert Is(o, to, n) && Conserved(p, to, n);
    CountMember(p.box.outgoing, to, n);
    OneClock(p.box.outgoing, now, o);
    PassAddsClocks(p, now, to, n);
  }

  lemma PassKeepsTimes(cfg: Config, p: Peer, now: int)
    requires SenderOk(cfg, p) && Logged(p)
    ensures forall e :: e in PeerPass(p, now).box.outgoing ==> TimesAgree(PeerPass(p, now), e)
    ensures forall e :: e in PeerPass(p, now).acked ==> TimesAgree(PeerPass(p, now), e)
    ensures forall e :: e in PeerPass(p, now).expired ==> TimesAgree(PeerPass(p, now), e)
  {
    var p', q := PeerPass(p, now), p.box.outgoing;
    forall e | e in p'.box.outgoing ensures TimesAgree(p', e) {
      KeptFrom(q, now, e);
      var o :| o in q && !Exhausted(o) && e == (if Due(o, now) then Attempted(o, now) else o);
      PassTransmits(cfg, p, now, o);
    }
    forall e | e in p'.acked ensures TimesAgree(p', e) {
      PassLeavesAlone(cfg, p, now, e);
    }
    forall e | e in p'.expired ensures TimesAgree(p', e) {
      if e in p.expired {
        PassLeavesAlone(cfg, p, now, e);
      } else {
        GivenUpFrom(q, e);
        PassTransmits(cfg, p, now, e);
      }
    }
  }

  lemma PassKeepsLogged(cfg: Config, p: Peer, now: int)
    requires SenderOk(cfg, p) && Logged(p)
    ensures Logged(PeerPass(p, now))
  {
    var p', q := PeerPass(p, now), p.box.outgoing;
    PassKeepsTimes(cfg, p, now);
    forall t | t in p'.transmissions ensures Proper(p', t) {
      if t in p.transmissions {
        assert Proper(p, t);
      } else {
        TransmittedFrom(q, now, t.out);
        var e :| e in q && t.out == Outbound(e.to, Frame(e.seqNum, e.message));
        assert Faithful(cfg, p, e);
        NumberOfFrame(e.seqNum, e.message);
      }
    }
  }

  /** Steps that only move entries between the three lists. */
  lemma SameLog(p: Peer, p': Peer)
    requires Logged(p) && p'.transmissions == p.transmissions && p'.sent == p.sent && p'.expired == p.expired
    requires forall e :: e in p'.box.outgoing ==> e in p.box.outgoing
    requires forall e :: e in p'.acked ==> e in p.acked || e in p.box.outgoing
    ensures Logged(p')
  {
    forall e | TimesAgree(p, e) ensures TimesAgree(p', e) {
    }
    forall t | Proper(p, t) ensures Proper(p', t) {
    }
  }

  lemma ArriveKeepsLogged(p: Peer, d: Datagram)
    requires Logged(p)
    ensures Logged(PeerArrive(p, d))
  {
    SameLog(p, PeerArrive(p, d));
  }

  // ---------- every run ----------

  /** A datagram is an acknowledgement, or it was transmitted by a pass of its source. */
  ghost predicate FromLog(p: Peer, d: Datagram) {
    || (exists n: SeqNum :: d.payload == AckFrame(n))
    || (exists t :: t in p.transmissions && Key(t.out.to) == d.dst && t.out.payload == d.payload)
  }

  ghost predicate LogOk(s: System) {
    && (forall a :: a in s.peers ==> Logged(s.peers[a]))
    && (forall d :: d in s.net ==> d.src in s.peers && FromLog(s.peers[d.src], d))
  }

  lemma PeerStepKeepsLog(s: System, at: Endpoint, p': Peer, net': set<Datagram>)
    requires LogOk(s) && at in s.peers && Logged(p') && s.peers[at].transmissions <= p'.transmissions
    requires forall d :: d in net' && d !in s.net ==> d.src == at && FromLog(p', d)
    ensures LogOk(System(s.peers[at := p'], net'))
  {
    var s' := System(s.peers[at := p'], net');
    forall d | d in s'.net ensures d.src in s'.peers && FromLog(s'.peers[d.src], d) {
      if d in s.net && d.src == at {
        assert FromLog(s.peers[at], d);
      }
    }
  }

  lemma PassKeepsLog(cfg: Config, s: System, at: Endpoint, now: int)
    requires Inv(cfg, s) && LogOk(s) && at in s.peers
    ensures LogOk(Next(cfg, s, PassEvent(at, now)))
  {
    var p, p' := s.peers[at], PeerPass(s.peers[at], now);
    var out := Transmitted(p.box.outgoing, now);
    PassKeepsLogged(cfg, p, now);
    forall d | d in Datagrams(at, out) ensures d.src == at && FromLog(p', d) {
      var i :| 0 <= i < |out| && d == Datagram(at, Key(out[i].to), out[i].payload);
      var t := p'.transmissions[|p.transmissions| + i];
      assert t in p'.transmissions && t.out == out[i];
    }
    PeerStepKeepsLog(s, at, p', s.net + Datagrams(at, out));
  }

  lemma ArriveKeepsLog(s: System, d: Datagram)
    requires LogOk(s) && d.dst in s.peers
    ensures LogOk(System(s.peers[d.dst := PeerArrive(s.peers[d.dst], d)],
                         s.net + Datagrams(d.dst, Replies(s.peers[d.dst], d))))
  {
    var p := s.peers[d.dst];
    ArriveKeepsLogged(p, d);
    forall r | r in Datagrams(d.dst, Replies(p, d)) ensures r.src == d.dst && FromLog(PeerArrive(p, d), r) {
      assert r.payload == AckFrame(ParseFrame(d.payload).value.seqNum);
    }
    PeerStepKeepsLog(s, d.dst, PeerArrive(p, d), s.net + Datagrams(d.dst, Replies(p, d)));
  }

  lemma NextKeepsLog(cfg: Config, s: System, e: Event)
    requires Inv(cfg, s) && LogOk(s)
    ensures LogOk(Next(cfg, s, e))
  {
    if Enabled(cfg, s, e) {
      match e {
        case SendEvent(at, now, to, message) =>
          SendKeepsLogged(cfg, s.peers[at], now, to, message);
          PeerStepKeepsLog(s, at, PeerSend(s.peers[at], now, to, message), s.net);
        case PassEvent(at, now) => PassKeepsLog(cfg, s, at, now);
        case ArriveEvent(d) => ArriveKeepsLog(s, d);
        case SaveEvent(at) =>
          SameLog(s.peers[at], PeerSave(s.peers[at]));
          PeerStepKeepsLog(s, at, PeerSave(s.peers[at]), s.net);
        case EnqueueEvent(at, now) =>
          SameLog(s.peers[at], PeerEnqueue(s.peers[at], now));
          PeerStepKeepsLog(s, at, PeerEnqueue(s.peers[at], now), s.net);
        case TakeEvent(at) =>
          SameLog(s.peers[at], PeerTake(s.peers[at]));
          PeerStepKeepsLog(s, at, PeerTake(s.peers[at]), s.net);
        case LoseEvent(d) =>
      }
    }
  }

  lemma {:induction false} RunLog(cfg: Config, events: seq<Event>)
    ensures LogOk(After(cfg, events))
  {
    if events != [] {
      RunInv(cfg, events[..|events| - 1]);
      RunLog(cfg, events[..|events| - 1]);
      NextKeepsLog(cfg, After(cfg, events[..|events| - 1]), events[|events| - 1]);
    }
  }

  // ---------- the schedule, of what is transmitted ----------

  /** In every run, in number and in clock readings, the transmissions of a message are the attempts of its
      entry, wherever that entry is. */
  lemma TransmissionsAreAttempts(cfg: Config, s: System, a: Endpoint, e: Queued)
    requires Reachable(cfg, s) && a in s.peers
    requires e in s.peers[a].box.outgoing || e in s.peers[a].acked || e in s.peers[a].expired
    ensures Clocks(s.peers[a].transmissions, Key(e.to), e.seqNum) == e.sentAt
  {
    var events :| After(cfg, events) == s;
    RunLog(cfg, events);
    assert TimesAgree(s.peers[a], e);
  }

  lemma EntryExists(cfg: Config, p: Peer, to: Endpoint, n: nat) returns (e: Queued)
    requires SenderOk(cfg, p) && n < |Sent(p, to)|
    ensures e in p.box.outgoing || e in p.acked || e in p.expired
    ensures Is(e, to, n) && Faithful(cfg, p, e)
  {
    assert Conserved(p, to, n);
    CountMember(p.box.outgoing, to, n);
    CountMember(p.acked, to, n);
    CountMember(p.expired, to, n);
    e :| (e in p.box.outgoing || e in p.acked || e in p.expired) && Is(e, to, n);
  }

  /** In every run message n is transmitted at most five times, the k-th time (from 0) at a clock reading at
      least 2k seconds after it was passed to `Send`, and not at all if it never was. */
  lemma TransmissionsAreOnSchedule(cfg: Config, s: System, a: Endpoint, to: Endpoint, n: nat)
    requires Reachable(cfg, s) && a in s.peers
    ensures var clocks, sent := Clocks(s.peers[a].transmissions, to, n), Sent(s.peers[a], to);
            if n >= |sent| then clocks == []
            else
              && |clocks| <= 5
              && forall k :: 0 <= k < |clocks| ==> clocks[k] >= sent[n].time + k * 2_000_000_000
  {
    var events :| After(cfg, events) == s;
    RunLog(cfg, events);
    ReachableInv(cfg, s);
    if n >= |Sent(s.peers[a], to)| {
      UnsentHasNoClocks(s.peers[a], to, n);
    } else {
      var e := EntryExists(cfg, s.peers[a], to, n);
      TransmissionsAreAttempts(cfg, s, a, e);
    }
  }

  /** A message is given up only after five transmissions. */
  lemma GivenUpAfterFive(cfg: Config, s: System, a: Endpoint, e: Queued)
    requires Reachable(cfg, s) && a in s.peers && e in s.peers[a].expired
    ensures |Clocks(s.peers[a].transmissions, Key(e.to), e.seqNum)| == 5
  {
    TransmissionsAreAttempts(cfg, s, a, e);
    RetriesAreOnSchedule(cfg, s, a, e);
  }

  /** In every run what is in the network and is not an acknowledgement was transmitted by a pass, and is the
      frame of a message that was sent, under its number. */
  lemma NetworkIsLogged(cfg: Config, s: System, d: Datagram)
    requires Reachable(cfg, s) && d in s.net
    ensures d.src in s.peers
    ensures || (exists n: SeqNum :: d.payload == AckFrame(n))
            || (exists t :: t in s.peers[d.src].transmissions && Proper(s.peers[d.src], t)
                            && Key(t.out.to) == d.dst && t.out.payload == d.payload)
  {
    var events :| After(cfg, events) == s;
    RunLog(cfg, events);
    assert FromLog(s.peers[d.src], d);
  }
}
