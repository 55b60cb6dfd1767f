/** Runs in which the 64-bit counters may wrap: messages stay in order exactly as long as they do not. */
module Wrapping {
  import opened Text
  import opened Addresses
  import opened Frames
  import opened Mailboxes
  import opened Passes
  import opened Network
  import opened NetworkInvariant
  import opened NetworkTheorems
  import opened Acknowledgements

  // ---------- runs with so many messages to a destination ----------

  /** At most so many messages are passed to `Send` for one destination; the counter does not matter. */
  predicate MaySendUpTo(cfg: Config, most: nat, p: Peer, to: Address, message: Bytes) {
    && to in cfg.book && !LooksLikeAck(message) && |Sent(p, Key(to))| < most
    && (cfg.limit.AtMost? ==> Outstanding(p.box.outgoing, Key(to)) < cfg.limit.n)
  }

  function NextUpTo(cfg: Config, most: nat, s: System, e: Event): System {
    match e
    case SendEvent(at, now, to, message) =>
      if at in s.peers && MaySendUpTo(cfg, most, s.peers[at], to, message)
      then s.(peers := s.peers[at := PeerSend(s.peers[at], now, to, message)])
      else s
    case _ => Next(cfg, s, e)
  }

  function AfterUpTo(cfg: Config, most: nat, events: seq<Event>): System {
    if events == [] then Start(cfg)
    else NextUpTo(cfg, most, AfterUpTo(cfg, most, events[..|events| - 1]), events[|events| - 1])
  }

  ghost predicate ReachableUpTo(cfg: Config, most: nat, s: System) {
    exists events :: AfterUpTo(cfg, most, events) == s
  }

  lemma ReachNextUpTo(cfg: Config, most: nat, s: System, e: Event)
    requires ReachableUpTo(cfg, most, s)
    ensures ReachableUpTo(cfg, most, NextUpTo(cfg, most, s, e))
  {
    var events :| AfterUpTo(cfg, most, events) == s;
    var more := events + [e];
    assert more[..|more| - 1] == events;
    assert AfterUpTo(cfg, most, more) == NextUpTo(cfg, most, s, e);
  }

  // ---------- without a wrap ----------

  /** As long as there are no more messages than numbers, a counter that is asked for a number has one left. */
  lemma NumbersAreLeft(cfg: Config, most: nat, s: System, at: Endpoint, now: int, to: Address, message: Bytes)
    requires Inv(cfg, s) && most <= TWO_64 && at in s.peers && MaySendUpTo(cfg, most, s.peers[at], to, message)
    ensures Enabled(cfg, s, SendEvent(at, now, to, message))
  {
    assert Counted(s.peers[at], Key(to));
  }

  lemma {:induction false} UpToKeepsInv(cfg: Config, most: nat, events: seq<Event>)
    requires most <= TWO_64
    ensures Inv(cfg, AfterUpTo(cfg, most, events))
  {
    if events == [] {
      StartInv(cfg);
    } else {
      var s, e := AfterUpTo(cfg, most, events[..|events| - 1]), events[|events| - 1];
      UpToKeepsInv(cfg, most, events[..|events| - 1]);
      NextKeepsInv(cfg, s, e);
      if e.SendEvent? && e.at in s.peers && MaySendUpTo(cfg, most, s.peers[e.at], e.to, e.message) {
        NumbersAreLeft(cfg, most, s, e.at, e.now, e.to, e.message);
      }
    }
  }

  // ---------- messages nobody hears ----------

  const LATE: int := (MAX_RETRIES - 1) * RECEIVE_TIMEOUT

  /** n empty messages that p has passed to `Send` for itself. */
  function Nothings(n: nat): seq<Original> {
    seq(n, i => Original(0, []))
  }

  /** p has sent itself `sent`, given all of it up, and heard nothing. */
  ghost predicate Unheard(s: System, p: Endpoint, sent: seq<Original>) {
    && p in s.peers
    && var q := s.peers[p];
    && q.box.outgoing == [] && q.box.incoming == [] && q.handed == [] && q.receiver.Idle?
    && q.box.incomingSeqNums == map[] && Sent(q, p) == sent
    && if sent == [] then p !in q.box.outgoingSeqNums
       else p in q.box.outgoingSeqNums && q.box.outgoingSeqNums[p] == (|sent| - 1) % TWO_64
  }

  lemma NextNumber(n: nat)
    requires n > 0
    ensures ((n - 1) % TWO_64 + 1) % TWO_64 == n % TWO_64
  {
  }

  /** The queue is passed over, and everything else only seen by the network. */
  ghost predicate OnlyPassed(s: System, s': System, p: Endpoint, q: seq<Queued>) {
    && p in s.peers && p in s'.peers && s.net <= s'.net && s'.peers[p].box == s.peers[p].box.(outgoing := q)
    && s'.peers[p].handed == s.peers[p].handed && s'.peers[p].receiver == s.peers[p].receiver
    && s'.peers[p].sent == s.peers[p].sent
  }

  lemma {:induction false} PassesOver(cfg: Config, most: nat, s: System, p: Endpoint,
                                      clocks: seq<int>) returns (s': System)
    requires ReachableUpTo(cfg, most, s) && p in s.peers
    ensures ReachableUpTo(cfg, most, s') && OnlyPassed(s, s', p, AfterPasses(s.peers[p].box.outgoing, clocks))
    ensures clocks != [] ==>
              Datagrams(p, Transmitted(s.peers[p].box.outgoing, clocks[0])) <= s'.net
    decreases |clocks|
  {
    s' := s;
    if clocks != [] {
      var s1 := NextUpTo(cfg, most, s, PassEvent(p, clocks[0]));
      ReachNextUpTo(cfg, most, s, PassEvent(p, clocks[0]));
      s' := PassesOver(cfg, most, s1, p, clocks[1..]);
    }
  }

  lemma OneIsGivenUp(e: Queued)
    requires e.time == 0 && e.attempts == 0
    ensures var clocks := [LATE, LATE, LATE, LATE, LATE, LATE];
            AfterPasses([e], clocks) == []
            && Transmitted([e], clocks[0]) == [Outbound(e.to, Frame(e.seqNum, e.message))]
  {
    var clocks := [LATE, LATE, LATE, LATE, LATE, LATE];
    assert Late([e], clocks);
    SixPassesDrain([e], clocks);
    LateIsDue(e, LATE);
    assert [e][..0] == [];
    assert Transmitted([e], LATE) == Transmitted([], LATE) + TransmittedOne(e, LATE);
  }

  /** The entry of the message. */
  function EntryOf(n: SeqNum, to: Address, message: Bytes): Queued {
    Queued(0, n, 0, NOWHERE, to, message, [])
  }

  /** One more message is sent; its number may have been used before. */
  lemma SendsOne(cfg: Config, most: nat, s: System, p: Endpoint, y: Address, sent: seq<Original>, message: Bytes)
    returns (s': System)
    requires ReachableUpTo(cfg, most, s) && Unheard(s, p, sent) && |sent| < most
    requires y in cfg.book && Key(y) == p && !LooksLikeAck(message) && cfg.limit != AtMost(0)
    ensures ReachableUpTo(cfg, most, s') && p in s'.peers && s'.net == s.net
    ensures var n, q := |sent| % TWO_64, s'.peers[p];
            && q.box == s.peers[p].box.(outgoing := [EntryOf(n, y, message)],
                                        outgoingSeqNums := s.peers[p].box.outgoingSeqNums[p := n])
            && Sent(q, p) == sent + [Original(0, message)]
            && q.handed == s.peers[p].handed && q.receiver == s.peers[p].receiver
  {
    var e := SendEvent(p, 0, y, message);
    if |sent| > 0 {
      NextNumber(|sent|);
    }
    assert NextSeqNum(s.peers[p].box, y) == |sent| % TWO_64;
    assert [] + [EntryOf(|sent| % TWO_64, y, message)] == [EntryOf(|sent| % TWO_64, y, message)];
    s' := NextUpTo(cfg, most, s, e);
    ReachNextUpTo(cfg, most, s, e);
  }

  /** It is transmitted five times, answered by nobody, and given up. */
  lemma LosesOne(cfg: Config, most: nat, s: System, p: Endpoint, y: Address, sent: seq<Original>, message: Bytes)
    returns (s': System)
    requires ReachableUpTo(cfg, most, s) && Unheard(s, p, sent) && |sent| < most
    requires y in cfg.book && Key(y) == p && !LooksLikeAck(message) && cfg.limit != AtMost(0)
    ensures ReachableUpTo(cfg, most, s') && Unheard(s', p, sent + [Original(0, message)])
    ensures s.net <= s'.net && Datagram(p, p, Frame(|sent| % TWO_64, message)) in s'.net
  {
    var n := |sent| % TWO_64;
    var s1 := SendsOne(cfg, most, s, p, y, sent, message);
    var e := EntryOf(n, y, message);
    OneIsGivenUp(e);
    s' := PassesOver(cfg, most, s1, p, [LATE, LATE, LATE, LATE, LATE, LATE]);
    var o := Outbound(y, Frame(n, message));
    assert o in [o];
  }

  lemma OneNothingMore(n: nat)
    requires n > 0
    ensures Nothings(n - 1) + [Original(0, [])] == Nothings(n)
    ensures n == 2 ==> |Nothings(n - 1)| % TWO_64 == 1
  {
  }

  lemma {:induction false} LosesMany(cfg: Config, most: nat, p: Endpoint, y: Address, n: nat) returns (s: System)
    requires p in cfg.peers && y in cfg.book && Key(y) == p && cfg.limit != AtMost(0) && n <= most
    ensures ReachableUpTo(cfg, most, s) && Unheard(s, p, Nothings(n))
    ensures n >= 2 ==> Datagram(p, p, Frame(1, [])) in s.net
  {
    if n == 0 {
      s := Start(cfg);
      assert AfterUpTo(cfg, most, []) == s;
      assert Nothings(0) == [];
    } else {
      var s1 := LosesMany(cfg, most, p, y, n - 1);
      EmptyIsNoAck();
      s := LosesOne(cfg, most, s1, p, y, Nothings(n - 1), []);
      OneNothingMore(n);
    }
  }

  // ---------- the run that goes wrong ----------

  /** A frame of p to itself arrives, is fresh and is delivered. */
  lemma FrameIsDelivered(cfg: Config, most: nat, s: System, p: Endpoint, n: SeqNum, message: Bytes) returns (s': System)
    requires ReachableUpTo(cfg, most, s) && p in s.peers && s.peers[p].receiver.Idle? && s.peers[p].handed == []
    requires Datagram(p, p, Frame(n, message)) in s.net && n < 10 && Canonical(message) == message && message != ACK
    requires p in s.peers[p].box.incomingSeqNums ==> s.peers[p].box.incomingSeqNums[p] < n
    ensures ReachableUpTo(cfg, most, s') && p in s'.peers && s.net <= s'.net
    ensures var q, q' := s.peers[p], s'.peers[p];
            && q'.receiver.Idle? && q'.handed == [] && q'.sent == q.sent
            && q'.box.incomingSeqNums == q.box.incomingSeqNums[p := n]
            && q'.box.incoming == q.box.incoming + [Queued(0, n, 0, Bound(p), Bound(p), message, [])]
  {
    var d := Datagram(p, p, Frame(n, message));
    FrameParses(n, message);
    assert Key(Bound(p)) == p;
    var s1 := NextUpTo(cfg, most, s, ArriveEvent(d));
    ReachNextUpTo(cfg, most, s, ArriveEvent(d));
    var s2 := NextUpTo(cfg, most, s1, SaveEvent(p));
    ReachNextUpTo(cfg, most, s1, SaveEvent(p));
    s' := NextUpTo(cfg, most, s2, EnqueueEvent(p, 0));
    ReachNextUpTo(cfg, most, s2, EnqueueEvent(p, 0));
  }

  lemma FrameParses(n: SeqNum, message: Bytes)
    requires n < 10 && Canonical(message) == message
    ensures ParseFrame(Frame(n, message)) == Some(Packet(n, message))
  {
    FrameRoundTripIff(n);
  }

  lemma ByteIsCanonical()
    ensures Canonical([1]) == [1] && !LooksLikeAck([1]) && Canonical([]) == []
  {
    var b: Bytes := [1];
    TrimIs(b, b);
    assert Canonical([]) == [];
  }

  lemma DeliveredTwo(q: Peer, p: Endpoint, x: Queued, y: Queued)
    requires q.handed == [] && q.box.incoming == [x, y] && Key(x.from) == p && Key(y.from) == p
    ensures Messages(Delivered(q, p)) == [x.message, y.message]
  {
    assert q.handed + q.box.incoming == [x, y];
    assert [x, y][..1] == [x] && [x][..0] == [];
    assert FromPeer([x], p) == [x] && FromPeer([x, y], p) == [x, y];
  }

  /** Nothing comes after the last. */
  lemma LastIsLast(ys: seq<Bytes>, a: Bytes, b: Bytes)
    requires ys != [] && forall i :: 0 <= i < |ys| - 1 ==> ys[i] != a
    ensures !IsSubsequence([a, b], ys)
  {
    var xs := [a, b];
    forall f ensures !Embeds(f, xs, ys) {
      if Embeds(f, xs, ys) {
        FirstOfTwo(f, xs, ys);
      }
    }
  }

  lemma FirstOfTwo(f: seq<nat>, xs: seq<Bytes>, ys: seq<Bytes>)
    requires Embeds(f, xs, ys) && |xs| == 2
    ensures f[0] < |ys| - 1 && ys[f[0]] == xs[0]
  {
    assert f[0] < f[1];
  }

  /** With one message more than there are numbers, the last one, whose number is 0 again, can arrive first; an
      early one that the network has kept is then delivered after it. */
  lemma WrapBreaksTheOrder(cfg: Config, most: nat, p: Endpoint, y: Address) returns (s: System)
    requires p in cfg.peers && y in cfg.book && Key(y) == p && cfg.limit != AtMost(0) && most > TWO_64
    ensures ReachableUpTo(cfg, most, s) && p in s.peers
    ensures !IsSubsequence(Messages(Delivered(s.peers[p], p)), OnTheWire(SentBy(s, p, p)))
  {
    ByteIsCanonical();
    var s1 := LosesMany(cfg, most, p, y, TWO_64);
    var s2 := LosesOne(cfg, most, s1, p, y, Nothings(TWO_64), [1]);
    var s3 := FrameIsDelivered(cfg, most, s2, p, 0, [1]);
    s := FrameIsDelivered(cfg, most, s3, p, 1, []);
    DeliveredTwo(s.peers[p], p, Queued(0, 0, 0, Bound(p), Bound(p), [1], []),
                 Queued(0, 1, 0, Bound(p), Bound(p), [], []));
    var sent := Nothings(TWO_64) + [Original(0, [1])];
    assert SentBy(s, p, p) == sent;
    forall i | 0 <= i < |OnTheWire(sent)| - 1 ensures OnTheWire(sent)[i] != [1] {
      assert sent[i] == Nothings(TWO_64)[i];
    }
    LastIsLast(OnTheWire(sent), [1], []);
  }

  // ---------- the exact condition ----------

  /** In all runs with at most so many messages to a destination every message is delivered in order and at most
      once, if and only if there are no more messages than numbers, so that no counter wraps. */
  lemma InOrderIffNoWrap(cfg: Config, most: nat)
    requires Addressable(cfg) && cfg.peers != {} && cfg.limit != AtMost(0)
    ensures (forall s, a, b :: ReachableUpTo(cfg, most, s) && b in s.peers ==>
               IsSubsequence(Messages(Delivered(s.peers[b], a)), OnTheWire(SentBy(s, a, b))))
       <==> most <= TWO_64
  {
    if most <= TWO_64 {
      forall s, a, b | ReachableUpTo(cfg, most, s) && b in s.peers
        ensures IsSubsequence(Messages(Delivered(s.peers[b], a)), OnTheWire(SentBy(s, a, b)))
      {
        var events :| AfterUpTo(cfg, most, events) == s;
        UpToKeepsInv(cfg, most, events);
        InvIsInOrder(cfg, s, a, b);
      }
    } else {
      var p :| p in cfg.peers;
      var y :| y in cfg.book && Key(y) == p;
      var s := WrapBreaksTheOrder(cfg, most, p, y);
    }
  }
}
