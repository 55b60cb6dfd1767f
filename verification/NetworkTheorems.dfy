/** What every run over the network guarantees, and exactly when acknowledgements mean delivery. */
module NetworkTheorems {
  import opened Text
  import opened Addresses
  import opened Frames
  import opened Mailboxes
  import opened Passes
  import opened Network
  import opened NetworkInvariant

  ghost predicate Reachable(cfg: Config, s: System) {
    exists events :: After(cfg, events) == s
  }

  lemma ReachableInv(cfg: Config, s: System)
    requires Reachable(cfg, s)
    ensures Inv(cfg, s)
  {
    var events :| After(cfg, events) == s;
    RunInv(cfg, events);
  }

  lemma ReachNext(cfg: Config, s: System, e: Event)
    requires Reachable(cfg, s)
    ensures Reachable(cfg, Next(cfg, s, e))
  {
    var events :| After(cfg, events) == s;
    var more := events + [e];
    assert more[..|more| - 1] == events;
    assert After(cfg, more) == Next(cfg, s, e);
  }

  // ---------- in order, at most once ----------

  ghost predicate Embeds(f: seq<nat>, xs: seq<Bytes>, ys: seq<Bytes>) {
    && |f| == |xs|
    && (forall i, j :: 0 <= i < j < |f| ==> f[i] < f[j])
    && (forall i :: 0 <= i < |f| ==> f[i] < |ys| && xs[i] == ys[f[i]])
  }

  /** xs is ys with some elements left out. */
  ghost predicate IsSubsequence(xs: seq<Bytes>, ys: seq<Bytes>) {
    exists f :: Embeds(f, xs, ys)
  }

  function Messages(d: seq<Queued>): seq<Bytes> {
    seq(|d|, i requires 0 <= i < |d| => d[i].message)
  }

  /** What was sent, cut to the 65499 bytes a frame has room for and trimmed of newlines. */
  function OnTheWire(sent: seq<Original>): seq<Bytes> {
    seq(|sent|, i requires 0 <= i < |sent| =>
      Trim(if |sent[i].message| <= 65499 then sent[i].message else sent[i].message[..65499]))
  }

  lemma IncreasingIsSubsequence(d: seq<Queued>, sent: seq<Original>)
    requires Increasing(d) && forall i :: 0 <= i < |d| ==> Genuine(sent, d[i].seqNum, d[i].message)
    ensures IsSubsequence(Messages(d), OnTheWire(sent))
  {
    var f: seq<nat> := seq(|d|, i requires 0 <= i < |d| => d[i].seqNum as nat);
    assert Embeds(f, Messages(d), OnTheWire(sent));
  }

  /** In every run, what reaches b's queue from a is what a passed to `Send(b, _)`, in order, each at
      most once, with some left out. */
  lemma InOrderAtMostOnce(cfg: Config, s: System, a: Endpoint, b: Endpoint)
    requires Reachable(cfg, s) && b in s.peers
    ensures IsSubsequence(Messages(Delivered(s.peers[b], a)), OnTheWire(SentBy(s, a, b)))
  {
    ReachableInv(cfg, s);
    InvIsInOrder(cfg, s, a, b);
  }

  lemma InvIsInOrder(cfg: Config, s: System, a: Endpoint, b: Endpoint)
    requires Inv(cfg, s) && b in s.peers
    ensures IsSubsequence(Messages(Delivered(s.peers[b], a)), OnTheWire(SentBy(s, a, b)))
  {
    assert LinkOk(SentBy(s, a, b), s.peers[b], a);
    IncreasingIsSubsequence(Delivered(s.peers[b], a), SentBy(s, a, b));
  }

  lemma {:induction false} FromPeerConcat(p: seq<Queued>, q: seq<Queued>, a: Endpoint)
    ensures FromPeer(p + q, a) == FromPeer(p, a) + FromPeer(q, a)
  {
    if q == [] {
      assert p + q == p;
    } else {
      FromPeerConcat(p, q[..|q| - 1], a);
      assert (p + q)[..|p + q| - 1] == p + q[..|q| - 1];
    }
  }

  /** The same for the messages the application has taken so far. */
  lemma TakenInOrder(cfg: Config, s: System, a: Endpoint, b: Endpoint)
    requires Reachable(cfg, s) && b in s.peers
    ensures IsSubsequence(Messages(FromPeer(s.peers[b].handed, a)), OnTheWire(SentBy(s, a, b)))
  {
    ReachableInv(cfg, s);
    var p := s.peers[b];
    FromPeerConcat(p.handed, p.box.incoming, a);
    assert LinkOk(SentBy(s, a, b), p, a);
    var taken := FromPeer(p.handed, a);
    assert forall i :: 0 <= i < |taken| ==> taken[i] == Delivered(p, a)[i];
    IncreasingIsSubsequence(taken, SentBy(s, a, b));
  }

  /** In every run the watermark for a peer is the number of the last message delivered from it; while a
      message is in the hands of the receiving thread, the number of that one. */
  lemma WatermarkIsLastDelivered(cfg: Config, s: System, a: Endpoint, b: Endpoint)
    requires Reachable(cfg, s) && b in s.peers
    ensures Increasing(Delivered(s.peers[b], a)) && WatermarkOk(s.peers[b], a, Delivered(s.peers[b], a))
  {
    ReachableInv(cfg, s);
    assert LinkOk(SentBy(s, a, b), s.peers[b], a);
  }

  // ---------- conservation and the retry schedule ----------

  /** In every run the numbers issued to a destination are 0, 1, 2, ... in the order of sending, and those in
      the queue are strictly increasing per destination. */
  lemma NumbersAreInOrder(cfg: Config, s: System, a: Endpoint, to: Address)
    requires Reachable(cfg, s) && a in s.peers
    ensures |Sent(s.peers[a], Key(to))| < TWO_64 ==> NextSeqNum(s.peers[a].box, to) == |Sent(s.peers[a], Key(to))|
    ensures Ordered(s.peers[a].box.outgoing)
  {
    ReachableInv(cfg, s);
    assert Counted(s.peers[a], Key(to));
  }

  /** In every run, message n to b is queued, acked or expired, exactly one of them and once, if it was
      ever sent, and none of them otherwise. */
  lemma MessagesAreConserved(cfg: Config, s: System, a: Endpoint, to: Endpoint, n: nat)
    requires Reachable(cfg, s) && a in s.peers
    ensures var p := s.peers[a];
            Count(p.box.outgoing, to, n) + Count(p.acked, to, n) + Count(p.expired, to, n)
              == if n < |Sent(p, to)| then 1 else 0
  {
    ReachableInv(cfg, s);
    assert Conserved(s.peers[a], to, n);
  }

  /** In every run, each attempt at a message was made on schedule, there were at most five, and a message
      was given up after exactly five. */
  lemma RetriesAreOnSchedule(cfg: Config, s: System, a: Endpoint, e: Queued)
    requires Reachable(cfg, s) && a in s.peers
    requires e in s.peers[a].box.outgoing || e in s.peers[a].acked || e in s.peers[a].expired
    ensures OnSchedule(e) && e.seqNum < |Sent(s.peers[a], Key(e.to))|
    ensures Sent(s.peers[a], Key(e.to))[e.seqNum] == Original(e.time, e.message)
    ensures e in s.peers[a].expired ==> |e.sentAt| == MAX_RETRIES
  {
    ReachableInv(cfg, s);
    assert Faithful(cfg, s.peers[a], e);
  }

  // ---------- one call of BackgroundReceive ----------

  /** An arrival and the two steps of the receiving thread after it, taken together, do to the mailbox what
      one undisturbed call of `BackgroundReceive` does, and leave the thread ready for the next datagram. */
  lemma ThreeStepsReceive(cfg: Config, s: System, d: Datagram, now: int)
    requires Enabled(cfg, s, ArriveEvent(d))
    ensures var s1 := Next(cfg, s, ArriveEvent(d));
            var s3 := Next(cfg, Next(cfg, s1, SaveEvent(d.dst)), EnqueueEvent(d.dst, now));
            && s3.peers.Keys == s.peers.Keys && s3.peers[d.dst].receiver.Idle?
            && s3.peers[d.dst].box == ReceiveWhole(s.peers[d.dst].box, Bound(d.src), Bound(d.dst), d.payload, now)
            && forall b :: b in s.peers && b != d.dst ==> s3.peers[b] == s.peers[b]
  {
  }

  // ---------- nothing is undone ----------

  lemma NextGrows(cfg: Config, s: System, e: Event, a: Endpoint)
    requires Inv(cfg, s) && a in s.peers
    ensures a in Next(cfg, s, e).peers && Grows(s.peers[a], Next(cfg, s, e).peers[a])
  {
    if Enabled(cfg, s, e) {
      match e {
        case SendEvent(at, now, to, message) => SendGrows(s.peers[at], now, to, message);
        case PassEvent(at, now) => PassKeepsSender(cfg, s.peers[at], now);
        case ArriveEvent(d) => ArriveGrows(s.peers[d.dst], d);
        case SaveEvent(at) => SaveGrows(s.peers[at]);
        case EnqueueEvent(at, now) =>
        case TakeEvent(at) =>
        case LoseEvent(d) =>
      }
    }
  }

  lemma NextKeepsDelivered(cfg: Config, s: System, e: Event, b: Endpoint, a: Endpoint)
    requires Inv(cfg, s) && b in s.peers
    ensures b in Next(cfg, s, e).peers && Delivered(s.peers[b], a) <= Delivered(Next(cfg, s, e).peers[b], a)
  {
    if Enabled(cfg, s, e) {
      if e.EnqueueEvent? && e.at == b {
        DeliveredGrows(s.peers[b], e.now, a);
      } else if e.TakeEvent? && e.at == b {
        TakeKeepsDelivered(s.peers[b], a);
      }
    }
  }

  function Continue(cfg: Config, s: System, events: seq<Event>): System
    decreases |events|
  {
    if events == [] then s else Continue(cfg, Next(cfg, s, events[0]), events[1..])
  }

  lemma {:induction false} ContinueKeepsDelivered(cfg: Config, s: System, events: seq<Event>, b: Endpoint, a: Endpoint)
    requires Inv(cfg, s) && b in s.peers
    ensures Inv(cfg, Continue(cfg, s, events)) && b in Continue(cfg, s, events).peers
    ensures Delivered(s.peers[b], a) <= Delivered(Continue(cfg, s, events).peers[b], a)
    decreases |events|
  {
    if events != [] {
      var s' := Next(cfg, s, events[0]);
      NextKeepsInv(cfg, s, events[0]);
      NextKeepsDelivered(cfg, s, events[0], b, a);
      ContinueKeepsDelivered(cfg, s', events[1..], b, a);
    }
  }

  /** Since the sequence d was delivered, nothing from a was added, and message k is still in the receiving
      thread's hands; or k was the first one added. */
  ghost predicate HandedOver(p: Peer, a: Endpoint, k: nat, d: seq<Queued>) {
    && d <= Delivered(p, a)
    && if |Delivered(p, a)| == |d| then InHand(p, a, k) else Delivered(p, a)[|d|].seqNum == k
  }

  lemma EnqueueHandsOver(p: Peer, now: int, a: Endpoint, k: nat, d: seq<Queued>)
    requires p.receiver.Saved? && HandedOver(p, a, k, d)
    ensures HandedOver(PeerEnqueue(p, now), a, k, d)
  {
    DeliveredGrows(p, now, a);
  }

  lemma SameDeliveredHandedOver(p: Peer, p': Peer, a: Endpoint, k: nat, d: seq<Queued>)
    requires HandedOver(p, a, k, d) && Delivered(p', a) == Delivered(p, a)
    requires InHand(p, a, k) ==> InHand(p', a, k)
    ensures HandedOver(p', a, k, d)
  {
  }

  lemma NextHandsOver(cfg: Config, s: System, e: Event, b: Endpoint, a: Endpoint, k: nat, d: seq<Queued>)
    requires b in s.peers && HandedOver(s.peers[b], a, k, d)
    ensures b in Next(cfg, s, e).peers && HandedOver(Next(cfg, s, e).peers[b], a, k, d)
  {
    if Enabled(cfg, s, e) {
      var p := s.peers[b];
      match e {
        case SendEvent(at, now, to, message) =>
          SameDeliveredHandedOver(p, Next(cfg, s, e).peers[b], a, k, d);
        case PassEvent(at, now) =>
          SameDeliveredHandedOver(p, Next(cfg, s, e).peers[b], a, k, d);
        case ArriveEvent(dg) =>
          SameDeliveredHandedOver(p, Next(cfg, s, e).peers[b], a, k, d);
        case SaveEvent(at) =>
          if at == b {
            SameDeliveredHandedOver(p, PeerSave(p), a, k, d);
          }
        case EnqueueEvent(at, now) =>
          if at == b {
            EnqueueHandsOver(p, now, a, k, d);
          }
        case TakeEvent(at) =>
          if at == b {
            TakeKeepsDelivered(p, a);
            SameDeliveredHandedOver(p, PeerTake(p), a, k, d);
          }
        case LoseEvent(_) =>
      }
    }
  }

  lemma {:induction false} ContinueHandsOver(cfg: Config, s: System, events: seq<Event>, b: Endpoint, a: Endpoint,
                                             k: nat, d: seq<Queued>)
    requires b in s.peers && HandedOver(s.peers[b], a, k, d)
    ensures b in Continue(cfg, s, events).peers && HandedOver(Continue(cfg, s, events).peers[b], a, k, d)
    decreases |events|
  {
    if events != [] {
      NextHandsOver(cfg, s, events[0], b, a, k, d);
      ContinueHandsOver(cfg, Next(cfg, s, events[0]), events[1..], b, a, k, d);
    }
  }

  /** Once a peer has heard message n, no continuation delivers it or an earlier one, whatever is still in the
      network; only if n is in the receiving thread's hands at this moment it is delivered yet, once and next. */
  lemma NoLateDelivery(cfg: Config, s: System, events: seq<Event>, a: Endpoint, b: Endpoint, n: nat)
    requires Reachable(cfg, s) && b in s.peers && Heard(s.peers[b], a, n)
    ensures b in Continue(cfg, s, events).peers
    ensures var d, d' := Delivered(s.peers[b], a), Delivered(Continue(cfg, s, events).peers[b], a);
            && d <= d'
            && forall i :: |d| <= i < |d'| ==>
                 d'[i].seqNum > n || (i == |d| && d'[i].seqNum == n && InHand(s.peers[b], a, n))
  {
    ReachableInv(cfg, s);
    ContinueKeepsDelivered(cfg, s, events, b, a);
    DeliveredIncreases(cfg, Continue(cfg, s, events), a, b);
    var d, d' := Delivered(s.peers[b], a), Delivered(Continue(cfg, s, events).peers[b], a);
    var behind, k := HeardIsBehind(cfg, s, a, b, n);
    if behind {
      LaterIsHigher(d, d', n);
    } else {
      ContinueHandsOver(cfg, s, events, b, a, k, d);
      LaterThanHand(d, d', k);
    }
  }

  /** What was heard is at or below the last one delivered, or the one in hand. */
  lemma HeardIsBehind(cfg: Config, s: System, a: Endpoint, b: Endpoint, n: nat) returns (behind: bool, k: nat)
    requires Inv(cfg, s) && b in s.peers && Heard(s.peers[b], a, n)
    ensures var d := Delivered(s.peers[b], a);
            if behind then d != [] && d[|d| - 1].seqNum >= n else k >= n && InHand(s.peers[b], a, k)
  {
    assert LinkOk(SentBy(s, a, b), s.peers[b], a);
    behind, k := HeardIsBehindOn(s.peers[b], a, n, Delivered(s.peers[b], a));
  }

  lemma HeardIsBehindOn(p: Peer, a: Endpoint, n: nat, d: seq<Queued>) returns (behind: bool, k: nat)
    requires WatermarkOk(p, a, d) && Heard(p, a, n)
    ensures if behind then d != [] && d[|d| - 1].seqNum >= n else k >= n && InHand(p, a, k)
  {
    behind := d != [] && d[|d| - 1].seqNum >= n;
    k := if p.receiver.Idle? then 0 else p.receiver.seqNum;
  }

  lemma DeliveredIncreases(cfg: Config, s: System, a: Endpoint, b: Endpoint)
    requires Inv(cfg, s) && b in s.peers
    ensures Increasing(Delivered(s.peers[b], a))
  {
    assert LinkOk(SentBy(s, a, b), s.peers[b], a);
  }

  lemma LaterIsHigher(d: seq<Queued>, d': seq<Queued>, n: nat)
    requires d <= d' && Increasing(d') && d != [] && d[|d| - 1].seqNum >= n
    ensures forall i :: |d| <= i < |d'| ==> d'[i].seqNum > n
  {
    assert d'[|d| - 1] == d[|d| - 1];
  }

  lemma LaterThanHand(d: seq<Queued>, d': seq<Queued>, k: nat)
    requires d <= d' && Increasing(d') && (|d'| > |d| ==> d'[|d|].seqNum == k)
    ensures forall i :: |d| <= i < |d'| ==> if i == |d| then d'[i].seqNum == k else d'[i].seqNum > k
  {
  }
}
