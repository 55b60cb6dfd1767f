/** Mailboxes exchanging datagrams over a network that loses, repeats and reorders them. */
module Network {
  import opened Text
  import opened Addresses
  import opened Frames
  import opened Mailboxes

  /** One message as it was passed to `Send`. */
  datatype Original = Original(time: int, message: Bytes)

  /** Something a pass handed to the socket, and the clock reading of the pass. */
  datatype Transmission = Transmission(at: int, out: Outbound)

  /** A mailbox with the program counter of its receiving thread, and with what became of its messages:
      `sent` is everything passed to `Send` per destination, `acked` what acknowledgements removed from the
      queue, `expired` what passes gave up, `transmissions` what passes handed to the socket, `handed` what
      `Receive` returned. */
  datatype Peer = Peer(box: Mailbox, receiver: Receiver, sent: map<Endpoint, seq<Original>>,
                       acked: seq<Queued>, expired: seq<Queued>, transmissions: seq<Transmission>,
                       handed: seq<Queued>)

  datatype Datagram = Datagram(src: Endpoint, dst: Endpoint, payload: Bytes)

  /** A datagram stays in the network when it is received, so it can arrive again; it leaves by being lost. */
  datatype System = System(peers: map<Endpoint, Peer>, net: set<Datagram>)

  /** How many messages to one destination a sender lets queue up. */
  datatype Limit = Unlimited | AtMost(n: nat)

  /** The peers, the addresses they send to, and the senders' discipline. */
  datatype Config = Config(peers: set<Endpoint>, book: set<Address>, limit: Limit)

  function Sent(p: Peer, to: Endpoint): seq<Original> {
    if to in p.sent then p.sent[to] else []
  }

  /** The entries that came from `a`. */
  function FromPeer(q: seq<Queued>, a: Endpoint): seq<Queued> {
    if q == [] then [] else
      FromPeer(q[..|q| - 1], a) + if Key(q[|q| - 1].from) == a then [q[|q| - 1]] else []
  }

  /** The messages from `a` that have reached the incoming queue, whether or not they were taken out since. */
  function Delivered(p: Peer, a: Endpoint): seq<Queued> {
    FromPeer(p.handed + p.box.incoming, a)
  }

  // ---------- the steps of one peer ----------

  function PeerSend(p: Peer, now: int, to: Address, message: Bytes): Peer {
    p.(box := Submit(p.box, now, to, false, message),
       sent := p.sent[Key(to) := Sent(p, Key(to)) + [Original(now, message)]])
  }

  function PeerPass(p: Peer, now: int): Peer {
    p.(box := p.box.(outgoing := Kept(p.box.outgoing, now)),
       expired := p.expired + GivenUp(p.box.outgoing),
       transmissions := p.transmissions + Stamped(Transmitted(p.box.outgoing, now), now))
  }

  function Stamped(out: seq<Outbound>, now: int): seq<Transmission> {
    seq(|out|, i requires 0 <= i < |out| => Transmission(now, out[i]))
  }

  /** What an arriving datagram removes from the queue. */
  function Removed(p: Peer, from: Address, payload: Bytes): seq<Queued> {
    match ParseFrame(payload)
    case None => []
    case Some(f) =>
      var i := AckIndex(p.box.outgoing, from, f.seqNum);
      if f.message == ACK && i < |p.box.outgoing| then [p.box.outgoing[i]] else []
  }

  function PeerArrive(p: Peer, d: Datagram): Peer {
    var (b, r, _) := Arrive(p.box, Bound(d.src), Bound(d.dst), d.payload);
    p.(box := b, receiver := r, acked := p.acked + Removed(p, Bound(d.src), d.payload))
  }

  function Replies(p: Peer, d: Datagram): seq<Outbound> {
    Arrive(p.box, Bound(d.src), Bound(d.dst), d.payload).2
  }

  function PeerSave(p: Peer): Peer
    requires p.receiver.AckSent?
  {
    var (b, r) := Save(p.box, p.receiver);
    p.(box := b, receiver := r)
  }

  function PeerEnqueue(p: Peer, now: int): Peer
    requires p.receiver.Saved?
  {
    p.(box := Enqueue(p.box, p.receiver, now), receiver := Idle)
  }

  function PeerTake(p: Peer): Peer
    requires p.box.incoming != []
  {
    p.(box := p.box.(incoming := p.box.incoming[1..]), handed := p.handed + [p.box.incoming[0]])
  }

  // ---------- runs ----------

  datatype Event =
    | SendEvent(at: Endpoint, now: int, to: Address, message: Bytes)
    | PassEvent(at: Endpoint, now: int)
    | ArriveEvent(d: Datagram)
    | SaveEvent(at: Endpoint)
    | EnqueueEvent(at: Endpoint, now: int)
    | TakeEvent(at: Endpoint)
    | LoseEvent(d: Datagram)

  function Outstanding(q: seq<Queued>, to: Endpoint): nat {
    if q == [] then 0 else Outstanding(q[..|q| - 1], to) + if Key(q[|q| - 1].to) == to then 1 else 0
  }

  /** A message that reads as an acknowledgement is not sent, and no counter wraps. */
  predicate MaySend(cfg: Config, p: Peer, to: Address, message: Bytes) {
    && to in cfg.book
    && !LooksLikeAck(message)
    && (Key(to) in p.box.outgoingSeqNums ==> p.box.outgoingSeqNums[Key(to)] + 1 < TWO_64)
    && (cfg.limit.AtMost? ==> Outstanding(p.box.outgoing, Key(to)) < cfg.limit.n)
  }

  predicate Enabled(cfg: Config, s: System, e: Event) {
    match e
    case SendEvent(at, _, to, message) => at in s.peers && MaySend(cfg, s.peers[at], to, message)
    case PassEvent(at, _) => at in s.peers
    case ArriveEvent(d) => d in s.net && d.dst in s.peers && s.peers[d.dst].receiver.Idle?
    case SaveEvent(at) => at in s.peers && s.peers[at].receiver.AckSent?
    case EnqueueEvent(at, _) => at in s.peers && s.peers[at].receiver.Saved?
    case TakeEvent(at) => at in s.peers && s.peers[at].box.incoming != []
    case LoseEvent(_) => true
  }

  function Datagrams(src: Endpoint, out: seq<Outbound>): set<Datagram> {
    set o | o in out :: Datagram(src, Key(o.to), o.payload)
  }

  /** An event that is not enabled changes nothing, so every list of events is a run. */
  function Next(cfg: Config, s: System, e: Event): System {
    if !Enabled(cfg, s, e) then s else
      match e
      case SendEvent(at, now, to, message) =>
        s.(peers := s.peers[at := PeerSend(s.peers[at], now, to, message)])
      case PassEvent(at, now) =>
        System(s.peers[at := PeerPass(s.peers[at], now)],
               s.net + Datagrams(at, Transmitted(s.peers[at].box.outgoing, now)))
      case ArriveEvent(d) =>
        System(s.peers[d.dst := PeerArrive(s.peers[d.dst], d)],
               s.net + Datagrams(d.dst, Replies(s.peers[d.dst], d)))
      case SaveEvent(at) => s.(peers := s.peers[at := PeerSave(s.peers[at])])
      case EnqueueEvent(at, now) => s.(peers := s.peers[at := PeerEnqueue(s.peers[at], now)])
      case TakeEvent(at) => s.(peers := s.peers[at := PeerTake(s.peers[at])])
      case LoseEvent(d) => s.(net := s.net - {d})
  }

  const NEW_PEER: Peer := Peer(EMPTY, Idle, map[], [], [], [], [])

  function Start(cfg: Config): System {
    System(map a | a in cfg.peers :: NEW_PEER, {})
  }

  function After(cfg: Config, events: seq<Event>): System {
    if events == [] then Start(cfg) else Next(cfg, After(cfg, events[..|events| - 1]), events[|events| - 1])
  }

  // ---------- what the runs are about ----------

  function SentBy(s: System, a: Endpoint, b: Endpoint): seq<Original> {
    if a in s.peers then Sent(s.peers[a], b) else []
  }

  /** The receiver of message `n` from `a` has acknowledged it, and its watermark is at or above `n` or is
      about to be compared with it: no later copy can be delivered. */
  predicate Heard(p: Peer, a: Endpoint, n: nat) {
    || (a in p.box.incomingSeqNums && n <= p.box.incomingSeqNums[a])
    || (p.receiver.AckSent? && Key(p.receiver.from) == a && p.receiver.seqNum == n)
  }

  /** Everything an acknowledgement removed was heard by the peer it was sent to. */
  ghost predicate AcksSound(s: System) {
    forall a, e :: a in s.peers && e in s.peers[a].acked ==>
      Key(e.to) in s.peers && Heard(s.peers[Key(e.to)], a, e.seqNum)
  }

  /** `operator==` agrees with the maps' identity between the addresses sent to and the peers' own. */
  ghost predicate Separated(cfg: Config) {
    forall to, b :: to in cfg.book && b in cfg.peers && LooselyEqual(to, Bound(b)) ==> Key(to) == b
  }

  /** Message `n` from `a` is in the hands of the receiving thread and will be delivered. */
  predicate InHand(p: Peer, a: Endpoint, n: nat) {
    && !p.receiver.Idle? && Key(p.receiver.from) == a && p.receiver.seqNum == n
    && (p.receiver.AckSent? ==> Fresh(p.box, p.receiver.from, p.receiver.seqNum))
  }

  ghost predicate WasDelivered(p: Peer, a: Endpoint, n: nat) {
    exists i :: 0 <= i < |Delivered(p, a)| && Delivered(p, a)[i].seqNum == n
  }

  /** Everything an acknowledgement removed has been delivered, or is just being delivered. */
  ghost predicate AckedIsDelivered(s: System) {
    forall a, e :: a in s.peers && e in s.peers[a].acked ==> HasArrived(s, a, e)
  }

  ghost predicate HasArrived(s: System, a: Endpoint, e: Queued) {
    var b := Key(e.to);
    b in s.peers && (WasDelivered(s.peers[b], a, e.seqNum) || InHand(s.peers[b], a, e.seqNum))
  }
}
