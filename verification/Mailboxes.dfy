/** `AsyncMailbox`: the state under its locks, what each locked block does to it, and the class whose
    methods do it in place. */
module Mailboxes {
  import opened Text
  import opened Addresses
  import opened Frames

  /** Clock readings are counted in nanoseconds. */
  const SECOND: int := 1_000_000_000
  const RECEIVE_TIMEOUT: int := 2 * SECOND
  const MAX_RETRIES: nat := 5

  /** A queued message. `sentAt` is a history variable: the clock readings at which the message was
      handed to the socket. */
  datatype Queued = Queued(time: int, seqNum: SeqNum, attempts: nat, from: Address, to: Address,
                           message: Bytes, sentAt: seq<int>)

  /** What is handed to the socket. */
  datatype Outbound = Outbound(to: Address, payload: Bytes)

  datatype Mailbox = Mailbox(outgoing: seq<Queued>, multicasts: seq<Queued>, incoming: seq<Queued>,
                             outgoingSeqNums: map<Endpoint, SeqNum>,
                             incomingSeqNums: map<Endpoint, SeqNum>)

  const EMPTY: Mailbox := Mailbox([], [], [], map[], map[])

  /** The default-constructed address. */
  const NOWHERE: Address := Address(LOCALHOST, LOCALHOST, 0)

  // ---------- Send ----------

  /** The number the next message to `to` gets; the counter is a `uint64_t` and wraps. */
  function NextSeqNum(b: Mailbox, to: Address): SeqNum {
    if Key(to) in b.outgoingSeqNums then (b.outgoingSeqNums[Key(to)] + 1) % TWO_64 else 0
  }

  function Submit(b: Mailbox, now: int, to: Address, multicast: bool, message: Bytes): Mailbox {
    if multicast then
      b.(multicasts := b.multicasts + [Queued(now, 0, 0, NOWHERE, to, message, [])])
    else
      var n := NextSeqNum(b, to);
      b.(outgoingSeqNums := b.outgoingSeqNums[Key(to) := n],
         outgoing := b.outgoing + [Queued(now, n, 0, NOWHERE, to, message, [])])
  }

  // ---------- one pass of BackgroundSend ----------

  predicate Due(e: Queued, now: int) {
    now >= e.time + e.attempts * RECEIVE_TIMEOUT
  }

  predicate Exhausted(e: Queued) {
    e.attempts >= MAX_RETRIES
  }

  function Attempted(e: Queued, now: int): Queued {
    e.(attempts := e.attempts + 1, sentAt := e.sentAt + [now])
  }

  /** What a pass leaves of one entry, what it hands to the socket for it, and what it gives up. */
  function KeptOne(e: Queued, now: int): seq<Queued> {
    if Exhausted(e) then [] else if Due(e, now) then [Attempted(e, now)] else [e]
  }

  function TransmittedOne(e: Queued, now: int): seq<Outbound> {
    if !Exhausted(e) && Due(e, now) then [Outbound(e.to, Frame(e.seqNum, e.message))] else []
  }

  function GivenUpOne(e: Queued): seq<Queued> {
    if Exhausted(e) then [e] else []
  }

  function Kept(q: seq<Queued>, now: int): seq<Queued> {
    if q == [] then [] else Kept(q[..|q| - 1], now) + KeptOne(q[|q| - 1], now)
  }

  function Transmitted(q: seq<Queued>, now: int): seq<Outbound> {
    if q == [] then [] else Transmitted(q[..|q| - 1], now) + TransmittedOne(q[|q| - 1], now)
  }

  function GivenUp(q: seq<Queued>): seq<Queued> {
    if q == [] then [] else GivenUp(q[..|q| - 1]) + GivenUpOne(q[|q| - 1])
  }

  lemma PassPrefix(q: seq<Queued>, k: nat, now: int)
    requires k < |q|
    ensures Kept(q[..k + 1], now) == Kept(q[..k], now) + KeptOne(q[k], now)
    ensures Transmitted(q[..k + 1], now) == Transmitted(q[..k], now) + TransmittedOne(q[k], now)
  {
    assert q[..k + 1][..k] == q[..k];
  }

  lemma Splice(done: seq<Queued>, rest: seq<Queued>, kept: seq<Queued>)
    requires rest != []
    ensures (done + rest)[|done|] == rest[0]
    ensures (done + rest)[..|done|] + kept + (done + rest)[|done| + 1..] == done + kept + rest[1..]
  {
  }

  // ---------- BackgroundReceive ----------

  predicate Acknowledges(e: Queued, from: Address, n: SeqNum) {
    LooselyEqual(e.to, from) && e.seqNum == n
  }

  /** The position of the message an acknowledgement removes, |q| when there is none. */
  function AckIndex(q: seq<Queued>, from: Address, n: SeqNum): (i: nat)
    ensures i <= |q| && (i < |q| ==> Acknowledges(q[i], from, n))
    ensures forall j :: 0 <= j < i ==> !Acknowledges(q[j], from, n)
  {
    if q == [] || Acknowledges(q[0], from, n) then 0 else 1 + AckIndex(q[1..], from, n)
  }

  function Without(q: seq<Queued>, i: nat): seq<Queued> {
    if i < |q| then q[..i] + q[i + 1..] else q
  }

  /** Where the receiving thread is between the locked blocks of one data message. */
  datatype Receiver =
    | Idle
    | AckSent(from: Address, to: Address, seqNum: SeqNum, message: Bytes)
    | Saved(from: Address, to: Address, seqNum: SeqNum, message: Bytes)

  /** A datagram is parsed; an acknowledgement is dealt with, a message is acknowledged. */
  function Arrive(b: Mailbox, from: Address, to: Address, payload: Bytes): (Mailbox, Receiver, seq<Outbound>) {
    match ParseFrame(payload)
    case None => (b, Idle, [])
    case Some(p) =>
      if p.message == ACK then
        (b.(outgoing := Without(b.outgoing, AckIndex(b.outgoing, from, p.seqNum))), Idle, [])
      else
        (b, AckSent(from, to, p.seqNum, p.message), [Outbound(from, AckFrame(p.seqNum))])
  }

  /** The duplicate test. */
  predicate Fresh(b: Mailbox, from: Address, n: SeqNum) {
    Key(from) in b.incomingSeqNums ==> n > b.incomingSeqNums[Key(from)]
  }

  /** The watermark is raised, or the message dropped. */
  function Save(b: Mailbox, r: Receiver): (Mailbox, Receiver)
    requires r.AckSent?
  {
    if Fresh(b, r.from, r.seqNum) then
      (b.(incomingSeqNums := b.incomingSeqNums[Key(r.from) := r.seqNum]),
       Saved(r.from, r.to, r.seqNum, r.message))
    else (b, Idle)
  }

  function Enqueue(b: Mailbox, r: Receiver, now: int): Mailbox
    requires r.Saved?
  {
    b.(incoming := b.incoming + [Queued(now, r.seqNum, 0, r.from, r.to, r.message, [])])
  }

  /** One whole call of `BackgroundReceive`. */
  function ReceiveWhole(b: Mailbox, from: Address, to: Address, payload: Bytes, now: int): Mailbox {
    var (b1, r1, _) := Arrive(b, from, to, payload);
    if r1.AckSent? then
      var (b2, r2) := Save(b1, r1);
      if r2.Saved? then Enqueue(b2, r2, now) else b2
    else b1
  }

  // ---------- the class ----------

  class AsyncMailbox {
    var outgoing: seq<Queued>
    var multicasts: seq<Queued>
    var incoming: seq<Queued>
    var outgoingSeqNums: map<Endpoint, SeqNum>
    var incomingSeqNums: map<Endpoint, SeqNum>
    const receiveBuffer: array<Byte>
    const sendBuffer: array<Byte>
    /** What the socket was given. */
    var wire: seq<Outbound>

    ghost predicate Valid() {
      receiveBuffer.Length == sendBuffer.Length == MAX_UDP_PAYLOAD && receiveBuffer != sendBuffer
    }

    function View(): Mailbox
      reads this
    {
      Mailbox(outgoing, multicasts, incoming, outgoingSeqNums, incomingSeqNums)
    }

    constructor ()
      ensures Valid() && fresh(receiveBuffer) && fresh(sendBuffer) && View() == EMPTY && wire == []
    {
      outgoing, multicasts, incoming, wire := [], [], [], [];
      outgoingSeqNums, incomingSeqNums := map[], map[];
      receiveBuffer := new Byte[MAX_UDP_PAYLOAD];
      sendBuffer := new Byte[MAX_UDP_PAYLOAD];
    }

    /** `Receive` after its wait: the oldest delivered message, if there is one. */
    method Receive() returns (r: Option<Queued>)
      modifies this`incoming
      ensures r.None? <==> old(incoming) == []
      ensures r.None? ==> incoming == []
      ensures r.Some? ==> old(incoming) == [r.value] + incoming
    {
      if incoming == [] {
        return None;
      }
      r := Some(incoming[0]);
      incoming := incoming[1..];
    }

    method Send(now: int, to: Address, multicast: bool, message: Bytes)
      modifies this
      ensures View() == Submit(old(View()), now, to, multicast, message)
      ensures incoming == old(incoming) && incomingSeqNums == old(incomingSeqNums) && wire == old(wire)
      ensures multicast ==>
                && multicasts == old(multicasts) + [Queued(now, 0, 0, NOWHERE, to, message, [])]
                && outgoing == old(outgoing) && outgoingSeqNums == old(outgoingSeqNums)
      ensures !multicast ==>
                var counters := old(outgoingSeqNums);
                var n := if Key(to) in counters && counters[Key(to)] < 0xFFFF_FFFF_FFFF_FFFF
                         then counters[Key(to)] + 1 else 0;
                && outgoing == old(outgoing) + [Queued(now, n, 0, NOWHERE, to, message, [])]
                && outgoingSeqNums == counters[Key(to) := n] && multicasts == old(multicasts)
    {
      if multicast {
        multicasts := multicasts + [Queued(now, 0, 0, NOWHERE, to, message, [])];
      } else {
        var seqNum: SeqNum := 0;
        if Key(to) in outgoingSeqNums {
          seqNum := (outgoingSeqNums[Key(to)] + 1) % TWO_64;
          outgoingSeqNums := outgoingSeqNums[Key(to) := seqNum];
        } else {
          outgoingSeqNums := outgoingSeqNums[Key(to) := 0];
        }
        outgoing := outgoing + [Queued(now, seqNum, 0, NOWHERE, to, message, [])];
      }
    }

    /** `Flushed` after its wait. */
    method Flushed() returns (r: bool)
      ensures r <==> outgoing == [] && multicasts == []
    {
      r := outgoing == [] && multicasts == [];
    }

    method BackgroundSend(now: int)
      requires Valid()
      modifies this`outgoing, this`wire, sendBuffer
      ensures outgoing == Kept(old(outgoing), now)
      ensures wire == old(wire) + Transmitted(old(outgoing), now)
    {
      ghost var q, wire0 := outgoing, wire;
      ghost var done, sent, rest, k := [], [], q, 0;
      var i := 0;
      while i < |outgoing|
        invariant 0 <= k <= |q| && i == |done| && rest == q[k..]
        invariant done == Kept(q[..k], now) && sent == Transmitted(q[..k], now)
        invariant outgoing == done + rest && wire == wire0 + sent
        decreases |q| - k
      {
        ghost var e := q[k];
        Splice(done, rest, KeptOne(e, now));
        PassPrefix(q, k, now);
        i := Visit(i, now);
        done, sent, rest := done + KeptOne(e, now), sent + TransmittedOne(e, now), rest[1..];
        k := k + 1;
      }
      assert q[..k] == q;
    }

    /** The body of the loop: the entry at `i` is erased, sent or left alone. */
    method Visit(i: nat, now: int) returns (next: nat)
      requires Valid() && i < |outgoing|
      modifies this`outgoing, this`wire, sendBuffer
      ensures next == i + |KeptOne(old(outgoing)[i], now)|
      ensures outgoing == old(outgoing)[..i] + KeptOne(old(outgoing)[i], now) + old(outgoing)[i + 1..]
      ensures wire == old(wire) + TransmittedOne(old(outgoing)[i], now)
    {
      var e := outgoing[i];
      if Exhausted(e) {
        outgoing := outgoing[..i] + outgoing[i + 1..];
        return i;
      }
      if Due(e, now) {
        Transmit(e);
        outgoing := outgoing[i := Attempted(e, now)];
      }
      next := i + 1;
    }

    method Transmit(e: Queued)
      requires Valid()
      modifies this`wire, sendBuffer
      ensures wire == old(wire) + [Outbound(e.to, Frame(e.seqNum, e.message))]
    {
      var bytes := FillSendBuffer(e.seqNum, e.message);
      wire := wire + [Outbound(e.to, sendBuffer[..bytes])];
    }

    /** The two copies into the send buffer. */
    method FillSendBuffer(n: SeqNum, message: Bytes) returns (bytes: nat)
      requires Valid()
      modifies sendBuffer
      ensures bytes == (if |message| <= 65499 then 8 + |message| else 65507) && bytes <= sendBuffer.Length
      ensures sendBuffer[..bytes] == Frame(n, message) && sendBuffer[8..bytes] == message[..bytes - 8]
    {
      var header := SeqBytes(n);
      forall i | 0 <= i < HEADER {
        sendBuffer[i] := header[i];
      }
      var length := if |message| < MAX_UDP_PAYLOAD - HEADER then |message| else MAX_UDP_PAYLOAD - HEADER;
      forall i | 0 <= i < length {
        sendBuffer[HEADER + i] := message[i];
      }
      bytes := length + HEADER;
    }

    /** One datagram from `from`, which the socket puts into the receive buffer. */
    method BackgroundReceive(from: Address, to: Address, payload: Bytes, now: int)
      requires Valid() && |payload| <= MAX_UDP_PAYLOAD
      modifies this`outgoing, this`incoming, this`incomingSeqNums, this`wire, receiveBuffer
      ensures View() == ReceiveWhole(old(View()), from, to, payload, now)
      ensures wire == old(wire) + Arrive(old(View()), from, to, payload).2
    {
      forall i | 0 <= i < |payload| {
        receiveBuffer[i] := payload[i];
      }
      assert receiveBuffer[..|payload|] == payload;
      var length := TrimReceived(|payload|);
      assert receiveBuffer[..length] == Trim(payload);
      if length < HEADER {
        return;
      }
      assert receiveBuffer[..HEADER] == Trim(payload)[..HEADER];
      var seqNum := ReadSeqNum(receiveBuffer[..HEADER]);
      var message := receiveBuffer[HEADER..length];
      assert message == Trim(payload)[HEADER..];
      if message == ACK {
        RemoveAcknowledged(from, seqNum);
      } else {
        EncodeDecode(receiveBuffer[..HEADER]);
        AcknowledgeInPlace(from, seqNum);
        if Key(from) in incomingSeqNums && seqNum <= incomingSeqNums[Key(from)] {
          return;
        }
        incomingSeqNums := incomingSeqNums[Key(from) := seqNum];
        incoming := incoming + [Queued(now, seqNum, 0, from, to, message, [])];
      }
    }

    /** The loop over trailing newlines. */
    method TrimReceived(received: nat) returns (length: nat)
      requires Valid() && received <= receiveBuffer.Length
      ensures length <= received && receiveBuffer[..length] == Trim(receiveBuffer[..received])
    {
      length := received;
      while length > 0 && receiveBuffer[length - 1] == NEWLINE
        invariant length <= received
        invariant Trim(receiveBuffer[..length]) == Trim(receiveBuffer[..received])
      {
        assert receiveBuffer[..length][..length - 1] == receiveBuffer[..length - 1];
        length := length - 1;
      }
    }

    /** The acknowledgement is written over the message in the receive buffer. */
    method AcknowledgeInPlace(from: Address, seqNum: SeqNum)
      requires Valid() && receiveBuffer[..HEADER] == SeqBytes(seqNum)
      modifies this`wire, receiveBuffer
      ensures wire == old(wire) + [Outbound(from, AckFrame(seqNum))]
    {
      receiveBuffer[8] := 97;
      receiveBuffer[9] := 99;
      receiveBuffer[10] := 107;
      assert receiveBuffer[..11] == AckFrame(seqNum) by {
        assert receiveBuffer[..8] == SeqBytes(seqNum);
        assert receiveBuffer[8..11] == ACK;
        assert receiveBuffer[..11] == receiveBuffer[..8] + receiveBuffer[8..11];
      }
      wire := wire + [Outbound(from, receiveBuffer[..11])];
    }

    /** The search for an acknowledged message. */
    method RemoveAcknowledged(from: Address, seqNum: SeqNum)
      modifies this`outgoing
      ensures outgoing == Without(old(outgoing), AckIndex(old(outgoing), from, seqNum))
    {
      var i := 0;
      while i < |outgoing|
        invariant 0 <= i <= |outgoing| && outgoing == old(outgoing)
        invariant forall j :: 0 <= j < i ==> !Acknowledges(outgoing[j], from, seqNum)
      {
        if Acknowledges(outgoing[i], from, seqNum) {
          outgoing := outgoing[..i] + outgoing[i + 1..];
          return;
        }
        i := i + 1;
      }
    }

    method BackgroundSendMulticast()
      modifies this`multicasts, this`wire
      ensures multicasts == []
      ensures wire == old(wire) + seq(|old(multicasts)|, i requires 0 <= i < |old(multicasts)| =>
                                        Outbound(old(multicasts)[i].to, old(multicasts)[i].message))
    {
      ghost var q := multicasts;
      ghost var sent := seq(|q|, i requires 0 <= i < |q| => Outbound(q[i].to, q[i].message));
      ghost var k := 0;
      while multicasts != []
        invariant 0 <= k <= |q| && multicasts == q[k..] && wire == old(wire) + sent[..k]
        decreases |multicasts|
      {
        var e := multicasts[0];
        wire := wire + [Outbound(e.to, e.message)];
        multicasts := multicasts[1..];
        assert sent[..k + 1] == sent[..k] + [sent[k]];
        k := k + 1;
      }
    }
  }
}
