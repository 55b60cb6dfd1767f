/** Runs in which the network is kind: every step the Turing machine makes is reached. */
module Progress {
  import opened Text
  import opened Addresses
  import opened Frames
  import opened Mailboxes
  import opened Network
  import opened NetworkInvariant
  import opened Machines
  import opened Tapes
  import opened Simulations
  import opened Universal
  import opened UniversalRuns
  import opened Composition

  // ---------- one message from a peer to itself ----------

  /** The mailbox has nothing to send, to give or to finish. */
  ghost predicate Quiescent(s: System, p: Endpoint) {
    && p in s.peers && s.peers[p].box.outgoing == [] && s.peers[p].box.incoming == [] && s.peers[p].receiver.Idle?
  }

  /** A message of one byte that is no newline. */
  predicate OneByte(b: Bytes) {
    |b| == 1 && b[0] != NEWLINE
  }

  /** Nothing keeps the peer from sending to itself. */
  ghost predicate MaySendHome(cfg: Config, s: System, p: Endpoint, to: Address) {
    && Inv(cfg, s) && Quiescent(s, p) && to in cfg.book && Key(to) == p && cfg.limit != AtMost(0)
    && |Sent(s.peers[p], p)| + 1 < TWO_64
  }

  function Entry(n: SeqNum, to: Address, b: Bytes): Queued {
    Queued(0, n, 0, NOWHERE, to, b, [])
  }

  lemma OneByteIsCanonical(b: Bytes)
    requires OneByte(b)
    ensures Canonical(b) == b && !LooksLikeAck(b)
  {
    TrimIs(b, b);
  }

  lemma MarkIsBelow(cfg: Config, s: System, p: Endpoint)
    requires Inv(cfg, s) && Quiescent(s, p)
    ensures p in s.peers[p].box.incomingSeqNums ==> s.peers[p].box.incomingSeqNums[p] < |Sent(s.peers[p], p)|
  {
    assert LinkOk(SentBy(s, p, p), s.peers[p], p);
    var d := Delivered(s.peers[p], p);
    if d != [] {
      assert Genuine(SentBy(s, p, p), d[|d| - 1].seqNum, d[|d| - 1].message);
    }
  }

  lemma Submitted(cfg: Config, s: System, p: Endpoint, to: Address, b: Bytes) returns (s': System, n: SeqNum)
    requires MaySendHome(cfg, s, p, to) && OneByte(b)
    ensures Enabled(cfg, s, SendEvent(p, 0, to, b)) && s' == Next(cfg, s, SendEvent(p, 0, to, b))
    ensures p in s'.peers && s'.peers[p].box.outgoing == [Entry(n, to, b)] && s'.peers[p].box.incoming == []
    ensures s'.peers[p].receiver.Idle? && s'.peers[p].box.incomingSeqNums == s.peers[p].box.incomingSeqNums
    ensures p in s.peers[p].box.incomingSeqNums ==> s.peers[p].box.incomingSeqNums[p] < n
    ensures |Sent(s'.peers[p], p)| == |Sent(s.peers[p], p)| + 1
  {
    OneByteIsCanonical(b);
    MarkIsBelow(cfg, s, p);
    assert Counted(s.peers[p], p);
    SendCounts(cfg, s.peers[p], 0, to, b, p);
    n := NextSeqNum(s.peers[p].box, to);
    s' := Next(cfg, s, SendEvent(p, 0, to, b));
  }

  lemma PassOfOne(e: Queued)
    requires e.attempts == 0 && e.time == 0
    ensures Kept([e], 0) == [Attempted(e, 0)] && Transmitted([e], 0) == [Outbound(e.to, Frame(e.seqNum, e.message))]
  {
    assert [e][..0] == [];
  }

  lemma PassedOn(cfg: Config, s: System, p: Endpoint, to: Address, b: Bytes, n: SeqNum) returns (s': System)
    requires p in s.peers && s.peers[p].box.outgoing == [Entry(n, to, b)] && Key(to) == p
    ensures s' == Next(cfg, s, PassEvent(p, 0)) && p in s'.peers && Datagram(p, p, Frame(n, b)) in s'.net
    ensures s'.peers[p].box == s.peers[p].box.(outgoing := [Attempted(Entry(n, to, b), 0)])
    ensures s'.peers[p].receiver == s.peers[p].receiver && s'.peers[p].sent == s.peers[p].sent
  {
    PassOfOne(Entry(n, to, b));
    s' := Next(cfg, s, PassEvent(p, 0));
    var o := Outbound(to, Frame(n, b));
    assert o in Transmitted([Entry(n, to, b)], 0);
  }

  lemma Arrived(cfg: Config, s: System, p: Endpoint, b: Bytes, n: SeqNum) returns (s': System)
    requires p in s.peers && s.peers[p].receiver.Idle? && Datagram(p, p, Frame(n, b)) in s.net && OneByte(b)
    ensures s' == Next(cfg, s, ArriveEvent(Datagram(p, p, Frame(n, b)))) && p in s'.peers
    ensures s'.peers[p].box == s.peers[p].box && s'.peers[p].receiver == AckSent(Bound(p), Bound(p), n, b)
    ensures s'.peers[p].sent == s.peers[p].sent && Datagram(p, p, AckFrame(n)) in s'.net
  {
    OneByteIsCanonical(b);
    FrameRoundTrip(n, b);
    var d := Datagram(p, p, Frame(n, b));
    s' := Next(cfg, s, ArriveEvent(d));
    var r := Outbound(Bound(p), AckFrame(n));
    assert Replies(s.peers[p], d) == [r] && r in [r];
  }

  lemma Kept2(cfg: Config, s: System, p: Endpoint, b: Bytes, n: SeqNum) returns (s': System)
    requires p in s.peers && s.peers[p].receiver == AckSent(Bound(p), Bound(p), n, b)
    requires p in s.peers[p].box.incomingSeqNums ==> s.peers[p].box.incomingSeqNums[p] < n
    ensures s' == Next(cfg, Next(cfg, s, SaveEvent(p)), EnqueueEvent(p, 0)) && p in s'.peers && s'.net == s.net
    ensures s'.peers[p].box.outgoing == s.peers[p].box.outgoing && s'.peers[p].receiver.Idle?
    ensures s'.peers[p].box.incoming == s.peers[p].box.incoming + [Queued(0, n, 0, Bound(p), Bound(p), b, [])]
    ensures s'.peers[p].sent == s.peers[p].sent
  {
    assert Key(Bound(p)) == p;
    s' := Next(cfg, Next(cfg, s, SaveEvent(p)), EnqueueEvent(p, 0));
  }

  lemma AckTaken(cfg: Config, s: System, p: Endpoint, to: Address, b: Bytes, n: SeqNum) returns (s': System)
    requires p in s.peers && s.peers[p].receiver.Idle? && Datagram(p, p, AckFrame(n)) in s.net && Key(to) == p
    requires s.peers[p].box.outgoing == [Attempted(Entry(n, to, b), 0)]
    ensures s' == Next(cfg, s, ArriveEvent(Datagram(p, p, AckFrame(n)))) && p in s'.peers
    ensures s'.peers[p].box == s.peers[p].box.(outgoing := []) && s'.peers[p].receiver.Idle?
    ensures s'.peers[p].sent == s.peers[p].sent
  {
    AckRoundTrip(n);
    var q := s.peers[p].box.outgoing;
    assert Acknowledges(q[0], Bound(p), n);
    assert AckIndex(q, Bound(p), n) == 0 && q[..0] + q[1..] == [];
    s' := Next(cfg, s, ArriveEvent(Datagram(p, p, AckFrame(n))));
  }

  // ---------- one step ----------

  /** Only the machine's latest post has not been handed over, and its mailbox is quiescent. */
  ghost predicate Smooth(j: Job, x: Site, c: Configuration) {
    && Quiescent(x.s, Home(j)) && |x.m.outbox| == x.handed + 1
    && x.m.outbox[x.handed] == Report(j.self, j.requester, c, x.m.env)
  }

  /** The machine may send to itself so many times more. */
  ghost predicate MayGoOn(j: Job, x: Site, n: nat) {
    && j.self in j.cfg.book && j.cfg.limit != AtMost(0)
    && Home(j) in x.s.peers && |Sent(x.s.peers[Home(j)], Home(j))| + n < TWO_64
  }


  lemma {:induction false} RunSiteConcat(j: Job, x: Site, acts: seq<Act>, more: seq<Act>)
    ensures RunSite(j, x, acts + more) == RunSite(j, RunSite(j, x, acts), more)
    decreases |acts|
  {
    if acts == [] {
      assert acts + more == more;
    } else if Home(j) in x.s.peers {
      assert (acts + more)[0] == acts[0] && (acts + more)[1..] == acts[1..] + more;
      RunSiteConcat(j, NextSite(j, x, acts[0]), acts[1..], more);
    }
  }

  lemma OneAct(j: Job, x: Site, act: Act, x': Site)
    requires Home(j) in x.s.peers && NextSite(j, x, act) == x'
    ensures RunSite(j, x, [act]) == x'
  {
    assert [act][1..] == [];
  }

  lemma OneActMore(j: Job, x: Site, acts: seq<Act>, x1: Site, act: Act, x2: Site)
    requires RunSite(j, x, acts) == x1 && Home(j) in x1.s.peers && NextSite(j, x1, act) == x2
    ensures RunSite(j, x, acts + [act]) == x2
  {
    RunSiteConcat(j, x, acts, [act]);
    OneAct(j, x1, act, x2);
  }

  /** A site that only the network has changed. */
  ghost predicate Beside(j: Job, x: Site, x': Site)
    requires Home(j) in x.s.peers
  {
    && Connected(j, x') && x'.m == x.m && TakenHome(x'.s, Home(j)) == TakenHome(x.s, Home(j))
  }

  /** The acts lead from x0 to x, and all that comes after the hand-over is the network's. */
  ghost predicate Led(j: Job, x0: Site, acts: seq<Act>, x: Site) {
    && Home(j) in x0.s.peers && RunSite(j, x0, acts) == x && Beside(j, x0, x) && x.handed == x0.handed + 1
    && forall i :: 0 <= i < |acts| ==> !acts[i].Turn?
  }

  lemma NetAct(j: Job, x0: Site, x: Site, acts: seq<Act>, e: Event)
    requires Led(j, x0, acts, x) && Foreign(j, e)
    ensures Led(j, x0, acts + [Net(e)], x.(s := Next(j.cfg, x.s, e)))
  {
    var x' := x.(s := Next(j.cfg, x.s, e));
    NetConnected(j, x, e);
    OneActMore(j, x0, acts, x, Net(e), x');
  }

  /** The symbol is handed over. */
  lemma SymbolIsHanded(j: Job, x: Site, c: Configuration, b: Bytes) returns (x': Site, n: SeqNum)
    requires Connected(j, x) && Smooth(j, x, c) && MayGoOn(j, x, 1) && c.state != HALT && b == Wire(Scan(c))
        && OneByte(b)
    ensures Led(j, x, [Hand(0)], x')
    ensures var p, s, s' := Home(j), x.s, x'.s;
            && s'.peers[p].box.outgoing == [Entry(n, j.self, b)] && s'.peers[p].box.incoming == []
            && s'.peers[p].receiver.Idle? && |Sent(s'.peers[p], p)| == |Sent(s.peers[p], p)| + 1
            && (p in s'.peers[p].box.incomingSeqNums ==> s'.peers[p].box.incomingSeqNums[p] < n)
  {
    var s';
    s', n := Submitted(j.cfg, x.s, Home(j), j.self, b);
    x' := x.(s := s', handed := x.handed + 1);
    HandConnected(j, x, 0);
    OneAct(j, x, Hand(0), x');
  }

  lemma SymbolArrives(j: Job, x0: Site, x: Site, acts: seq<Act>, b: Bytes, n: SeqNum)
    returns (x': Site, acts': seq<Act>)
    requires Led(j, x0, acts, x) && OneByte(b)
    requires x.s.peers[Home(j)].box.outgoing == [Entry(n, j.self, b)] && x.s.peers[Home(j)].receiver.Idle?
    ensures Led(j, x0, acts', x')
    ensures var p, q, q' := Home(j), x.s.peers[Home(j)], x'.s.peers[Home(j)];
            && q'.box == q.box.(outgoing := [Attempted(Entry(n, j.self, b), 0)]) && q'.sent == q.sent
            && q'.receiver == AckSent(Bound(p), Bound(p), n, b) && Datagram(p, p, AckFrame(n)) in x'.s.net
  {
    var p, e := Home(j), ArriveEvent(Datagram(Home(j), Home(j), Frame(n, b)));
    var s1 := PassedOn(j.cfg, x.s, p, j.self, b, n);
    NetAct(j, x0, x, acts, PassEvent(p, 0));
    var s2 := Arrived(j.cfg, s1, p, b, n);
    NetAct(j, x0, x.(s := s1), acts + [Net(PassEvent(p, 0))], e);
    x', acts' := x.(s := s2), acts + [Net(PassEvent(p, 0))] + [Net(e)];
  }

  lemma SymbolIsKept(j: Job, x0: Site, x: Site, acts: seq<Act>, b: Bytes, n: SeqNum)
    returns (x': Site, acts': seq<Act>)
    requires Led(j, x0, acts, x) && x.s.peers[Home(j)].receiver == AckSent(Bound(Home(j)), Bound(Home(j)), n, b)
    requires var q := x.s.peers[Home(j)];
             Home(j) in q.box.incomingSeqNums ==> q.box.incomingSeqNums[Home(j)] < n
    ensures Led(j, x0, acts', x') && x'.s.net == x.s.net
    ensures var p, q, q' := Home(j), x.s.peers[Home(j)], x'.s.peers[Home(j)];
            && q'.box.outgoing == q.box.outgoing && q'.receiver.Idle? && q'.sent == q.sent
            && q'.box.incoming == q.box.incoming + [Queued(0, n, 0, Bound(p), Bound(p), b, [])]
  {
    var p := Home(j);
    var s2 := Kept2(j.cfg, x.s, p, b, n);
    var s1 := Next(j.cfg, x.s, SaveEvent(p));
    NetAct(j, x0, x, acts, SaveEvent(p));
    NetAct(j, x0, x.(s := s1), acts + [Net(SaveEvent(p))], EnqueueEvent(p, 0));
    x', acts' := x.(s := s2), acts + [Net(SaveEvent(p))] + [Net(EnqueueEvent(p, 0))];
  }

  lemma SymbolIsAcked(j: Job, x0: Site, x: Site, acts: seq<Act>, b: Bytes, n: SeqNum)
    returns (x': Site, acts': seq<Act>)
    requires Led(j, x0, acts, x) && x.s.peers[Home(j)].receiver.Idle?
    requires Datagram(Home(j), Home(j), AckFrame(n)) in x.s.net
    requires x.s.peers[Home(j)].box.outgoing == [Attempted(Entry(n, j.self, b), 0)]
    ensures Led(j, x0, acts', x')
    ensures var q, q' := x.s.peers[Home(j)], x'.s.peers[Home(j)];
            q'.box == q.box.(outgoing := []) && q'.receiver.Idle? && q'.sent == q.sent
  {
    var p, e := Home(j), ArriveEvent(Datagram(Home(j), Home(j), AckFrame(n)));
    var s1 := AckTaken(j.cfg, x.s, p, j.self, b, n);
    NetAct(j, x0, x, acts, e);
    x', acts' := x.(s := s1), acts + [Net(e)];
  }

  /** From the hand-over of the symbol until the mailbox has it for the machine. */
  lemma SymbolTravels(j: Job, x: Site, c: Configuration, b: Bytes) returns (x': Site, acts: seq<Act>)
    requires Connected(j, x) && Smooth(j, x, c) && MayGoOn(j, x, 1) && c.state != HALT && b == Wire(Scan(c))
        && OneByte(b)
    ensures Led(j, x, acts, x')
    ensures var p, q, q' := Home(j), x.s.peers[Home(j)], x'.s.peers[Home(j)];
            && q'.box.outgoing == [] && q'.receiver.Idle? && |Sent(q', p)| == |Sent(q, p)| + 1
            && |q'.box.incoming| == 1
  {
    var x1, n := SymbolIsHanded(j, x, c, b);
    var x2, acts2 := SymbolArrives(j, x, x1, [Hand(0)], b, n);
    var x3, acts3 := SymbolIsKept(j, x, x2, acts2, b, n);
    x', acts := SymbolIsAcked(j, x, x3, acts3, b, n);
  }

  /** The turn that takes the symbol, at a clock reading at which no pulse is due. */
  lemma SymbolIsTaken(j: Job, x: Site, c: Configuration, d: Configuration, origin: int, said: string)
    returns (x': Site, origin': int)
    requires JobOk(j) && Connected(j, x) && Computing(j, x, c, origin, said) && Step(j.program, c) == Some(d)
    requires x.handed == |x.m.outbox| && x.s.peers[Home(j)].box.outgoing == [] && x.s.peers[Home(j)].receiver.Idle?
    requires |x.s.peers[Home(j)].box.incoming| == 1
    ensures NextSite(j, x, Turn(x.m.last)) == x' && Allowed(j, Turn(x.m.last))
    ensures Connected(j, x') && Computing(j, x', d, origin', said + Scan(d)) && Smooth(j, x', d)
    ensures x'.s.peers[Home(j)].sent == x.s.peers[Home(j)].sent
  {
    var m';
    m', origin' := StepTurn(j, x, c, origin, said, x.m.last);
    x' := Turned(j, x, m');
    TurnIs(j, x, x.m.last, m');
    TakenIsSmooth(j, x, m', d);
  }

  /** No pulse is due at the clock reading of the last one. */
  lemma NoPulse<E>(su: Setup<E>, m: M<E>)
    ensures Pulse(su, m, m.last) == m
  {
  }

  lemma TakenIsSmooth(j: Job, x: Site, m': M<World>, d: Configuration)
    requires Home(j) in x.s.peers && x.handed == |x.m.outbox|
    requires m'.outbox == Pulse(j.su, x.m, x.m.last).outbox + [Report(j.self, j.requester, d, m'.env)]
    requires x.s.peers[Home(j)].box.outgoing == [] && x.s.peers[Home(j)].receiver.Idle?
    requires |x.s.peers[Home(j)].box.incoming| == 1
    ensures Smooth(j, Turned(j, x, m'), d)
    ensures Turned(j, x, m').s.peers[Home(j)].sent == x.s.peers[Home(j)].sent
  {
    NoPulse(j.su, x.m);
  }

  lemma SymbolComputes(j: Job, x: Site, x': Site, acts: seq<Act>, c: Configuration, origin: int, said: string)
    requires Led(j, x, acts, x') && Computing(j, x, c, origin, said)
    ensures Computing(j, x', c, origin, said)
  {
  }

  /** One step of the Turing machine, over the network. */
  lemma StepIsReached(j: Job, x: Site, c: Configuration, d: Configuration, origin: int, said: string)
    returns (acts: seq<Act>, x': Site, origin': int)
    requires JobOk(j) && Connected(j, x) && Computing(j, x, c, origin, said) && Smooth(j, x, c)
    requires Step(j.program, c) == Some(d) && MayGoOn(j, x, 1)
    ensures RunSite(j, x, acts) == x' && forall i :: 0 <= i < |acts| ==> Allowed(j, acts[i])
    ensures Connected(j, x') && Computing(j, x', d, origin', said + Scan(d)) && Smooth(j, x', d)
    ensures |Sent(x'.s.peers[Home(j)], Home(j))| == |Sent(x.s.peers[Home(j)], Home(j))| + 1
  {
    SymbolIsOneByte(x.m, c, origin);
    var x1, acts1 := SymbolTravels(j, x, c, Wire(Scan(c)));
    SymbolComputes(j, x, x1, acts1, c, origin, said);
    x', origin' := SymbolIsTaken(j, x1, c, d, origin, said);
    acts := acts1 + [Turn(x1.m.last)];
    TurnEnds(j, x, acts1, x1, x');
  }

  lemma TurnEnds(j: Job, x: Site, acts1: seq<Act>, x1: Site, x': Site)
    requires Led(j, x, acts1, x1) && NextSite(j, x1, Turn(x1.m.last)) == x' && Allowed(j, Turn(x1.m.last))
    ensures var acts := acts1 + [Turn(x1.m.last)];
            RunSite(j, x, acts) == x' && forall i :: 0 <= i < |acts| ==> Allowed(j, acts[i])
  {
    OneActMore(j, x, acts1, x1, Turn(x1.m.last), x');
  }

  lemma SymbolIsOneByte(m: M<World>, c: Configuration, origin: int)
    requires c.state != HALT && ByteTape(c.tape) && StandsFor(m.env.tape, c.tape, origin) && NoSpaces(m.env.tape.cells)
    ensures OneByte(Wire(Scan(c)))
  {
    assert Cell(c.tape, c.tape.head) == m.env.tape.cells[m.env.tape.pos];
    assert IsByte(Cell(c.tape, c.tape.head));
  }

  // ---------- any number of steps ----------

  /** The Turing machine with its record, and how many steps are still to be made. */
  datatype Tour = Tour(t: Telling, left: nat)

  function TourStep(program: Program): Tour -> Option<Tour> {
    (u: Tour) =>
      if u.left == 0 then None else
        match Tell(program)(u.t)
        case None => None
        case Some(t) => Some(Tour(t, u.left - 1))
  }

  lemma {:induction false} TourIs(program: Program, t: Telling, n: nat)
    requires Makes(Tell(program), t, n).Some?
    ensures Makes(TourStep(program), Tour(t, n), n) == Some(Tour(Makes(Tell(program), t, n).value, 0))
    decreases n
  {
    if n > 0 {
      TourIs(program, Tell(program)(t).value, n - 1);
    }
  }

  /** The machine is where the tour is, with a mailbox that is done with everything else. */
  ghost predicate OnTour(j: Job, x: Site, u: Tour) {
    && Connected(j, x) && Smooth(j, x, u.t.c) && MayGoOn(j, x, u.left)
    && exists origin :: Computing(j, x, u.t.c, origin, u.t.said)
  }

  ghost function Touring(j: Job): (Site, Tour) -> bool {
    (x, u) => OnTour(j, x, u)
  }

  ghost function Running(j: Job): (Site, seq<Act>) -> Site {
    (x, acts) => RunSite(j, x, acts)
  }

  ghost function Allowing(j: Job): Act -> bool {
    act => Allowed(j, act)
  }

  lemma RunsCompose(j: Job)
    ensures Composes(Running(j))
  {
    forall x: Site, acts: seq<Act>, more: seq<Act> ensures ComposesAt(Running(j), x, acts, more) {
      RunSiteConcat(j, x, acts, more);
    }
  }

  lemma TourIsStep(program: Program, u: Tour, v: Tour)
    requires TourStep(program)(u) == Some(v)
    ensures Step(program, u.t.c) == Some(v.t.c) && v.t.said == u.t.said + Scan(v.t.c) && v.left + 1 == u.left
  {
    assert Tell(program)(u.t) == Some(v.t);
  }

  lemma TourGoesOn(j: Job, x: Site, u: Tour, v: Tour) returns (acts: seq<Act>)
    requires JobOk(j) && OnTour(j, x, u) && TourStep(j.program)(u) == Some(v)
    ensures (forall i :: 0 <= i < |acts| ==> Allowed(j, acts[i])) && OnTour(j, RunSite(j, x, acts), v)
  {
    var origin :| Computing(j, x, u.t.c, origin, u.t.said);
    TourIsStep(j.program, u, v);
    var x', origin';
    acts, x', origin' := StepIsReached(j, x, u.t.c, v.t.c, origin, u.t.said);
  }

  lemma ToursAdvance(j: Job)
    requires JobOk(j)
    ensures Advances(Running(j), Allowing(j), Touring(j), TourStep(j.program))
  {
    var run, allowed, good, step := Running(j), Allowing(j), Touring(j), TourStep(j.program);
    forall x: Site, u: Tour | good(x, u) && step(u).Some?
      ensures LeadsTo(run, allowed, good, x, step(u).value)
    {
      var acts := TourGoesOn(j, x, u, step(u).value);
      assert AllAllowed(allowed, acts) && good(run(x, acts), step(u).value);
    }
  }

  /** From a machine that has been given its request, with a mailbox that is done with everything else, some acts
      lead to every step the Turing machine makes. */
  lemma StepsAreReached(j: Job, x: Site, n: nat, d: Configuration) returns (acts: seq<Act>, origin: int)
    requires JobOk(j) && Connected(j, x) && Computing(j, x, j.c0, 0, Scan(j.c0)) && Smooth(j, x, j.c0)
    requires Steps(j.program, j.c0, n) == Some(d) && MayGoOn(j, x, n)
    ensures forall i :: 0 <= i < |acts| ==> Allowed(j, acts[i])
    ensures Connected(j, RunSite(j, x, acts))
    ensures Computing(j, RunSite(j, x, acts), d, origin, Scan(j.c0) + Scanned(j.program, j.c0, n))
  {
    var t := Telling(j.c0, Scan(j.c0));
    TellingIs(j.program, j.c0, Scan(j.c0), n);
    TourIs(j.program, t, n);
    RunsCompose(j);
    ToursAdvance(j);
    assert OnTour(j, x, Tour(t, n));
    acts := EveryStepHasARun(Running(j), Allowing(j), Touring(j), TourStep(j.program), x, Tour(t, n), n);
    var end := Tour(Telling(d, Scan(j.c0) + Scanned(j.program, j.c0, n)), 0);
    assert Touring(j)(RunSite(j, x, acts), end);
    assert forall i :: 0 <= i < |acts| ==> Allowing(j)(acts[i]);
    origin :| Computing(j, RunSite(j, x, acts), d, origin, end.t.said);
  }

  lemma RequestIsSmooth(j: Job, m: M<World>, m1: M<World>)
    requires Home(j) in j.cfg.peers && m.outbox == [] && j.c0.state != HALT
    requires m1.outbox == Pulse(j.su, m, m.last).outbox + [Posted(j.self, Scan(j.c0), false)]
    ensures Smooth(j, Site(Network.Start(j.cfg), m1, 0), j.c0)
  {
    NoPulse(j.su, m);
  }

  /** From a network in which nothing has been sent and a machine that has posted nothing: for every number of
      steps the Turing machine makes on the requested tape there is a run that reaches exactly that step. */
  lemma EveryStepIsReached(j: Job, m: M<World>, i: Incoming, n: nat)
    returns (m1: M<World>, acts: seq<Act>, origin: int)
    requires JobOk(j) && Home(j) in j.cfg.peers && j.self in j.cfg.book && j.cfg.limit != AtMost(0) && n < TWO_64
    requires m.outbox == [] && Request(j, Site(Network.Start(j.cfg), m, 0), i, m.last)
    requires Steps(j.program, j.c0, n).Some?
    ensures Iterate(j.su, m, Tick(m.last, Some(i)), j.fuel) == Done(m1)
    ensures forall k :: 0 <= k < |acts| ==> Allowed(j, acts[k])
    ensures var x' := RunSite(j, Site(Network.Start(j.cfg), m1, 0), acts);
            Connected(j, x') && Reached(j, x', n, origin)
            && Computing(j, x', Steps(j.program, j.c0, n).value, origin, Scan(j.c0) + Scanned(j.program, j.c0, n))
  {
    var x := Site(Network.Start(j.cfg), m, 0);
    m1 := RequestReaches(j, x, i, m.last);
    RequestIsSmooth(j, m, m1);
    acts, origin := StepsAreReached(j, x.(m := m1), n, Steps(j.program, j.c0, n).value);
  }
}
