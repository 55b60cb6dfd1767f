/** The layers together: the universal machine behind its mailbox, over the losing, repeating, reordering
    network. */
module Composition {
  import opened Text
  import opened Addresses
  import opened Frames
  import opened Network
  import opened NetworkInvariant
  import opened Lockstep
  import opened Machines
  import opened Posts
  import opened Tapes
  import opened Simulations
  import opened Universal
  import opened UniversalRuns

  // ---------- characters and bytes ----------

  /** A C++ `char` is one byte. */
  function Wire(text: string): Bytes {
    seq(|text|, i requires 0 <= i < |text| => text[i] as int % 0x100)
  }

  function TextOf(message: Bytes): string {
    seq(|message|, i requires 0 <= i < |message| => message[i] as char)
  }

  predicate IsByte(c: char) {
    c as int < 0x100
  }

  lemma SymbolCrosses(c: char)
    requires IsByte(c) && !IsSpace(c)
    ensures TextOf(Canonical(Wire([c]))) == [c]
  {
    var b := Wire([c]);
    assert b == [c as int] && c as int != NEWLINE;
    TrimIs(b, b);
  }

  predicate ByteProgram(program: Program) {
    forall q :: q in program ==> IsByte(q.write)
  }

  /** Symbols that cross the network: one byte, and no space. */
  ghost predicate ByteTape(f: Infinite) {
    forall i :: IsByte(Cell(f, i)) && !IsSpace(Cell(f, i))
  }

  lemma StepKeepsBytes(program: Program, c: Configuration)
    requires ByteProgram(program) && ByteTape(c.tape) && Step(program, c).Some?
    requires forall q :: q in program ==> !IsSpace(q.write)
    ensures ByteTape(Step(program, c).value.tape)
  {
    var q := Rule(program, c.state, Cell(c.tape, c.tape.head)).value;
    var f := Step(program, c).value.tape;
    forall i ensures IsByte(Cell(f, i)) && !IsSpace(Cell(f, i)) {
      assert IsByte(Cell(c.tape, i)) && !IsSpace(Cell(c.tape, i));
      assert Cell(f, i) == if i == c.tape.head then q.write else Cell(c.tape, i);
    }
  }

  // ---------- a machine behind its mailbox ----------

  /** The network, the machine of one of its peers, and how many of the machine's posts its mailbox was given. */
  datatype Site = Site(s: System, m: M<World>, handed: nat)

  /** What does not change: the set-up and the machine; who asked, and the configuration the request led to; what
      the application had posted before, the messages among all that went to the requester, and when the last
      pulse was sent. */
  datatype Job = Job(cfg: Config, su: Setup<World>, program: Program, self: Address, first: char, blank: char,
                     fuel: nat,
                     requester: Address, c0: Configuration, base: seq<Posted>, owed: seq<string>, last: int)

  function Home(j: Job): Endpoint {
    Key(j.self)
  }

  /** The requester is somebody else, so that the answer is not a new request. */
  ghost predicate JobOk(j: Job) {
    && IsUniversal(j.su, j.program, j.self, j.first, j.blank) && j.fuel > 20
    && Home(j) != Key(j.requester) && ByteProgram(j.program)
  }

  /** A step of the network or of another peer, the hand-over of the machine's next post to its mailbox, or a
      turn of the machine's loop. */
  datatype Act = Net(e: Event) | Hand(now: int) | Turn(now: int)

  /** Sending and taking at home is the machine's business; nobody else sends to it while it computes. */
  predicate Foreign(j: Job, e: Event) {
    match e
    case SendEvent(at, _, to, _) => at != Home(j) && Key(to) != Home(j)
    case TakeEvent(at) => at != Home(j)
    case _ => true
  }

  function HandOver(x: Site, p: Endpoint, now: int): Event
    requires x.handed < |x.m.outbox|
  {
    SendEvent(p, now, x.m.outbox[x.handed].to, Wire(x.m.outbox[x.handed].message))
  }

  /** What the mailbox gives the machine. */
  function Head(x: Site, p: Endpoint): Option<Incoming>
    requires p in x.s.peers
  {
    var q := x.s.peers[p].box.incoming;
    if q == [] then None else Some(Incoming(q[0].from, q[0].to, TextOf(q[0].message)))
  }

  /** An act that is not possible changes nothing. */
  ghost function NextSite(j: Job, x: Site, act: Act): Site
    requires Home(j) in x.s.peers
  {
    match act
    case Net(e) => if Foreign(j, e) then x.(s := Next(j.cfg, x.s, e)) else x
    case Hand(now) =>
      if x.handed < |x.m.outbox| && Enabled(j.cfg, x.s, HandOver(x, Home(j), now)) then
        x.(s := Next(j.cfg, x.s, HandOver(x, Home(j), now)), handed := x.handed + 1)
      else x
    case Turn(now) =>
      if !x.m.running then x else
        x.(s := Next(j.cfg, x.s, TakeEvent(Home(j))),
           m := match Iterate(j.su, x.m, Tick(now, Head(x, Home(j))), j.fuel)
                case Done(m1) => m1
                case _ => x.m.(running := false))
  }

  // ---------- only the machine's own messages reach it ----------

  ghost predicate AllHeard(sent: seq<Original>, p: Peer, a: Endpoint) {
    sent == [] || (a in p.box.incomingSeqNums && p.box.incomingSeqNums[a] + 1 >= |sent|)
  }

  /** Whatever others have sent to p was delivered and taken before. */
  ghost predicate OnlyOwn(s: System, p: Endpoint)
    requires p in s.peers
  {
    && (forall e :: e in s.peers[p].box.incoming ==> Key(e.from) == p)
    && (s.peers[p].receiver.Saved? ==> Key(s.peers[p].receiver.from) == p)
    && forall a :: a != p ==> AllHeard(SentBy(s, a, p), s.peers[p], a)
  }

  /** Events that do not send to p, unless p itself does. */
  predicate NotTo(e: Event, p: Endpoint) {
    e.SendEvent? ==> e.at == p || Key(e.to) != p
  }

  lemma SaveKeepsOnlyOwn(cfg: Config, s: System, p: Endpoint)
    requires Inv(cfg, s) && p in s.peers && OnlyOwn(s, p) && s.peers[p].receiver.AckSent?
    ensures OnlyOwn(Next(cfg, s, SaveEvent(p)), p)
  {
    var s', a := Next(cfg, s, SaveEvent(p)), Key(s.peers[p].receiver.from);
    assert LinkOk(SentBy(s, a, p), s.peers[p], a);
    if a != p {
      assert AllHeard(SentBy(s, a, p), s.peers[p], a);
    }
    forall b | b != p ensures AllHeard(SentBy(s', b, p), s'.peers[p], b) {
      assert SentBy(s', b, p) == SentBy(s, b, p) && AllHeard(SentBy(s, b, p), s.peers[p], b);
    }
  }

  /** Steps that leave the watermarks and the ends of all links to p alone. */
  lemma StillOnlyOwn(s: System, s': System, p: Endpoint)
    requires p in s.peers && p in s'.peers && OnlyOwn(s, p)
    requires s'.peers[p].box.incomingSeqNums == s.peers[p].box.incomingSeqNums
    requires forall e :: e in s'.peers[p].box.incoming ==> Key(e.from) == p
    requires s'.peers[p].receiver.Saved? ==> s'.peers[p].receiver == s.peers[p].receiver
    requires forall a :: a != p ==> SentBy(s', a, p) == SentBy(s, a, p)
    ensures OnlyOwn(s', p)
  {
    forall a | a != p ensures AllHeard(SentBy(s', a, p), s'.peers[p], a) {
      assert AllHeard(SentBy(s, a, p), s.peers[p], a);
    }
  }

  lemma NextKeepsOnlyOwn(cfg: Config, s: System, e: Event, p: Endpoint)
    requires Inv(cfg, s) && p in s.peers && OnlyOwn(s, p) && NotTo(e, p)
    ensures p in Next(cfg, s, e).peers && OnlyOwn(Next(cfg, s, e), p)
  {
    if Enabled(cfg, s, e) {
      match e {
        case SendEvent(_, _, _, _) => SendStepsStillOnlyOwn(cfg, s, e, p);
        case PassEvent(_, _) => OtherStepsStillOnlyOwn(cfg, s, e, p);
        case ArriveEvent(_) => OtherStepsStillOnlyOwn(cfg, s, e, p);
        case SaveEvent(at) =>
          if at == p {
            SaveKeepsOnlyOwn(cfg, s, p);
          } else {
            OtherStepsStillOnlyOwn(cfg, s, e, p);
          }
        case EnqueueEvent(_, _) => OtherStepsStillOnlyOwn(cfg, s, e, p);
        case TakeEvent(_) => OtherStepsStillOnlyOwn(cfg, s, e, p);
        case LoseEvent(_) => OtherStepsStillOnlyOwn(cfg, s, e, p);
      }
    }
  }

  lemma SendStepsStillOnlyOwn(cfg: Config, s: System, e: Event, p: Endpoint)
    requires p in s.peers && OnlyOwn(s, p) && e.SendEvent? && NotTo(e, p) && Enabled(cfg, s, e)
    ensures OnlyOwn(Next(cfg, s, e), p)
  {
    StillOnlyOwn(s, Next(cfg, s, e), p);
  }

  lemma OtherStepsStillOnlyOwn(cfg: Config, s: System, e: Event, p: Endpoint)
    requires p in s.peers && OnlyOwn(s, p) && !e.SendEvent? && e != SaveEvent(p) && Enabled(cfg, s, e)
    ensures OnlyOwn(Next(cfg, s, e), p)
  {
    StillOnlyOwn(s, Next(cfg, s, e), p);
  }

  // ---------- the mailbox carries what the machine posts to itself ----------

  ghost predicate Carried(sent: seq<Original>, own: seq<string>) {
    |sent| == |own| && forall i :: 0 <= i < |sent| ==> sent[i].message == Wire(own[i])
  }

  /** What was passed to `Send`, for every destination. */
  ghost predicate AllCarried(p: Peer, outbox: seq<Posted>) {
    forall to :: Carried(Sent(p, to), Own(outbox, to))
  }

  /** How many of its own messages the machine has taken. */
  function TakenHome(s: System, p: Endpoint): nat
    requires p in s.peers
  {
    |Taken(s.peers[p], p)|
  }

  /** The mailbox was given the first posts of the machine, and at most one of those to itself is not taken. */
  ghost predicate Connected(j: Job, x: Site) {
    var p := Home(j);
    && Inv(j.cfg, x.s) && p in x.s.peers && InStep(x.s, p, p) && OnlyOwn(x.s, p)
    && x.handed <= |x.m.outbox| && AllCarried(x.s.peers[p], x.m.outbox[..x.handed])
    && |Own(x.m.outbox, p)| <= TakenHome(x.s, p) + 1
  }

  lemma {:induction false} OwnPrefix(outbox: seq<Posted>, n: nat, self: Endpoint)
    requires n <= |outbox|
    ensures Own(outbox[..n], self) <= Own(outbox, self)
    decreases |outbox|
  {
    if n == |outbox| {
      assert outbox[..n] == outbox;
    } else {
      OwnPrefix(outbox[..|outbox| - 1], n, self);
      assert outbox[..|outbox| - 1][..n] == outbox[..n];
    }
  }

  lemma TakenAtMostSent(cfg: Config, s: System, p: Endpoint)
    requires Inv(cfg, s) && p in s.peers && InStep(s, p, p)
    ensures TakenHome(s, p) <= |Sent(s.peers[p], p)|
  {
    assert LinkOk(SentBy(s, p, p), s.peers[p], p);
    TakenMatches(SentBy(s, p, p), s.peers[p], p);
  }

  /** What the mailbox gives the machine is its one pending message. */
  lemma HeadIsPending(j: Job, x: Site)
    requires Connected(j, x) && Head(x, Home(j)).Some?
    ensures var n, own := TakenHome(x.s, Home(j)), Own(x.m.outbox, Home(j));
            && n + 1 == |own| && Head(x, Home(j)).value.message == TextOf(Canonical(Wire(own[n])))
            && Key(x.s.peers[Home(j)].box.incoming[0].from) == Home(j)
  {
    var p := Home(j);
    var q := x.s.peers[p].box.incoming;
    assert q[0] in q;
    assert LinkOk(SentBy(x.s, p, p), x.s.peers[p], p);
    NextTakenIs(SentBy(x.s, p, p), x.s.peers[p], p);
    assert Carried(Sent(x.s.peers[p], p), Own(x.m.outbox[..x.handed], p));
    OwnPrefix(x.m.outbox, x.handed, p);
  }

  // ---------- what each act keeps ----------

  /** A foreign step is not seen at home. */
  lemma ForeignEnds(j: Job, s: System, e: Event)
    requires Home(j) in s.peers && Foreign(j, e)
    ensures var p, s' := Home(j), Next(j.cfg, s, e);
            && p in s'.peers
            && s'.peers[p].sent == s.peers[p].sent && Taken(s'.peers[p], p) == Taken(s.peers[p], p)
  {
    var p := Home(j);
    if Enabled(j.cfg, s, e) {
      if e.SendEvent? {
        SendStep(j.cfg, s, e, p, p);
      } else if e.TakeEvent? {
        TakeStep(j.cfg, s, e.at, p, p);
      } else {
        OtherStep(j.cfg, s, e, p, p);
      }
    }
  }

  lemma NetConnected(j: Job, x: Site, e: Event)
    requires Connected(j, x) && Foreign(j, e)
    ensures var x' := x.(s := Next(j.cfg, x.s, e));
            Connected(j, x') && TakenHome(x'.s, Home(j)) == TakenHome(x.s, Home(j))
  {
    NextKeepsInv(j.cfg, x.s, e);
    NextInStep(j.cfg, x.s, e, Home(j), Home(j));
    NextKeepsOnlyOwn(j.cfg, x.s, e, Home(j));
    ForeignEnds(j, x.s, e);
    SameCarried(x.s.peers[Home(j)], Next(j.cfg, x.s, e).peers[Home(j)], x.m.outbox[..x.handed]);
  }

  lemma SameCarried(p: Peer, p': Peer, outbox: seq<Posted>)
    requires AllCarried(p, outbox) && p'.sent == p.sent
    ensures AllCarried(p', outbox)
  {
    forall to ensures Carried(Sent(p', to), Own(outbox, to)) {
      assert Carried(Sent(p, to), Own(outbox, to));
    }
  }

  lemma HandedOneMore(x: Site, p: Endpoint)
    requires x.handed < |x.m.outbox|
    ensures var post := x.m.outbox[x.handed];
            Own(x.m.outbox[..x.handed + 1], p)
            == Own(x.m.outbox[..x.handed], p) + if Key(post.to) == p then [post.message] else []
    ensures |Own(x.m.outbox[..x.handed + 1], p)| <= |Own(x.m.outbox, p)|
  {
    assert x.m.outbox[..x.handed + 1] == x.m.outbox[..x.handed] + [x.m.outbox[x.handed]];
    OneMore(x.m.outbox[..x.handed], x.m.outbox[x.handed], p);
    OwnPrefix(x.m.outbox, x.handed + 1, p);
  }

  /** The hand-over of a message to itself waits for the one before to be taken, because the machine has posted
      no more. */
  lemma HandIsPatient(j: Job, x: Site, now: int)
    requires Connected(j, x) && x.handed < |x.m.outbox|
    ensures Patient(x.s, HandOver(x, Home(j), now), Home(j), Home(j))
  {
    var p := Home(j);
    TakenAtMostSent(j.cfg, x.s, p);
    assert Carried(Sent(x.s.peers[p], p), Own(x.m.outbox[..x.handed], p));
    HandedOneMore(x, p);
  }

  lemma CarriedOneMore(sent: seq<Original>, own: seq<string>, now: int, text: string)
    requires Carried(sent, own)
    ensures Carried(sent + [Original(now, Wire(text))], own + [text])
  {
  }

  lemma HandIsCarried(p: Peer, x: Site, now: int)
    requires x.handed < |x.m.outbox| && AllCarried(p, x.m.outbox[..x.handed])
    ensures var post := x.m.outbox[x.handed];
            AllCarried(PeerSend(p, now, post.to, Wire(post.message)), x.m.outbox[..x.handed + 1])
  {
    var post := x.m.outbox[x.handed];
    forall to
      ensures Carried(Sent(PeerSend(p, now, post.to, Wire(post.message)), to), Own(x.m.outbox[..x.handed + 1], to))
    {
      HandedOneMore(x, to);
      assert Carried(Sent(p, to), Own(x.m.outbox[..x.handed], to));
      CarriedOneMore(Sent(p, to), Own(x.m.outbox[..x.handed], to), now, post.message);
    }
  }

  lemma HandConnected(j: Job, x: Site, now: int)
    requires Connected(j, x) && x.handed < |x.m.outbox| && Enabled(j.cfg, x.s, HandOver(x, Home(j), now))
    ensures var x' := x.(s := Next(j.cfg, x.s, HandOver(x, Home(j), now)), handed := x.handed + 1);
            Connected(j, x') && TakenHome(x'.s, Home(j)) == TakenHome(x.s, Home(j))
  {
    var p, e := Home(j), HandOver(x, Home(j), now);
    HandIsPatient(j, x, now);
    NextKeepsInv(j.cfg, x.s, e);
    NextInStep(j.cfg, x.s, e, p, p);
    NextKeepsOnlyOwn(j.cfg, x.s, e, p);
    SendStep(j.cfg, x.s, e, p, p);
    HandIsCarried(x.s.peers[p], x, now);
  }

  /** The site after a turn that leaves the machine at m'. */
  function Turned(j: Job, x: Site, m': M<World>): Site
    requires Home(j) in x.s.peers
  {
    x.(s := Next(j.cfg, x.s, TakeEvent(Home(j))), m := m')
  }

  /** The machine after a turn in which it took what was at the head, if anything was. */
  lemma TurnConnected(j: Job, x: Site, m': M<World>)
    requires Connected(j, x) && x.m.outbox <= m'.outbox
    requires |Own(m'.outbox, Home(j))| <= TakenHome(x.s, Home(j)) + if Head(x, Home(j)).Some? then 2 else 1
    ensures var x' := Turned(j, x, m');
            && Connected(j, x')
            && TakenHome(x'.s, Home(j)) == TakenHome(x.s, Home(j)) + if Head(x, Home(j)).Some? then 1 else 0
  {
    var p, e := Home(j), TakeEvent(Home(j));
    NextKeepsInv(j.cfg, x.s, e);
    NextInStep(j.cfg, x.s, e, p, p);
    NextKeepsOnlyOwn(j.cfg, x.s, e, p);
    assert m'.outbox[..x.handed] == x.m.outbox[..x.handed];
    SameCarried(x.s.peers[p], Next(j.cfg, x.s, e).peers[p], x.m.outbox[..x.handed]);
    if Head(x, p).Some? {
      HeadIsPending(j, x);
      TakeStep(j.cfg, x.s, p, p, p);
      TakenOneMore(x.s.peers[p], p);
    }
  }

  // ---------- the computation ----------

  /** The machine follows the configuration, and the requester has been posted nothing but the answer. */
  ghost predicate Computing(j: Job, x: Site, c: Configuration, origin: int, said: string)
    requires Home(j) in x.s.peers
  {
    && c.tape.blank == j.blank && ByteTape(c.tape)
    && Follows(Loopback(x.m, TakenHome(x.s, Home(j))), j.program, j.self, j.requester, c, origin, j.base, said)
    && (Key(j.su.parent) == Home(j) ==> x.m.last == j.last)
    && Owed(j, x.m, if c.state == HALT then [x.m.env.tape.cells] else [])
  }

  /** What the machine has posted to the requester, unless that is its parent, which gets pulses too. */
  ghost predicate Owed(j: Job, m: M<World>, answer: seq<string>) {
    Key(j.su.parent) != Key(j.requester) ==> Own(m.outbox, Key(j.requester)) == j.owed + answer
  }

  /** The Turing machine has no step, and the machine has stopped with an error. */
  ghost predicate Stuck(j: Job, x: Site, c: Configuration, said: string) {
    && c.state != HALT && Step(j.program, c).None?
    && !x.m.running && x.m.error == "Unhandled message: " + Scan(c)
    && Told(x.m, j.self, j.requester, c, j.base, said) && Owed(j, x.m, [])
  }

  /** The configuration after k steps, and the machine there. */
  ghost predicate Reached(j: Job, x: Site, k: nat, origin: int)
    requires Home(j) in x.s.peers
  {
    && Steps(j.program, j.c0, k).Some?
    && var c, said := Steps(j.program, j.c0, k).value, Scan(j.c0) + Scanned(j.program, j.c0, k);
    (Computing(j, x, c, origin, said) || Stuck(j, x, c, said))
  }

  lemma {:induction false} OneStepMore(program: Program, c0: Configuration, k: nat, d: Configuration)
    requires Steps(program, c0, k).Some? && Step(program, Steps(program, c0, k).value) == Some(d)
    ensures Steps(program, c0, k + 1) == Some(d)
    ensures Scanned(program, c0, k + 1) == Scanned(program, c0, k) + Scan(d)
    decreases k
  {
    if k > 0 {
      var c1 := Stepping(program)(c0).value;
      OneStepMore(program, c1, k - 1, d);
    } else {
      assert Stepping(program)(c0) == Some(d) && Makes(Stepping(program), d, 0) == Some(d);
      assert Scan(d) + "" == Scan(d) && "" + Scan(d) == Scan(d);
    }
  }

  /** A turn at a clock reading at which no pulse comes back to the machine. */
  predicate Allowed(j: Job, act: Act) {
    act.Turn? ==> PulseStaysAway(j.su, j.last, act.now, Home(j))
  }

  /** A pulse is not an answer. */
  lemma PulseOwes(j: Job, m: M<World>, now: int, answer: seq<string>)
    requires Owed(j, m, answer)
    ensures Owed(j, Pulse(j.su, m, now), answer)
  {
    PulseEchoes(j.su, m, now, Key(j.requester));
  }

  lemma PulseConnected(j: Job, x: Site, now: int)
    requires Connected(j, x) && PulseStaysAway(j.su, x.m.last, now, Home(j)) && Head(x, Home(j)).None?
    ensures var x' := Turned(j, x, Pulse(j.su, x.m, now));
            Connected(j, x') && TakenHome(x'.s, Home(j)) == TakenHome(x.s, Home(j))
  {
    PulseEchoes(j.su, x.m, now, Home(j));
    TurnConnected(j, x, Pulse(j.su, x.m, now));
  }

  /** A turn without a message: nothing but a pulse. */
  lemma IdleTurn(j: Job, x: Site, c: Configuration, origin: int, said: string, now: int)
    requires JobOk(j) && Allowed(j, Turn(now))
    requires Connected(j, x) && Computing(j, x, c, origin, said) && Head(x, Home(j)).None?
    ensures var m' := Pulse(j.su, x.m, now);
            && Iterate(j.su, x.m, Tick(now, None), j.fuel) == Done(m')
            && Connected(j, Turned(j, x, m')) && Computing(j, Turned(j, x, m'), c, origin, said)
  {
    UndisturbedTurn(j.su, x.m, now, Incoming(j.self, j.self, ""), j.fuel);
    PulseConnected(j, x, now);
    PulseOwes(j, x.m, now, if c.state == HALT then [x.m.env.tape.cells] else []);
    PulseFollows(j.su, x.m, now, TakenHome(x.s, Home(j)), j.program, j.self, j.requester, c, origin, j.base, said);
  }

  /** What a step posts is owed when it is the answer. */
  lemma ReportOwes(j: Job, m: M<World>, m': M<World>, d: Configuration)
    requires JobOk(j) && Owed(j, m, []) && m'.outbox == m.outbox + [Report(j.self, j.requester, d, m'.env)]
    ensures Owed(j, m', if d.state == HALT then [m'.env.tape.cells] else [])
  {
    OneMore(m.outbox, Report(j.self, j.requester, d, m'.env), Key(j.requester));
  }

  /** What the turn with the symbol leaves. */
  lemma SteppedComputes(j: Job, x: Site, x': Site, c: Configuration, origin': int, said: string, now: int,
                        o: Outcome<M<World>>)
    requires JobOk(j) && Allowed(j, Turn(now)) && c.state != HALT && Owed(j, x.m, [])
    requires c.tape.blank == j.blank && ByteTape(c.tape) && (Key(j.su.parent) == Home(j) ==> x.m.last == j.last)
    requires o.Done? && x'.m == o.value && Home(j) in x'.s.peers
    requires Stepped(Pulse(j.su, x.m, now), o, TakenHome(x'.s, Home(j)), j.program, j.self, j.requester, c, origin',
                     j.base, said)
    ensures match Step(j.program, c)
            case Some(d) => Computing(j, x', d, origin', said + Scan(d))
            case None => Stuck(j, x', c, said)
  {
    PulseOwes(j, x.m, now, []);
    if Step(j.program, c).Some? {
      StepKeepsBytes(j.program, c);
      ReportOwes(j, Pulse(j.su, x.m, now), x'.m, Step(j.program, c).value);
    }
  }

  lemma SteppedConnected(j: Job, x: Site, c: Configuration, origin': int, said: string, now: int, o: Outcome<M<World>>)
    requires JobOk(j) && Connected(j, x) && Head(x, Home(j)).Some?
    requires Stepped(Pulse(j.su, x.m, now), o, TakenHome(x.s, Home(j)) + 1, j.program, j.self, j.requester, c, origin',
                     j.base, said)
    ensures Connected(j, Turned(j, x, o.value))
    ensures TakenHome(Turned(j, x, o.value).s, Home(j)) == TakenHome(x.s, Home(j)) + 1
  {
    TurnConnected(j, x, o.value);
  }

  /** A turn with a message, which is the machine's own: a step. */
  lemma StepTurn(j: Job, x: Site, c: Configuration, origin: int, said: string, now: int)
    returns (m': M<World>, origin': int)
    requires JobOk(j) && Allowed(j, Turn(now))
    requires Connected(j, x) && Computing(j, x, c, origin, said) && Head(x, Home(j)).Some?
    ensures c.state != HALT && Iterate(j.su, x.m, Tick(now, Head(x, Home(j))), j.fuel) == Done(m')
    ensures Connected(j, Turned(j, x, m'))
    ensures match Step(j.program, c)
            case Some(d) =>
              && Computing(j, Turned(j, x, m'), d, origin', said + Scan(d))
              && m'.outbox == Pulse(j.su, x.m, now).outbox + [Report(j.self, j.requester, d, m'.env)]
              && m'.last == Pulse(j.su, x.m, now).last
            case None => Stuck(j, Turned(j, x, m'), c, said)
  {
    var i := Head(x, Home(j)).value;
    NotHalted(j, x, c, origin, said);
    origin' := TurnIsSimulated(j.su, Loopback(x.m, TakenHome(x.s, Home(j))), j.program, j.self, j.requester, j.first,
                               j.blank, c, origin, j.base, said, i, now, j.fuel);
    var o := Iterate(j.su, x.m, Tick(now, Some(i)), j.fuel);
    m' := o.value;
    SteppedConnected(j, x, c, origin', said, now, o);
    SteppedComputes(j, x, Turned(j, x, m'), c, origin', said, now, o);
  }

  /** The pending message of a computing machine. */
  lemma PendingIsScan(b: Loopback, program: Program, self: Address, requester: Address, c: Configuration, origin: int,
                      base: seq<Posted>, said: string)
    requires Follows(b, program, self, requester, c, origin, base, said) && Key(requester) != Key(self)
    requires b.taken < |Own(b.m.outbox, Key(self))|
    ensures c.state != HALT && !IsSpace(Cell(c.tape, c.tape.head))
    ensures Own(b.m.outbox, Key(self))[b.taken] == [Cell(c.tape, c.tape.head)]
  {
    if c.state != HALT {
      assert Cell(c.tape, c.tape.head) == b.m.env.tape.cells[b.m.env.tape.pos];
      assert Pending(b, self)[0] == Own(b.m.outbox, Key(self))[b.taken];
    }
  }

  /** A halted machine has nothing pending; a computing one is given the symbol. */
  lemma NotHalted(j: Job, x: Site, c: Configuration, origin: int, said: string)
    requires JobOk(j) && Connected(j, x) && Computing(j, x, c, origin, said) && Head(x, Home(j)).Some?
    ensures c.state != HALT && Head(x, Home(j)).value.message == Scan(c)
  {
    HeadIsPending(j, x);
    PendingIsScan(Loopback(x.m, TakenHome(x.s, Home(j))), j.program, j.self, j.requester, c, origin, j.base, said);
    assert IsByte(Cell(c.tape, c.tape.head));
    SymbolCrosses(Cell(c.tape, c.tape.head));
  }

  /** What does not concern the machine leaves it where it is. */
  lemma StillReached(j: Job, x: Site, x': Site, k: nat, origin: int)
    requires Home(j) in x.s.peers && Home(j) in x'.s.peers && Reached(j, x, k, origin)
    requires x'.m == x.m && TakenHome(x'.s, Home(j)) == TakenHome(x.s, Home(j))
    ensures Reached(j, x', k, origin)
  {
  }

  lemma NextReached(j: Job, x: Site, act: Act, k: nat, origin: int) returns (k': nat, origin': int)
    requires JobOk(j) && Connected(j, x) && Reached(j, x, k, origin) && Allowed(j, act)
    ensures Connected(j, NextSite(j, x, act)) && Reached(j, NextSite(j, x, act), k', origin')
  {
    k', origin' := k, origin;
    match act {
      case Net(e) =>
        if Foreign(j, e) {
          NetConnected(j, x, e);
          StillReached(j, x, NextSite(j, x, act), k, origin);
        }
      case Hand(now) =>
        if x.handed < |x.m.outbox| && Enabled(j.cfg, x.s, HandOver(x, Home(j), now)) {
          HandConnected(j, x, now);
          StillReached(j, x, NextSite(j, x, act), k, origin);
        }
      case Turn(now) =>
        if x.m.running {
          k', origin' := TurnReached(j, x, now, k, origin);
        }
    }
  }

  lemma TurnIs(j: Job, x: Site, now: int, m': M<World>)
    requires Home(j) in x.s.peers && x.m.running
    requires Iterate(j.su, x.m, Tick(now, Head(x, Home(j))), j.fuel) == Done(m')
    ensures NextSite(j, x, Turn(now)) == Turned(j, x, m')
  {
  }

  lemma OneReachedMore(j: Job, x: Site, k: nat, c: Configuration, d: Configuration, origin: int)
    requires Home(j) in x.s.peers && Steps(j.program, j.c0, k) == Some(c) && Step(j.program, c) == Some(d)
    requires Computing(j, x, d, origin, Scan(j.c0) + Scanned(j.program, j.c0, k) + Scan(d))
    ensures Reached(j, x, k + 1, origin)
  {
    OneStepMore(j.program, j.c0, k, d);
    SaidInOrder(Scan(j.c0), Scanned(j.program, j.c0, k), Scan(d));
  }

  lemma SaidInOrder(a: string, b: string, c: string)
    ensures a + b + c == a + (b + c)
  {
  }

  lemma TurnReached(j: Job, x: Site, now: int, k: nat, origin: int) returns (k': nat, origin': int)
    requires JobOk(j) && Connected(j, x) && Reached(j, x, k, origin) && x.m.running && Allowed(j, Turn(now))
    ensures Connected(j, NextSite(j, x, Turn(now))) && Reached(j, NextSite(j, x, Turn(now)), k', origin')
  {
    var c, said := Steps(j.program, j.c0, k).value, Scan(j.c0) + Scanned(j.program, j.c0, k);
    k', origin' := k, origin;
    if Head(x, Home(j)).None? {
      IdleTurn(j, x, c, origin, said, now);
      TurnIs(j, x, now, Pulse(j.su, x.m, now));
    } else {
      var m';
      m', origin' := StepTurn(j, x, c, origin, said, now);
      TurnIs(j, x, now, m');
      if Step(j.program, c).Some? {
        OneReachedMore(j, Turned(j, x, m'), k, c, Step(j.program, c).value, origin');
        k' := k + 1;
      }
    }
  }

  ghost function RunSite(j: Job, x: Site, acts: seq<Act>): Site
    decreases |acts|
  {
    if acts == [] || Home(j) !in x.s.peers then x else RunSite(j, NextSite(j, x, acts[0]), acts[1..])
  }

  /** From a machine that has been given a request, behind a mailbox that has caught up with it, every run over the
      losing, repeating, reordering network computes: at every moment the machine is where the Turing machine is
      after some number of steps, or has stopped with an error where that one has no step; and it has posted one
      message per symbol scanned, and one answer when it halted. */
  lemma {:induction false} NetworkComputes(j: Job, x: Site, acts: seq<Act>, k: nat, origin: int)
    returns (k': nat, origin': int)
    requires JobOk(j) && Connected(j, x) && Reached(j, x, k, origin)
    requires forall i :: 0 <= i < |acts| ==> Allowed(j, acts[i])
    ensures Connected(j, RunSite(j, x, acts)) && Reached(j, RunSite(j, x, acts), k', origin')
    decreases |acts|
  {
    k', origin' := k, origin;
    if acts != [] {
      var k1, origin1 := NextReached(j, x, acts[0], k, origin);
      k', origin' := NetworkComputes(j, NextSite(j, x, acts[0]), acts[1..], k1, origin1);
    }
  }

  // ---------- from the request on ----------

  /** A machine that awaits a request, and has taken everything it has posted to itself. */
  ghost predicate Awaiting(j: Job, x: Site) {
    && Connected(j, x) && |Own(x.m.outbox, Home(j))| == TakenHome(x.s, Home(j))
    && Undisturbed(x.m) && x.m.current == "Initial" && x.m.env.tape.blank == j.blank
  }

  predicate AllBytes(text: string) {
    forall i :: 0 <= i < |text| ==> IsByte(text[i])
  }

  lemma {:induction false} SymbolsAreBytes(text: string)
    requires AllBytes(text)
    ensures AllBytes(Symbols(text))
  {
    if text != "" {
      SymbolsAreBytes(text[1..]);
    }
  }

  lemma InscribedIsBytes(text: string, blank: char)
    requires AllBytes(text) && IsByte(blank) && !IsSpace(blank)
    ensures ByteTape(Inscribed(text, blank))
  {
    SymbolsAreBytes(text);
  }

  /** The request the job is about, given to a machine that awaits one. */
  ghost predicate Request(j: Job, x: Site, i: Incoming, now: int) {
    && Awaiting(j, x) && IsByte(j.blank) && i.from == j.requester
    && KindOf(i.message) == Other && Symbols(i.message) != "" && AllBytes(i.message)
    && j.c0 == Begin(j.first, i.message, j.blank) && j.base == Application(x.m.outbox)
    && j.owed == Own(x.m.outbox, Key(j.requester)) && j.last == x.m.last && Allowed(j, Turn(now))
  }

  lemma PostedConnected(j: Job, x: Site, m1: M<World>)
    requires Connected(j, x) && x.m.outbox <= m1.outbox && |Own(m1.outbox, Home(j))| <= TakenHome(x.s, Home(j)) + 1
    ensures Connected(j, x.(m := m1))
  {
    assert m1.outbox[..x.handed] == x.m.outbox[..x.handed];
  }

  lemma ReachedAtOnce(j: Job, x: Site)
    requires Home(j) in x.s.peers && Computing(j, x, j.c0, 0, Scan(j.c0))
    ensures Reached(j, x, 0, 0)
  {
    assert Makes(Stepping(j.program), j.c0, 0) == Some(j.c0) && Scan(j.c0) + "" == Scan(j.c0);
  }

  /** The machine handles the request: it is then at the first configuration, and its mailbox has caught up. */
  lemma RequestReaches(j: Job, x: Site, i: Incoming, now: int) returns (m1: M<World>)
    requires JobOk(j) && Request(j, x, i, now)
    ensures Iterate(j.su, x.m, Tick(now, Some(i)), j.fuel) == Done(m1)
    ensures Connected(j, x.(m := m1)) && Reached(j, x.(m := m1), 0, 0)
    ensures Computing(j, x.(m := m1), j.c0, 0, Scan(j.c0)) && m1.last == Pulse(j.su, x.m, now).last
    ensures m1.outbox == Pulse(j.su, x.m, now).outbox + [Posted(j.self, Scan(j.c0), false)]
  {
    RequestBegins(j.su, x.m, j.program, j.self, j.first, j.blank, i, now, j.fuel);
    m1 := Iterate(j.su, x.m, Tick(now, Some(i)), j.fuel).value;
    assert Own(x.m.outbox, Home(j)) + Echo(j.su, x.m.last, now, Home(j)) == Own(x.m.outbox, Home(j));
    PostedConnected(j, x, m1);
    InscribedIsBytes(i.message, j.blank);
    assert Owed(j, x.m, []);
    PulseOwes(j, x.m, now, []);
    OneMore(Pulse(j.su, x.m, now).outbox, Posted(j.self, Scan(j.c0), false), Key(j.requester));
    ReachedAtOnce(j, x.(m := m1));
  }

  /** A whole computation over the network, from the request on, whatever is lost, repeated or reordered and
      whatever else the peers exchange: at every moment the machine is where the Turing machine is after some
      number of steps on the requested tape, with one message posted per symbol scanned and one answer posted
      when it has halted, or it has stopped with an error where the Turing machine has no step. */
  lemma RequestIsComputedOverNetwork(j: Job, x: Site, i: Incoming, now: int, acts: seq<Act>)
    returns (m1: M<World>, k: nat, origin: int)
    requires JobOk(j) && Request(j, x, i, now) && forall n :: 0 <= n < |acts| ==> Allowed(j, acts[n])
    ensures Iterate(j.su, x.m, Tick(now, Some(i)), j.fuel) == Done(m1)
    ensures var x' := RunSite(j, x.(m := m1), acts);
            Connected(j, x') && Reached(j, x', k, origin)
  {
    m1 := RequestReaches(j, x, i, now);
    k, origin := NetworkComputes(j, x.(m := m1), acts, 0, 0);
  }

  // ---------- the answer ----------

  /** After its answer the machine awaits the next request. */
  lemma AnsweredAwaits(j: Job, x: Site, c: Configuration, origin: int, said: string)
    requires JobOk(j) && Connected(j, x) && Computing(j, x, c, origin, said) && c.state == HALT
    ensures Awaiting(j, x)
  {
  }

  /** Before anything has been sent, a machine that has posted nothing awaits a request. */
  lemma FreshIsAwaiting(j: Job, m: M<World>)
    requires Home(j) in j.cfg.peers && m.outbox == []
    requires Undisturbed(m) && m.current == "Initial" && m.env.tape.blank == j.blank
    ensures Awaiting(j, Site(Network.Start(j.cfg), m, 0))
  {
    StartInv(j.cfg);
    assert m.outbox[..0] == [];
    forall to ensures Carried(Sent(NEW_PEER, to), Own(m.outbox[..0], to)) {
    }
  }

  /** Whatever was posted to somebody, what the mailbox was given of it is a first part. */
  lemma SentToIsPosted(j: Job, x: Site, to: Endpoint, n: nat)
    requires Connected(j, x) && n < |Sent(x.s.peers[Home(j)], to)|
    ensures n < |Own(x.m.outbox, to)| && Sent(x.s.peers[Home(j)], to)[n].message == Wire(Own(x.m.outbox, to)[n])
  {
    assert Carried(Sent(x.s.peers[Home(j)], to), Own(x.m.outbox[..x.handed], to));
    OwnPrefix(x.m.outbox, x.handed, to);
  }

  /** A tape of symbols that cross is received as it was sent, as far as a frame has room for it. */
  lemma AnswerCrosses(t: Tape, f: Infinite, origin: int)
    requires StandsFor(t, f, origin) && ByteTape(f)
    ensures var message := Canonical(Wire(t.cells));
            && |message| == (if |t.cells| <= 65499 then |t.cells| else 65499)
            && forall i :: 0 <= i < |message| ==> message[i] == t.cells[i] as int
  {
    forall i | 0 <= i < |t.cells| ensures IsByte(t.cells[i]) && t.cells[i] as int != NEWLINE {
      assert Cell(f, origin + i) == t.cells[i];
    }
    var sent := Wire(if |t.cells| <= 65499 then t.cells else t.cells[..65499]);
    assert Shorten(Wire(t.cells)) == sent;
    TrimIs(sent, sent);
  }

  /** What the requester is delivered by the machine, after what was posted to it before, is at most one message,
      and that is the tape with which the Turing machine has halted. */
  lemma OneAnswerIsDelivered(j: Job, x: Site, k: nat, origin: int, n: nat)
    requires JobOk(j) && Connected(j, x) && Reached(j, x, k, origin)
    requires Key(j.requester) in x.s.peers && Key(j.su.parent) != Key(j.requester)
    requires var d := Delivered(x.s.peers[Key(j.requester)], Home(j)); n < |d| && d[n].seqNum >= |j.owed|
    ensures var d, c := Delivered(x.s.peers[Key(j.requester)], Home(j)), Steps(j.program, j.c0, k).value;
            && n == |d| - 1 && c.state == HALT && StandsFor(x.m.env.tape, c.tape, origin)
            && |d[n].message| == (if |x.m.env.tape.cells| <= 65499 then |x.m.env.tape.cells| else 65499)
            && forall i :: 0 <= i < |d[n].message| ==> d[n].message[i] == x.m.env.tape.cells[i] as int
  {
    var d := Delivered(x.s.peers[Key(j.requester)], Home(j));
    OneAnswerIsPosted(j, x, k, origin);
    DeliveredIsPosted(j, x, Key(j.requester), n);
    AnswerCrosses(x.m.env.tape, Steps(j.program, j.c0, k).value.tape, origin);
    if n < |d| - 1 {
      DeliveredIsPosted(j, x, Key(j.requester), n + 1);
    }
  }

  lemma OneAnswerIsPosted(j: Job, x: Site, k: nat, origin: int)
    requires JobOk(j) && Home(j) in x.s.peers && Reached(j, x, k, origin) && Key(j.su.parent) != Key(j.requester)
    ensures var own, c := Own(x.m.outbox, Key(j.requester)), Steps(j.program, j.c0, k).value;
            && |own| <= |j.owed| + 1
            && (|own| > |j.owed| ==>
                  c.state == HALT && ByteTape(c.tape) && StandsFor(x.m.env.tape, c.tape, origin)
                      && own[|j.owed|] == x.m.env.tape.cells)
  {
  }

  lemma DeliveredIsPosted(j: Job, x: Site, to: Endpoint, n: nat)
    requires Connected(j, x) && to in x.s.peers && n < |Delivered(x.s.peers[to], Home(j))|
    ensures var d, own := Delivered(x.s.peers[to], Home(j)), Own(x.m.outbox, to);
            && d[n].seqNum < |own| && d[n].message == Canonical(Wire(own[d[n].seqNum]))
            && forall i :: n < i < |d| ==> d[i].seqNum > d[n].seqNum
  {
    var p := Home(j);
    assert LinkOk(SentBy(x.s, p, to), x.s.peers[to], p);
    var d := Delivered(x.s.peers[to], p);
    assert Genuine(SentBy(x.s, p, to), d[n].seqNum, d[n].message);
    SentToIsPosted(j, x, to, d[n].seqNum);
  }
}
