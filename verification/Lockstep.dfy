/** A sender that waits until its last message has been taken: what is taken is then exactly what was sent. */
module Lockstep {
  import opened Addresses
  import opened Frames
  import opened Mailboxes
  import opened Network
  import opened NetworkInvariant
  import opened NetworkTheorems

  /** What the application at a peer has taken of a's messages. */
  function Taken(p: Peer, a: Endpoint): seq<Queued> {
    FromPeer(p.handed, a)
  }

  /** If the event sends from a to b, everything sent before has been taken. */
  ghost predicate Patient(s: System, e: Event, a: Endpoint, b: Endpoint) {
    e.SendEvent? && e.at == a && Key(e.to) == b && b in s.peers ==> |SentBy(s, a, b)| == |Taken(s.peers[b], a)|
  }

  /** The messages taken are numbers 0, 1, 2, ..., and at most one more has been sent. */
  ghost predicate InStepOn(sent: nat, taken: seq<Queued>) {
    sent <= |taken| + 1 && forall i :: 0 <= i < |taken| ==> taken[i].seqNum == i
  }

  ghost predicate InStep(s: System, a: Endpoint, b: Endpoint)
    requires b in s.peers
  {
    InStepOn(|SentBy(s, a, b)|, Taken(s.peers[b], a))
  }

  lemma TakenOneMore(p: Peer, a: Endpoint)
    requires p.box.incoming != []
    ensures Taken(PeerTake(p), a) ==
            Taken(p, a) + if Key(p.box.incoming[0].from) == a then [p.box.incoming[0]] else []
  {
    var x := p.box.incoming[0];
    assert (p.handed + [x])[..|p.handed|] == p.handed;
  }

  lemma DeliveredBegins(p: Peer, a: Endpoint)
    requires p.box.incoming != []
    ensures Taken(PeerTake(p), a) <= Delivered(p, a)
  {
    TakeKeepsDelivered(p, a);
    FromPeerConcat(PeerTake(p).handed, PeerTake(p).box.incoming, a);
  }

  /** In step, the next message to be taken from a is the next number. */
  lemma NextTakenIs(sent: seq<Original>, p: Peer, a: Endpoint)
    requires LinkOk(sent, p, a) && p.box.incoming != [] && Key(p.box.incoming[0].from) == a
    requires InStepOn(|sent|, Taken(p, a))
    ensures p.box.incoming[0].seqNum == |Taken(p, a)| < |sent|
    ensures p.box.incoming[0].message == Canonical(sent[|Taken(p, a)|].message)
  {
    var x, n := p.box.incoming[0], |Taken(p, a)|;
    TakenOneMore(p, a);
    DeliveredBegins(p, a);
    assert Delivered(p, a)[n] == x;
    assert n > 0 ==> Delivered(p, a)[n - 1] == Taken(p, a)[n - 1];
    assert Genuine(sent, x.seqNum, x.message);
  }

  lemma TakeInStep(sent: seq<Original>, p: Peer, a: Endpoint)
    requires LinkOk(sent, p, a) && InStepOn(|sent|, Taken(p, a)) && p.box.incoming != []
    ensures InStepOn(|sent|, Taken(PeerTake(p), a))
  {
    TakenOneMore(p, a);
    var x := p.box.incoming[0];
    if Key(x.from) == a {
      NextTakenIs(sent, p, a);
      InStepMore(|sent|, Taken(p, a), x);
    } else {
      assert Taken(PeerTake(p), a) == Taken(p, a);
    }
  }

  lemma InStepMore(sent: nat, taken: seq<Queued>, x: Queued)
    requires InStepOn(sent, taken) && x.seqNum == |taken|
    ensures InStepOn(sent, taken + [x])
  {
  }

  /** Steps other than sending and taking are not seen at the ends of the link. */
  lemma OtherStep(cfg: Config, s: System, e: Event, a: Endpoint, b: Endpoint)
    requires b in s.peers && !e.SendEvent? && !e.TakeEvent?
    ensures var s' := Next(cfg, s, e);
            && b in s'.peers && s'.peers.Keys == s.peers.Keys
            && SentBy(s', a, b) == SentBy(s, a, b) && Taken(s'.peers[b], a) == Taken(s.peers[b], a)
  {
  }

  lemma SendStep(cfg: Config, s: System, e: Event, a: Endpoint, b: Endpoint)
    requires b in s.peers && e.SendEvent? && Enabled(cfg, s, e)
    ensures var s' := Next(cfg, s, e);
            && b in s'.peers && Taken(s'.peers[b], a) == Taken(s.peers[b], a)
            && SentBy(s', a, b) ==
               SentBy(s, a, b) + if e.at == a && Key(e.to) == b then [Original(e.now, e.message)] else []
  {
  }

  lemma TakeStep(cfg: Config, s: System, at: Endpoint, a: Endpoint, b: Endpoint)
    requires b in s.peers && Enabled(cfg, s, TakeEvent(at))
    ensures var s' := Next(cfg, s, TakeEvent(at));
            && b in s'.peers && SentBy(s', a, b) == SentBy(s, a, b)
            && Taken(s'.peers[b], a) == Taken(if at == b then PeerTake(s.peers[b]) else s.peers[b], a)
  {
  }

  lemma StillInStep(s: System, s': System, a: Endpoint, b: Endpoint)
    requires b in s.peers && b in s'.peers && InStep(s, a, b)
    requires SentBy(s', a, b) == SentBy(s, a, b) && Taken(s'.peers[b], a) == Taken(s.peers[b], a)
    ensures InStep(s', a, b)
  {
  }

  lemma NextInStep(cfg: Config, s: System, e: Event, a: Endpoint, b: Endpoint)
    requires Inv(cfg, s) && b in s.peers && InStep(s, a, b) && Patient(s, e, a, b)
    ensures b in Next(cfg, s, e).peers && InStep(Next(cfg, s, e), a, b)
  {
    if !Enabled(cfg, s, e) {
      assert Next(cfg, s, e) == s;
    } else if e.SendEvent? {
      SendStep(cfg, s, e, a, b);
    } else if e.TakeEvent? {
      TakeStep(cfg, s, e.at, a, b);
      if e.at == b {
        assert LinkOk(SentBy(s, a, b), s.peers[b], a);
        TakeInStep(SentBy(s, a, b), s.peers[b], a);
      } else {
        StillInStep(s, Next(cfg, s, e), a, b);
      }
    } else {
      OtherStep(cfg, s, e, a, b);
      StillInStep(s, Next(cfg, s, e), a, b);
    }
  }

  /** Every send from a to b of the run waits for the one before to be taken. */
  ghost predicate PatientRun(cfg: Config, events: seq<Event>, a: Endpoint, b: Endpoint) {
    forall i :: 0 <= i < |events| ==> Patient(After(cfg, events[..i]), events[i], a, b)
  }

  lemma {:induction false} PatientRunsInStep(cfg: Config, events: seq<Event>, a: Endpoint, b: Endpoint)
    requires b in cfg.peers && PatientRun(cfg, events, a, b)
    ensures b in After(cfg, events).peers && InStep(After(cfg, events), a, b)
  {
    if events != [] {
      var past, e := events[..|events| - 1], events[|events| - 1];
      forall i | 0 <= i < |past| ensures Patient(After(cfg, past[..i]), past[i], a, b) {
        assert past[..i] == events[..i] && past[i] == events[i];
      }
      PatientRunsInStep(cfg, past, a, b);
      RunInv(cfg, past);
      NextInStep(cfg, After(cfg, past), e, a, b);
    }
  }

  /** In every run in which a sends to b only after b has taken a's last message, what b has taken from a is
      exactly what a has sent, but for the last message as long as that is under way. Nothing is lost. */
  lemma TakenIsSent(cfg: Config, events: seq<Event>, a: Endpoint, b: Endpoint)
    requires b in cfg.peers && PatientRun(cfg, events, a, b)
    ensures var s := After(cfg, events);
            && b in s.peers
            && Messages(Taken(s.peers[b], a)) <= OnTheWire(SentBy(s, a, b))
            && |SentBy(s, a, b)| <= |Taken(s.peers[b], a)| + 1
  {
    var s := After(cfg, events);
    PatientRunsInStep(cfg, events, a, b);
    RunInv(cfg, events);
    assert LinkOk(SentBy(s, a, b), s.peers[b], a);
    TakenMatches(SentBy(s, a, b), s.peers[b], a);
  }

  lemma TakenMatches(sent: seq<Original>, p: Peer, a: Endpoint)
    requires LinkOk(sent, p, a) && InStepOn(|sent|, Taken(p, a))
    ensures Messages(Taken(p, a)) <= OnTheWire(sent)
  {
    var d, taken := Delivered(p, a), Taken(p, a);
    FromPeerConcat(p.handed, p.box.incoming, a);
    forall i | 0 <= i < |taken| ensures i < |sent| && taken[i].message == Canonical(sent[i].message) {
      assert d[i] == taken[i] && Genuine(sent, d[i].seqNum, d[i].message);
    }
    assert taken != [] ==> taken[|taken| - 1].seqNum < |sent|;
    assert Messages(taken) == OnTheWire(sent)[..|taken|];
  }
}
