/** Queues drain in every continuation of a run, whatever else happens in it. */
module Draining {
  import opened Addresses
  import opened Mailboxes
  import opened Passes
  import opened Network
  import opened NetworkInvariant
  import opened NetworkTheorems

  /** Nothing is passed to `Send` at a. */
  predicate NoSends(events: seq<Event>, a: Endpoint) {
    forall i :: 0 <= i < |events| ==> !(events[i].SendEvent? && events[i].at == a)
  }

  /** The passes at a whose clock has reached the deadline. */
  function LatePasses(events: seq<Event>, a: Endpoint, deadline: int): nat {
    if events == [] then 0 else
      (if events[0].PassEvent? && events[0].at == a && events[0].now >= deadline then 1 else 0)
      + LatePasses(events[1..], a, deadline)
  }

  /** Every entry has been attempted so many times, and its last attempt is due at the deadline. */
  ghost predicate TriedBy(q: seq<Queued>, deadline: int, m: nat) {
    forall e :: e in q ==> e.attempts >= m && e.time + (MAX_RETRIES - 1) * RECEIVE_TIMEOUT <= deadline
  }

  lemma FewerTriedBy(q: seq<Queued>, q': seq<Queued>, deadline: int, m: nat)
    requires TriedBy(q, deadline, m) && forall e :: e in q' ==> e in q
    ensures TriedBy(q', deadline, m)
  {
  }

  lemma PassTries(q: seq<Queued>, now: int, deadline: int, m: nat)
    requires TriedBy(q, deadline, m)
    ensures TriedBy(Kept(q, now), deadline, if now >= deadline then m + 1 else m)
  {
    forall e | e in Kept(q, now)
      ensures e.attempts >= (if now >= deadline then m + 1 else m)
              && e.time + (MAX_RETRIES - 1) * RECEIVE_TIMEOUT <= deadline
    {
      KeptFrom(q, now, e);
      var o :| o in q && !Exhausted(o) && e == (if Due(o, now) then Attempted(o, now) else o);
      if now >= deadline {
        LateIsDue(o, now);
      }
    }
  }

  /** One step without a send: the queue only loses entries, and a late pass attempts all it keeps. */
  lemma NextTries(cfg: Config, s: System, e: Event, a: Endpoint, deadline: int, m: nat)
    requires a in s.peers && TriedBy(s.peers[a].box.outgoing, deadline, m) && NoSends([e], a)
    ensures a in Next(cfg, s, e).peers
    ensures TriedBy(Next(cfg, s, e).peers[a].box.outgoing, deadline, m + LatePasses([e], a, deadline))
  {
    assert [e][0] == e && [e][1..] == [];
    var q, q' := s.peers[a].box.outgoing, Next(cfg, s, e).peers[a].box.outgoing;
    if e.PassEvent? && e.at == a {
      PassTries(q, e.now, deadline, m);
    } else {
      FewerTriedBy(q, q', deadline, m);
    }
  }

  lemma TriesAreBounded(cfg: Config, p: Peer, deadline: int, m: nat)
    requires SenderOk(cfg, p) && TriedBy(p.box.outgoing, deadline, m) && p.box.outgoing != []
    ensures m <= MAX_RETRIES
  {
    assert Faithful(cfg, p, p.box.outgoing[0]);
  }

  lemma {:induction false} ContinueTries(cfg: Config, s: System, events: seq<Event>, a: Endpoint, deadline: int, m: nat)
    requires Inv(cfg, s) && a in s.peers && NoSends(events, a)
    requires TriedBy(s.peers[a].box.outgoing, deadline, m)
    requires m + LatePasses(events, a, deadline) > MAX_RETRIES
    ensures a in Continue(cfg, s, events).peers && Continue(cfg, s, events).peers[a].box.outgoing == []
    decreases |events|
  {
    if events == [] {
      if s.peers[a].box.outgoing != [] {
        TriesAreBounded(cfg, s.peers[a], deadline, m);
      }
    } else {
      var e := events[0];
      assert NoSends([e], a) && [e][1..] == [];
      NextKeepsInv(cfg, s, e);
      NextTries(cfg, s, e, a, deadline, m);
      ContinueTries(cfg, Next(cfg, s, e), events[1..], a, deadline, m + LatePasses([e], a, deadline));
    }
  }

  /** From any reachable state, a continuation in which nothing more is passed to a's `Send` and six of a's
      passes come at least eight seconds after the last message was queued leaves a's queue empty, whatever
      arrives, is lost or is done by others in between. */
  lemma SixLatePassesDrain(cfg: Config, s: System, events: seq<Event>, a: Endpoint, last: int)
    requires Reachable(cfg, s) && a in s.peers && NoSends(events, a)
    requires forall e :: e in s.peers[a].box.outgoing ==> e.time <= last
    requires LatePasses(events, a, last + (MAX_RETRIES - 1) * RECEIVE_TIMEOUT) > MAX_RETRIES
    ensures a in Continue(cfg, s, events).peers && Continue(cfg, s, events).peers[a].box.outgoing == []
  {
    ReachableInv(cfg, s);
    ContinueTries(cfg, s, events, a, last + (MAX_RETRIES - 1) * RECEIVE_TIMEOUT, 0);
  }
}
