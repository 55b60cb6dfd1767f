/** What a machine has posted: to itself, and for its application. */
module Posts {
  import opened Addresses
  import opened Machines

  /** The messages the mailbox brings back to the machine at an endpoint, in order. */
  function Own(outbox: seq<Posted>, self: Endpoint): seq<string> {
    if outbox == [] then [] else
      var p := outbox[|outbox| - 1];
      Own(outbox[..|outbox| - 1], self) + if Key(p.to) == self then [p.message] else []
  }

  /** The messages that are not the machine's own bookkeeping. */
  function Application(outbox: seq<Posted>): seq<Posted> {
    if outbox == [] then [] else
      var p := outbox[|outbox| - 1];
      Application(outbox[..|outbox| - 1]) + if p.framework then [] else [p]
  }

  lemma OneMore(outbox: seq<Posted>, p: Posted, self: Endpoint)
    ensures Own(outbox + [p], self) == Own(outbox, self) + if Key(p.to) == self then [p.message] else []
    ensures Application(outbox + [p]) == Application(outbox) + if p.framework then [] else [p]
  {
    assert (outbox + [p])[..|outbox|] == outbox;
  }

  /** What of those messages has not been taken, when the first so many have. */
  function Untaken(own: seq<string>, taken: nat): seq<string> {
    if taken <= |own| then own[taken..] else []
  }

  /** A pulse that is due does not come back to the machine. */
  predicate PulseStaysAway<E>(su: Setup<E>, last: int, now: int, self: Endpoint) {
    Key(su.parent) != self || now - last <= PULSE_INTERVAL
  }

  /** What comes back to the machine of the pulse of a turn. */
  function Echo<E>(su: Setup<E>, last: int, now: int, self: Endpoint): seq<string> {
    if PulseStaysAway(su, last, now, self) then [] else ["pulsed " + su.name]
  }

  lemma PulseEchoes<E>(su: Setup<E>, m: M<E>, now: int, self: Endpoint)
    ensures Own(Pulse(su, m, now).outbox, self) == Own(m.outbox, self) + Echo(su, m.last, now, self)
    ensures Application(Pulse(su, m, now).outbox) == Application(m.outbox)
  {
    OneMore(m.outbox, Posted(su.parent, "pulsed " + su.name, true), self);
  }
}
