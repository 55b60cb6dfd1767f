/** Whole runs of `Start`. */
module StartRuns {
  import opened Text
  import opened Addresses
  import opened Lineages
  import opened Machines
  import opened MachineRuns
  import opened Supervision
  import opened MachineTheorems

  // ---------- one turn of the loop ----------

  /** Every message handled came, or was pretended to come, from a plain address. */
  ghost predicate PlainHistory(heard: seq<Heard>) {
    heard == [] || (PlainHistory(heard[..|heard| - 1]) && PrintedKey(heard[|heard| - 1].key))
  }

  /** The mailbox hands out messages from plain addresses, as `ReadFrom` makes them. */
  predicate PlainTick(tick: Tick) {
    tick.incoming.Some? ==> PlainHost(tick.incoming.value.from.ip)
  }

  predicate PlainTicks(ticks: seq<Tick>) {
    ticks == [] || (PlainTick(ticks[0]) && PlainTicks(ticks[1..]))
  }

  lemma PlainOneMore(heard: seq<Heard>, h: Heard)
    requires PlainHistory(heard) && PrintedKey(h.key)
    ensures PlainHistory(heard + [h])
  {
    assert (heard + [h])[..|heard|] == heard;
  }

  lemma PlainTwoMore(heard: seq<Heard>, hs: seq<Heard>, key: string)
    requires PlainHistory(heard) && PrintedKey(key)
    requires |hs| == 2 && hs[0].key == hs[1].key == key
    ensures PlainHistory(heard + hs)
  {
    PlainOneMore(heard, hs[0]);
    PlainOneMore(heard + [hs[0]], hs[1]);
    assert heard + [hs[0]] + [hs[1]] == heard + hs;
  }

  lemma ConcatObituary(heard: seq<Heard>, first: seq<Heard>, rest: seq<Heard>)
    ensures heard + first + rest == heard + (first + rest)
  {
  }

  lemma {:induction false} PlainTable(heard: seq<Heard>)
    requires PlainHistory(heard)
    ensures forall k :: k in TrackAll(heard) ==> PrintedKey(k)
  {
    if heard != [] {
      PlainTable(heard[..|heard| - 1]);
    }
  }

  lemma {:induction false} PlainObituaries(heard: seq<Heard>, spawned: map<string, Child>, dead: seq<string>, now: int)
    requires PlainHistory(heard) && ToBury(spawned, dead)
    ensures PlainHistory(heard + Obituaries(spawned, dead, now))
    decreases |dead|
  {
    if dead == [] {
      NoneBuried(heard, spawned, now);
    } else {
      var o := Obituary(dead[0], spawned[dead[0]].name, now);
      PlainTwoMore(heard, o, dead[0]);
      PlainObituaries(heard + o, spawned, dead[1..], now);
      ConcatObituary(heard, o, Obituaries(spawned, dead[1..], now));
    }
  }

  lemma PulseKeeps<E>(su: Setup<E>, begin: int, base: seq<Posted>, m: M<E>, now: int)
    requires LoopInv(su, begin, base, m)
    ensures LoopInv(su, begin, base, Pulse(su, m, now))
  {
    if now - m.last > PULSE_INTERVAL {
      OnePulseMore(su, base, m.outbox, |m.pulses|);
      SpacedOneMore(begin, m.pulses, now);
    }
  }

  lemma OnePulseMore<E>(su: Setup<E>, base: seq<Posted>, out: seq<Posted>, n: nat)
    requires Framework(out) == base + PulseMessages(su, n)
    ensures Framework(out + [Posted(su.parent, "pulsed " + su.name, true)]) == base + PulseMessages(su, n + 1)
  {
    PulseMessagesMore(su, n);
    OneOwnMore(base, PulseMessages(su, n), out, Posted(su.parent, "pulsed " + su.name, true));
  }

  lemma PulseMessagesMore<E>(su: Setup<E>, n: nat)
    ensures PulseMessages(su, n + 1) == PulseMessages(su, n) + [Posted(su.parent, "pulsed " + su.name, true)]
  {
  }

  lemma OneOwnMore(base: seq<Posted>, own: seq<Posted>, out: seq<Posted>, o: Posted)
    requires Framework(out) == base + own && o.framework
    ensures Framework(out + [o]) == base + (own + [o])
  {
    FrameworkConcat(out, [o]);
    FrameworkOne(o);
    assert base + own + [o] == base + (own + [o]);
  }

  lemma SpacedOneMore(begin: int, pulses: seq<int>, now: int)
    requires Spaced([begin] + pulses) && now - ([begin] + pulses)[|pulses|] > PULSE_INTERVAL
    ensures Spaced([begin] + (pulses + [now])) && ([begin] + (pulses + [now]))[|pulses| + 1] == now
  {
    assert [begin] + (pulses + [now]) == [begin] + pulses + [now];
  }

  lemma {:induction false} DueIsNotFramework(q: seq<Scheduled>, now: int)
    ensures Framework(DueNow(q, now)) == []
  {
    if q != [] {
      DueIsNotFramework(q[1..], now);
      var o := AsPosted(q[0]);
      FrameworkOne(o);
      FrameworkConcat(if q[0].time < now then [o] else [], DueNow(q[1..], now));
    }
  }

  lemma ScheduledKeeps<E>(su: Setup<E>, begin: int, base: seq<Posted>, m: M<E>, now: int)
    requires LoopInv(su, begin, base, m)
    ensures LoopInv(su, begin, base, SendScheduled(m, now))
  {
    FrameworkConcat(m.outbox, DueNow(m.queue, now));
    DueIsNotFramework(m.queue, now);
  }

  /** What a turn of the loop guarantees of its outcome. */
  ghost predicate Turned<E>(su: Setup<E>, begin: int, base: seq<Posted>, o: Outcome<M<E>>) {
    !o.Endless? && (o.Done? ==> LoopInv(su, begin, base, o.value) && PlainHistory(o.value.heard))
  }

  lemma OverdueToBury(spawned: map<string, Child>, now: int)
    requires forall k :: k in spawned ==> PrintedKey(k)
    ensures ToBury(spawned, InOrder(Overdue(spawned, now)))
  {
    OrderDistinct(Overdue(spawned, now));
    ToBuryIs(spawned, InOrder(Overdue(spawned, now)));
  }

  lemma CheckKeeps<E>(su: Setup<E>, begin: int, base: seq<Posted>, m: M<E>, now: int, fuel: nat)
    requires LoopInv(su, begin, base, m) && PlainHistory(m.heard)
    ensures Turned(su, begin, base, CheckChildren(su, m, now, fuel))
  {
    PlainTable(m.heard);
    CheckChildrenExact(su, begin, base, m, now, fuel);
    OverdueToBury(m.spawned, now);
    PlainObituaries(m.heard, m.spawned, InOrder(Overdue(m.spawned, now)), now);
  }

  lemma HandleTurns<E>(su: Setup<E>, begin: int, base: seq<Posted>, m: M<E>, now: int,
                       from: Address, to: Address, message: string, fuel: nat)
    requires LoopInv(su, begin, base, m) && PlainHistory(m.heard) && PlainHost(from.ip)
    ensures Turned(su, begin, base, HandleMessage(su, m, now, from, to, message, fuel))
  {
    HandleKeeps(su, begin, base, m, now, from, to, message, fuel);
    PlainOneMore(m.heard, Hear(Print(from.ip, from.port), message, now));
  }

  lemma BeatKeeps<E>(su: Setup<E>, begin: int, base: seq<Posted>, m: M<E>, now: int)
    requires LoopInv(su, begin, base, m) && PlainHistory(m.heard)
    ensures Turned(su, begin, base, Done(SendScheduled(Pulse(su, m, now), now)))
  {
    PulseKeeps(su, begin, base, m, now);
    ScheduledKeeps(su, begin, base, Pulse(su, m, now), now);
  }

  lemma ReceiveKeeps<E>(su: Setup<E>, begin: int, base: seq<Posted>, m: M<E>, tick: Tick, fuel: nat)
    requires LoopInv(su, begin, base, m) && PlainHistory(m.heard) && PlainTick(tick)
    ensures Turned(su, begin, base, ReceiveMessage(su, m, tick, fuel))
  {
    if tick.incoming.Some? {
      var i := tick.incoming.value;
      HandleTurns(su, begin, base, m, tick.now, i.from, i.to, i.message, fuel);
    }
  }

  lemma IterateKeeps<E>(su: Setup<E>, begin: int, base: seq<Posted>, m: M<E>, tick: Tick, fuel: nat)
    requires LoopInv(su, begin, base, m) && PlainHistory(m.heard) && PlainTick(tick)
    ensures Turned(su, begin, base, Iterate(su, m, tick, fuel))
  {
    CheckKeeps(su, begin, base, m, tick.now, fuel);
    var o := CheckChildren(su, m, tick.now, fuel);
    if o.Done? {
      BeatKeeps(su, begin, base, o.value, tick.now);
      ReceiveKeeps(su, begin, base, SendScheduled(Pulse(su, o.value, tick.now), tick.now), tick, fuel);
    }
  }

  lemma LoopOnce<E>(su: Setup<E>, m: M<E>, ticks: seq<Tick>, fuel: nat, o: Outcome<M<E>>)
    requires m.running && ticks != [] && Iterate(su, m, ticks[0], fuel) == o
    ensures Loop(su, m, ticks, fuel) == if o.Done? then Loop(su, o.value, ticks[1..], fuel) else o
  {
  }

  /** After any number of turns every state on the current lineage is registered, the table of children agrees
      with the messages handled, and the stack of entered states is the path to the current state, unless the
      machine's `stale` says that a transition was made while the lists of another one were in use. */
  lemma {:induction false} LoopKeeps<E>(su: Setup<E>, begin: int, base: seq<Posted>, m: M<E>, ticks: seq<Tick>,
                                        fuel: nat)
    requires LoopInv(su, begin, base, m) && PlainHistory(m.heard)
    requires PlainTicks(ticks)
    ensures Turned(su, begin, base, Loop(su, m, ticks, fuel))
    decreases |ticks|
  {
    if m.running && ticks != [] {
      IterateKeeps(su, begin, base, m, ticks[0], fuel);
      var o := Iterate(su, m, ticks[0], fuel);
      if o.Done? {
        LoopKeeps(su, begin, base, o.value, ticks[1..], fuel);
      }
    }
  }

  // ---------- from the first transition to the last exit ----------

  /** A machine that has not been started; it may already have an error or have been told to exit. */
  ghost predicate Unstarted<E>(m: M<E>) {
    m.trace == [] && m.heard == [] && m.spawned == map[] && m.pulses == [] && m.outbox == [] && !m.stale
  }

  /** What is left when the states have been exited: an empty stack, and the machine's own messages. */
  ghost predicate Lived<E>(su: Setup<E>, begin: int, base: seq<Posted>, o: Outcome<M<E>>) {
    !o.Endless? && (o.Done? ==>
      && (!o.value.stale ==> Replay(o.value.trace) == Some([]))
      && o.value.spawned == TrackAll(o.value.heard) && PlainHistory(o.value.heard)
      && Framework(o.value.outbox) == base + PulseMessages(su, |o.value.pulses|)
      && Spaced([begin] + o.value.pulses))
  }

  lemma FirstTransition<E>(su: Setup<E>, m: M<E>, first: string, begin: int, fuel: nat)
    requires "" !in su.states
    requires m.trace == [] && m.heard == [] && m.spawned == map[] && m.pulses == [] && !m.stale
    ensures var o := MakeTransition(su, m.(current := ""), first, fuel);
            !o.Endless? && (o.Done? ==> LoopInv(su, begin, Framework(m.outbox), o.value.(last := begin))
                                        && PlainHistory(o.value.heard))
  {
    var m0 := m.(current := "");
    LineageIs(Parents(su.states), "", []);
    assert Settled(su, m0);
    TransitionEffect(su, m0, first, fuel);
    assert Framework(m.outbox) + PulseMessages(su, 0) == Framework(m.outbox);
  }

  /** The exits of what is left empty the stack, if it was the path to the current state. */
  lemma FinalExits<E>(su: Setup<E>, begin: int, base: seq<Posted>, m: M<E>, fuel: nat)
    requires LoopInv(su, begin, base, m) && PlainHistory(m.heard)
    ensures Lived(su, begin, base, ExitAll(su, m, Lineage(Parents(su.states), m.current).value, fuel))
  {
    var l := Lineage(Parents(su.states), m.current).value;
    ExitEffect(su, m, l, fuel);
    if !m.stale {
      assert [] + Reverse(l) == Reverse(l);
      ReplayExits(m.trace, [], l);
    }
  }

  lemma StayKeeps<E>(su: Setup<E>, begin: int, base: seq<Posted>, m: M<E>, ticks: seq<Tick>, fuel: nat)
    requires LoopInv(su, begin, base, m) && PlainHistory(m.heard)
    requires PlainTicks(ticks)
    ensures Lived(su, begin, base, Stay(su, m, ticks, fuel))
  {
    LoopKeeps(su, begin, base, m, ticks, fuel);
    var o := Loop(su, m, ticks, fuel);
    if o.Done? {
      FinalExits(su, begin, base, o.value, fuel);
    }
  }

  lemma LiveKeeps<E>(su: Setup<E>, m: M<E>, initial: string, begin: int, ticks: seq<Tick>, fuel: nat)
    requires "" !in su.states
    requires m.trace == [] && m.heard == [] && m.spawned == map[] && m.pulses == [] && !m.stale
    requires PlainTicks(ticks)
    ensures Lived(su, begin, Framework(m.outbox), Live(su, m, initial, begin, ticks, fuel))
  {
    var base := Framework(m.outbox);
    if su.states == map[] {
      assert base + PulseMessages(su, 0) == base;
    } else {
      var first := if initial != "" then initial else m.current;
      FirstTransition(su, m, first, begin, fuel);
      var o := MakeTransition(su, m.(current := ""), first, fuel);
      if o.Done? {
        StayKeeps(su, begin, base, o.value.(last := begin), ticks, fuel);
      }
    }
  }

  // ---------- the messages around it ----------

  function StartMessages<E>(su: Setup<E>): seq<Posted> {
    [Posted(su.parent, "started " + su.name, true), Posted(Make(su.dns, su.address.ip, 42000),
                                                           "register " + su.name + " " + su.pid, true)]
  }

  function EndMessages<E>(su: Setup<E>, error: string): seq<Posted> {
    (if error != "" then [Posted(su.parent, "errored " + su.name + " " + error, true)] else []) +
    [Posted(su.parent, "exited " + su.name, true), Posted(Make(su.dns, su.address.ip, 42000), "unregister", true)]
  }

  /** One stop for each of the children. */
  function StopMessages<E>(su: Setup<E>, keys: seq<string>): seq<Posted> {
    if keys == [] then [] else
      (match StopMessage(su, keys[0])
       case Done(stop) => [stop]
       case _ => []) + StopMessages(su, keys[1..])
  }

  lemma StopsOne<E>(su: Setup<E>, key: string)
    requires PrintedKey(key)
    ensures StopMessage(su, key).Done? && StopMessage(su, key).value.framework
  {
    PrintOfExtract(su.dns, key);
  }

  /** The stop for a child goes to the server of the child's host and names the child's port. */
  lemma StopIsForTheChild<E>(su: Setup<E>, ip: string, port: Port)
    requires PlainHost(ip)
    ensures StopMessage(su, Print(ip, port))
         == Done(Posted(Make(su.dns, ip, 42000), "stop " + Decimal(port), true))
  {
    PlainRoundTrip(su.dns, ip, port);
  }

  /** Posting the stop messages of a list. */
  ghost predicate Stopped<E>(su: Setup<E>, m: M<E>, keys: seq<string>) {
    && StopAll(su, m, keys) == Done(m.(outbox := m.outbox + StopMessages(su, keys)))
    && |StopMessages(su, keys)| == |keys| && AllFramework(StopMessages(su, keys))
  }

  lemma StopsOneMore<E>(su: Setup<E>, m: M<E>, keys: seq<string>, stop: Posted)
    requires keys != [] && StopMessage(su, keys[0]) == Done(stop) && stop.framework
    requires Stopped(su, m.(outbox := m.outbox + [stop]), keys[1..])
    ensures Stopped(su, m, keys)
  {
    var rest := StopMessages(su, keys[1..]);
    assert StopMessages(su, keys) == [stop] + rest;
    assert m.outbox + [stop] + rest == m.outbox + ([stop] + rest);
  }

  lemma {:induction false} StopsAll<E>(su: Setup<E>, m: M<E>, spawned: map<string, Child>, keys: seq<string>)
    requires ToBury(spawned, keys)
    ensures Stopped(su, m, keys)
    decreases |keys|
  {
    if keys == [] {
      assert m.outbox + StopMessages(su, keys) == m.outbox;
    } else {
      StopsOne(su, keys[0]);
      var stop := StopMessage(su, keys[0]).value;
      StopsAll(su, m.(outbox := m.outbox + [stop]), spawned, keys[1..]);
      StopsOneMore(su, m, keys, stop);
    }
  }

  ghost predicate AllFramework(out: seq<Posted>) {
    forall i :: 0 <= i < |out| ==> out[i].framework
  }

  lemma OneOwn(out: seq<Posted>, o: Posted)
    requires Framework(out) == out && o.framework
    ensures Framework(out + [o]) == out + [o]
  {
    FrameworkMore(out, o);
  }

  lemma {:induction false} FrameworkOfOwn(out: seq<Posted>)
    requires AllFramework(out)
    ensures Framework(out) == out
  {
    if out != [] {
      var rest, o := out[..|out| - 1], out[|out| - 1];
      FrameworkOfOwn(rest);
      OneOwn(rest, o);
      assert out == rest + [o];
    }
  }

  /** Posting the machine's own messages. */
  lemma OwnMessages(out: seq<Posted>, more: seq<Posted>)
    requires AllFramework(more)
    ensures Framework(out + more) == Framework(out) + more
  {
    FrameworkConcat(out, more);
    FrameworkOfOwn(more);
  }

  lemma AnnounceSends<E>(su: Setup<E>, m: M<E>)
    requires m.outbox == []
    ensures Framework(Announce(su, m).outbox) == StartMessages(su)
  {
    assert Announce(su, m).outbox == StartMessages(su);
    FrameworkOfOwn(StartMessages(su));
  }

  lemma FarewellSends<E>(su: Setup<E>, m: M<E>)
    ensures Farewell(su, m) == m.(outbox := m.outbox + EndMessages(su, m.error))
    ensures AllFramework(EndMessages(su, m.error))
  {
    var e, x, u := Posted(su.parent, "errored " + su.name + " " + m.error, true),
                   Posted(su.parent, "exited " + su.name, true), Posted(Server(su), "unregister", true);
    assert m.outbox + [e] + [x] + [u] == m.outbox + ([e] + [x, u]);
    assert m.outbox + [x] + [u] == m.outbox + ([] + [x, u]);
  }

  /** What a finished run of `Start` guarantees. */
  ghost predicate RanWell<E>(su: Setup<E>, begin: int, m: M<E>) {
    && (!m.stale ==> Replay(m.trace) == Some([]))
    && m.spawned == TrackAll(m.heard)
    && Framework(m.outbox) == StartMessages(su) + PulseMessages(su, |m.pulses|) + EndMessages(su, m.error)
                              + StopMessages(su, InOrder(m.spawned.Keys))
    && |StopMessages(su, InOrder(m.spawned.Keys))| == |m.spawned|
    && Spaced([begin] + m.pulses)
  }

  /** Every finished run of `Start`: the table of children is what the messages handled say; the machine's own
      messages are started and register, pulses more than the interval apart, errored exactly when there is an
      error text, exited and unregister, and one stop for each child still tracked; and every state that was
      entered has been exited, in stack order, unless `stale` says that a transition was made while the lists of
      another one were in use. No lookup of a receiver is endless. */
  lemma StartGuarantees<E>(su: Setup<E>, m: M<E>, initial: string, begin: int, ticks: seq<Tick>, fuel: nat)
    requires "" !in su.states && Unstarted(m)
    requires PlainTicks(ticks)
    ensures var o := Start(su, m, initial, begin, ticks, fuel);
            !o.Endless? && (o.Done? ==> RanWell(su, begin, o.value))
  {
    var m0 := Announce(su, m);
    AnnounceSends(su, m);
    LiveKeeps(su, m0, initial, begin, ticks, fuel);
    var o := Live(su, m0, initial, begin, ticks, fuel);
    if o.Done? {
      EndsWell(su, begin, o.value);
    }
  }

  lemma EndsWell<E>(su: Setup<E>, begin: int, m: M<E>)
    requires Lived(su, begin, StartMessages(su), Done(m))
    ensures var o := StopAll(su, Farewell(su, m), InOrder(m.spawned.Keys));
            o.Done? && RanWell(su, begin, o.value)
  {
    var keys := InOrder(m.spawned.Keys);
    FarewellSends(su, m);
    PlainTable(m.heard);
    OrderDistinct(m.spawned.Keys);
    ToBuryIs(m.spawned, keys);
    StopsAll(su, Farewell(su, m), m.spawned, keys);
    OwnMessages(m.outbox, EndMessages(su, m.error));
    OwnMessages(m.outbox + EndMessages(su, m.error), StopMessages(su, keys));
  }
}
