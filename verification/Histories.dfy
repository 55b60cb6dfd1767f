/** Which messages a run of `Start` handles, and when it sends its pulses. */
module Histories {
  import opened Addresses
  import opened Lineages
  import opened Machines
  import opened MachineRuns
  import opened Supervision
  import opened MachineTheorems
  import opened StartRuns
  import opened Lifecycles

  /** The history after a turn: the obituaries of the children that are overdue by the history so far, in key
      order, then the message the mailbox gives, if it gives one. */
  ghost function HeardIn(heard: seq<Heard>, tick: Tick): seq<Heard> {
    var spawned := TrackAll(heard);
    heard + Obituaries(spawned, InOrder(Overdue(spawned, tick.now)), tick.now) + Given(tick)
  }

  function Given(tick: Tick): seq<Heard> {
    match tick.incoming
    case None => []
    case Some(i) => [Hear(Print(i.from.ip, i.from.port), i.message, tick.now)]
  }

  ghost function HeardOver(heard: seq<Heard>, ticks: seq<Tick>): seq<Heard>
    decreases |ticks|
  {
    if ticks == [] then heard else HeardOver(HeardIn(heard, ticks[0]), ticks[1..])
  }

  lemma ReceiveHears<E>(su: Setup<E>, begin: int, base: seq<Posted>, m: M<E>, tick: Tick, fuel: nat)
    requires LoopInv(su, begin, base, m)
    ensures var o := ReceiveMessage(su, m, tick, fuel);
            o.Done? ==> o.value.heard == m.heard + Given(tick)
  {
    if tick.incoming.Some? {
      var i := tick.incoming.value;
      HandleKeeps(su, begin, base, m, tick.now, i.from, i.to, i.message, fuel);
    }
  }

  lemma IterateHears<E>(su: Setup<E>, begin: int, base: seq<Posted>, m: M<E>, tick: Tick, fuel: nat)
    requires LoopInv(su, begin, base, m) && PlainHistory(m.heard)
    ensures var o := Iterate(su, m, tick, fuel); o.Done? ==> o.value.heard == HeardIn(m.heard, tick)
  {
    PlainTable(m.heard);
    CheckChildrenExact(su, begin, base, m, tick.now, fuel);
    var o := CheckChildren(su, m, tick.now, fuel);
    if o.Done? {
      CheckKeeps(su, begin, base, m, tick.now, fuel);
      BeatKeeps(su, begin, base, o.value, tick.now);
      var m2 := SendScheduled(Pulse(su, o.value, tick.now), tick.now);
      ReceiveHears(su, begin, base, m2, tick, fuel);
    }
  }

  // ---------- pulses ----------

  /** The clock readings of the turns in which a pulse is sent, when the one before was sent at `last`. */
  function PulseStamps(last: int, ticks: seq<Tick>): seq<int>
    decreases |ticks|
  {
    if ticks == [] then []
    else if ticks[0].now - last > 10_000_000_000 then [ticks[0].now] + PulseStamps(ticks[0].now, ticks[1..])
    else PulseStamps(last, ticks[1..])
  }

  /** Messages, whatever their receivers do, send no pulses. */
  ghost predicate SameBeat<E>(su: Setup<E>, m: M<E>, o: Outcome<M<E>>) {
    o.Done? ==> Registered(su, o.value) && o.value.pulses == m.pulses && o.value.last == m.last
  }

  lemma HandleBeats<E>(su: Setup<E>, m: M<E>, now: int, from: Address, to: Address, message: string, fuel: nat)
    requires "" !in su.states && Registered(su, m)
    ensures SameBeat(su, m, HandleMessage(su, m, now, from, to, message, fuel))
  {
    DispatchEffect(su, Supervise(m, Hear(Print(from.ip, from.port), message, now)), from, to, message, fuel);
  }

  lemma BothBeat<E>(su: Setup<E>, m: M<E>, now: int, child: Address, first: string, second: string, fuel: nat)
    requires "" !in su.states && Registered(su, m)
    ensures SameBeat(su, m, HandleBoth(su, m, now, child, first, second, fuel))
  {
    HandleBeats(su, m, now, child, su.address, first, fuel);
    var o := HandleMessage(su, m, now, child, su.address, first, fuel);
    if o.Done? {
      HandleBeats(su, o.value, now, child, su.address, second, fuel);
    }
  }

  lemma BuryBeats<E>(su: Setup<E>, m: M<E>, now: int, key: string, fuel: nat)
    requires "" !in su.states && Registered(su, m)
    ensures SameBeat(su, m, Bury(su, m, now, key, fuel))
  {
    if key in m.spawned && Extract(su.dns, key).Ok? {
      var name := m.spawned[key].name;
      BothBeat(su, m, now, Extract(su.dns, key).value, ErroredText(name), ExitedText(name), fuel);
    }
  }

  lemma {:induction false} BuryAllBeat<E>(su: Setup<E>, m: M<E>, now: int, dead: seq<string>, fuel: nat)
    requires "" !in su.states && Registered(su, m)
    ensures SameBeat(su, m, BuryAll(su, m, now, dead, fuel))
    decreases |dead|
  {
    if dead != [] {
      BuryBeats(su, m, now, dead[0], fuel);
      var o := Bury(su, m, now, dead[0], fuel);
      if o.Done? {
        BuryAllBeat(su, o.value, now, dead[1..], fuel);
      }
    }
  }

  lemma ReceiveBeats<E>(su: Setup<E>, m: M<E>, tick: Tick, fuel: nat)
    requires "" !in su.states && Registered(su, m)
    ensures SameBeat(su, m, ReceiveMessage(su, m, tick, fuel))
  {
    if tick.incoming.Some? {
      var i := tick.incoming.value;
      HandleBeats(su, m, tick.now, i.from, i.to, i.message, fuel);
    }
  }

  /** A turn sends a pulse exactly when one is due. */
  ghost predicate BeatsOnce<E>(m: M<E>, o: Outcome<M<E>>, now: int) {
    o.Done? ==>
      var due := now - m.last > PULSE_INTERVAL;
      && o.value.pulses == m.pulses + (if due then [now] else [])
      && o.value.last == if due then now else m.last
  }

  lemma IterateBeats<E>(su: Setup<E>, m: M<E>, tick: Tick, fuel: nat)
    requires "" !in su.states && Registered(su, m)
    ensures BeatsOnce(m, Iterate(su, m, tick, fuel), tick.now)
  {
    BuryAllBeat(su, m, tick.now, InOrder(Overdue(m.spawned, tick.now)), fuel);
    var o := CheckChildren(su, m, tick.now, fuel);
    if o.Done? {
      ReceiveBeats(su, SendScheduled(Pulse(su, o.value, tick.now), tick.now), tick, fuel);
    }
  }

  // ---------- the loop ----------

  /** Of the first k messages none but the last is "exit". */
  predicate ExitsAtMostLast(ticks: seq<Tick>, k: nat) {
    forall i :: 0 <= i < k - 1 && i < |ticks| ==> !AsksToExit(ticks[i])
  }

  /** The history and the pulses are those of the first k ticks, up to the first "exit", and of all of them unless
      the machine was stopped. */
  ghost predicate MadeTicks<E>(m: M<E>, o: Outcome<M<E>>, ticks: seq<Tick>, k: nat) {
    k <= |ticks| && (!m.running ==> k == 0) && ExitsAtMostLast(ticks, k) && (o.Done? ==>
      && o.value.heard == HeardOver(m.heard, ticks[..k])
      && o.value.pulses == m.pulses + PulseStamps(m.last, ticks[..k])
      && (k < |ticks| ==> !o.value.running))
  }

  lemma {:induction false} LoopHears<E>(su: Setup<E>, begin: int, base: seq<Posted>, m: M<E>, ticks: seq<Tick>,
                                        fuel: nat)
    returns (k: nat)
    requires LoopInv(su, begin, base, m) && PlainHistory(m.heard) && PlainTicks(ticks)
    ensures MadeTicks(m, Loop(su, m, ticks, fuel), ticks, k)
    decreases |ticks|
  {
    k := 0;
    if m.running && ticks != [] {
      IterateKeeps(su, begin, base, m, ticks[0], fuel);
      IterateHears(su, begin, base, m, ticks[0], fuel);
      IterateBeats(su, m, ticks[0], fuel);
      IterateExits(su, begin, base, m, ticks[0], fuel);
      var o := Iterate(su, m, ticks[0], fuel);
      LoopOnce(su, m, ticks, fuel, o);
      if o.Done? {
        var rest := LoopHears(su, begin, base, o.value, ticks[1..], fuel);
        k := rest + 1;
        MadeOneMore(m, o.value, Loop(su, m, ticks, fuel), ticks, rest, k);
      }
    } else {
      NoneMade(m, ticks);
    }
  }

  lemma NoneMade<E>(m: M<E>, ticks: seq<Tick>)
    requires !m.running || ticks == []
    ensures MadeTicks(m, Done(m), ticks, 0)
  {
    assert ticks[..0] == [] && m.pulses + [] == m.pulses;
  }

  /** A turn that is given "exit" is the last one. */
  lemma IterateExits<E>(su: Setup<E>, begin: int, base: seq<Posted>, m: M<E>, tick: Tick, fuel: nat)
    requires LoopInv(su, begin, base, m)
    ensures var o := Iterate(su, m, tick, fuel); o.Done? && AsksToExit(tick) ==> !o.value.running
  {
    var o := CheckChildren(su, m, tick.now, fuel);
    if o.Done? && AsksToExit(tick) {
      var i := tick.incoming.value;
      var m1 := SendScheduled(Pulse(su, o.value, tick.now), tick.now);
      ExitStops(su, m1, tick.now, i.from, i.to, i.message, fuel);
    }
  }

  lemma MadeOneMore<E>(m: M<E>, m1: M<E>, o: Outcome<M<E>>, ticks: seq<Tick>, k: nat, n: nat)
    requires ticks != [] && m.running && MadeTicks(m1, o, ticks[1..], k) && n == k + 1
    requires m1.heard == HeardIn(m.heard, ticks[0]) && BeatsOnce(m, Done(m1), ticks[0].now)
    requires AsksToExit(ticks[0]) ==> !m1.running
    ensures MadeTicks(m, o, ticks, n)
  {
    OneTickMore(m.heard, ticks, k);
    var now := ticks[0].now;
    OneStampMore(m.pulses, m.last, ticks, k, now - m.last > 10_000_000_000);
    ExitsLater(ticks, k, n);
  }

  lemma ExitsLater(ticks: seq<Tick>, k: nat, n: nat)
    requires ticks != [] && ExitsAtMostLast(ticks[1..], k) && n == k + 1 && (AsksToExit(ticks[0]) ==> k == 0)
    ensures ExitsAtMostLast(ticks, n)
  {
    forall i | 0 <= i < n - 1 && i < |ticks| ensures !AsksToExit(ticks[i]) {
      if i > 0 {
        assert ticks[i] == ticks[1..][i - 1];
      }
    }
  }

  lemma OneStampMore(pulses: seq<int>, last: int, ticks: seq<Tick>, k: nat, due: bool)
    requires k < |ticks| && due == (ticks[0].now - last > 10_000_000_000)
    ensures pulses + PulseStamps(last, ticks[..k + 1]) ==
            pulses + (if due then [ticks[0].now] else []) +
            PulseStamps(if due then ticks[0].now else last, ticks[1..][..k])
  {
    assert ticks[..k + 1][0] == ticks[0] && ticks[..k + 1][1..] == ticks[1..][..k];
  }

  lemma OneTickMore(heard: seq<Heard>, ticks: seq<Tick>, k: nat)
    requires k < |ticks|
    ensures HeardOver(heard, ticks[..k + 1]) == HeardOver(HeardIn(heard, ticks[0]), ticks[1..][..k])
  {
    assert ticks[..k + 1][0] == ticks[0] && ticks[..k + 1][1..] == ticks[1..][..k];
  }

  /** The same for a run that has begun at the given time. */
  ghost predicate RanTicks<E>(o: Outcome<M<E>>, begin: int, ticks: seq<Tick>, k: nat) {
    k <= |ticks| && ExitsAtMostLast(ticks, k) && (o.Done? ==>
      && o.value.heard == HeardOver([], ticks[..k]) && o.value.pulses == PulseStamps(begin, ticks[..k])
      && (k < |ticks| ==> !o.value.running))
  }

  lemma StayHears<E>(su: Setup<E>, begin: int, base: seq<Posted>, m: M<E>, ticks: seq<Tick>, fuel: nat) returns (k: nat)
    requires LoopInv(su, begin, base, m) && m.heard == [] && m.pulses == [] && m.last == begin && PlainTicks(ticks)
    ensures RanTicks(Stay(su, m, ticks, fuel), begin, ticks, k) && (!m.running ==> k == 0)
  {
    k := LoopHears(su, begin, base, m, ticks, fuel);
    LoopKeeps(su, begin, base, m, ticks, fuel);
    var o := Loop(su, m, ticks, fuel);
    if o.Done? {
      ExitEffect(su, o.value, Lineage(Parents(su.states), o.value.current).value, fuel);
    }
  }

  lemma LiveHears<E>(su: Setup<E>, m: M<E>, initial: string, begin: int, ticks: seq<Tick>, fuel: nat) returns (k: nat)
    requires "" !in su.states && su.states != map[]
    requires m.trace == [] && m.heard == [] && m.spawned == map[] && m.pulses == [] && !m.stale
    requires PlainTicks(ticks)
    ensures RanTicks(Live(su, m, initial, begin, ticks, fuel), begin, ticks, k) && (!m.running ==> k == 0)
  {
    k := 0;
    var first := if initial != "" then initial else m.current;
    FirstTransition(su, m, first, begin, fuel);
    TransitionEffect(su, m.(current := ""), first, fuel);
    var o := MakeTransition(su, m.(current := ""), first, fuel);
    if o.Done? {
      k := StayHears(su, begin, Framework(m.outbox), o.value.(last := begin), ticks, fuel);
    }
  }

  lemma {:induction false} StopAllHears<E>(su: Setup<E>, m: M<E>, keys: seq<string>)
    ensures var o := StopAll(su, m, keys);
            o.Done? ==> o.value.heard == m.heard && o.value.pulses == m.pulses && o.value.running == m.running
    decreases |keys|
  {
    if keys != [] {
      var stop := StopMessage(su, keys[0]);
      if stop.Done? {
        StopAllHears(su, m.(outbox := m.outbox + [stop.value]), keys[1..]);
      }
    }
  }

  /** A finished run of `Start` has handled exactly the messages its mailbox gave it, up to the turn that ended it,
      which is the first one that is given "exit" if none before ends it,
          with the obituaries of overdue children in their places, and has sent a pulse in exactly
      those turns whose clock reading is more than the interval after the one before. No state, action or receiver
      has any influence on that but by ending the run. */
  lemma StartHears<E>(su: Setup<E>, m: M<E>, initial: string, begin: int, ticks: seq<Tick>, fuel: nat) returns (k: nat)
    requires "" !in su.states && su.states != map[] && Unstarted(m) && PlainTicks(ticks)
    ensures RanTicks(Start(su, m, initial, begin, ticks, fuel), begin, ticks, k) && (!m.running ==> k == 0)
  {
    var m0 := Announce(su, m);
    k := LiveHears(su, m0, initial, begin, ticks, fuel);
    var o := Live(su, m0, initial, begin, ticks, fuel);
    if o.Done? {
      StopAllHears(su, Farewell(su, o.value), InOrder(o.value.spawned.Keys));
    }
  }
}
