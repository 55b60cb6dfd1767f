/** Machines whose actions and receivers only post: their runs finish, whatever they are given. */
module Finishing {
  import opened Text
  import opened Addresses
  import opened Lineages
  import opened Machines
  import opened MachineRuns
  import opened MachineTheorems
  import opened StartRuns
  import opened Dispatching
  import opened Actions
  import opened Lifecycles

  /** Scripts have at most n commands, all of them posts; no state is more than n levels deep; every state catches
      every message. */
  ghost predicate Modest<E(!new)>(su: Setup<E>, n: nat) {
    && "" !in su.states
    && (forall s :: s in su.states ==> ModestState(su, su.states[s], n) && Shallow(Parents(su.states), s, n))
  }

  ghost predicate Shallow(f: Forest, s: string, n: nat) {
    Lineage(f, s).Some? && |Lineage(f, s).value| <= n
  }

  ghost predicate ModestState<E(!new)>(su: Setup<E>, s: State<E>, n: nat) {
    && ShortPosts(s.onEnter, n) && ShortPosts(s.onExit, n) && "" in s.receivers
    && forall key, from, to, args :: key in s.receivers ==> ShortPosts(s.receivers[key](from, to, args), n)
  }

  predicate ShortPosts<E(!new)>(script: Script<E>, n: nat) {
    OnlyPosts(script) && |script| <= n
  }

  ghost predicate ShortActions<E(!new)>(su: Setup<E>, n: nat) {
    forall s :: s in su.states ==> ShortPosts(su.states[s].onEnter, n) && ShortPosts(su.states[s].onExit, n)
  }

  // ---------- transitions ----------

  lemma RestIsKnown<E>(su: Setup<E>, l: seq<string>)
    requires AllKnown(su, l) && l != []
    ensures l[0] in su.states && AllKnown(su, l[1..])
  {
  }

  lemma Leaving<E(!new)>(su: Setup<E>, n: nat, m: M<E>, s: string, fuel: nat) returns (m1: M<E>)
    requires ShortActions(su, n) && s in su.states && fuel >= n
    ensures Run(su, Note(m, Exited(s)), su.states[s].onExit, true, fuel) == Done(m1) && m1.current == m.current
  {
    RunSays(su, Note(m, Exited(s)), su.states[s].onExit, true, fuel);
    m1 := Said(Note(m, Exited(s)), Words(su.states[s].onExit), []);
  }

  lemma Entering<E(!new)>(su: Setup<E>, n: nat, m: M<E>, s: string, pinned: bool, fuel: nat) returns (m1: M<E>)
    requires ShortActions(su, n) && s in su.states && fuel >= n
    ensures Run(su, Note(m, Entered(s)), su.states[s].onEnter, pinned, fuel) == Done(m1) && m1.current == m.current
  {
    RunSays(su, Note(m, Entered(s)), su.states[s].onEnter, pinned, fuel);
    m1 := Said(Note(m, Entered(s)), Words(su.states[s].onEnter), []);
  }

  lemma {:induction false} ExitAllFinishes<E(!new)>(su: Setup<E>, n: nat, m: M<E>, exits: seq<string>, fuel: nat)
    requires ShortActions(su, n) && AllKnown(su, exits) && fuel >= |exits| + n
    ensures var o := ExitAll(su, m, exits, fuel); o.Done? && o.value.current == m.current
    decreases fuel
  {
    if exits != [] {
      RestIsKnown(su, exits);
      var m1 := Leaving(su, n, m, exits[0], fuel - 1);
      ExitAllFinishes(su, n, m1, exits[1..], fuel - 1);
    }
  }

  lemma {:induction false} EnterAllFinishes<E(!new)>(su: Setup<E>, n: nat, m: M<E>, entries: seq<string>, fuel: nat)
    requires ShortActions(su, n) && AllKnown(su, entries) && fuel >= |entries| + n
    ensures var o := EnterAll(su, m, entries, fuel); o.Done? && o.value.current == m.current
    decreases fuel
  {
    if entries != [] {
      RestIsKnown(su, entries);
      var m1 := Entering(su, n, m, entries[0], |entries| > 1, fuel - 1);
      EnterAllFinishes(su, n, m1, entries[1..], fuel - 1);
    }
  }

  lemma LineageIsKnown<E>(su: Setup<E>, s: string)
    requires Lineage(Parents(su.states), s).Some?
    ensures AllKnown(su, Lineage(Parents(su.states), s).value)
  {
    var l := Lineage(Parents(su.states), s).value;
    forall i | 0 <= i < |l| ensures l[i] in su.states {
      LineageSuffix(Parents(su.states), s, l, i);
    }
  }

  lemma RouteIsKnown<E>(su: Setup<E>, s: string, t: string, n: nat)
    requires Shallow(Parents(su.states), s, n) && Shallow(Parents(su.states), t, n) && t in su.states && n > 0
    ensures Route(Parents(su.states), s, t).Some?
    ensures var (exits, entries) := Route(Parents(su.states), s, t).value;
            AllKnown(su, exits) && AllKnown(su, entries) && |exits| <= n && |entries| <= n
  {
    LineageIsKnown(su, s);
    LineageIsKnown(su, t);
  }

  lemma TallEnough<E(!new)>(su: Setup<E>, n: nat, s: string, t: string)
    requires Modest(su, n) && t in su.states && (s in su.states || s == "")
    ensures ShortActions(su, n) && n > 0 && Shallow(Parents(su.states), s, n) && Shallow(Parents(su.states), t, n)
  {
    LineageIs(Parents(su.states), "", []);
    assert Lineage(Parents(su.states), t).value != [];
  }

  /** From any state, or from nowhere, to any other a transition finishes. */
  lemma TransitionFinishes<E(!new)>(su: Setup<E>, n: nat, m: M<E>, target: string, fuel: nat)
    requires Modest(su, n) && target in su.states && (m.current in su.states || m.current == "") && fuel > 2 * n
    ensures var o := MakeTransition(su, m, target, fuel); o.Done? && o.value.current == target
  {
    TallEnough(su, n, m.current, target);
    RouteIsKnown(su, m.current, target, n);
    var r := Route(Parents(su.states), m.current, target).value;
    AlongRouteFinishes(su, n, m, target, r.0, r.1, fuel);
  }

  lemma AlongRouteFinishes<E(!new)>(su: Setup<E>, n: nat, m: M<E>, target: string, exits: seq<string>,
                                    entries: seq<string>, fuel: nat)
    requires ShortActions(su, n) && Route(Parents(su.states), m.current, target) == Some((exits, entries))
    requires AllKnown(su, exits) && AllKnown(su, entries) && |exits| <= n && |entries| <= n && fuel > 2 * n
    ensures var o := MakeTransition(su, m, target, fuel); o.Done? && o.value.current == target
  {
    ExitAllFinishes(su, n, m, exits, fuel - 1);
    var o := ExitAll(su, m, exits, fuel - 1);
    AlongRouteIs(su, m, target, exits, entries, fuel, o);
    EnterAllFinishes(su, n, o.value.(current := target), entries, fuel - 1);
  }

  lemma AlongRouteIs<E>(su: Setup<E>, m: M<E>, target: string, exits: seq<string>, entries: seq<string>, fuel: nat,
                        o: Outcome<M<E>>)
    requires Route(Parents(su.states), m.current, target) == Some((exits, entries))
    requires fuel > 0 && ExitAll(su, m, exits, fuel - 1) == o
    ensures MakeTransition(su, m, target, fuel) ==
            if o.Done? then EnterAll(su, o.value.(current := target), entries, fuel - 1) else o
  {
  }

  // ---------- messages ----------

  ghost predicate StaysPut<E>(m: M<E>, o: Outcome<M<E>>) {
    o.Done? && o.value.current == m.current
  }

  lemma HandleFinishes<E(!new)>(su: Setup<E>, n: nat, m: M<E>, now: int, from: Address, to: Address, message: string,
                                fuel: nat)
    requires Modest(su, n) && m.current in su.states && fuel >= n
    ensures StaysPut(m, HandleMessage(su, m, now, from, to, message, fuel))
  {
    var l := Lineage(Parents(su.states), m.current).value;
    assert l[0] == m.current && l[0] in l && Handles(su.states, l[0], Word(message));
    NearestIs(su.states, l, Word(message));
    var x := Nearest(su.states, l, Word(message)).value;
    var m1 := Supervise(m, Hear(Print(from.ip, from.port), message, now));
    RunSays(su, m1, ReceiverScript(su, x, from, to, message), false, fuel);
  }

  lemma BothFinish<E(!new)>(su: Setup<E>, n: nat, m: M<E>, now: int, child: Address, first: string, second: string,
                            fuel: nat)
    requires Modest(su, n) && m.current in su.states && fuel >= n
    ensures StaysPut(m, HandleBoth(su, m, now, child, first, second, fuel))
  {
    HandleFinishes(su, n, m, now, child, su.address, first, fuel);
    var m1 := HandleMessage(su, m, now, child, su.address, first, fuel).value;
    HandleFinishes(su, n, m1, now, child, su.address, second, fuel);
  }

  lemma {:induction false} BuryAllFinishes<E(!new)>(su: Setup<E>, n: nat, m: M<E>, now: int, dead: seq<string>,
                                                    fuel: nat)
    requires Modest(su, n) && m.current in su.states && fuel >= n && forall k :: k in dead ==> PrintedKey(k)
    ensures StaysPut(m, BuryAll(su, m, now, dead, fuel))
    decreases |dead|
  {
    if dead != [] {
      assert dead[0] in dead;
      PrintOfExtract(su.dns, dead[0]);
      if dead[0] in m.spawned {
        var name := m.spawned[dead[0]].name;
        BothFinish(su, n, m, now, Extract(su.dns, dead[0]).value, ErroredText(name), ExitedText(name), fuel);
      }
      BuryAllFinishes(su, n, Bury(su, m, now, dead[0], fuel).value, now, dead[1..], fuel);
    }
  }

  lemma CheckFinishes<E(!new)>(su: Setup<E>, n: nat, m: M<E>, now: int, fuel: nat)
    requires Modest(su, n) && m.current in su.states && fuel >= n && forall k :: k in m.spawned ==> PrintedKey(k)
    ensures StaysPut(m, CheckChildren(su, m, now, fuel))
  {
    BuryAllFinishes(su, n, m, now, InOrder(Overdue(m.spawned, now)), fuel);
  }

  lemma ReceiveFinishes<E(!new)>(su: Setup<E>, n: nat, m: M<E>, tick: Tick, fuel: nat)
    requires Modest(su, n) && m.current in su.states && fuel >= n
    ensures StaysPut(m, ReceiveMessage(su, m, tick, fuel))
  {
    if tick.incoming.Some? {
      var i := tick.incoming.value;
      HandleFinishes(su, n, m, tick.now, i.from, i.to, i.message, fuel);
    }
  }

  lemma IterateFinishes<E(!new)>(su: Setup<E>, n: nat, m: M<E>, tick: Tick, fuel: nat)
    requires Modest(su, n) && m.current in su.states && fuel >= n && forall k :: k in m.spawned ==> PrintedKey(k)
    ensures StaysPut(m, Iterate(su, m, tick, fuel))
  {
    CheckFinishes(su, n, m, tick.now, fuel);
    var o := CheckChildren(su, m, tick.now, fuel);
    IterateIs(su, m, tick, fuel, o);
    ReceiveFinishes(su, n, SendScheduled(Pulse(su, o.value, tick.now), tick.now), tick, fuel);
  }

  lemma {:induction false} LoopFinishes<E(!new)>(su: Setup<E>, n: nat, begin: int, base: seq<Posted>, m: M<E>,
                                                 ticks: seq<Tick>, fuel: nat)
    requires Modest(su, n) && m.current in su.states && fuel >= n
    requires LoopInv(su, begin, base, m) && PlainHistory(m.heard) && PlainTicks(ticks)
    ensures StaysPut(m, Loop(su, m, ticks, fuel))
    decreases |ticks|
  {
    if m.running && ticks != [] {
      PlainTable(m.heard);
      IterateFinishes(su, n, m, ticks[0], fuel);
      IterateKeeps(su, begin, base, m, ticks[0], fuel);
      var o := Iterate(su, m, ticks[0], fuel);
      LoopOnce(su, m, ticks, fuel, o);
      LoopFinishes(su, n, begin, base, o.value, ticks[1..], fuel);
    }
  }

  // ---------- whole runs ----------

  lemma StayFinishes<E(!new)>(su: Setup<E>, n: nat, begin: int, base: seq<Posted>, m: M<E>, ticks: seq<Tick>, fuel: nat)
    requires Modest(su, n) && m.current in su.states && fuel >= 2 * n
    requires LoopInv(su, begin, base, m) && PlainHistory(m.heard) && PlainTicks(ticks)
    ensures Stay(su, m, ticks, fuel).Done?
  {
    LoopFinishes(su, n, begin, base, m, ticks, fuel);
    LineageIsKnown(su, m.current);
    TallEnough(su, n, m.current, m.current);
    ExitAllFinishes(su, n, Loop(su, m, ticks, fuel).value, Lineage(Parents(su.states), m.current).value, fuel);
  }

  lemma LiveFinishes<E(!new)>(su: Setup<E>, n: nat, m: M<E>, initial: string, begin: int, ticks: seq<Tick>, fuel: nat)
    requires Modest(su, n) && su.states != map[] && fuel > 2 * n && PlainTicks(ticks)
    requires (if initial != "" then initial else m.current) in su.states
    requires m.trace == [] && m.heard == [] && m.spawned == map[] && m.pulses == [] && !m.stale
    ensures Live(su, m, initial, begin, ticks, fuel).Done?
  {
    var first := if initial != "" then initial else m.current;
    TransitionFinishes(su, n, m.(current := ""), first, fuel);
    FirstTransition(su, m, first, begin, fuel);
    var o := MakeTransition(su, m.(current := ""), first, fuel);
    LiveIs(su, m, initial, begin, ticks, fuel, first, o);
    StayFinishes(su, n, begin, Framework(m.outbox), o.value.(last := begin), ticks, fuel);
  }

  /** Every run of such a machine finishes, started in one of its states and given whatever messages from plain
      addresses; so what is said of finished runs is said of all of them. */
  lemma StartFinishes<E(!new)>(su: Setup<E>, n: nat, m: M<E>, initial: string, begin: int, ticks: seq<Tick>, fuel: nat)
    requires Modest(su, n) && Unstarted(m) && PlainTicks(ticks) && fuel > 2 * n
    requires (if initial != "" then initial else m.current) in su.states
    ensures Start(su, m, initial, begin, ticks, fuel).Done?
  {
    var m0 := Announce(su, m);
    LiveFinishes(su, n, m0, initial, begin, ticks, fuel);
    AnnounceSends(su, m);
    LiveKeeps(su, m0, initial, begin, ticks, fuel);
    EndsWell(su, begin, Live(su, m0, initial, begin, ticks, fuel).value);
  }

  /** A machine without states makes no turn: it says hello and goodbye. */
  lemma StatelessStart<E>(su: Setup<E>, m: M<E>, initial: string, begin: int, ticks: seq<Tick>, fuel: nat)
    requires su.states == map[] && Unstarted(m)
    ensures Start(su, m, initial, begin, ticks, fuel) ==
            Done(m.(outbox := StartMessages(su) + EndMessages(su, m.error)))
  {
    assert Announce(su, m) == m.(outbox := StartMessages(su));
    FarewellSends(su, m.(outbox := StartMessages(su)));
  }
}
