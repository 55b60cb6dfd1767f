/** Where a machine starts, and exactly what makes it stop. */
module Lifecycles {
  import opened Text
  import opened Addresses
  import opened Lineages
  import opened Machines
  import opened MachineRuns
  import opened MachineTheorems
  import opened StartRuns
  import opened Dispatching
  import opened Schedules

  // ---------- the state a run starts in ----------

  /** The route from nowhere enters every state from the root down to the target. */
  lemma RouteFromNowhere(f: Forest, t: string)
    requires "" !in f && t != "" && Route(f, "", t).Some?
    ensures Lineage(f, t).Some? && Route(f, "", t) == Some(([], RootPath(f, t)))
    ensures var path := RootPath(f, t); path != [] && path[|path| - 1] == t && t in f
  {
    LineageIs(f, "", []);
    assert RootPath(f, "") == [];
    var path, l := RootPath(f, t), Lineage(f, t).value;
    assert Shared(f, "", t) == 0;
    assert path[0..] == path && Reverse(RootPath(f, "")[0..]) == [];
    assert l != [] && l[0] == t;
    assert path[|path| - 1] == l[0];
  }

  /** The first transition enters the states from the root down to the given state, or, when none is given, to the one
      that is current before the start. */
  lemma FirstTransitionEnters<E>(su: Setup<E>, m: M<E>, first: string, fuel: nat)
    requires "" !in su.states && MakeTransition(su, m.(current := ""), first, fuel).Done?
    ensures first in su.states && Lineage(Parents(su.states), first).Some?
    ensures var path := RootPath(Parents(su.states), first);
            var m1 := MakeTransition(su, m.(current := ""), first, fuel).value;
            && path != [] && path[|path| - 1] == first
            && m.trace + [Entered(path[0])] <= m1.trace
            && (!m1.stale ==> m.trace + Enters(path) <= m1.trace)
  {
    var f, m0 := Parents(su.states), m.(current := "");
    if first == "" {
      assert ExitAll(su, m0, [""], fuel - 1).Thrown?;
      assert false;
    }
    RouteFromNowhere(f, first);
    var path := RootPath(f, first);
    assert ExitAll(su, m0, [], fuel - 1) == Done(m0);
    var m1 := m0.(current := first);
    EnterEffect(su, m1, path, fuel - 1);
    var n := Note(m1, Entered(path[0]));
    RunAdds(su, n, su.states[path[0]].onEnter, |path| > 1, fuel - 2);
    var o := Run(su, n, su.states[path[0]].onEnter, |path| > 1, fuel - 2);
    EnterAdds(su, o.value, path[1..], fuel - 2);
  }

  /** A finished run of `Start` has begun by entering the states from the root down to the state it was told to start
      in, or else to the first one that was added. */
  lemma StartEnters<E>(su: Setup<E>, m: M<E>, initial: string, begin: int, ticks: seq<Tick>, fuel: nat)
    requires "" !in su.states && su.states != map[] && m.trace == []
    requires Start(su, m, initial, begin, ticks, fuel).Done?
    ensures var first := if initial != "" then initial else m.current;
            var m' := Start(su, m, initial, begin, ticks, fuel).value;
            && first in su.states && Lineage(Parents(su.states), first).Some?
            && var path := RootPath(Parents(su.states), first);
            && path != [] && path[|path| - 1] == first && [Entered(path[0])] <= m'.trace
            && (!m'.stale ==> Enters(path) <= m'.trace)
  {
    var first := if initial != "" then initial else m.current;
    var m0 := Announce(su, m);
    FirstTransitionEnters(su, m0, first, fuel);
    assert m0.trace == [] && forall l: seq<Happening> :: m0.trace + l == l;
    RestKeepsTrace(su, MakeTransition(su, m0.(current := ""), first, fuel).value.(last := begin), ticks, fuel);
  }

  lemma RestKeepsTrace<E>(su: Setup<E>, m1: M<E>, ticks: seq<Tick>, fuel: nat)
    requires "" !in su.states && Stay(su, m1, ticks, fuel).Done?
    ensures var m2 := Stay(su, m1, ticks, fuel).value;
            var o := StopAll(su, Farewell(su, m2), InOrder(m2.spawned.Keys));
            o.Done? ==> m1.trace <= o.value.trace && (m1.stale ==> o.value.stale)
  {
    var m2 := Stay(su, m1, ticks, fuel).value;
    var ops, k := StaySchedules(su, m1, ticks, fuel);
    FarewellAdds(su, m2);
    StopAllAdds(su, Farewell(su, m2), InOrder(m2.spawned.Keys));
  }

  // ---------- what the commands do ----------

  /** `SendAt`: a scheduled message is posted, after what was due before it, by the first pass whose clock is past its
      time, and until then it is the last one in the queue. */
  lemma PostAtIsKept<E>(su: Setup<E>, m: M<E>, to: Address, message: string, time: int, pinned: bool, fuel: nat,
                        now: int)
    requires fuel > 0
    ensures var o := Run(su, m, [PostAt(to, message, time)], pinned, fuel);
            && o == Done(m.(queue := m.queue + [Scheduled(to, message, time)],
                            planned := m.planned + [Scheduled(to, message, time)]))
            && var m1, m2 := SendScheduled(m, now), SendScheduled(o.value, now);
            && m2.outbox == m1.outbox + (if time < now then [Posted(to, message, false, Some(time))] else [])
            && m2.queue == m1.queue + (if time < now then [] else [Scheduled(to, message, time)])
  {
    var c: Command<E> := PostAt(to, message, time);
    assert [c][1..] == [];
    var e := Scheduled(to, message, time);
    OneAtTheEnd(m.queue, e, now);
    var last := if time < now then [Posted(to, message, false, Some(time))] else [];
    assert m.outbox + DueNow(m.queue, now) + last == m.outbox + (DueNow(m.queue, now) + last);
  }

  lemma {:induction false} DueAtTheEnd(q: seq<Scheduled>, e: Scheduled, now: int)
    ensures DueNow(q + [e], now) == DueNow(q, now) + DueNow([e], now)
  {
    if q == [] {
      assert [] + [e] == [e];
    } else {
      DueAtTheEnd(q[1..], e, now);
      assert (q + [e])[1..] == q[1..] + [e];
    }
  }

  lemma {:induction false} KeptAtTheEnd(q: seq<Scheduled>, e: Scheduled, now: int)
    ensures NotYet(q + [e], now) == NotYet(q, now) + NotYet([e], now)
  {
    if q == [] {
      assert [] + [e] == [e];
    } else {
      KeptAtTheEnd(q[1..], e, now);
      assert (q + [e])[1..] == q[1..] + [e];
    }
  }

  lemma OneAtTheEnd(q: seq<Scheduled>, e: Scheduled, now: int)
    ensures DueNow(q + [e], now) == DueNow(q, now) +
              if e.time < now then [Posted(e.to, e.message, false, Some(e.time))] else []
    ensures NotYet(q + [e], now) == NotYet(q, now) + if e.time < now then [] else [e]
  {
    DueAtTheEnd(q, e, now);
    KeptAtTheEnd(q, e, now);
    assert [e][1..] == [];
  }

  /** `Exit`: the script goes on, and the loop then makes no more turn. */
  lemma ExitEnds<E>(su: Setup<E>, m: M<E>, rest: Script<E>, pinned: bool, fuel: nat, ticks: seq<Tick>)
    requires fuel > 0
    ensures var m1 := m.(running := false);
            && Run(su, m, [Exit] + rest, pinned, fuel) == Run(su, m1, rest, pinned, fuel - 1)
            && Loop(su, m1, ticks, fuel) == Done(m1)
  {
    var script: Script<E> := [Exit] + rest;
    assert script[0] == Exit && script[1..] == rest;
  }

  /** `Error`: so does it here, and the last error text is what the parent is told before the exit. */
  lemma ErrorIsTold<E>(su: Setup<E>, m: M<E>, text: string, rest: Script<E>, pinned: bool, fuel: nat, ticks: seq<Tick>)
    requires fuel > 0
    ensures var m1 := m.(error := text, running := false);
            && Run(su, m, [Error(text)] + rest, pinned, fuel) == Run(su, m1, rest, pinned, fuel - 1)
            && Loop(su, m1, ticks, fuel) == Done(m1)
            && Farewell(su, m1).outbox == m.outbox +
                 (if text == "" then [] else [Posted(su.parent, "errored " + su.name + " " + text, true)]) +
                 [Posted(su.parent, "exited " + su.name, true),
                  Posted(Make(su.dns, su.address.ip, 42000), "unregister", true)]
  {
    var script: Script<E> := [Error(text)] + rest;
    assert script[0] == Error(text) && script[1..] == rest;
    FarewellSends(su, m.(error := text, running := false));
    var told, end := if text == "" then [] else [Posted(su.parent, "errored " + su.name + " " + text, true)],
                     [Posted(su.parent, "exited " + su.name, true),
                      Posted(Make(su.dns, su.address.ip, 42000), "unregister", true)];
    assert m.outbox + told + end == m.outbox + (told + end);
  }

  // ---------- the message exit ----------

  lemma KindIs(message: string)
    ensures KindOf(message) == ExitRequest <==> Word(message) == "exit"
    ensures KindOf(message) == ChildStarted <==> Word(message) == "started"
    ensures KindOf(message) == ChildExited <==> Word(message) == "exited"
    ensures KindOf(message) == ChildPulsed <==> Word(message) == "pulsed"
  {
    assert |"exit"| == 4 && |"started"| == 7 && "exited"[0] == 'e' && "pulsed"[0] == 'p';
  }

  /** The message "exit", from whomever and whatever its receiver does, stops the machine. */
  lemma ExitStops<E>(su: Setup<E>, m: M<E>, now: int, from: Address, to: Address, message: string, fuel: nat)
    requires "" !in su.states && Word(message) == "exit"
    ensures var o := HandleMessage(su, m, now, from, to, message, fuel); o.Done? ==> !o.value.running
  {
    KindIs(message);
    var m1 := Supervise(m, Hear(Print(from.ip, from.port), message, now));
    assert !m1.running;
    DispatchStays(su, m1, from, to, message, fuel);
  }

  lemma DispatchStays<E>(su: Setup<E>, m: M<E>, from: Address, to: Address, message: string, fuel: nat)
    requires "" !in su.states && !m.running
    ensures var o := Dispatch(su, m, from, to, message, fuel); o.Done? ==> !o.value.running
  {
    var l := Lineage(Parents(su.states), m.current);
    if l.Some? && Nearest(su.states, l.value, Word(message)).Some? {
      var x := Nearest(su.states, l.value, Word(message)).value;
      RunEffect(su, m, ReceiverScript(su, x, from, to, message), false, fuel);
    }
  }

  // ---------- scripts that do not stop the machine ----------

  /** Within so many nested calls, whatever the application's data: no exit, no error, and no transition to nowhere. */
  ghost predicate Steady<E(!new)>(c: Command<E>, depth: nat)
    decreases depth
  {
    match c
    case Exit => false
    case Error(_) => false
    case Transition(target) => target != ""
    case Call(run) =>
      depth == 0 || forall env, i :: 0 <= i < |run(env).1| ==> Steady(run(env).1[i], depth - 1)
    case _ => true
  }

  ghost predicate SteadyScript<E(!new)>(script: Script<E>) {
    forall i, depth: nat :: 0 <= i < |script| ==> Steady(script[i], depth)
  }

  ghost predicate SteadyActions<E(!new)>(su: Setup<E>) {
    forall s :: s in su.states ==> SteadyScript(su.states[s].onEnter) && SteadyScript(su.states[s].onExit)
  }

  /** The machine runs on, or not, as before, and is in a state. */
  ghost predicate SameCourse<E>(su: Setup<E>, m: M<E>, m': M<E>) {
    m'.running == m.running && m'.error == m.error && (m.current in su.states ==> m'.current in su.states)
  }

  ghost predicate KeepsCourse<E>(su: Setup<E>, m: M<E>, o: Outcome<M<E>>) {
    o.Done? ==> SameCourse(su, m, o.value)
  }

  lemma CallSteady<E(!new)>(run: E -> (E, seq<Command<E>>), env: E)
    requires forall depth: nat :: Steady(Call(run), depth)
    ensures SteadyScript(run(env).1)
  {
    var script := run(env).1;
    forall i, depth: nat | 0 <= i < |script| ensures Steady(script[i], depth) {
      assert Steady(Call(run), depth + 1);
    }
  }

  lemma {:induction false} RunSteady<E(!new)>(su: Setup<E>, m: M<E>, script: Script<E>, pinned: bool, fuel: nat)
    requires SteadyActions(su) && SteadyScript(script)
    ensures KeepsCourse(su, m, Run(su, m, script, pinned, fuel))
    decreases fuel, 1
  {
    if script != [] && fuel > 0 {
      assert forall depth: nat :: Steady(script[0], depth);
      ExecuteSteady(su, m, script[0], pinned, fuel - 1);
      var o := Execute(su, m, script[0], pinned, fuel - 1);
      if o.Done? {
        RunSteady(su, o.value, script[1..], pinned, fuel - 1);
      }
    }
  }

  lemma {:induction false} ExecuteSteady<E(!new)>(su: Setup<E>, m: M<E>, c: Command<E>, pinned: bool, fuel: nat)
    requires SteadyActions(su) && forall depth: nat :: Steady(c, depth)
    ensures KeepsCourse(su, m, Execute(su, m, c, pinned, fuel))
    decreases fuel, 0
  {
    assert Steady(c, 0);
    if fuel > 0 {
      match c {
        case Transition(target) => TransitionSteady(su, m.(stale := m.stale || pinned), target, fuel - 1);
        case Call(run) =>
          CallSteady(run, m.env);
          RunSteady(su, m.(env := run(m.env).0), run(m.env).1, pinned, fuel - 1);
        case _ =>
      }
    }
  }

  lemma {:induction false} TransitionSteady<E(!new)>(su: Setup<E>, m: M<E>, target: string, fuel: nat)
    requires SteadyActions(su) && target != ""
    ensures KeepsCourse(su, m, MakeTransition(su, m, target, fuel))
    ensures var o := MakeTransition(su, m, target, fuel); o.Done? ==> o.value.current in su.states
    decreases fuel
  {
    var route := Route(Parents(su.states), m.current, target);
    if route.Some? && fuel > 0 {
      ExitSteady(su, m, route.value.0, fuel - 1);
      var o := ExitAll(su, m, route.value.0, fuel - 1);
      if o.Done? {
        var m1 := o.value.(current := target);
        TargetIsState(su, m.current, target, m1, fuel - 1);
        EnterSteady(su, m1, route.value.1, fuel - 1);
      }
    }
  }

  lemma TargetIsState<E>(su: Setup<E>, s: string, target: string, m: M<E>, fuel: nat)
    requires target != "" && Route(Parents(su.states), s, target).Some?
    ensures target in su.states || !EnterAll(su, m, Route(Parents(su.states), s, target).value.1, fuel).Done?
  {
    if s != target {
      assert Lineage(Parents(su.states), target).Some?;
    }
  }

  lemma {:induction false} ExitSteady<E(!new)>(su: Setup<E>, m: M<E>, exits: seq<string>, fuel: nat)
    requires SteadyActions(su)
    ensures KeepsCourse(su, m, ExitAll(su, m, exits, fuel))
    decreases fuel, 0
  {
    if exits != [] && exits[0] in su.states && fuel > 0 {
      var m1 := Note(m, Exited(exits[0]));
      RunSteady(su, m1, su.states[exits[0]].onExit, true, fuel - 1);
      var o := Run(su, m1, su.states[exits[0]].onExit, true, fuel - 1);
      if o.Done? {
        ExitSteady(su, o.value, exits[1..], fuel - 1);
      }
    }
  }

  lemma {:induction false} EnterSteady<E(!new)>(su: Setup<E>, m: M<E>, entries: seq<string>, fuel: nat)
    requires SteadyActions(su)
    ensures KeepsCourse(su, m, EnterAll(su, m, entries, fuel))
    decreases fuel, 0
  {
    if entries != [] && entries[0] in su.states && fuel > 0 {
      var m1 := Note(m, Entered(entries[0]));
      RunSteady(su, m1, su.states[entries[0]].onEnter, |entries| > 1, fuel - 1);
      var o := Run(su, m1, su.states[entries[0]].onEnter, |entries| > 1, fuel - 1);
      if o.Done? {
        EnterSteady(su, o.value, entries[1..], fuel - 1);
      }
    }
  }

  /** A message that some state of the lineage handles leaves the machine running as it was, with the error text it had,
      if no entry or exit action stops the machine and the receiver it goes to does not either; unless it is "exit". */
  lemma HandledRunsOn<E(!new)>(su: Setup<E>, m: M<E>, l: seq<string>, x: Match, now: int, from: Address, to: Address,
                               message: string, fuel: nat)
    requires SteadyActions(su) && Lineage(Parents(su.states), m.current) == Some(l)
    requires Nearest(su.states, l, Word(message)) == Some(x)
    requires SteadyScript(ReceiverScript(su, x, from, to, message))
    ensures var o := HandleMessage(su, m, now, from, to, message, fuel);
            o.Done? ==> o.value.running == (m.running && Word(message) != "exit") && o.value.error == m.error
                        && (m.current in su.states ==> o.value.current in su.states)
  {
    KindIs(message);
    var m1 := Supervise(m, Hear(Print(from.ip, from.port), message, now));
    assert m1.running == (m.running && Word(message) != "exit");
    RunSteady(su, m1, ReceiverScript(su, x, from, to, message), false, fuel);
  }

  // ---------- machines that run until they are told to exit ----------

  predicate AsksToExit(tick: Tick) {
    tick.incoming.Some? && Word(tick.incoming.value.message) == "exit"
  }

  predicate NoneAsksToExit(ticks: seq<Tick>) {
    forall i :: 0 <= i < |ticks| ==> !AsksToExit(ticks[i])
  }

  /** Every state catches every message, and no action or receiver stops the machine. */
  ghost predicate SteadySetup<E(!new)>(su: Setup<E>) {
    && "" !in su.states && SteadyActions(su)
    && (forall s :: s in su.states ==> "" in su.states[s].receivers)
    && forall s, key, from, to, args :: s in su.states && key in su.states[s].receivers ==>
         SteadyScript(su.states[s].receivers[key](from, to, args))
  }

  /** In a state, with the error text of m, and running exactly if `running`. */
  ghost predicate OnCourse<E>(su: Setup<E>, m: M<E>, o: Outcome<M<E>>, running: bool) {
    o.Done? ==> o.value.running == running && o.value.error == m.error && o.value.current in su.states
  }

  lemma CaughtSomewhere<E(!new)>(su: Setup<E>, m: M<E>, l: seq<string>, t: string)
    requires SteadySetup(su) && m.current in su.states && Lineage(Parents(su.states), m.current) == Some(l)
    ensures Nearest(su.states, l, t).Some?
  {
    assert l[0] == m.current && l[0] in l;
    NearestIs(su.states, l, t);
    assert Handles(su.states, l[0], t);
  }

  lemma HandleSteady<E(!new)>(su: Setup<E>, m: M<E>, now: int, from: Address, to: Address, message: string, fuel: nat)
    requires SteadySetup(su) && m.current in su.states
    ensures OnCourse(su, m, HandleMessage(su, m, now, from, to, message, fuel), m.running && Word(message) != "exit")
  {
    var l := Lineage(Parents(su.states), m.current);
    if l.Some? {
      CaughtSomewhere(su, m, l.value, Word(message));
      var x := Nearest(su.states, l.value, Word(message)).value;
      HandledRunsOn(su, m, l.value, x, now, from, to, message, fuel);
    }
  }

  lemma BothSteady<E(!new)>(su: Setup<E>, m: M<E>, now: int, child: Address, first: string, second: string, fuel: nat)
    requires SteadySetup(su) && m.current in su.states && Word(first) != "exit" && Word(second) != "exit"
    ensures OnCourse(su, m, HandleBoth(su, m, now, child, first, second, fuel), m.running)
  {
    HandleSteady(su, m, now, child, su.address, first, fuel);
    var o := HandleMessage(su, m, now, child, su.address, first, fuel);
    if o.Done? {
      HandleSteady(su, o.value, now, child, su.address, second, fuel);
    }
  }

  lemma BurySteady<E(!new)>(su: Setup<E>, m: M<E>, now: int, key: string, fuel: nat)
    requires SteadySetup(su) && m.current in su.states
    ensures OnCourse(su, m, Bury(su, m, now, key, fuel), m.running)
  {
    if key in m.spawned && Extract(su.dns, key).Ok? {
      var name := m.spawned[key].name;
      ObituaryKinds(name);
      KindIs(ErroredText(name));
      KindIs(ExitedText(name));
      BothSteady(su, m, now, Extract(su.dns, key).value, ErroredText(name), ExitedText(name), fuel);
    }
  }

  lemma {:induction false} BuryAllSteady<E(!new)>(su: Setup<E>, m: M<E>, now: int, dead: seq<string>, fuel: nat)
    requires SteadySetup(su) && m.current in su.states
    ensures OnCourse(su, m, BuryAll(su, m, now, dead, fuel), m.running)
    decreases |dead|
  {
    if dead != [] {
      BurySteady(su, m, now, dead[0], fuel);
      var o := Bury(su, m, now, dead[0], fuel);
      if o.Done? {
        BuryAllSteady(su, o.value, now, dead[1..], fuel);
      }
    }
  }

  lemma IterateSteady<E(!new)>(su: Setup<E>, m: M<E>, tick: Tick, fuel: nat)
    requires SteadySetup(su) && m.current in su.states
    ensures OnCourse(su, m, Iterate(su, m, tick, fuel), m.running && !AsksToExit(tick))
  {
    var o := CheckChildren(su, m, tick.now, fuel);
    CheckSteady(su, m, tick.now, fuel);
    IterateIs(su, m, tick, fuel, o);
    if o.Done? {
      var m1 := SendScheduled(Pulse(su, o.value, tick.now), tick.now);
      ReceiveSteady(su, m1, tick, fuel);
    }
  }

  lemma CheckSteady<E(!new)>(su: Setup<E>, m: M<E>, now: int, fuel: nat)
    requires SteadySetup(su) && m.current in su.states
    ensures OnCourse(su, m, CheckChildren(su, m, now, fuel), m.running)
  {
    BuryAllSteady(su, m, now, InOrder(Overdue(m.spawned, now)), fuel);
  }

  lemma IterateIs<E>(su: Setup<E>, m: M<E>, tick: Tick, fuel: nat, o: Outcome<M<E>>)
    requires CheckChildren(su, m, tick.now, fuel) == o
    ensures Iterate(su, m, tick, fuel) ==
            if o.Done? then ReceiveMessage(su, SendScheduled(Pulse(su, o.value, tick.now), tick.now), tick, fuel) else o
  {
  }

  lemma ReceiveSteady<E(!new)>(su: Setup<E>, m: M<E>, tick: Tick, fuel: nat)
    requires SteadySetup(su) && m.current in su.states
    ensures OnCourse(su, m, ReceiveMessage(su, m, tick, fuel), m.running && !AsksToExit(tick))
  {
    if tick.incoming.Some? {
      var i := tick.incoming.value;
      HandleSteady(su, m, tick.now, i.from, i.to, i.message, fuel);
    }
  }

  lemma {:induction false} LoopSteady<E(!new)>(su: Setup<E>, m: M<E>, ticks: seq<Tick>, fuel: nat)
    requires SteadySetup(su) && m.current in su.states
    ensures OnCourse(su, m, Loop(su, m, ticks, fuel), m.running && NoneAsksToExit(ticks))
    decreases |ticks|
  {
    if m.running && ticks != [] {
      var o := Iterate(su, m, ticks[0], fuel);
      LoopOnce(su, m, ticks, fuel, o);
      IterateSteady(su, m, ticks[0], fuel);
      if o.Done? {
        LoopSteady(su, o.value, ticks[1..], fuel);
        NoneMoreAsks(ticks);
      }
    }
  }

  lemma NoneMoreAsks(ticks: seq<Tick>)
    requires ticks != []
    ensures NoneAsksToExit(ticks) <==> !AsksToExit(ticks[0]) && NoneAsksToExit(ticks[1..])
  {
    assert forall i :: 0 < i < |ticks| ==> ticks[i] == ticks[1..][i - 1];
  }

  lemma StaySteady<E(!new)>(su: Setup<E>, m: M<E>, ticks: seq<Tick>, fuel: nat)
    requires SteadySetup(su) && m.current in su.states
    ensures OnCourse(su, m, Stay(su, m, ticks, fuel), m.running && NoneAsksToExit(ticks))
  {
    LoopSteady(su, m, ticks, fuel);
    var o := Loop(su, m, ticks, fuel);
    if o.Done? && Lineage(Parents(su.states), o.value.current).Some? {
      ExitSteady(su, o.value, Lineage(Parents(su.states), o.value.current).value, fuel);
    }
  }

  lemma LiveSteady<E(!new)>(su: Setup<E>, m: M<E>, initial: string, begin: int, ticks: seq<Tick>, fuel: nat)
    requires SteadySetup(su) && su.states != map[]
    ensures OnCourse(su, m, Live(su, m, initial, begin, ticks, fuel), m.running && NoneAsksToExit(ticks))
  {
    var first := if initial != "" then initial else m.current;
    var o := MakeTransition(su, m.(current := ""), first, fuel);
    LiveIs(su, m, initial, begin, ticks, fuel, first, o);
    if o.Done? {
      FirstTransitionEnters(su, m, first, fuel);
      TransitionSteady(su, m.(current := ""), first, fuel);
      StaySteady(su, o.value.(last := begin), ticks, fuel);
    }
  }

  lemma LiveIs<E>(su: Setup<E>, m: M<E>, initial: string, begin: int, ticks: seq<Tick>, fuel: nat, first: string,
                  o: Outcome<M<E>>)
    requires su.states != map[] && first == (if initial != "" then initial else m.current)
    requires MakeTransition(su, m.(current := ""), first, fuel) == o
    ensures Live(su, m, initial, begin, ticks, fuel) ==
            if o.Done? then Stay(su, o.value.(last := begin), ticks, fuel) else o
  {
  }

  lemma {:induction false} StopAllSteady<E>(su: Setup<E>, m: M<E>, keys: seq<string>)
    ensures var o := StopAll(su, m, keys); o.Done? ==> o.value.running == m.running && o.value.error == m.error
    decreases |keys|
  {
    if keys != [] && StopMessage(su, keys[0]).Done? {
      StopAllSteady(su, m.(outbox := m.outbox + [StopMessage(su, keys[0]).value]), keys[1..]);
    }
  }

  /** If every state catches every message and no action or receiver stops the machine,
      then a finished run was running to
      its last tick if and only if none of its messages was "exit"; and it has no error to report. */
  lemma StartRunsUntilExit<E(!new)>(su: Setup<E>, m: M<E>, initial: string, begin: int, ticks: seq<Tick>, fuel: nat)
    requires SteadySetup(su) && su.states != map[] && m.running && m.error == ""
    ensures var o := Start(su, m, initial, begin, ticks, fuel);
            o.Done? ==>
              && (o.value.running <==> forall i :: 0 <= i < |ticks| ==> !AsksToExit(ticks[i]))
              && o.value.error == ""
  {
    var m0 := Announce(su, m);
    LiveSteady(su, m0, initial, begin, ticks, fuel);
    var o := Live(su, m0, initial, begin, ticks, fuel);
    if o.Done? {
      StopAllSteady(su, Farewell(su, o.value), InOrder(o.value.spawned.Keys));
    }
  }
}
