/** Machines whose transitions never go out of date: exit actions, and entry actions of states with children,
    make no transition. */
module Quietness {
  import opened Text
  import opened Addresses
  import opened Lineages
  import opened Machines
  import opened MachineRuns
  import opened StartRuns

  /** No transition within so many nested calls, whatever the application's data. */
  ghost predicate Still<E(!new)>(c: Command<E>, depth: nat)
    decreases depth
  {
    match c
    case Transition(_) => false
    case Call(run) =>
      depth == 0 || forall env, i :: 0 <= i < |run(env).1| ==> Still(run(env).1[i], depth - 1)
    case _ => true
  }

  /** The script makes no transition. */
  ghost predicate Quiet<E(!new)>(script: Script<E>) {
    forall i, depth: nat :: 0 <= i < |script| ==> Still(script[i], depth)
  }

  /** Exit actions, and entry actions of states that have children, make no transition. */
  ghost predicate QuietSetup<E(!new)>(su: Setup<E>) {
    && (forall s :: s in su.states ==> Quiet(su.states[s].onExit))
    && (forall s, t :: s in su.states && t in su.states && su.states[t].parent == s ==> Quiet(su.states[s].onEnter))
  }

  lemma CallQuiet<E(!new)>(run: E -> (E, seq<Command<E>>), env: E)
    requires forall depth: nat :: Still(Call(run), depth)
    ensures Quiet(run(env).1)
  {
    var script := run(env).1;
    forall i, depth: nat | 0 <= i < |script| ensures Still(script[i], depth) {
      assert Still(Call(run), depth + 1);
    }
  }

  /** Such a script leaves the state and the actions triggered alone. */
  lemma {:induction false} QuietRun<E(!new)>(su: Setup<E>, m: M<E>, script: Script<E>, pinned: bool, fuel: nat)
    requires Quiet(script)
    ensures var o := Run(su, m, script, pinned, fuel);
            o.Done? ==> o.value.stale == m.stale && o.value.trace == m.trace && o.value.current == m.current
    decreases fuel, 1
  {
    if script != [] && fuel > 0 {
      assert forall depth: nat :: Still(script[0], depth);
      QuietExecute(su, m, script[0], pinned, fuel - 1);
      var o := Execute(su, m, script[0], pinned, fuel - 1);
      if o.Done? {
        QuietRun(su, o.value, script[1..], pinned, fuel - 1);
      }
    }
  }

  lemma {:induction false} QuietExecute<E(!new)>(su: Setup<E>, m: M<E>, c: Command<E>, pinned: bool, fuel: nat)
    requires forall depth: nat :: Still(c, depth)
    ensures var o := Execute(su, m, c, pinned, fuel);
            o.Done? ==> o.value.stale == m.stale && o.value.trace == m.trace && o.value.current == m.current
    decreases fuel, 0
  {
    assert Still(c, 0);
    if c.Call? && fuel > 0 {
      var (env, script) := c.run(m.env);
      CallQuiet(c.run, m.env);
      QuietRun(su, m.(env := env), script, pinned, fuel - 1);
    }
  }

  // ---------- no transition goes out of date ----------

  ghost predicate Fresh<E>(o: Outcome<M<E>>) {
    o.Done? ==> !o.value.stale
  }

  /** Each state of the list is the parent of the next. */
  ghost predicate Descends(f: Forest, entries: seq<string>) {
    forall i :: 0 <= i < |entries| ==> entries[i] in f && (i > 0 ==> f[entries[i]] == entries[i - 1])
  }

  lemma {:induction false} RunFresh<E(!new)>(su: Setup<E>, m: M<E>, script: Script<E>, pinned: bool, fuel: nat)
    requires QuietSetup(su) && !m.stale && (pinned ==> Quiet(script))
    ensures Fresh(Run(su, m, script, pinned, fuel))
    decreases fuel
  {
    if pinned {
      QuietRun(su, m, script, pinned, fuel);
    } else if script != [] && fuel > 0 {
      ExecuteFresh(su, m, script[0], fuel - 1);
      var o := Execute(su, m, script[0], false, fuel - 1);
      if o.Done? {
        RunFresh(su, o.value, script[1..], false, fuel - 1);
      }
    }
  }

  lemma {:induction false} ExecuteFresh<E(!new)>(su: Setup<E>, m: M<E>, c: Command<E>, fuel: nat)
    requires QuietSetup(su) && !m.stale
    ensures Fresh(Execute(su, m, c, false, fuel))
    decreases fuel
  {
    if fuel > 0 {
      match c {
        case Transition(target) => TransitionFresh(su, m.(stale := m.stale || false), target, fuel - 1);
        case Call(run) => RunFresh(su, m.(env := run(m.env).0), run(m.env).1, false, fuel - 1);
        case _ =>
      }
    }
  }

  lemma {:induction false} TransitionFresh<E(!new)>(su: Setup<E>, m: M<E>, target: string, fuel: nat)
    requires QuietSetup(su) && !m.stale
    ensures Fresh(MakeTransition(su, m, target, fuel))
    decreases fuel
  {
    var route := Route(Parents(su.states), m.current, target);
    if route.Some? && fuel > 0 {
      ExitFresh(su, m, route.value.0, fuel - 1);
      var o := ExitAll(su, m, route.value.0, fuel - 1);
      if o.Done? {
        RouteFresh(su, o.value.(current := target), m.current, target, fuel - 1);
      }
    }
  }

  /** Entering what the route to a target enters. */
  lemma {:induction false} RouteFresh<E(!new)>(su: Setup<E>, m: M<E>, s: string, target: string, fuel: nat)
    requires QuietSetup(su) && !m.stale && Route(Parents(su.states), s, target).Some?
    ensures Fresh(EnterAll(su, m, Route(Parents(su.states), s, target).value.1, fuel))
    decreases fuel, 2
  {
    if s == target {
      EnterOneFresh(su, m, target, fuel);
    } else {
      RouteDescends(Parents(su.states), s, target);
      EnterFresh(su, m, Route(Parents(su.states), s, target).value.1, fuel);
    }
  }

  lemma {:induction false} ExitFresh<E(!new)>(su: Setup<E>, m: M<E>, exits: seq<string>, fuel: nat)
    requires QuietSetup(su) && !m.stale
    ensures Fresh(ExitAll(su, m, exits, fuel))
    decreases fuel
  {
    if exits != [] && exits[0] in su.states && fuel > 0 {
      var m1 := Note(m, Exited(exits[0]));
      QuietRun(su, m1, su.states[exits[0]].onExit, true, fuel - 1);
      var o := Run(su, m1, su.states[exits[0]].onExit, true, fuel - 1);
      if o.Done? {
        ExitFresh(su, o.value, exits[1..], fuel - 1);
      }
    }
  }

  lemma {:induction false} EnterFresh<E(!new)>(su: Setup<E>, m: M<E>, entries: seq<string>, fuel: nat)
    requires QuietSetup(su) && !m.stale && Descends(Parents(su.states), entries)
    ensures Fresh(EnterAll(su, m, entries, fuel))
    decreases fuel, 0
  {
    if entries != [] && fuel > 0 {
      if |entries| > 1 {
        assert su.states[entries[1]].parent == entries[0];
      }
      var m1, script, pinned := Note(m, Entered(entries[0])), su.states[entries[0]].onEnter, |entries| > 1;
      RunFresh(su, m1, script, pinned, fuel - 1);
      var o := Run(su, m1, script, pinned, fuel - 1);
      if o.Done? {
        EnterFresh(su, o.value, entries[1..], fuel - 1);
      }
    }
  }

  lemma EnterOneFresh<E(!new)>(su: Setup<E>, m: M<E>, target: string, fuel: nat)
    requires QuietSetup(su) && !m.stale
    ensures Fresh(EnterAll(su, m, [target], fuel))
    decreases fuel, 1
  {
    if target in su.states {
      EnterFresh(su, m, [target], fuel);
    }
  }

  lemma {:induction false} LineageDescends(f: Forest, s: string, l: seq<string>)
    requires IsLineage(f, s, l)
    ensures forall i :: 0 <= i < |l| ==> l[i] in f && (i + 1 < |l| ==> f[l[i]] == l[i + 1])
    decreases l
  {
    if l != [] {
      LineageDescends(f, f[s], l[1..]);
      forall i | 0 <= i < |l| ensures l[i] in f && (i + 1 < |l| ==> f[l[i]] == l[i + 1]) {
        if i > 0 {
          assert l[i] == l[1..][i - 1];
        }
      }
    }
  }

  lemma RouteDescends(f: Forest, s: string, t: string)
    requires s != t && Route(f, s, t).Some?
    ensures Descends(f, Route(f, s, t).value.1)
  {
    var l := Lineage(f, t).value;
    LineageDescends(f, t, l);
  }

  // ---------- whole runs ----------

  lemma HandleFresh<E(!new)>(su: Setup<E>, m: M<E>, now: int, from: Address, to: Address, message: string, fuel: nat)
    requires QuietSetup(su) && !m.stale
    ensures Fresh(HandleMessage(su, m, now, from, to, message, fuel))
  {
    DispatchFresh(su, Supervise(m, Hear(Print(from.ip, from.port), message, now)), from, to, message, fuel);
  }

  lemma DispatchFresh<E(!new)>(su: Setup<E>, m: M<E>, from: Address, to: Address, message: string, fuel: nat)
    requires QuietSetup(su) && !m.stale
    ensures Fresh(Dispatch(su, m, from, to, message, fuel))
  {
    var l := Lineage(Parents(su.states), m.current);
    if l.Some? {
      var x := Nearest(su.states, l.value, Word(message));
      if x.Some? {
        RunFresh(su, m, ReceiverScript(su, x.value, from, to, message), false, fuel);
      }
    }
  }

  lemma BuryFresh<E(!new)>(su: Setup<E>, m: M<E>, now: int, key: string, fuel: nat)
    requires QuietSetup(su) && !m.stale
    ensures Fresh(Bury(su, m, now, key, fuel))
  {
    if key in m.spawned && Extract(su.dns, key).Ok? {
      BothFresh(su, m, now, Extract(su.dns, key).value, ErroredText(m.spawned[key].name),
                ExitedText(m.spawned[key].name), fuel);
    }
  }

  lemma BothFresh<E(!new)>(su: Setup<E>, m: M<E>, now: int, child: Address, first: string, second: string, fuel: nat)
    requires QuietSetup(su) && !m.stale
    ensures Fresh(HandleBoth(su, m, now, child, first, second, fuel))
  {
    HandleFresh(su, m, now, child, su.address, first, fuel);
    var o := HandleMessage(su, m, now, child, su.address, first, fuel);
    if o.Done? {
      HandleFresh(su, o.value, now, child, su.address, second, fuel);
    }
  }

  lemma {:induction false} BuryAllFresh<E(!new)>(su: Setup<E>, m: M<E>, now: int, dead: seq<string>, fuel: nat)
    requires QuietSetup(su) && !m.stale
    ensures Fresh(BuryAll(su, m, now, dead, fuel))
    decreases |dead|
  {
    if dead != [] {
      BuryFresh(su, m, now, dead[0], fuel);
      var o := Bury(su, m, now, dead[0], fuel);
      if o.Done? {
        BuryAllFresh(su, o.value, now, dead[1..], fuel);
      }
    }
  }

  lemma IterateFresh<E(!new)>(su: Setup<E>, m: M<E>, tick: Tick, fuel: nat)
    requires QuietSetup(su) && !m.stale
    ensures Fresh(Iterate(su, m, tick, fuel))
  {
    BuryAllFresh(su, m, tick.now, InOrder(Overdue(m.spawned, tick.now)), fuel);
    var o := CheckChildren(su, m, tick.now, fuel);
    if o.Done? && tick.incoming.Some? {
      var i := tick.incoming.value;
      HandleFresh(su, SendScheduled(Pulse(su, o.value, tick.now), tick.now), tick.now, i.from, i.to, i.message, fuel);
    }
  }

  lemma {:induction false} LoopFresh<E(!new)>(su: Setup<E>, m: M<E>, ticks: seq<Tick>, fuel: nat)
    requires QuietSetup(su) && !m.stale
    ensures Fresh(Loop(su, m, ticks, fuel))
    decreases |ticks|
  {
    if m.running && ticks != [] {
      var o := Iterate(su, m, ticks[0], fuel);
      IterateFresh(su, m, ticks[0], fuel);
      LoopOnce(su, m, ticks, fuel, o);
      if o.Done? {
        LoopFresh(su, o.value, ticks[1..], fuel);
      }
    }
  }

  lemma LiveFresh<E(!new)>(su: Setup<E>, m: M<E>, initial: string, begin: int, ticks: seq<Tick>, fuel: nat)
    requires QuietSetup(su) && !m.stale
    ensures Fresh(Live(su, m, initial, begin, ticks, fuel))
  {
    var first := if initial != "" then initial else m.current;
    TransitionFresh(su, m.(current := ""), first, fuel);
    var o := MakeTransition(su, m.(current := ""), first, fuel);
    if o.Done? {
      StayFresh(su, o.value.(last := begin), ticks, fuel);
    }
  }

  lemma StayFresh<E(!new)>(su: Setup<E>, m: M<E>, ticks: seq<Tick>, fuel: nat)
    requires QuietSetup(su) && !m.stale
    ensures Fresh(Stay(su, m, ticks, fuel))
  {
    LoopFresh(su, m, ticks, fuel);
    var o := Loop(su, m, ticks, fuel);
    if o.Done? {
      LeaveFresh(su, o.value, fuel);
    }
  }

  lemma LeaveFresh<E(!new)>(su: Setup<E>, m: M<E>, fuel: nat)
    requires QuietSetup(su) && !m.stale
    ensures var l := Lineage(Parents(su.states), m.current);
            l.Some? ==> Fresh(ExitAll(su, m, l.value, fuel))
  {
    var l := Lineage(Parents(su.states), m.current);
    if l.Some? {
      ExitFresh(su, m, l.value, fuel);
    }
  }

  lemma {:induction false} StopAllFrame<E>(su: Setup<E>, m: M<E>, keys: seq<string>)
    ensures var o := StopAll(su, m, keys); o.Done? ==> o.value.stale == m.stale
    decreases |keys|
  {
    if keys != [] {
      var stop := StopMessage(su, keys[0]);
      if stop.Done? {
        StopAllFrame(su, m.(outbox := m.outbox + [stop.value]), keys[1..]);
      }
    }
  }

  /** In every finished run of `Start` of such a machine the entry and exit actions nest as a stack, and at
      the end everything entered has been exited. */
  lemma ActionsNest<E(!new)>(su: Setup<E>, m: M<E>, initial: string, begin: int, ticks: seq<Tick>, fuel: nat)
    requires "" !in su.states && Unstarted(m) && PlainTicks(ticks) && QuietSetup(su)
    ensures var o := Start(su, m, initial, begin, ticks, fuel);
            o.Done? ==> Replay(o.value.trace) == Some([])
  {
    StartGuarantees(su, m, initial, begin, ticks, fuel);
    var m0 := Announce(su, m);
    LiveFresh(su, m0, initial, begin, ticks, fuel);
    var o := Live(su, m0, initial, begin, ticks, fuel);
    if o.Done? {
      StopAllFrame(su, Farewell(su, o.value), InOrder(o.value.spawned.Keys));
    }
  }

  // ---------- a machine that is not quiet ----------

  /** Entering P moves on to the root Q; C is a child of P. */
  function Restless(): map<string, State<()>> {
    map["P" := State("P", "", [Transition("Q")], [], map[]),
        "C" := State("C", "P", [], [], map[]),
        "Q" := State("Q", "", [], [], map[])]
  }

  lemma RestlessRoutes(f: Forest)
    requires f == map["P" := "", "C" := "P", "Q" := ""]
    ensures Route(f, "", "C") == Some(([], ["P", "C"]))
    ensures Route(f, "C", "Q") == Some((["C", "P"], ["Q"]))
  {
    var e: seq<string> := [];
    LineageIs(f, "", e);
    assert ["P"][1..] == e && ["Q"][1..] == e && ["C", "P"][1..] == ["P"];
    LineageIs(f, "P", ["P"]);
    LineageIs(f, "Q", ["Q"]);
    LineageIs(f, "C", ["C", "P"]);
    assert RootPath(f, "") == e && RootPath(f, "C") == ["P", "C"] && RootPath(f, "Q") == ["Q"];
    assert Reverse(["P", "C"]) == ["C", "P"];
  }

  lemma ExitTwo<E>(su: Setup<E>, m: M<E>, a: string, b: string, fuel: nat)
    requires a in su.states && b in su.states && su.states[a].onExit == [] && su.states[b].onExit == [] && fuel > 2
    ensures ExitAll(su, m, [a, b], fuel) == Done(m.(trace := m.trace + [Exited(a), Exited(b)]))
  {
    var m1 := Note(m, Exited(a));
    var m2 := Note(m1, Exited(b));
    assert m2.trace == m.trace + [Exited(a), Exited(b)];
    assert [a, b][1..] == [b] && [b][1..] == [];
    assert ExitAll(su, m2, [], fuel - 2) == Done(m2);
    assert ExitAll(su, m1, [b], fuel - 1) == Done(m2);
  }

  lemma EnterOne<E>(su: Setup<E>, m: M<E>, t: string, fuel: nat)
    requires t in su.states && su.states[t].onEnter == [] && fuel > 1
    ensures EnterAll(su, m, [t], fuel) == Done(Note(m, Entered(t)))
  {
    assert [t][1..] == [];
    assert EnterAll(su, Note(m, Entered(t)), [], fuel - 1) == Done(Note(m, Entered(t)));
  }

  lemma RestlessStates(su: Setup<()>)
    requires su.states == Restless()
    ensures Parents(su.states) == map["P" := "", "C" := "P", "Q" := ""]
    ensures "P" in su.states && su.states["P"].onEnter == [Transition("Q")] && su.states["P"].onExit == []
    ensures "C" in su.states && su.states["C"].onEnter == [] && su.states["C"].onExit == []
    ensures "Q" in su.states && su.states["Q"].onEnter == []
  {
  }

  /** What the entry action of P does while the machine is on its way to C. */
  lemma RestlessEntry(su: Setup<()>, m: M<()>, fuel: nat)
    requires su.states == Restless() && m.current == "C" && fuel > 8
    ensures Run(su, m, [Transition("Q")], true, fuel)
         == Done(m.(stale := true, current := "Q", trace := m.trace + [Exited("C"), Exited("P")] + [Entered("Q")]))
  {
    RestlessStates(su);
    RestlessRoutes(Parents(su.states));
    var m1 := m.(stale := true);
    var m2 := m1.(trace := m.trace + [Exited("C"), Exited("P")]);
    ExitTwo(su, m1, "C", "P", fuel - 3);
    EnterOne(su, m2.(current := "Q"), "Q", fuel - 3);
    var m3 := Note(m2.(current := "Q"), Entered("Q"));
    assert MakeTransition(su, m1, "Q", fuel - 2) == Done(m3);
    var script: Script<()> := [Transition("Q")];
    assert script[1..] == [];
    assert Run(su, m3, [], true, fuel - 1) == Done(m3);
  }

  /** There the order breaks: the transition to C exits C before it has entered it. */
  lemma RestlessBreaksTheOrder(su: Setup<()>, m: M<()>, fuel: nat)
    requires su.states == Restless() && Unstarted(m) && m.current == "" && fuel > 12
    ensures var o := MakeTransition(su, m, "C", fuel);
            o.Done? && o.value.current == "Q"
            && o.value.trace == [Entered("P"), Exited("C"), Exited("P"), Entered("Q"), Entered("C")]
            && Replay(o.value.trace) == None
  {
    RestlessStates(su);
    RestlessRoutes(Parents(su.states));
    var m1 := Note(m.(current := "C"), Entered("P"));
    RestlessEntry(su, m1, fuel - 2);
    var m2 := m1.(stale := true, current := "Q", trace := m1.trace + [Exited("C"), Exited("P")] + [Entered("Q")]);
    assert ["P", "C"][1..] == ["C"] && ["P", "C"][0] == "P";
    EnterOne(su, m2, "C", fuel - 2);
    assert EnterAll(su, m.(current := "C"), ["P", "C"], fuel - 1) == Done(Note(m2, Entered("C")));
    assert ExitAll(su, m, [], fuel - 1) == Done(m);
    BrokenOrder(Note(m2, Entered("C")).trace);
  }

  lemma BrokenOrder(trace: seq<Happening>)
    requires trace == [] + [Entered("P")] + [Exited("C"), Exited("P")] + [Entered("Q")] + [Entered("C")]
    ensures trace == [Entered("P"), Exited("C"), Exited("P"), Entered("Q"), Entered("C")]
    ensures Replay(trace) == None
  {
    var t1 := [] + [Entered("P")];
    ReplayEntered([], [], "P");
    assert (t1 + [Exited("C")])[..1] == t1;
    StaysBroken(t1 + [Exited("C")], Exited("P"));
    StaysBroken(t1 + [Exited("C")] + [Exited("P")], Entered("Q"));
    StaysBroken(t1 + [Exited("C")] + [Exited("P")] + [Entered("Q")], Entered("C"));
    assert trace == t1 + [Exited("C")] + [Exited("P")] + [Entered("Q")] + [Entered("C")];
  }

  lemma StaysBroken(trace: seq<Happening>, h: Happening)
    requires Replay(trace) == None
    ensures Replay(trace + [h]) == None
  {
    assert (trace + [h])[..|trace|] == trace;
  }

  // ---------- a machine that is not quiet and does no harm ----------

  /** Leaving C visits its child T and comes back. */
  function Restored(): map<string, State<()>> {
    map["C" := State("C", "", [], [Transition("T"), Transition("C")], map[]),
        "T" := State("T", "C", [], [], map[]),
        "Q" := State("Q", "", [], [], map[])]
  }

  lemma RestoredRoutes(f: Forest)
    requires f == map["C" := "", "T" := "C", "Q" := ""]
    ensures Route(f, "C", "Q") == Some((["C"], ["Q"]))
    ensures Route(f, "C", "T") == Some(([], ["T"])) && Route(f, "T", "C") == Some((["T"], []))
  {
    var e: seq<string> := [];
    assert ["C"][1..] == e && ["Q"][1..] == e && ["T", "C"][1..] == ["C"];
    LineageIs(f, "C", ["C"]);
    LineageIs(f, "Q", ["Q"]);
    LineageIs(f, "T", ["T", "C"]);
    assert RootPath(f, "C") == ["C"] && RootPath(f, "Q") == ["Q"] && RootPath(f, "T") == ["C", "T"];
    assert ["C"][1..] == e && ["C", "T"][1..] == ["T"];
    assert CommonLength(["C"], ["C", "T"]) == 1 && CommonLength(["C", "T"], ["C"]) == 1;
    assert Reverse(["T"]) == ["T"] && Reverse(["C"]) == ["C"] && Reverse(e) == e;
  }

  lemma ExitOne<E>(su: Setup<E>, m: M<E>, s: string, fuel: nat)
    requires s in su.states && su.states[s].onExit == [] && fuel > 1
    ensures ExitAll(su, m, [s], fuel) == Done(Note(m, Exited(s)))
  {
    assert [s][1..] == [];
    assert ExitAll(su, Note(m, Exited(s)), [], fuel - 1) == Done(Note(m, Exited(s)));
  }

  lemma ExitsOnly<E>(su: Setup<E>, m: M<E>, t: string, fuel: nat)
    requires Route(Parents(su.states), m.current, t) == Some(([m.current], [])) && fuel > 5
    requires m.current in su.states && su.states[m.current].onExit == []
    ensures MakeTransition(su, m, t, fuel) == Done(Note(m, Exited(m.current)).(current := t))
  {
    var m1 := Note(m, Exited(m.current)).(current := t);
    ExitOne(su, m, m.current, fuel - 1);
    assert EnterAll(su, m1, [], fuel - 1) == Done(m1);
  }

  lemma RestoredStates(su: Setup<()>)
    requires su.states == Restored()
    ensures Parents(su.states) == map["C" := "", "T" := "C", "Q" := ""]
    ensures "C" in su.states && su.states["C"].onExit == [Transition("T"), Transition("C")]
    ensures "T" in su.states && su.states["T"].onEnter == [] && su.states["T"].onExit == []
    ensures "Q" in su.states && su.states["Q"].onEnter == []
  {
  }

  lemma RunTwo<E>(su: Setup<E>, m: M<E>, c: Command<E>, d: Command<E>, pinned: bool, fuel: nat, m1: M<E>, m2: M<E>)
    requires fuel > 2 && Execute(su, m, c, pinned, fuel - 1) == Done(m1)
        && Execute(su, m1, d, pinned, fuel - 2) == Done(m2)
    ensures Run(su, m, [c, d], pinned, fuel) == Done(m2)
  {
    var script: Script<E> := [c, d];
    assert script[1..] == [d] && script[1..][1..] == [];
    assert Run(su, m2, script[1..][1..], pinned, fuel - 2) == Done(m2);
    assert Run(su, m1, script[1..], pinned, fuel - 1) == Done(m2);
  }

  /** What the exit action of C does. */
  lemma RestoredExit(su: Setup<()>, m: M<()>, fuel: nat)
    requires su.states == Restored() && m.current == "C" && fuel > 8
    ensures Run(su, m, [Transition("T"), Transition("C")], true, fuel)
         == Done(m.(stale := true, trace := m.trace + [Entered("T")] + [Exited("T")]))
  {
    var m0 := m.(stale := true);
    var m1 := Note(m0.(current := "T"), Entered("T"));
    var m2 := Note(m1, Exited("T")).(current := "C");
    RestoredStates(su);
    RestoredRoutes(Parents(su.states));
    assert ExitAll(su, m0, [], fuel - 3) == Done(m0);
    EnterOne(su, m0.(current := "T"), "T", fuel - 3);
    assert MakeTransition(su, m0, "T", fuel - 2) == Done(m1);
    ExitsOnly(su, m1, "C", fuel - 3);
    RunTwo(su, m, Transition("T"), Transition("C"), true, fuel, m1, m2);
  }

  /** So a transition made while another one's lists are in use does not have to break the order. */
  lemma RestoredKeepsTheOrder(su: Setup<()>, m: M<()>, fuel: nat)
    requires su.states == Restored() && m.current == "C" && m.trace == [Entered("C")] && fuel > 12
    ensures var o := MakeTransition(su, m, "Q", fuel);
            o.Done? && o.value.stale && o.value.current == "Q" && Replay(o.value.trace) == Some(["Q"])
  {
    RestoredStates(su);
    RestoredRoutes(Parents(su.states));
    var m1 := Note(m, Exited("C"));
    RestoredExit(su, m1, fuel - 2);
    MovesAcross(su, m, "Q", fuel, m1.(stale := true, trace := m1.trace + [Entered("T")] + [Exited("T")]));
    RestoredOrder(m.trace);
  }

  /** From one state to another, when the exit action leaves the machine at m1. */
  lemma MovesAcross<E>(su: Setup<E>, m: M<E>, t: string, fuel: nat, m1: M<E>)
    requires Route(Parents(su.states), m.current, t) == Some(([m.current], [t])) && fuel > 5
    requires m.current in su.states && t in su.states && su.states[t].onEnter == []
    requires Run(su, Note(m, Exited(m.current)), su.states[m.current].onExit, true, fuel - 2) == Done(m1)
    ensures MakeTransition(su, m, t, fuel) == Done(Note(m1.(current := t), Entered(t)))
  {
    assert [m.current][1..] == [];
    assert ExitAll(su, m1, [], fuel - 2) == Done(m1);
    assert ExitAll(su, m, [m.current], fuel - 1) == Done(m1);
    EnterOne(su, m1.(current := t), t, fuel - 1);
  }

  lemma RestoredOrder(trace: seq<Happening>)
    requires trace == [Entered("C")]
    ensures Replay(trace + [Exited("C")] + [Entered("T")] + [Exited("T")] + [Entered("Q")]) == Some(["Q"])
  {
    ReplayEntered([], [], "C");
    assert [] + [Entered("C")] == trace && [] + ["C"] == ["C"] && [] + ["T"] == ["T"] && [] + ["Q"] == ["Q"];
    ReplayExited(trace, [], "C");
    ReplayEntered(trace + [Exited("C")], [], "T");
    ReplayExited(trace + [Exited("C")] + [Entered("T")], [], "T");
    ReplayEntered(trace + [Exited("C")] + [Entered("T")] + [Exited("T")], [], "Q");
  }
}
