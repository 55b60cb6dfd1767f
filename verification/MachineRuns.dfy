/** What every action, receiver and transition of a machine keeps, however they nest. */
module MachineRuns {
  import opened Text
  import opened Addresses
  import opened Lineages
  import opened Machines

  // ---------- the stack of entered states ----------

  /** The states entered and not exited, oldest first; None when an exit is not of the latest entry. */
  function Replay(trace: seq<Happening>): Option<seq<string>> {
    if trace == [] then Some([]) else
      match (Replay(trace[..|trace| - 1]), trace[|trace| - 1])
      case (None, _) => None
      case (Some(stack), Entered(s)) => Some(stack + [s])
      case (Some(stack), Exited(s)) =>
        if stack != [] && stack[|stack| - 1] == s then Some(stack[..|stack| - 1]) else None
  }

  lemma ReplayEntered(trace: seq<Happening>, stack: seq<string>, s: string)
    requires Replay(trace) == Some(stack)
    ensures Replay(trace + [Entered(s)]) == Some(stack + [s])
  {
    assert (trace + [Entered(s)])[..|trace|] == trace;
  }

  lemma ReplayExited(trace: seq<Happening>, stack: seq<string>, s: string)
    requires Replay(trace) == Some(stack + [s])
    ensures Replay(trace + [Exited(s)]) == Some(stack)
  {
    assert (trace + [Exited(s)])[..|trace|] == trace;
    assert (stack + [s])[..|stack|] == stack;
  }

  function Exits(l: seq<string>): seq<Happening> {
    seq(|l|, i requires 0 <= i < |l| => Exited(l[i]))
  }

  /** Exiting a list leaf first takes it off the stack. */
  lemma {:induction false} ReplayExits(trace: seq<Happening>, base: seq<string>, l: seq<string>)
    requires Replay(trace) == Some(base + Reverse(l))
    ensures Replay(trace + Exits(l)) == Some(base)
    decreases |l|
  {
    if l == [] {
      assert base + Reverse(l) == base && trace + Exits(l) == trace;
    } else {
      OneExitMore(trace, base, l);
      ReplayExited(trace, base + Reverse(l[1..]), l[0]);
      ReplayExits(trace + [Exited(l[0])], base, l[1..]);
    }
  }

  lemma OneExitMore(trace: seq<Happening>, base: seq<string>, l: seq<string>)
    requires l != []
    ensures base + Reverse(l) == (base + Reverse(l[1..])) + [l[0]]
    ensures trace + Exits(l) == trace + [Exited(l[0])] + Exits(l[1..])
  {
    assert Reverse(l) == Reverse(l[1..]) + [l[0]];
    assert Exits(l) == [Exited(l[0])] + Exits(l[1..]);
  }

  // ---------- what is kept ----------

  /** The messages the machine itself sends. */
  function Framework(out: seq<Posted>): seq<Posted> {
    if out == [] then [] else
      Framework(out[..|out| - 1]) + if out[|out| - 1].framework then [out[|out| - 1]] else []
  }

  lemma {:induction false} FrameworkConcat(p: seq<Posted>, q: seq<Posted>)
    ensures Framework(p + q) == Framework(p) + Framework(q)
  {
    if q == [] {
      assert p + q == p;
    } else {
      var r, o := q[..|q| - 1], q[|q| - 1];
      FrameworkConcat(p, r);
      FrameworkMore(p + r, o);
      FrameworkMore(r, o);
      assert p + q == p + r + [o] && q == r + [o];
    }
  }

  lemma FrameworkMore(out: seq<Posted>, o: Posted)
    ensures Framework(out + [o]) == Framework(out) + if o.framework then [o] else []
  {
    assert (out + [o])[..|out|] == out;
  }

  lemma FrameworkOne(o: Posted)
    ensures Framework([o]) == if o.framework then [o] else []
  {
    FrameworkMore([], o);
    assert [] + [o] == [o];
  }

  /** The current state and all its ancestors are registered. */
  ghost predicate Registered<E>(su: Setup<E>, m: M<E>) {
    Lineage(Parents(su.states), m.current).Some?
  }

  /** The entered-but-not-exited states are exactly the ones from the root down to the current state. */
  ghost predicate Settled<E>(su: Setup<E>, m: M<E>) {
    Registered(su, m) && Replay(m.trace) == Some(RootPath(Parents(su.states), m.current))
  }

  /** What actions and receivers cannot touch, or only add to. */
  ghost predicate Frame<E>(m: M<E>, m': M<E>) {
    && m'.spawned == m.spawned && m'.heard == m.heard && m'.pulses == m.pulses && m'.last == m.last
    && (m.stale ==> m'.stale) && (!m.running ==> !m'.running)
    && Framework(m'.outbox) == Framework(m.outbox)
    && m.queue <= m'.queue && m.trace <= m'.trace
  }

  /** The effect of commands; when `pinned` is respected they make no transition at all. */
  ghost predicate Effect<E>(su: Setup<E>, m: M<E>, m': M<E>, pinned: bool) {
    && Frame(m, m')
    && (pinned && !m'.stale ==> m'.trace == m.trace && m'.current == m.current)
    && (Registered(su, m) ==> Registered(su, m'))
    && (!m'.stale && Settled(su, m) ==> Settled(su, m'))
  }

  ghost predicate RunsWell<E>(su: Setup<E>, m: M<E>, o: Outcome<M<E>>, pinned: bool) {
    !o.Endless? && (o.Done? ==> Effect(su, m, o.value, pinned))
  }

  /** Every script, however its transitions nest, keeps what `Effect` says; of the stack that is said as long as
      no transition was made while the lists of another one were in use. */
  lemma {:induction false} RunEffect<E>(su: Setup<E>, m: M<E>, script: Script<E>, pinned: bool, fuel: nat)
    requires "" !in su.states
    ensures RunsWell(su, m, Run(su, m, script, pinned, fuel), pinned)
    decreases fuel
  {
    if script != [] && fuel > 0 {
      ExecuteEffect(su, m, script[0], pinned, fuel - 1);
      var o := Execute(su, m, script[0], pinned, fuel - 1);
      if o.Done? {
        RunEffect(su, o.value, script[1..], pinned, fuel - 1);
      }
    }
  }

  lemma {:induction false} ExecuteEffect<E>(su: Setup<E>, m: M<E>, c: Command<E>, pinned: bool, fuel: nat)
    requires "" !in su.states
    ensures RunsWell(su, m, Execute(su, m, c, pinned, fuel), pinned)
    decreases fuel
  {
    match c {
      case Transition(target) =>
        if fuel > 0 {
          TransitionEffect(su, m.(stale := m.stale || pinned), target, fuel - 1);
        }
      case Post(to, message) =>
        FrameworkConcat(m.outbox, [Posted(to, message, false)]);
        FrameworkOne(Posted(to, message, false));
      case PostAt(_, _, _) =>
      case Exit =>
      case Error(_) =>
      case Call(run) =>
        if fuel > 0 {
          var (env, script) := run(m.env);
          RunEffect(su, m.(env := env), script, pinned, fuel - 1);
        }
    }
  }

  /** Exits take no state but the listed ones off, provided their actions make no transition. */
  lemma {:induction false} ExitEffect<E>(su: Setup<E>, m: M<E>, exits: seq<string>, fuel: nat)
    requires "" !in su.states
    ensures var o := ExitAll(su, m, exits, fuel);
            !o.Endless? && (o.Done? ==>
              && Frame(m, o.value)
              && (!o.value.stale ==> o.value.current == m.current && o.value.trace == m.trace + Exits(exits)))
    decreases fuel
  {
    if exits == [] {
      assert m.trace + Exits(exits) == m.trace;
    } else if exits[0] in su.states && fuel > 0 {
      var m0 := Note(m, Exited(exits[0]));
      RunEffect(su, m0, su.states[exits[0]].onExit, true, fuel - 1);
      var o := Run(su, m0, su.states[exits[0]].onExit, true, fuel - 1);
      if o.Done? {
        ExitEffect(su, o.value, exits[1..], fuel - 1);
        assert m.trace + Exits(exits) == m.trace + [Exited(exits[0])] + Exits(exits[1..]);
      }
    }
  }

  /** The stack holds the path to the current state except for `entries`, which are about to be entered. */
  ghost predicate Settling<E>(su: Setup<E>, m: M<E>, entries: seq<string>) {
    && Registered(su, m)
    && var path := RootPath(Parents(su.states), m.current);
    && |entries| <= |path| && path[|path| - |entries|..] == entries
    && Replay(m.trace) == Some(path[..|path| - |entries|])
  }

  lemma SettlingAfterOne<E>(su: Setup<E>, m: M<E>, entries: seq<string>)
    requires Settling(su, m, entries) && entries != []
    ensures Settling(su, Note(m, Entered(entries[0])), entries[1..])
  {
    var path := RootPath(Parents(su.states), m.current);
    var n := |path| - |entries|;
    ReplayEntered(m.trace, path[..n], entries[0]);
    assert path[n..][0] == entries[0];
    assert path[..n] + [entries[0]] == path[..n + 1];
    assert path[n + 1..] == entries[1..];
  }

  /** Only the entry action of the last listed state may make a transition, and then nothing is missing. */
  lemma ScriptKeepsSettling<E>(su: Setup<E>, m: M<E>, m': M<E>, rest: seq<string>)
    requires Effect(su, m, m', rest != []) && !m'.stale && Settling(su, m, rest)
    ensures Settling(su, m', rest)
  {
    if rest == [] {
      SettlingEmpty(su, m);
      SettlingEmpty(su, m');
    }
  }

  ghost predicate EntersWell<E>(su: Setup<E>, m: M<E>, entries: seq<string>, o: Outcome<M<E>>) {
    !o.Endless? && (o.Done? ==>
      && Frame(m, o.value)
      && (Registered(su, m) ==> Registered(su, o.value))
      && (!o.value.stale ==> m.trace + Enters(entries) <= o.value.trace)
      && (!o.value.stale && Settling(su, m, entries) ==> Settled(su, o.value)))
  }

  function Enters(l: seq<string>): seq<Happening> {
    seq(|l|, i requires 0 <= i < |l| => Entered(l[i]))
  }

  lemma EntersOneMore(trace: seq<Happening>, trace1: seq<Happening>, trace2: seq<Happening>, entries: seq<string>)
    requires entries != [] && trace + [Entered(entries[0])] <= trace1
    requires if entries[1..] == [] then trace1 <= trace2
             else trace1 == trace + [Entered(entries[0])] && trace1 + Enters(entries[1..]) <= trace2
    ensures trace + Enters(entries) <= trace2
  {
    assert Enters(entries) == [Entered(entries[0])] + Enters(entries[1..]);
    assert trace + Enters(entries) == trace + [Entered(entries[0])] + Enters(entries[1..]);
  }

  lemma EnterOneMore<E>(su: Setup<E>, m: M<E>, m1: M<E>, entries: seq<string>, o: Outcome<M<E>>)
    requires entries != [] && Effect(su, Note(m, Entered(entries[0])), m1, entries[1..] != [])
    requires EntersWell(su, m1, entries[1..], o)
    ensures EntersWell(su, m, entries, o)
  {
    if o.Done? && !o.value.stale {
      EntersOneMore(m.trace, m1.trace, o.value.trace, entries);
    }
    if o.Done? && Settling(su, m, entries) && !o.value.stale {
      SettlingAfterOne(su, m, entries);
      ScriptKeepsSettling(su, Note(m, Entered(entries[0])), m1, entries[1..]);
    }
  }

  lemma {:induction false} EnterEffect<E>(su: Setup<E>, m: M<E>, entries: seq<string>, fuel: nat)
    requires "" !in su.states
    ensures EntersWell(su, m, entries, EnterAll(su, m, entries, fuel))
    decreases fuel
  {
    if entries == [] {
      SettlingEmpty(su, m);
      assert m.trace + Enters(entries) == m.trace;
    } else if entries[0] in su.states && fuel > 0 {
      var m0 := Note(m, Entered(entries[0]));
      RunEffect(su, m0, su.states[entries[0]].onEnter, |entries| > 1, fuel - 1);
      var o := Run(su, m0, su.states[entries[0]].onEnter, |entries| > 1, fuel - 1);
      if o.Done? {
        EnterEffect(su, o.value, entries[1..], fuel - 1);
        EnterOneMore(su, m, o.value, entries, EnterAll(su, o.value, entries[1..], fuel - 1));
      }
    }
  }

  lemma SettlingEmpty<E>(su: Setup<E>, m: M<E>)
    ensures Settling(su, m, []) <==> Settled(su, m)
  {
    if Registered(su, m) {
      var path := RootPath(Parents(su.states), m.current);
      assert path[..|path| - 0] == path && path[|path| - 0..] == [];
    }
  }

  /** After the exits of a route the stack is the common part, so the entries are what is missing. */
  lemma RouteSettles<E>(su: Setup<E>, m: M<E>, m': M<E>, target: string)
    requires "" !in su.states && Settled(su, m)
    requires Route(Parents(su.states), m.current, target).Some?
    requires m.current == target ==> target in su.states
    requires var (exits, entries) := Route(Parents(su.states), m.current, target).value;
             m'.trace == m.trace + Exits(exits) && m'.current == target
    ensures Settling(su, m', Route(Parents(su.states), m.current, target).value.1)
  {
    var f := Parents(su.states);
    var (exits, entries) := Route(f, m.current, target).value;
    var path := RootPath(f, m.current);
    if m.current == target {
      assert path[|path| - 1] == target;
      assert path == path[..|path| - 1] + Reverse([target]);
      ReplayExits(m.trace, path[..|path| - 1], [target]);
    } else {
      var k := Shared(f, m.current, target);
      ReverseTwice(path[k..]);
      assert path == path[..k] + Reverse(exits);
      ReplayExits(m.trace, path[..k], exits);
      assert |RootPath(f, target)| - |entries| == k;
    }
  }

  lemma TransitionSettles<E>(su: Setup<E>, m: M<E>, m1: M<E>, target: string, o: Outcome<M<E>>)
    requires "" !in su.states && Route(Parents(su.states), m.current, target).Some?
    requires m.current == target ==> target in su.states
    requires var (exits, entries) := Route(Parents(su.states), m.current, target).value;
             && Frame(m, m1) && (!m1.stale ==> m1.trace == m.trace + Exits(exits))
             && EntersWell(su, m1.(current := target), entries, o)
    ensures RunsWell(su, m, o, false)
  {
    if o.Done? && Settled(su, m) && !o.value.stale {
      RouteSettles(su, m, m1.(current := target), target);
    }
  }

  /** So does every transition. */
  lemma {:induction false} TransitionEffect<E>(su: Setup<E>, m: M<E>, target: string, fuel: nat)
    requires "" !in su.states
    ensures RunsWell(su, m, MakeTransition(su, m, target, fuel), false)
    decreases fuel
  {
    var route := Route(Parents(su.states), m.current, target);
    if route.Some? && fuel > 0 {
      var (exits, entries) := route.value;
      ExitEffect(su, m, exits, fuel - 1);
      var o := ExitAll(su, m, exits, fuel - 1);
      if o.Done? {
        var m1 := o.value.(current := target);
        EnterEffect(su, m1, entries, fuel - 1);
        TransitionSettles(su, m, o.value, target, EnterAll(su, m1, entries, fuel - 1));
      }
    }
  }

  /** Entering a list is entering all but the last, and then running the last one's entry action, at m1. */
  lemma {:induction false} LastEntry<E>(su: Setup<E>, m: M<E>, entries: seq<string>, fuel: nat)
    returns (m1: M<E>, left: nat)
    requires "" !in su.states && entries != []
    requires var o := EnterAll(su, m, entries, fuel); o.Done? && !o.value.stale
    ensures var last := entries[|entries| - 1];
            && last in su.states && m1.trace == m.trace + Enters(entries) && m1.current == m.current
            && EnterAll(su, m, entries, fuel) == Run(su, m1, su.states[last].onEnter, false, left)
    decreases fuel
  {
    var m0 := Note(m, Entered(entries[0]));
    assert Enters(entries) == [Entered(entries[0])] + Enters(entries[1..]);
    if |entries| == 1 {
      m1, left := m0, fuel - 1;
      assert entries[1..] == [] && m.trace + Enters(entries) == m0.trace;
    } else {
      RunEffect(su, m0, su.states[entries[0]].onEnter, true, fuel - 1);
      var o := Run(su, m0, su.states[entries[0]].onEnter, true, fuel - 1);
      EnterEffect(su, o.value, entries[1..], fuel - 1);
      m1, left := LastEntry(su, o.value, entries[1..], fuel - 1);
      assert m.trace + Enters(entries) == m0.trace + Enters(entries[1..]);
    }
  }

  lemma LastEntryIsTarget(f: Forest, s: string, t: string)
    requires "" !in f && Route(f, s, t).Some? && Route(f, s, t).value.1 != []
    ensures var entries := Route(f, s, t).value.1; entries[|entries| - 1] == t
  {
    if s != t {
      var l := Lineage(f, t).value;
      assert l[0] == t && RootPath(f, t)[|l| - 1] == l[0];
    }
  }

  /** The actions of a transition: what it exits, leaf first, then what it enters, root first; and all that
      follows is what the entry action of the target does, if the target is entered, starting as the target's
      from a machine m1 that has done just that. */
  lemma TransitionActions<E>(su: Setup<E>, m: M<E>, target: string, fuel: nat) returns (m1: M<E>, left: nat)
    requires "" !in su.states
    requires var o := MakeTransition(su, m, target, fuel); o.Done? && !o.value.stale
    ensures var route := Route(Parents(su.states), m.current, target);
            && route.Some?
            && m1.trace == m.trace + Exits(route.value.0) + Enters(route.value.1) && m1.current == target
            && MakeTransition(su, m, target, fuel) ==
               if route.value.1 == [] then Done(m1)
               else if target in su.states then Run(su, m1, su.states[target].onEnter, false, left)
               else Thrown
  {
    var m0 := TransitionIs(su, m, target, fuel);
    var entries := Route(Parents(su.states), m.current, target).value.1;
    EnterEffect(su, m0, entries, fuel - 1);
    if entries != [] {
      LastEntryIsTarget(Parents(su.states), m.current, target);
    }
    m1, left := EntryActions(su, m0, entries, target, fuel - 1);
  }

  /** A transition is its entries, from a machine that has made its exits. */
  lemma TransitionIs<E>(su: Setup<E>, m: M<E>, target: string, fuel: nat) returns (m0: M<E>)
    requires "" !in su.states && MakeTransition(su, m, target, fuel).Done?
    ensures fuel > 0 && Route(Parents(su.states), m.current, target).Some? && m0.current == target
    ensures var (exits, entries) := Route(Parents(su.states), m.current, target).value;
            && MakeTransition(su, m, target, fuel) == EnterAll(su, m0, entries, fuel - 1)
            && (!m0.stale ==> m0.trace == m.trace + Exits(exits))
  {
    var exits := Route(Parents(su.states), m.current, target).value.0;
    ExitEffect(su, m, exits, fuel - 1);
    m0 := ExitAll(su, m, exits, fuel - 1).value.(current := target);
  }

  lemma EntryActions<E>(su: Setup<E>, m: M<E>, entries: seq<string>, target: string, fuel: nat)
    returns (m1: M<E>, left: nat)
    requires "" !in su.states && (entries != [] ==> entries[|entries| - 1] == target)
    requires var o := EnterAll(su, m, entries, fuel); o.Done? && !o.value.stale
    ensures m1.trace == m.trace + Enters(entries) && m1.current == m.current
    ensures EnterAll(su, m, entries, fuel) ==
            if entries == [] then Done(m1)
            else if target in su.states then Run(su, m1, su.states[target].onEnter, false, left)
            else Thrown
  {
    if entries == [] {
      m1, left := m, 0;
      assert m1.trace + Enters(entries) == m1.trace;
    } else {
      m1, left := LastEntry(su, m, entries, fuel);
    }
  }

  /** The search for a receiver ends once the current lineage is registered, and the receiver keeps what every
      script keeps. */
  lemma DispatchEffect<E>(su: Setup<E>, m: M<E>, from: Address, to: Address, message: string, fuel: nat)
    requires "" !in su.states && Registered(su, m)
    ensures RunsWell(su, m, Dispatch(su, m, from, to, message, fuel), false)
  {
    var l := Lineage(Parents(su.states), m.current).value;
    var x := Nearest(su.states, l, Word(message));
    if x.Some? {
      RunEffect(su, m, ReceiverScript(su, x.value, from, to, message), false, fuel);
    } else {
      FailEffect(su, m, "Unhandled message: " + Word(message));
    }
  }

  lemma FailEffect<E>(su: Setup<E>, m: M<E>, text: string)
    ensures Effect(su, m, m, false) && Effect(su, m, Fail(m, text), false)
  {
  }
}
