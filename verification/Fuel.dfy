/** The bound on recursion does not matter: an outcome that was reached is reached with any larger bound. */
module Fuel {
  import opened Text
  import opened Addresses
  import opened Lineages
  import opened Machines

  lemma {:induction false} RunMore<E>(su: Setup<E>, m: M<E>, script: Script<E>, pinned: bool, fuel: nat, more: nat)
    requires !Run(su, m, script, pinned, fuel).Spent? && fuel <= more
    ensures Run(su, m, script, pinned, more) == Run(su, m, script, pinned, fuel)
    decreases fuel
  {
    if script != [] {
      var o := Execute(su, m, script[0], pinned, fuel - 1);
      ExecuteMore(su, m, script[0], pinned, fuel - 1, more - 1);
      if o.Done? {
        RunMore(su, o.value, script[1..], pinned, fuel - 1, more - 1);
      }
    }
  }

  lemma {:induction false} ExecuteMore<E>(su: Setup<E>, m: M<E>, c: Command<E>, pinned: bool, fuel: nat, more: nat)
    requires !Execute(su, m, c, pinned, fuel).Spent? && fuel <= more
    ensures Execute(su, m, c, pinned, more) == Execute(su, m, c, pinned, fuel)
    decreases fuel, 1
  {
    match c {
      case Transition(target) => MoveMore(su, m, target, pinned, fuel, more);
      case Call(run) => CallMore(su, m, run, pinned, fuel, more);
      case Post(_, _) =>
      case PostAt(_, _, _) =>
      case Exit =>
      case Error(_) =>
    }
  }

  lemma {:induction false} MoveMore<E>(su: Setup<E>, m: M<E>, target: string, pinned: bool, fuel: nat, more: nat)
    requires !Execute(su, m, Transition(target), pinned, fuel).Spent? && fuel <= more
    ensures Execute(su, m, Transition(target), pinned, more) == Execute(su, m, Transition(target), pinned, fuel)
    decreases fuel, 0
  {
    var m1 := m.(stale := m.stale || pinned);
    MoveIs(su, m, target, pinned, fuel, m1);
    MoveIs(su, m, target, pinned, more, m1);
    TransitionMore(su, m1, target, fuel - 1, more - 1);
  }

  lemma MoveIs<E>(su: Setup<E>, m: M<E>, target: string, pinned: bool, fuel: nat, m1: M<E>)
    requires fuel > 0 && m1 == m.(stale := m.stale || pinned)
    ensures Execute(su, m, Transition(target), pinned, fuel) == MakeTransition(su, m1, target, fuel - 1)
  {
  }

  lemma {:induction false} CallMore<E>(su: Setup<E>, m: M<E>, run: E -> (E, seq<Command<E>>), pinned: bool,
                                       fuel: nat, more: nat)
    requires !Execute(su, m, Call(run), pinned, fuel).Spent? && fuel <= more
    ensures Execute(su, m, Call(run), pinned, more) == Execute(su, m, Call(run), pinned, fuel)
    decreases fuel, 0
  {
    RunMore(su, m.(env := run(m.env).0), run(m.env).1, pinned, fuel - 1, more - 1);
  }

  lemma {:induction false} TransitionMore<E>(su: Setup<E>, m: M<E>, target: string, fuel: nat, more: nat)
    requires !MakeTransition(su, m, target, fuel).Spent? && fuel <= more
    ensures MakeTransition(su, m, target, more) == MakeTransition(su, m, target, fuel)
    decreases fuel
  {
    var route := Route(Parents(su.states), m.current, target);
    if route.Some? {
      var o := ExitAll(su, m, route.value.0, fuel - 1);
      ExitMore(su, m, route.value.0, fuel - 1, more - 1);
      if o.Done? {
        EnterMore(su, o.value.(current := target), route.value.1, fuel - 1, more - 1);
      }
    }
  }

  lemma {:induction false} ExitMore<E>(su: Setup<E>, m: M<E>, exits: seq<string>, fuel: nat, more: nat)
    requires !ExitAll(su, m, exits, fuel).Spent? && fuel <= more
    ensures ExitAll(su, m, exits, more) == ExitAll(su, m, exits, fuel)
    decreases fuel
  {
    if exits != [] && exits[0] in su.states {
      var m0, script := Note(m, Exited(exits[0])), su.states[exits[0]].onExit;
      var o := Run(su, m0, script, true, fuel - 1);
      RunMore(su, m0, script, true, fuel - 1, more - 1);
      if o.Done? {
        ExitMore(su, o.value, exits[1..], fuel - 1, more - 1);
      }
    }
  }

  lemma {:induction false} EnterMore<E>(su: Setup<E>, m: M<E>, entries: seq<string>, fuel: nat, more: nat)
    requires !EnterAll(su, m, entries, fuel).Spent? && fuel <= more
    ensures EnterAll(su, m, entries, more) == EnterAll(su, m, entries, fuel)
    decreases fuel
  {
    if entries != [] && entries[0] in su.states {
      var m0, script := Note(m, Entered(entries[0])), su.states[entries[0]].onEnter;
      var o := Run(su, m0, script, |entries| > 1, fuel - 1);
      RunMore(su, m0, script, |entries| > 1, fuel - 1, more - 1);
      if o.Done? {
        EnterMore(su, o.value, entries[1..], fuel - 1, more - 1);
      }
    }
  }

  // ---------- messages and turns ----------

  lemma DispatchMore<E>(su: Setup<E>, m: M<E>, from: Address, to: Address, message: string, fuel: nat, more: nat)
    requires !Dispatch(su, m, from, to, message, fuel).Spent? && fuel <= more
    ensures Dispatch(su, m, from, to, message, more) == Dispatch(su, m, from, to, message, fuel)
  {
    var l := Lineage(Parents(su.states), m.current);
    if l.Some? {
      var x := Nearest(su.states, l.value, Word(message));
      if x.Some? {
        RunMore(su, m, ReceiverScript(su, x.value, from, to, message), false, fuel, more);
      }
    }
  }

  lemma HandleMore<E>(su: Setup<E>, m: M<E>, now: int, from: Address, to: Address, message: string, fuel: nat,
                      more: nat)
    requires !HandleMessage(su, m, now, from, to, message, fuel).Spent? && fuel <= more
    ensures HandleMessage(su, m, now, from, to, message, more) == HandleMessage(su, m, now, from, to, message, fuel)
  {
    DispatchMore(su, Supervise(m, Hear(Print(from.ip, from.port), message, now)), from, to, message, fuel, more);
  }

  lemma BothMore<E>(su: Setup<E>, m: M<E>, now: int, child: Address, first: string, second: string, fuel: nat,
                    more: nat)
    requires !HandleBoth(su, m, now, child, first, second, fuel).Spent? && fuel <= more
    ensures HandleBoth(su, m, now, child, first, second, more) == HandleBoth(su, m, now, child, first, second, fuel)
  {
    var o := HandleMessage(su, m, now, child, su.address, first, fuel);
    HandleMore(su, m, now, child, su.address, first, fuel, more);
    if o.Done? {
      HandleMore(su, o.value, now, child, su.address, second, fuel, more);
    }
  }

  lemma BuryMore<E>(su: Setup<E>, m: M<E>, now: int, key: string, fuel: nat, more: nat)
    requires !Bury(su, m, now, key, fuel).Spent? && fuel <= more
    ensures Bury(su, m, now, key, more) == Bury(su, m, now, key, fuel)
  {
    if key in m.spawned {
      var child, name := Extract(su.dns, key), m.spawned[key].name;
      if child.Ok? {
        BothMore(su, m, now, child.value, ErroredText(name), ExitedText(name), fuel, more);
      }
    }
  }

  lemma {:induction false} BuryAllMore<E>(su: Setup<E>, m: M<E>, now: int, dead: seq<string>, fuel: nat, more: nat)
    requires !BuryAll(su, m, now, dead, fuel).Spent? && fuel <= more
    ensures BuryAll(su, m, now, dead, more) == BuryAll(su, m, now, dead, fuel)
    decreases |dead|
  {
    if dead != [] {
      var o := Bury(su, m, now, dead[0], fuel);
      BuryMore(su, m, now, dead[0], fuel, more);
      if o.Done? {
        BuryAllMore(su, o.value, now, dead[1..], fuel, more);
      }
    }
  }

  lemma ReceiveMore<E>(su: Setup<E>, m: M<E>, tick: Tick, fuel: nat, more: nat)
    requires !ReceiveMessage(su, m, tick, fuel).Spent? && fuel <= more
    ensures ReceiveMessage(su, m, tick, more) == ReceiveMessage(su, m, tick, fuel)
  {
    if tick.incoming.Some? {
      var i := tick.incoming.value;
      HandleMore(su, m, tick.now, i.from, i.to, i.message, fuel, more);
    }
  }

  lemma IterateMore<E>(su: Setup<E>, m: M<E>, tick: Tick, fuel: nat, more: nat)
    requires !Iterate(su, m, tick, fuel).Spent? && fuel <= more
    ensures Iterate(su, m, tick, more) == Iterate(su, m, tick, fuel)
  {
    var o := CheckChildren(su, m, tick.now, fuel);
    BuryAllMore(su, m, tick.now, InOrder(Overdue(m.spawned, tick.now)), fuel, more);
    if o.Done? {
      ReceiveMore(su, SendScheduled(Pulse(su, o.value, tick.now), tick.now), tick, fuel, more);
    }
  }

  lemma {:induction false} LoopMore<E>(su: Setup<E>, m: M<E>, ticks: seq<Tick>, fuel: nat, more: nat)
    requires !Loop(su, m, ticks, fuel).Spent? && fuel <= more
    ensures Loop(su, m, ticks, more) == Loop(su, m, ticks, fuel)
    decreases |ticks|
  {
    if m.running && ticks != [] {
      var o := Iterate(su, m, ticks[0], fuel);
      IterateMore(su, m, ticks[0], fuel, more);
      if o.Done? {
        LoopMore(su, o.value, ticks[1..], fuel, more);
      }
    }
  }

  lemma StayMore<E>(su: Setup<E>, m: M<E>, ticks: seq<Tick>, fuel: nat, more: nat)
    requires !Stay(su, m, ticks, fuel).Spent? && fuel <= more
    ensures Stay(su, m, ticks, more) == Stay(su, m, ticks, fuel)
  {
    var o := Loop(su, m, ticks, fuel);
    LoopMore(su, m, ticks, fuel, more);
    if o.Done? {
      var l := Lineage(Parents(su.states), o.value.current);
      if l.Some? {
        ExitMore(su, o.value, l.value, fuel, more);
      }
    }
  }

  lemma LiveMore<E>(su: Setup<E>, m: M<E>, initial: string, begin: int, ticks: seq<Tick>, fuel: nat, more: nat)
    requires !Live(su, m, initial, begin, ticks, fuel).Spent? && fuel <= more
    ensures Live(su, m, initial, begin, ticks, more) == Live(su, m, initial, begin, ticks, fuel)
  {
    if su.states != map[] {
      var first := if initial != "" then initial else m.current;
      var o := MakeTransition(su, m.(current := ""), first, fuel);
      TransitionMore(su, m.(current := ""), first, fuel, more);
      if o.Done? {
        StayMore(su, o.value.(last := begin), ticks, fuel, more);
      }
    }
  }

  /** A run of `Start` that ends for any reason but the bound ends the same way under every larger bound. */
  lemma StartMore<E>(su: Setup<E>, m: M<E>, initial: string, begin: int, ticks: seq<Tick>, fuel: nat, more: nat)
    requires !Start(su, m, initial, begin, ticks, fuel).Spent? && fuel <= more
    ensures Start(su, m, initial, begin, ticks, more) == Start(su, m, initial, begin, ticks, fuel)
  {
    LiveMore(su, Announce(su, m), initial, begin, ticks, fuel, more);
  }
}
