/** The `Machine` class: the operations of module Machines done in place. */
module MachineObjects {
  import opened Text
  import opened Addresses
  import opened Lineages
  import opened Machines
  import opened MachineRuns

  /** How a call ended: normally, by an exception, in a loop that does not advance, or for want of fuel. */
  datatype Status = Finished | Threw | Looping | OutOfFuel

  ghost predicate Matches<E>(status: Status, m: M<E>, o: Outcome<M<E>>) {
    match o
    case Done(v) => status.Finished? && m == v
    case Thrown => status.Threw?
    case Endless => status.Looping?
    case Spent => status.OutOfFuel?
  }

  class Machine<E> {
    const name: string
    const pid: string
    const address: Address
    const parent: Address
    const dns: string -> string
    var states: map<string, State<E>>
    var current: string
    var running: bool
    var error: string
    var queue: seq<Scheduled>
    var spawned: map<string, Child>
    /** The application's own data, and what the mailbox was given. */
    var env: E
    var outbox: seq<Posted>
    var last: int
    ghost var planned: seq<Scheduled>
    ghost var trace: seq<Happening>
    ghost var heard: seq<Heard>
    ghost var pulses: seq<int>
    ghost var stale: bool

    function Config(): Setup<E>
      reads this`states
    {
      Setup(name, pid, address, parent, dns, states)
    }

    ghost function View(): M<E>
      reads this
    {
      M(current, running, error, queue, spawned, env, outbox, last, planned, trace, heard, pulses, stale)
    }

    /** No state is named "", which stands above the roots, and parents form no cycle. */
    ghost predicate Valid()
      reads this`states
    {
      "" !in states && Acyclic(Parents(states))
    }

    constructor (name: string, pid: string, address: Address, parent: Address, dns: string -> string, env: E)
      ensures states == map[] && Valid()
      ensures View() == M("", true, "", [], map[], env, [], 0, [], [], [], [], false)
      ensures Config() == Setup(name, pid, address, parent, dns, map[])
    {
      this.name, this.pid, this.address, this.parent, this.dns := name, pid, address, parent, dns;
      states, current, running, error, queue, spawned, this.env := map[], "", true, "", [], map[], env;
      outbox, last, planned, trace, heard, pulses, stale := [], 0, [], [], [], [], false;
      new;
      assert Ranked(Parents(states), map[]);
    }

    /** The first state added becomes the one to start in; a name that is taken keeps its first state. */
    method AddState(s: State<E>)
      modifies this`states, this`current
      ensures states == if s.name in old(states) then old(states) else old(states)[s.name := s]
      ensures current == if old(current) == "" then s.name else old(current)
    {
      if current == "" {
        current := s.name;
      }
      if s.name !in states {
        states := states[s.name := s];
      }
    }

    // ---------- commands and transitions ----------

    method RunScript(script: Script<E>, ghost pinned: bool, fuel: nat) returns (status: Status)
      requires Valid()
      modifies this
      ensures states == old(states)
      ensures Matches(status, View(), Run(Config(), old(View()), script, pinned, fuel))
      decreases fuel
    {
      if script == [] {
        return Finished;
      }
      if fuel == 0 {
        return OutOfFuel;
      }
      status := Execute(script[0], pinned, fuel - 1);
      if status.Finished? {
        status := RunScript(script[1..], pinned, fuel - 1);
      }
    }

    method Execute(c: Command<E>, ghost pinned: bool, fuel: nat) returns (status: Status)
      requires Valid()
      modifies this
      ensures states == old(states)
      ensures Matches(status, View(), Machines.Execute(Config(), old(View()), c, pinned, fuel))
      decreases fuel
    {
      status := Finished;
      match c {
        case Transition(target) =>
          if fuel == 0 {
            return OutOfFuel;
          }
          stale := stale || pinned;
          status := MakeTransition(target, fuel - 1);
        case Post(to, message) => outbox := outbox + [Posted(to, message, false)];
        case PostAt(to, message, time) =>
          queue := queue + [Scheduled(to, message, time)];
          planned := planned + [Scheduled(to, message, time)];
        case Exit => running := false;
        case Error(text) => error, running := text, false;
        case Call(run) =>
          if fuel == 0 {
            return OutOfFuel;
          }
          var (e, script) := run(env);
          env := e;
          status := RunScript(script, pinned, fuel - 1);
      }
    }

    /** `Transition` up to its loops: the two lineages, pruned. */
    method PlanTransition(target: string) returns (route: Option<(seq<string>, seq<string>)>)
      requires Valid()
      ensures route == Route(Parents(states), current, target)
    {
      if current == target {
        return Some(([current], [current]));
      }
      var a := StateLineage(Parents(states), current);
      var b := StateLineage(Parents(states), target);
      if a.None? || b.None? {
        return None;
      }
      var exits, entries := PruneLineage(Reverse(a.value), Reverse(b.value));
      route := Some((Reverse(exits), entries));
    }

    method MakeTransition(target: string, fuel: nat) returns (status: Status)
      requires Valid()
      modifies this
      ensures states == old(states)
      ensures Matches(status, View(), Machines.MakeTransition(Config(), old(View()), target, fuel))
      decreases fuel
    {
      var route := PlanTransition(target);
      if route.None? {
        return Threw;
      }
      if fuel == 0 {
        return OutOfFuel;
      }
      status := ExitAll(route.value.0, fuel - 1);
      if status.Finished? {
        current := target;
        status := EnterAll(route.value.1, fuel - 1);
      }
    }

    /** The loop over the exit actions. */
    method ExitAll(exits: seq<string>, fuel: nat) returns (status: Status)
      requires Valid()
      modifies this
      ensures states == old(states)
      ensures Matches(status, View(), Machines.ExitAll(Config(), old(View()), exits, fuel))
      decreases fuel
    {
      ghost var o := Machines.ExitAll(Config(), View(), exits, fuel);
      var i := 0;
      var left: nat := fuel;
      while i < |exits|
        invariant 0 <= i <= |exits| && left <= fuel && states == old(states)
        invariant o == Machines.ExitAll(Config(), View(), exits[i..], left)
        decreases left, |exits| - i
      {
        if exits[i] !in states {
          return Threw;
        }
        if left == 0 {
          return OutOfFuel;
        }
        trace := trace + [Exited(exits[i])];
        status := RunScript(states[exits[i]].onExit, true, left - 1);
        if !status.Finished? {
          return;
        }
        assert exits[i..][1..] == exits[i + 1..];
        i, left := i + 1, left - 1;
      }
      status := Finished;
    }

    /** The loop over the entry actions. */
    method EnterAll(entries: seq<string>, fuel: nat) returns (status: Status)
      requires Valid()
      modifies this
      ensures states == old(states)
      ensures Matches(status, View(), Machines.EnterAll(Config(), old(View()), entries, fuel))
      decreases fuel
    {
      ghost var o := Machines.EnterAll(Config(), View(), entries, fuel);
      var i := 0;
      var left: nat := fuel;
      while i < |entries|
        invariant 0 <= i <= |entries| && left <= fuel && states == old(states)
        invariant o == Machines.EnterAll(Config(), View(), entries[i..], left)
        decreases left, |entries| - i
      {
        if entries[i] !in states {
          return Threw;
        }
        if left == 0 {
          return OutOfFuel;
        }
        trace := trace + [Entered(entries[i])];
        status := RunScript(states[entries[i]].onEnter, i + 1 < |entries|, left - 1);
        if !status.Finished? {
          return;
        }
        assert entries[i..][1..] == entries[i + 1..];
        i, left := i + 1, left - 1;
      }
      status := Finished;
    }

    // ---------- messages ----------

    /** The part of `HandleMessage` that looks after children. */
    method Supervise(h: Heard)
      modifies this`running, this`spawned, this`heard
      ensures View() == Machines.Supervise(old(View()), h)
    {
      match h.kind {
        case ExitRequest => running := false;
        case ChildStarted =>
          if h.key !in spawned {
            spawned := spawned[h.key := Child(h.name, h.now)];
          }
        case ChildExited => spawned := spawned - {h.key};
        case ChildPulsed =>
          if h.key in spawned {
            spawned := spawned[h.key := Child(spawned[h.key].name, h.now)];
          }
        case Other =>
      }
      heard := heard + [h];
    }

    /** The loop up the hierarchy. */
    method FindReceiver(t: string) returns (x: Option<Match>)
      requires Valid() && Registered(Config(), View())
      ensures x == Nearest(states, Lineage(Parents(states), current).value, t)
    {
      ghost var l := Lineage(Parents(states), current).value;
      ghost var n := 0;
      var s := current;
      while s != ""
        invariant n <= |l| && IsLineage(Parents(states), s, l[n..])
        invariant Nearest(states, l, t) == Nearest(states, l[n..], t)
        decreases |l| - n
      {
        assert s in states && l[n..][0] == s && l[n..][1..] == l[n + 1..];
        if t in states[s].receivers {
          return Some(Match(s, true));
        } else if "" in states[s].receivers {
          return Some(Match(s, false));
        }
        s := states[s].parent;
        n := n + 1;
      }
      x := None;
    }

    method HandleMessage(now: int, from: Address, to: Address, message: string, fuel: nat) returns (status: Status)
      requires Valid() && Registered(Config(), View())
      modifies this
      ensures states == old(states)
      ensures Matches(status, View(), Machines.HandleMessage(Config(), old(View()), now, from, to, message, fuel))
      ensures status.Finished? ==> Registered(Config(), View())
    {
      Supervise(Hear(Print(from.ip, from.port), message, now));
      ghost var su, m := Config(), View();
      DispatchEffect(su, m, from, to, message, fuel);
      var x := FindReceiver(Word(message));
      if x.Some? {
        status := RunScript(ReceiverScript(Config(), x.value, from, to, message), false, fuel);
      } else {
        if KindOf(message) != ExitRequest {
          error, running := "Unhandled message: " + Word(message), false;
        }
        status := Finished;
      }
    }

    // ---------- the loop of Start ----------

    /** The iteration over the table that collects the children whose heartbeat stopped. */
    method FindOverdue(now: int) returns (dead: seq<string>)
      ensures dead == InOrder(Overdue(spawned, now))
    {
      dead := [];
      var rest := spawned.Keys;
      ghost var todo, all := Overdue(spawned, now), InOrder(Overdue(spawned, now));
      while rest != {}
        invariant rest <= spawned.Keys
        invariant forall k :: k in todo <==> k in rest && IsOverdue(spawned[k], now)
        invariant dead + InOrder(todo) == all
        decreases |rest|
      {
        var k := LeastKey(rest, todo);
        if IsOverdue(spawned[k], now) {
          ConcatOne(dead, k, InOrder(todo - {k}));
          dead := dead + [k];
        }
        todo, rest := todo - {k}, rest - {k};
      }
    }

    /** `CheckChildren`. */
    method CheckChildren(now: int, fuel: nat) returns (status: Status)
      requires Valid() && Registered(Config(), View())
      modifies this
      ensures states == old(states)
      ensures Matches(status, View(), Machines.CheckChildren(Config(), old(View()), now, fuel))
      ensures status.Finished? ==> Registered(Config(), View())
    {
      var dead := FindOverdue(now);
      ghost var o := BuryAll(Config(), View(), now, dead, fuel);
      var i := 0;
      while i < |dead|
        invariant 0 <= i <= |dead| && states == old(states) && Registered(Config(), View())
        invariant o == BuryAll(Config(), View(), now, dead[i..], fuel)
      {
        status := Bury(now, dead[i], fuel);
        if !status.Finished? {
          return;
        }
        assert dead[i..][1..] == dead[i + 1..];
        i := i + 1;
      }
      status := Finished;
    }

    /** The body of its second loop. */
    method Bury(now: int, key: string, fuel: nat) returns (status: Status)
      requires Valid() && Registered(Config(), View())
      modifies this
      ensures states == old(states)
      ensures Matches(status, View(), Machines.Bury(Config(), old(View()), now, key, fuel))
      ensures status.Finished? ==> Registered(Config(), View())
    {
      if key !in spawned {
        return Finished;
      }
      var name := spawned[key].name;
      var child := Extract(dns, key);
      if !child.Ok? {
        return Threw;
      }
      status := HandleMessage(now, child.value, address, ErroredText(name), fuel);
      if status.Finished? {
        status := HandleMessage(now, child.value, address, ExitedText(name), fuel);
      }
    }

    method SendPulse(now: int)
      modifies this`outbox, this`last, this`pulses
      ensures View() == Pulse(Config(), old(View()), now)
    {
      if now - last > PULSE_INTERVAL {
        outbox := outbox + [Posted(parent, "pulsed " + name, true)];
        last, pulses := now, pulses + [now];
      }
    }

    /** The queue is swapped out; what is not due is put back. */
    method SendScheduled(now: int)
      modifies this`queue, this`outbox
      ensures View() == Machines.SendScheduled(old(View()), now)
    {
      var q := queue;
      queue := [];
      ghost var outbox0 := outbox;
      var i := 0;
      while i < |q|
        invariant 0 <= i <= |q|
        invariant outbox + DueNow(q[i..], now) == outbox0 + DueNow(q, now)
        invariant queue + NotYet(q[i..], now) == NotYet(q, now)
      {
        assert q[i..][0] == q[i] && q[i..][1..] == q[i + 1..];
        if q[i].time < now {
          outbox := outbox + [Posted(q[i].to, q[i].message, false, Some(q[i].time))];
        } else {
          queue := queue + [q[i]];
        }
        i := i + 1;
      }
    }

    method Iterate(tick: Tick, fuel: nat) returns (status: Status)
      requires Valid() && Registered(Config(), View())
      modifies this
      ensures states == old(states)
      ensures Matches(status, View(), Machines.Iterate(Config(), old(View()), tick, fuel))
      ensures status.Finished? ==> Registered(Config(), View())
    {
      status := CheckChildren(tick.now, fuel);
      if !status.Finished? {
        return;
      }
      SendPulse(tick.now);
      SendScheduled(tick.now);
      status := ReceiveMessage(tick, fuel);
    }

    method ReceiveMessage(tick: Tick, fuel: nat) returns (status: Status)
      requires Valid() && Registered(Config(), View())
      modifies this
      ensures states == old(states)
      ensures Matches(status, View(), Machines.ReceiveMessage(Config(), old(View()), tick, fuel))
      ensures status.Finished? ==> Registered(Config(), View())
    {
      if tick.incoming.None? {
        return Finished;
      }
      var i := tick.incoming.value;
      status := HandleMessage(tick.now, i.from, i.to, i.message, fuel);
    }

    /** The loop itself. */
    method Loop(ticks: seq<Tick>, fuel: nat) returns (status: Status)
      requires Valid() && Registered(Config(), View())
      modifies this
      ensures states == old(states)
      ensures Matches(status, View(), Machines.Loop(Config(), old(View()), ticks, fuel))
      ensures status.Finished? ==> Registered(Config(), View())
    {
      ghost var o := Machines.Loop(Config(), View(), ticks, fuel);
      var i := 0;
      while running && i < |ticks|
        invariant 0 <= i <= |ticks| && states == old(states) && Registered(Config(), View())
        invariant o == Machines.Loop(Config(), View(), ticks[i..], fuel)
      {
        assert ticks[i..][0] == ticks[i] && ticks[i..][1..] == ticks[i + 1..];
        status := Iterate(ticks[i], fuel);
        if !status.Finished? {
          return;
        }
        i := i + 1;
      }
      status := Finished;
    }

    /** The loop, and the exit actions of what is left. */
    method Stay(ticks: seq<Tick>, fuel: nat) returns (status: Status)
      requires Valid() && Registered(Config(), View())
      modifies this
      ensures states == old(states)
      ensures Matches(status, View(), Machines.Stay(Config(), old(View()), ticks, fuel))
    {
      status := Loop(ticks, fuel);
      if !status.Finished? {
        return;
      }
      var l := StateLineage(Parents(states), current);
      status := ExitAll(l.value, fuel);
    }

    /** From the first transition to the last exit action. */
    method Live(initial: string, begin: int, ticks: seq<Tick>, fuel: nat) returns (status: Status)
      requires Valid()
      modifies this
      ensures states == old(states)
      ensures Matches(status, View(), Machines.Live(Config(), old(View()), initial, begin, ticks, fuel))
    {
      if states == map[] {
        return Finished;
      }
      var first := if initial != "" then initial else current;
      current := "";
      ghost var su, m := Config(), View();
      LineageIs(Parents(states), "", []);
      TransitionEffect(su, m, first, fuel);
      status := MakeTransition(first, fuel);
      if status.Finished? {
        last := begin;
        status := Stay(ticks, fuel);
      }
    }

    /** `Start`. */
    method Start(initial: string, begin: int, ticks: seq<Tick>, fuel: nat) returns (status: Status)
      requires Valid()
      modifies this
      ensures states == old(states)
      ensures Matches(status, View(), Machines.Start(Config(), old(View()), initial, begin, ticks, fuel))
    {
      Announce();
      status := Live(initial, begin, ticks, fuel);
      if status.Finished? {
        Farewell();
        status := StopChildren();
      }
    }

    method Announce()
      modifies this`outbox
      ensures View() == Machines.Announce(Config(), old(View()))
    {
      outbox := outbox + [Posted(parent, "started " + name, true)];
      outbox := outbox + [Posted(Server(Config()), "register " + name + " " + pid, true)];
    }

    method Farewell()
      modifies this`outbox
      ensures View() == Machines.Farewell(Config(), old(View()))
    {
      if error != "" {
        outbox := outbox + [Posted(parent, "errored " + name + " " + error, true)];
      }
      outbox := outbox + [Posted(parent, "exited " + name, true)];
      outbox := outbox + [Posted(Server(Config()), "unregister", true)];
    }

    /** The iteration over the children still tracked. */
    method StopChildren() returns (status: Status)
      modifies this`outbox
      ensures Matches(status, View(), StopAll(Config(), old(View()), InOrder(spawned.Keys)))
    {
      var rest := spawned.Keys;
      ghost var o := StopAll(Config(), View(), InOrder(rest));
      while rest != {}
        invariant o == StopAll(Config(), View(), InOrder(rest))
        decreases |rest|
      {
        var k := LeastKey(rest, rest);
        var stop := StopMessage(Config(), k);
        if !stop.Done? {
          return Threw;
        }
        outbox := outbox + [stop.value];
        rest := rest - {k};
      }
      status := Finished;
    }
  }

  lemma ConcatOne(l: seq<string>, k: string, rest: seq<string>)
    ensures l + [k] + rest == l + ([k] + rest)
  {
  }

  /** The next key of an iteration over a map: the least of the keys not yet visited. */
  method LeastKey(rest: set<string>, ghost some: set<string>) returns (k: string)
    requires rest != {} && some <= rest
    ensures k in rest
    ensures InOrder(some) == if k in some then [k] + InOrder(some - {k}) else InOrder(some)
    ensures k !in some ==> some - {k} == some
  {
    LeastExists(rest);
    k :| k in rest && forall o :: o in rest && o != k ==> Less(k, o);
    OrderStep(some, k);
  }

  /** Taking the least key off a set takes the head off its order; taking another key off changes nothing. */
  lemma OrderStep(keys: set<string>, k: string)
    requires forall o :: o in keys && o != k ==> Less(k, o)
    ensures InOrder(keys) == if k in keys then [k] + InOrder(keys - {k}) else InOrder(keys)
    ensures k !in keys ==> keys - {k} == keys
  {
    if k in keys {
      var h := InOrder(keys)[0];
      if h != k {
        assert h in keys;
        assert Less(k, h) && Less(h, k);
        LessTransitive(k, h, k);
        LessIrreflexive(k);
      }
    }
  }
}
