/** What a machine's own runs do with scheduled messages: each is posted once or still queued, and none is early. */
module Schedules {
  import opened Text
  import opened Addresses
  import opened Lineages
  import opened Machines
  import opened MachineRuns
  import opened StartRuns
  import opened Dispatching

  /** The scheduled messages among what was given to the mailbox, in the order in which they were posted. */
  function Deferred(outbox: seq<Posted>): seq<Scheduled> {
    if outbox == [] then [] else
      var p := outbox[|outbox| - 1];
      Deferred(outbox[..|outbox| - 1]) + if p.due.Some? then [Scheduled(p.to, p.message, p.due.value)] else []
  }

  lemma {:induction false} DeferredConcat(a: seq<Posted>, b: seq<Posted>)
    ensures Deferred(a + b) == Deferred(a) + Deferred(b)
  {
    if b == [] {
      assert a + b == a;
    } else {
      DeferredConcat(a, b[..|b| - 1]);
      assert (a + b)[..|a + b| - 1] == a + b[..|b| - 1];
    }
  }

  lemma DeferredOne(p: Posted)
    ensures Deferred([p]) == if p.due.Some? then [Scheduled(p.to, p.message, p.due.value)] else []
  {
    assert [p][..0] == [];
  }

  // ---------- one pass over the queue ----------

  ghost predicate Increases(at: seq<nat>) {
    forall i, j :: 0 <= i < j < |at| ==> at[i] < at[j]
  }

  /** Positions, in increasing order, of entries that are all due, or all not due. */
  ghost predicate Chooses(q: seq<Scheduled>, now: int, due: bool, at: seq<nat>) {
    Increases(at) && forall i :: 0 <= i < |at| ==> at[i] < |q| && (q[at[i]].time < now <==> due)
  }

  /** `kept` and `sent` are the positions of the entries that stay and of those that go, each in increasing order; an
      entry goes exactly when its time is before `now`. */
  ghost predicate Divides(q: seq<Scheduled>, now: int, kept: seq<nat>, sent: seq<nat>) {
    Chooses(q, now, false, kept) && Chooses(q, now, true, sent) && |kept| + |sent| == |q|
  }

  function Found(q: seq<Scheduled>, at: seq<nat>): seq<Scheduled>
    requires forall i :: 0 <= i < |at| ==> at[i] < |q|
  {
    seq(|at|, i requires 0 <= i < |at| => q[at[i]])
  }

  function AllPosted(q: seq<Scheduled>): seq<Posted> {
    seq(|q|, i requires 0 <= i < |q| => Posted(q[i].to, q[i].message, false, Some(q[i].time)))
  }

  lemma {:induction false} PassDivides(q: seq<Scheduled>, now: int) returns (kept: seq<nat>, sent: seq<nat>)
    ensures Divides(q, now, kept, sent)
    ensures NotYet(q, now) == Found(q, kept) && DueNow(q, now) == AllPosted(Found(q, sent))
    ensures TakenNow(q, now) == Found(q, sent)
  {
    kept, sent := [], [];
    if q != [] {
      var k, s := PassDivides(q[1..], now);
      kept, sent := OneMoreKept(q, now, k), OneMoreSent(q, now, s);
      OneDivides(q, now, k, s);
      OneFound(q, now, k, s);
      OnePosted(q[0], Found(q[1..], s));
    }
  }

  function Later(at: seq<nat>): seq<nat> {
    seq(|at|, i requires 0 <= i < |at| => at[i] + 1)
  }

  function OneMoreKept(q: seq<Scheduled>, now: int, k: seq<nat>): seq<nat>
    requires q != []
  {
    if q[0].time < now then Later(k) else [0] + Later(k)
  }

  function OneMoreSent(q: seq<Scheduled>, now: int, s: seq<nat>): seq<nat>
    requires q != []
  {
    if q[0].time < now then [0] + Later(s) else Later(s)
  }

  lemma LaterChooses(q: seq<Scheduled>, now: int, due: bool, at: seq<nat>)
    requires q != [] && Chooses(q[1..], now, due, at)
    ensures Chooses(q, now, due, Later(at))
  {
    forall i | 0 <= i < |at| ensures Later(at)[i] < |q| && (q[Later(at)[i]].time < now <==> due) {
      assert q[at[i] + 1] == q[1..][at[i]];
    }
  }

  lemma FirstChosen(q: seq<Scheduled>, now: int, due: bool, l: seq<nat>)
    requires q != [] && Chooses(q, now, due, l) && (q[0].time < now <==> due)
    requires forall i :: 0 <= i < |l| ==> l[i] > 0
    ensures Chooses(q, now, due, [0] + l)
  {
  }

  lemma OneDivides(q: seq<Scheduled>, now: int, k: seq<nat>, s: seq<nat>)
    requires q != [] && Divides(q[1..], now, k, s)
    ensures Divides(q, now, OneMoreKept(q, now, k), OneMoreSent(q, now, s))
  {
    LaterChooses(q, now, false, k);
    LaterChooses(q, now, true, s);
    if q[0].time < now {
      FirstChosen(q, now, true, Later(s));
    } else {
      FirstChosen(q, now, false, Later(k));
    }
  }

  lemma OneFound(q: seq<Scheduled>, now: int, k: seq<nat>, s: seq<nat>)
    requires q != [] && Divides(q[1..], now, k, s) && Divides(q, now, OneMoreKept(q, now, k), OneMoreSent(q, now, s))
    ensures Found(q, OneMoreKept(q, now, k)) == (if q[0].time < now then [] else [q[0]]) + Found(q[1..], k)
    ensures Found(q, OneMoreSent(q, now, s)) == (if q[0].time < now then [q[0]] else []) + Found(q[1..], s)
  {
  }

  lemma OnePosted(e: Scheduled, rest: seq<Scheduled>)
    ensures AllPosted([e] + rest) == [AsPosted(e)] + AllPosted(rest)
    ensures [] + rest == rest
  {
  }

  /** `SendScheduled` posts, in queue order and each once, exactly the entries whose time is before `now`, leaves
      exactly the others in the queue, in order, and changes nothing else. */
  lemma ScheduledPass<E>(m: M<E>, now: int) returns (kept: seq<nat>, sent: seq<nat>)
    ensures Divides(m.queue, now, kept, sent)
    ensures SendScheduled(m, now) ==
            m.(queue := Found(m.queue, kept), outbox := m.outbox + AllPosted(Found(m.queue, sent)))
  {
    kept, sent := PassDivides(m.queue, now);
  }

  // ---------- scripts, transitions and messages only schedule ----------

  /** What was scheduled from m to m'. */
  function New<E>(m: M<E>, m': M<E>): seq<Scheduled>
    requires m.planned <= m'.planned
  {
    m'.planned[|m.planned|..]
  }

  /** Everything scheduled in between is at the end of the queue, nothing was taken from it, and what was entered
      and exited before is not forgotten. */
  ghost predicate Adds<E>(m: M<E>, m': M<E>) {
    && m.planned <= m'.planned && m'.queue == m.queue + New(m, m')
    && Deferred(m'.outbox) == Deferred(m.outbox) && m.trace <= m'.trace && (m.stale ==> m'.stale)
  }

  lemma AddsNone<E>(m: M<E>, m': M<E>)
    requires m'.planned == m.planned && m'.queue == m.queue && Deferred(m'.outbox) == Deferred(m.outbox)
    requires m.trace <= m'.trace && (m.stale ==> m'.stale)
    ensures Adds(m, m')
  {
    assert m.queue + [] == m.queue;
  }

  lemma AddsBoth<E>(m: M<E>, m1: M<E>, m2: M<E>)
    requires Adds(m, m1) && Adds(m1, m2)
    ensures Adds(m, m2) && New(m, m2) == New(m, m1) + New(m1, m2)
  {
    assert m2.planned == m.planned + New(m, m1) + New(m1, m2);
    assert m.queue + New(m, m1) + New(m1, m2) == m.queue + (New(m, m1) + New(m1, m2));
  }

  ghost predicate OnlyAdds<E>(m: M<E>, o: Outcome<M<E>>) {
    o.Done? ==> Adds(m, o.value)
  }

  lemma AddsThen<E>(m: M<E>, m1: M<E>, o: Outcome<M<E>>)
    requires Adds(m, m1) && OnlyAdds(m1, o)
    ensures OnlyAdds(m, o)
  {
    if o.Done? {
      AddsBoth(m, m1, o.value);
    }
  }

  lemma {:induction false} RunAdds<E>(su: Setup<E>, m: M<E>, script: Script<E>, pinned: bool, fuel: nat)
    ensures OnlyAdds(m, Run(su, m, script, pinned, fuel))
    decreases fuel
  {
    AddsNone(m, m);
    if script != [] && fuel > 0 {
      ExecuteAdds(su, m, script[0], pinned, fuel - 1);
      var o := Execute(su, m, script[0], pinned, fuel - 1);
      if o.Done? {
        RunAdds(su, o.value, script[1..], pinned, fuel - 1);
        AddsThen(m, o.value, Run(su, o.value, script[1..], pinned, fuel - 1));
      }
    }
  }

  lemma PostAdds<E>(m: M<E>, p: Posted)
    requires p.due.None?
    ensures Adds(m, m.(outbox := m.outbox + [p]))
  {
    DeferredConcat(m.outbox, [p]);
    DeferredOne(p);
    AddsNone(m, m.(outbox := m.outbox + [p]));
  }

  lemma PlanAdds<E>(m: M<E>, e: Scheduled)
    ensures Adds(m, Plan(m, e)) && New(m, Plan(m, e)) == [e]
  {
  }

  lemma {:induction false} ExecuteAdds<E>(su: Setup<E>, m: M<E>, c: Command<E>, pinned: bool, fuel: nat)
    ensures OnlyAdds(m, Execute(su, m, c, pinned, fuel))
    decreases fuel
  {
    match c {
      case Transition(target) =>
        if fuel > 0 {
          var m1 := m.(stale := m.stale || pinned);
          AddsNone(m, m1);
          TransitionAdds(su, m1, target, fuel - 1);
          AddsThen(m, m1, MakeTransition(su, m1, target, fuel - 1));
        }
      case Post(to, message) => PostAdds(m, Posted(to, message, false));
      case PostAt(to, message, time) => PlanAdds(m, Scheduled(to, message, time));
      case Exit => AddsNone(m, m.(running := false));
      case Error(text) => AddsNone(m, Fail(m, text));
      case Call(run) =>
        if fuel > 0 {
          var m1 := m.(env := run(m.env).0);
          AddsNone(m, m1);
          RunAdds(su, m1, run(m.env).1, pinned, fuel - 1);
          AddsThen(m, m1, Run(su, m1, run(m.env).1, pinned, fuel - 1));
        }
    }
  }

  lemma {:induction false} TransitionAdds<E>(su: Setup<E>, m: M<E>, target: string, fuel: nat)
    ensures OnlyAdds(m, MakeTransition(su, m, target, fuel))
    decreases fuel
  {
    var route := Route(Parents(su.states), m.current, target);
    if route.Some? && fuel > 0 {
      ExitAdds(su, m, route.value.0, fuel - 1);
      var o := ExitAll(su, m, route.value.0, fuel - 1);
      if o.Done? {
        var m1 := o.value.(current := target);
        AddsNone(o.value, m1);
        AddsBoth(m, o.value, m1);
        EnterAdds(su, m1, route.value.1, fuel - 1);
        AddsThen(m, m1, EnterAll(su, m1, route.value.1, fuel - 1));
      }
    }
  }

  lemma {:induction false} ExitAdds<E>(su: Setup<E>, m: M<E>, exits: seq<string>, fuel: nat)
    ensures OnlyAdds(m, ExitAll(su, m, exits, fuel))
    decreases fuel
  {
    AddsNone(m, m);
    if exits != [] && exits[0] in su.states && fuel > 0 {
      var m1 := Note(m, Exited(exits[0]));
      AddsNone(m, m1);
      RunAdds(su, m1, su.states[exits[0]].onExit, true, fuel - 1);
      var o := Run(su, m1, su.states[exits[0]].onExit, true, fuel - 1);
      if o.Done? {
        AddsBoth(m, m1, o.value);
        ExitAdds(su, o.value, exits[1..], fuel - 1);
        AddsThen(m, o.value, ExitAll(su, o.value, exits[1..], fuel - 1));
      }
    }
  }

  lemma {:induction false} EnterAdds<E>(su: Setup<E>, m: M<E>, entries: seq<string>, fuel: nat)
    ensures OnlyAdds(m, EnterAll(su, m, entries, fuel))
    decreases fuel
  {
    AddsNone(m, m);
    if entries != [] && entries[0] in su.states && fuel > 0 {
      var m1 := Note(m, Entered(entries[0]));
      AddsNone(m, m1);
      RunAdds(su, m1, su.states[entries[0]].onEnter, |entries| > 1, fuel - 1);
      var o := Run(su, m1, su.states[entries[0]].onEnter, |entries| > 1, fuel - 1);
      if o.Done? {
        AddsBoth(m, m1, o.value);
        EnterAdds(su, o.value, entries[1..], fuel - 1);
        AddsThen(m, o.value, EnterAll(su, o.value, entries[1..], fuel - 1));
      }
    }
  }

  lemma DispatchAdds<E>(su: Setup<E>, m: M<E>, from: Address, to: Address, message: string, fuel: nat)
    ensures OnlyAdds(m, Dispatch(su, m, from, to, message, fuel))
  {
    AddsNone(m, m);
    AddsNone(m, Fail(m, "Unhandled message: " + Word(message)));
    var l := Lineage(Parents(su.states), m.current);
    if l.Some? && Nearest(su.states, l.value, Word(message)).Some? {
      var x := Nearest(su.states, l.value, Word(message)).value;
      RunAdds(su, m, ReceiverScript(su, x, from, to, message), false, fuel);
    }
  }

  lemma HandleAdds<E>(su: Setup<E>, m: M<E>, now: int, from: Address, to: Address, message: string, fuel: nat)
    ensures OnlyAdds(m, HandleMessage(su, m, now, from, to, message, fuel))
  {
    var m1 := Supervise(m, Hear(Print(from.ip, from.port), message, now));
    AddsNone(m, m1);
    DispatchAdds(su, m1, from, to, message, fuel);
    AddsThen(m, m1, Dispatch(su, m1, from, to, message, fuel));
  }

  lemma BothAdd<E>(su: Setup<E>, m: M<E>, now: int, child: Address, first: string, second: string, fuel: nat)
    ensures OnlyAdds(m, HandleBoth(su, m, now, child, first, second, fuel))
  {
    HandleAdds(su, m, now, child, su.address, first, fuel);
    var o := HandleMessage(su, m, now, child, su.address, first, fuel);
    if o.Done? {
      HandleAdds(su, o.value, now, child, su.address, second, fuel);
      AddsThen(m, o.value, HandleMessage(su, o.value, now, child, su.address, second, fuel));
    }
  }

  lemma BuryAdds<E>(su: Setup<E>, m: M<E>, now: int, key: string, fuel: nat)
    ensures OnlyAdds(m, Bury(su, m, now, key, fuel))
  {
    AddsNone(m, m);
    if key in m.spawned && Extract(su.dns, key).Ok? {
      var name := m.spawned[key].name;
      BothAdd(su, m, now, Extract(su.dns, key).value, ErroredText(name), ExitedText(name), fuel);
    }
  }

  lemma {:induction false} BuryAllAdd<E>(su: Setup<E>, m: M<E>, now: int, dead: seq<string>, fuel: nat)
    ensures OnlyAdds(m, BuryAll(su, m, now, dead, fuel))
    decreases |dead|
  {
    AddsNone(m, m);
    if dead != [] {
      BuryAdds(su, m, now, dead[0], fuel);
      var o := Bury(su, m, now, dead[0], fuel);
      if o.Done? {
        BuryAllAdd(su, o.value, now, dead[1..], fuel);
        AddsThen(m, o.value, BuryAll(su, o.value, now, dead[1..], fuel));
      }
    }
  }

  lemma ReceiveAdds<E>(su: Setup<E>, m: M<E>, tick: Tick, fuel: nat)
    ensures OnlyAdds(m, ReceiveMessage(su, m, tick, fuel))
  {
    AddsNone(m, m);
    if tick.incoming.Some? {
      var i := tick.incoming.value;
      HandleAdds(su, m, tick.now, i.from, i.to, i.message, fuel);
    }
  }

  // ---------- a turn of the loop ----------

  /** What a turn sends between looking after its children and taking a message: the pulse when more than 10 seconds
      have passed since the last one, then the scheduled messages whose time has passed. The message,
      if there is one, is handled last. */
  lemma TurnSends<E>(su: Setup<E>, m: M<E>, tick: Tick, fuel: nat) returns (m1: M<E>, m2: M<E>, kept: seq<nat>,
                                                                            sent: seq<nat>)
    requires Iterate(su, m, tick, fuel).Done?
    ensures CheckChildren(su, m, tick.now, fuel) == Done(m1)
    ensures Divides(m1.queue, tick.now, kept, sent)
    ensures var due := tick.now - m1.last > 10_000_000_000;
            m2 == m1.(outbox := m1.outbox + (if due then [Posted(su.parent, "pulsed " + su.name, true)] else [])
                                + AllPosted(Found(m1.queue, sent)),
                      pulses := if due then m1.pulses + [tick.now] else m1.pulses,
                      last := if due then tick.now else m1.last, queue := Found(m1.queue, kept))
    ensures Iterate(su, m, tick, fuel) ==
            match tick.incoming
            case None => Done(m2)
            case Some(i) => HandleMessage(su, m2, tick.now, i.from, i.to, i.message, fuel)
  {
    m1 := CheckChildren(su, m, tick.now, fuel).value;
    kept, sent := ScheduledPass(Pulse(su, m1, tick.now), tick.now);
    m2 := SendScheduled(Pulse(su, m1, tick.now), tick.now);
    assert m1.outbox + [] == m1.outbox;
  }

  // ---------- runs as lists of operations ----------

  function Ats(es: seq<Scheduled>): seq<Op> {
    if es == [] then [] else [At(es[0])] + Ats(es[1..])
  }

  /** The clock readings of the passes. */
  function Passes(ops: seq<Op>): seq<int> {
    if ops == [] then [] else (if ops[0].PassOver? then [ops[0].now] else []) + Passes(ops[1..])
  }

  function ClocksOf(ticks: seq<Tick>): seq<int> {
    seq(|ticks|, i requires 0 <= i < |ticks| => ticks[i].now)
  }

  /** What was scheduled, what is queued and what was posted went through the operations, each at its time. */
  ghost predicate Through<E>(m: M<E>, m': M<E>, ops: seq<Op>) {
    && m'.planned == m.planned + Entries(ops) && m'.queue == QueueAfter(m.queue, ops)
    && Deferred(m'.outbox) == Deferred(m.outbox) + Taken(m.queue, ops)
    && m.trace <= m'.trace && (m.stale ==> m'.stale)
  }

  lemma {:induction false} EntriesConcat(a: seq<Op>, b: seq<Op>)
    ensures Entries(a + b) == Entries(a) + Entries(b)
  {
    if a == [] {
      assert a + b == b;
    } else {
      EntriesConcat(a[1..], b);
      assert (a + b)[0] == a[0] && (a + b)[1..] == a[1..] + b;
      Reassociate(if a[0].At? then [a[0].entry] else [], Entries(a[1..]), Entries(b));
    }
  }

  lemma {:induction false} PassesConcat(a: seq<Op>, b: seq<Op>)
    ensures Passes(a + b) == Passes(a) + Passes(b)
  {
    if a == [] {
      assert a + b == b;
    } else {
      PassesConcat(a[1..], b);
      assert (a + b)[0] == a[0] && (a + b)[1..] == a[1..] + b;
      var one := if a[0].PassOver? then [a[0].now] else [];
      assert one + Passes(a[1..]) + Passes(b) == one + (Passes(a[1..]) + Passes(b));
    }
  }

  lemma {:induction false} QueueConcat(q: seq<Scheduled>, a: seq<Op>, b: seq<Op>)
    ensures QueueAfter(q, a + b) == QueueAfter(QueueAfter(q, a), b)
    ensures Taken(q, a + b) == Taken(q, a) + Taken(QueueAfter(q, a), b)
    decreases |a|
  {
    if a == [] {
      assert a + b == b;
    } else {
      assert (a + b)[1..] == a[1..] + b;
      match a[0] {
        case At(e) => QueueConcat(q + [e], a[1..], b);
        case PassOver(now) =>
          QueueConcat(NotYet(q, now), a[1..], b);
          Reassociate(TakenNow(q, now), Taken(NotYet(q, now), a[1..]), Taken(QueueAfter(q, a), b));
      }
    }
  }

  lemma OpsConcat(q: seq<Scheduled>, a: seq<Op>, b: seq<Op>)
    ensures QueueAfter(q, a + b) == QueueAfter(QueueAfter(q, a), b)
    ensures Taken(q, a + b) == Taken(q, a) + Taken(QueueAfter(q, a), b)
    ensures Entries(a + b) == Entries(a) + Entries(b) && Passes(a + b) == Passes(a) + Passes(b)
  {
    EntriesConcat(a, b);
    PassesConcat(a, b);
    QueueConcat(q, a, b);
  }

  lemma {:induction false} OpsOfAts(q: seq<Scheduled>, es: seq<Scheduled>)
    ensures QueueAfter(q, Ats(es)) == q + es && Taken(q, Ats(es)) == []
    ensures Entries(Ats(es)) == es && Passes(Ats(es)) == []
    decreases |es|
  {
    if es != [] {
      OpsOfAts(q + [es[0]], es[1..]);
      assert q + [es[0]] + es[1..] == q + es;
    }
  }

  lemma OpsOfPass(q: seq<Scheduled>, now: int)
    ensures QueueAfter(q, [PassOver(now)]) == NotYet(q, now) && Taken(q, [PassOver(now)]) == TakenNow(q, now)
    ensures Entries([PassOver(now)]) == [] && Passes([PassOver(now)]) == [now]
  {
    assert [PassOver(now)][1..] == [];
  }

  lemma ThroughBoth<E>(m: M<E>, m1: M<E>, m2: M<E>, a: seq<Op>, b: seq<Op>)
    requires Through(m, m1, a) && Through(m1, m2, b)
    ensures Through(m, m2, a + b)
  {
    OpsConcat(m.queue, a, b);
    Reassociate(m.planned, Entries(a), Entries(b));
    Reassociate(Deferred(m.outbox), Taken(m.queue, a), Taken(m1.queue, b));
  }

  lemma AddsIsThrough<E>(m: M<E>, m': M<E>)
    requires Adds(m, m')
    ensures Through(m, m', Ats(New(m, m')))
  {
    OpsOfAts(m.queue, New(m, m'));
  }

  lemma {:induction false} DeferredOfTaken(q: seq<Scheduled>, now: int)
    ensures Deferred(DueNow(q, now)) == TakenNow(q, now)
  {
    if q != [] {
      DeferredOfTaken(q[1..], now);
      DeferredOne(AsPosted(q[0]));
      DeferredConcat(if q[0].time < now then [AsPosted(q[0])] else [], DueNow(q[1..], now));
    }
  }

  lemma PulseAdds<E>(su: Setup<E>, m: M<E>, now: int)
    ensures Adds(m, Pulse(su, m, now))
  {
    var p := Posted(su.parent, "pulsed " + su.name, true);
    DeferredOne(p);
    DeferredConcat(m.outbox, [p]);
    AddsNone(m, Pulse(su, m, now));
  }

  lemma PassIsThrough<E>(m: M<E>, now: int)
    ensures Through(m, SendScheduled(m, now), [PassOver(now)])
  {
    DeferredConcat(m.outbox, DueNow(m.queue, now));
    DeferredOfTaken(m.queue, now);
    OpsOfPass(m.queue, now);
  }

  lemma IterateSchedules<E>(su: Setup<E>, m: M<E>, tick: Tick, fuel: nat) returns (ops: seq<Op>)
    requires Iterate(su, m, tick, fuel).Done?
    ensures Through(m, Iterate(su, m, tick, fuel).value, ops) && Passes(ops) == [tick.now]
  {
    BuryAllAdd(su, m, tick.now, InOrder(Overdue(m.spawned, tick.now)), fuel);
    var m0 := CheckChildren(su, m, tick.now, fuel).value;
    var m1 := Pulse(su, m0, tick.now);
    var m2 := SendScheduled(m1, tick.now);
    PulseAdds(su, m0, tick.now);
    AddsBoth(m, m0, m1);
    ReceiveAdds(su, m2, tick, fuel);
    var m3 := ReceiveMessage(su, m2, tick, fuel).value;
    var a, b := Ats(New(m, m1)), Ats(New(m2, m3));
    AddsIsThrough(m, m1);
    PassIsThrough(m1, tick.now);
    AddsIsThrough(m2, m3);
    ThroughBoth(m, m1, m2, a, [PassOver(tick.now)]);
    ThroughBoth(m, m2, m3, a + [PassOver(tick.now)], b);
    ops := a + [PassOver(tick.now)] + b;
    PassesOfTurn(New(m, m1), tick.now, New(m2, m3));
  }

  lemma PassesOfTurn(a: seq<Scheduled>, now: int, b: seq<Scheduled>)
    ensures Passes(Ats(a) + [PassOver(now)] + Ats(b)) == [now]
  {
    OpsConcat([], Ats(a) + [PassOver(now)], Ats(b));
    OpsConcat([], Ats(a), [PassOver(now)]);
    OpsOfAts([], a);
    OpsOfAts([], b);
    OpsOfPass([], now);
  }

  ghost predicate Turns<E>(m: M<E>, m': M<E>, ops: seq<Op>, ticks: seq<Tick>, k: nat) {
    Through(m, m', ops) && k <= |ticks| && Passes(ops) == ClocksOf(ticks[..k]) && (k < |ticks| ==> !m'.running)
  }

  ghost predicate TurnsTo<E>(m: M<E>, o: Outcome<M<E>>, ops: seq<Op>, ticks: seq<Tick>, k: nat) {
    o.Done? ==> Turns(m, o.value, ops, ticks, k)
  }

  lemma TurnsOneMore<E>(m: M<E>, m1: M<E>, o: Outcome<M<E>>, ops: seq<Op>, more: seq<Op>, ticks: seq<Tick>, k: nat,
                        n: nat)
    requires ticks != [] && Through(m, m1, ops) && Passes(ops) == [ticks[0].now]
    requires TurnsTo(m1, o, more, ticks[1..], k) && n == k + 1
    ensures TurnsTo(m, o, ops + more, ticks, n)
  {
    if o.Done? {
      ThroughBoth(m, m1, o.value, ops, more);
      OpsConcat([], ops, more);
      OneClockMore(ticks, k, n);
    }
  }

  lemma OneClockMore(ticks: seq<Tick>, k: nat, n: nat)
    requires k < |ticks| && n == k + 1
    ensures ClocksOf(ticks[..n]) == [ticks[0].now] + ClocksOf(ticks[1..][..k])
  {
    assert ticks[..n] == [ticks[0]] + ticks[1..][..k];
  }

  lemma TurnsNone<E>(m: M<E>, ticks: seq<Tick>)
    requires !m.running || ticks == []
    ensures Turns(m, m, [], ticks, 0)
  {
    assert m.planned + [] == m.planned && Deferred(m.outbox) + [] == Deferred(m.outbox);
    assert ticks[..0] == [];
  }

  /** The loop is, for what is scheduled, a list of `SendAt` and `SendScheduled`, one pass for each of its turns at the
      clock reading of the turn. */
  lemma {:induction false} LoopSchedules<E>(su: Setup<E>, m: M<E>, ticks: seq<Tick>, fuel: nat)
    returns (ops: seq<Op>, k: nat)
    ensures TurnsTo(m, Loop(su, m, ticks, fuel), ops, ticks, k)
    decreases |ticks|
  {
    ops, k := [], 0;
    if !m.running || ticks == [] {
      TurnsNone(m, ticks);
    } else {
      var o := Iterate(su, m, ticks[0], fuel);
      LoopOnce(su, m, ticks, fuel, o);
      if o.Done? {
        var n;
        ops, n := LoopSchedules(su, o.value, ticks[1..], fuel);
        var first := IterateSchedules(su, m, ticks[0], fuel);
        k := n + 1;
        TurnsOneMore(m, o.value, Loop(su, m, ticks, fuel), first, ops, ticks, n, k);
        ops := first + ops;
      }
    }
  }

  /** What happens before and after the loop only schedules. */
  lemma TurnsBetween<E>(m: M<E>, m1: M<E>, m2: M<E>, m3: M<E>, ops: seq<Op>, ticks: seq<Tick>, k: nat)
    returns (all: seq<Op>)
    requires Adds(m, m1) && Turns(m1, m2, ops, ticks, k) && Adds(m2, m3) && (!m2.running ==> !m3.running)
    ensures Turns(m, m3, all, ticks, k)
  {
    var a, b := Ats(New(m, m1)), Ats(New(m2, m3));
    AddsIsThrough(m, m1);
    AddsIsThrough(m2, m3);
    ThroughBoth(m, m1, m2, a, ops);
    ThroughBoth(m, m2, m3, a + ops, b);
    OpsConcat([], a + ops, b);
    OpsConcat([], a, ops);
    OpsOfAts([], New(m, m1));
    OpsOfAts([], New(m2, m3));
    all := a + ops + b;
  }

  // ---------- whole runs of Start ----------

  lemma EmitAdds<E>(m: M<E>, to: Address, message: string)
    ensures Adds(m, Emit(m, to, message, true))
  {
    PostAdds(m, Posted(to, message, true));
  }

  lemma AnnounceAdds<E>(su: Setup<E>, m: M<E>)
    ensures Adds(m, Announce(su, m))
  {
    var m1 := Emit(m, su.parent, "started " + su.name, true);
    EmitAdds(m, su.parent, "started " + su.name);
    EmitAdds(m1, Server(su), "register " + su.name + " " + su.pid);
    AddsBoth(m, m1, Announce(su, m));
  }

  lemma FarewellAdds<E>(su: Setup<E>, m: M<E>)
    ensures Adds(m, Farewell(su, m)) && Farewell(su, m).running == m.running
  {
    var m1 := if m.error != "" then Emit(m, su.parent, "errored " + su.name + " " + m.error, true) else m;
    AddsNone(m, m);
    EmitAdds(m, su.parent, "errored " + su.name + " " + m.error);
    var m2 := Emit(m1, su.parent, "exited " + su.name, true);
    EmitAdds(m1, su.parent, "exited " + su.name);
    AddsBoth(m, m1, m2);
    EmitAdds(m2, Server(su), "unregister");
    AddsBoth(m, m2, Farewell(su, m));
  }

  lemma {:induction false} StopAllAdds<E>(su: Setup<E>, m: M<E>, keys: seq<string>)
    ensures var o := StopAll(su, m, keys); OnlyAdds(m, o) && (o.Done? ==> o.value.running == m.running)
    decreases |keys|
  {
    AddsNone(m, m);
    if keys != [] {
      var stop := StopMessage(su, keys[0]);
      if stop.Done? {
        var m1 := m.(outbox := m.outbox + [stop.value]);
        PostAdds(m, stop.value);
        StopAllAdds(su, m1, keys[1..]);
        AddsThen(m, m1, StopAll(su, m1, keys[1..]));
      }
    }
  }

  lemma FirstAdds<E>(su: Setup<E>, m: M<E>, first: string, begin: int, fuel: nat)
    requires MakeTransition(su, m.(current := ""), first, fuel).Done?
    ensures Adds(m, MakeTransition(su, m.(current := ""), first, fuel).value.(last := begin))
  {
    var m1 := m.(current := "");
    var m2 := MakeTransition(su, m1, first, fuel).value;
    AddsNone(m, m1);
    TransitionAdds(su, m1, first, fuel);
    AddsBoth(m, m1, m2);
    AddsNone(m2, m2.(last := begin));
    AddsBoth(m, m2, m2.(last := begin));
  }

  lemma StaySchedules<E>(su: Setup<E>, m: M<E>, ticks: seq<Tick>, fuel: nat) returns (ops: seq<Op>, k: nat)
    requires "" !in su.states && Stay(su, m, ticks, fuel).Done?
    ensures Turns(m, Stay(su, m, ticks, fuel).value, ops, ticks, k)
  {
    var m1 := Loop(su, m, ticks, fuel).value;
    var l := Lineage(Parents(su.states), m1.current).value;
    ops, k := LoopSchedules(su, m, ticks, fuel);
    ExitAdds(su, m1, l, fuel);
    ExitEffect(su, m1, l, fuel);
    AddsNone(m, m);
    ops := TurnsBetween(m, m, m1, ExitAll(su, m1, l, fuel).value, ops, ticks, k);
  }

  lemma LiveSchedules<E>(su: Setup<E>, m: M<E>, initial: string, begin: int, ticks: seq<Tick>, fuel: nat)
    returns (ops: seq<Op>, k: nat)
    requires "" !in su.states && su.states != map[] && Live(su, m, initial, begin, ticks, fuel).Done?
    ensures Turns(m, Live(su, m, initial, begin, ticks, fuel).value, ops, ticks, k)
  {
    var first := if initial != "" then initial else m.current;
    FirstAdds(su, m, first, begin, fuel);
    var m1 := MakeTransition(su, m.(current := ""), first, fuel).value.(last := begin);
    var m2 := Stay(su, m1, ticks, fuel).value;
    ops, k := StaySchedules(su, m1, ticks, fuel);
    AddsNone(m2, m2);
    ops := TurnsBetween(m, m1, m2, m2, ops, ticks, k);
  }

  lemma StartTurns<E>(su: Setup<E>, m: M<E>, initial: string, begin: int, ticks: seq<Tick>, fuel: nat)
    returns (ops: seq<Op>, k: nat)
    requires "" !in su.states && su.states != map[] && Start(su, m, initial, begin, ticks, fuel).Done?
    ensures Turns(m, Start(su, m, initial, begin, ticks, fuel).value, ops, ticks, k)
  {
    var m0 := Announce(su, m);
    AnnounceAdds(su, m);
    ops, k := LiveSchedules(su, m0, initial, begin, ticks, fuel);
    var m1 := Live(su, m0, initial, begin, ticks, fuel).value;
    var m2 := Farewell(su, m1);
    FarewellAdds(su, m1);
    StopAllAdds(su, m2, InOrder(m1.spawned.Keys));
    var m3 := StopAll(su, m2, InOrder(m1.spawned.Keys)).value;
    AddsBoth(m1, m2, m3);
    ops := TurnsBetween(m, m0, m1, m3, ops, ticks, k);
  }

  lemma {:induction false} TakenIsLate(q: seq<Scheduled>, ops: seq<Op>, e: Scheduled)
    requires e in Taken(q, ops)
    ensures exists i :: 0 <= i < |Passes(ops)| && e.time < Passes(ops)[i]
    decreases |ops|
  {
    match ops[0] {
      case At(a) =>
        TakenIsLate(q + [a], ops[1..], e);
        assert Passes(ops) == Passes(ops[1..]);
      case PassOver(now) =>
        if e in TakenNow(q, now) {
          TakenArePosted(q, now);
          assert Passes(ops)[0] == now;
        } else {
          TakenIsLate(NotYet(q, now), ops[1..], e);
          var i :| 0 <= i < |Passes(ops[1..])| && e.time < Passes(ops[1..])[i];
          assert Passes(ops)[i + 1] == Passes(ops[1..])[i];
        }
    }
  }

  /** A finished run of `Start` from an empty queue: its turns are passes at their clock readings, with everything
      scheduled in between, before or after. The queue holds, in order, what no later turn was late for; everything
      else that was scheduled, and nothing that was not, has been posted, each once; and nothing was posted before
      some turn's clock was past its time. */
  lemma StartSchedules<E>(su: Setup<E>, m: M<E>, initial: string, begin: int, ticks: seq<Tick>, fuel: nat)
    returns (ops: seq<Op>, k: nat)
    requires "" !in su.states && su.states != map[] && m.queue == [] && m.planned == [] && m.outbox == []
    requires Start(su, m, initial, begin, ticks, fuel).Done?
    ensures k <= |ticks| && Passes(ops) == ClocksOf(ticks[..k])
    ensures var m' := Start(su, m, initial, begin, ticks, fuel).value;
            && m'.planned == Entries(ops) && m'.queue == Remaining(ops)
            && multiset(m'.planned) == multiset(Deferred(m'.outbox)) + multiset(m'.queue)
            && (k < |ticks| ==> !m'.running)
            && forall e :: e in Deferred(m'.outbox) ==> exists i :: 0 <= i < k && e.time < ticks[i].now
  {
    ops, k := StartTurns(su, m, initial, begin, ticks, fuel);
    var m' := Start(su, m, initial, begin, ticks, fuel).value;
    assert m'.planned == Entries(ops) && Deferred(m'.outbox) == Taken([], ops);
    QueueHoldsTheRest([], ops);
    ScheduledAreConserved([], ops);
    forall e | e in Deferred(m'.outbox) ensures exists i :: 0 <= i < k && e.time < ticks[i].now {
      TakenIsLate([], ops, e);
      var i :| 0 <= i < |Passes(ops)| && e.time < Passes(ops)[i];
      assert ticks[..k][i] == ticks[i];
    }
  }
}
