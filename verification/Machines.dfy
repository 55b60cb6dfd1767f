/** The hierarchical state machine and supervisor: what every operation does to the machine's state.

    Actions and receivers are lists of commands. `Call` runs application code, which may change the
    application's own data and issue further commands, so a closure of the program is one `Call`. The
    recursion from a transition into the actions it triggers, and along a list of commands, is bounded by
    `fuel`; every statement about a finished run holds whatever the fuel was. */
module Machines {
  import opened Text
  import opened Addresses
  import opened Lineages
  import Mailboxes

  const HEARTBEAT_TIMEOUT: int := 60 * Mailboxes.SECOND
  const PULSE_INTERVAL: int := 10 * Mailboxes.SECOND
  const SERVER_PORT: Port := 42000

  datatype Command<!E> =
    | Transition(target: string)
    | Post(to: Address, message: string)
    | PostAt(to: Address, message: string, time: int)
    | Exit
    | Error(text: string)
    | Call(run: E -> (E, seq<Command<E>>))

  type Script<!E> = seq<Command<E>>

  datatype State<!E> = State(name: string, parent: string, onEnter: Script<E>, onExit: Script<E>,
                             receivers: map<string, (Address, Address, string) -> Script<E>>)

  /** What does not change while the machine runs. */
  datatype Setup<!E> = Setup(name: string, pid: string, address: Address, parent: Address,
                             dns: string -> string, states: map<string, State<E>>)

  datatype Scheduled = Scheduled(to: Address, message: string, time: int)

  datatype Child = Child(name: string, seen: int)

  /** A message given to the mailbox. The last two fields are history: `framework` tells the machine's own messages
      from the application's, `due` is the time for which a message was scheduled, if it was. */
  datatype Posted = Posted(to: Address, message: string, framework: bool, due: Option<int> := None)

  datatype Happening = Entered(state: string) | Exited(state: string)

  /** What the first word of a message means to the machine itself. */
  datatype Kind = ExitRequest | ChildStarted | ChildExited | ChildPulsed | Other

  /** A message that was handled: the sender's printed address, the text, what its first two words were
      taken for, and the clock. */
  datatype Heard = Heard(key: string, message: string, kind: Kind, name: string, now: int)

  /** The machine's state. The last five fields are history: what was ever scheduled, the actions triggered, the
      messages handled, the pulses sent, and whether a transition was made by an exit action, or by the entry
      action of a state that was not the target, while the lists of another transition were in use. */
  datatype M<E> = M(current: string, running: bool, error: string, queue: seq<Scheduled>,
                    spawned: map<string, Child>, env: E, outbox: seq<Posted>, last: int,
                    planned: seq<Scheduled>, trace: seq<Happening>, heard: seq<Heard>, pulses: seq<int>, stale: bool)

  /** Thrown: an exception left the machine. Endless: a loop does not advance. Spent: out of fuel. */
  datatype Outcome<+T> = Done(value: T) | Thrown | Endless | Spent {
    predicate IsFailure() {
      !Done?
    }

    function PropagateFailure<U>(): Outcome<U>
      requires !Done?
    {
      match this
      case Thrown => Thrown
      case Endless => Endless
      case Spent => Spent
    }

    function Extract(): T
      requires Done?
    {
      value
    }
  }

  function Parents<E>(states: map<string, State<E>>): Forest {
    map s | s in states :: states[s].parent
  }

  // ---------- commands and transitions ----------

  function Emit<E>(m: M<E>, to: Address, message: string, framework: bool): M<E> {
    m.(outbox := m.outbox + [Posted(to, message, framework)])
  }

  function Plan<E>(m: M<E>, e: Scheduled): M<E> {
    m.(queue := m.queue + [e], planned := m.planned + [e])
  }

  function Fail<E>(m: M<E>, text: string): M<E> {
    m.(error := text, running := false)
  }

  function Note<E>(m: M<E>, h: Happening): M<E> {
    m.(trace := m.trace + [h])
  }

  /** Runs a script. `pinned` says that the lists of a transition in progress must not go out of date. */
  ghost function Run<E>(su: Setup<E>, m: M<E>, script: Script<E>, pinned: bool, fuel: nat): Outcome<M<E>>
    decreases fuel
  {
    if script == [] then Done(m)
    else if fuel == 0 then Spent
    else
      var m1 :- Execute(su, m, script[0], pinned, fuel - 1);
      Run(su, m1, script[1..], pinned, fuel - 1)
  }

  ghost function Execute<E>(su: Setup<E>, m: M<E>, c: Command<E>, pinned: bool, fuel: nat): Outcome<M<E>>
    decreases fuel
  {
    match c
    case Transition(target) =>
      if fuel == 0 then Spent else MakeTransition(su, m.(stale := m.stale || pinned), target, fuel - 1)
    case Post(to, message) => Done(Emit(m, to, message, false))
    case PostAt(to, message, time) => Done(Plan(m, Scheduled(to, message, time)))
    case Exit => Done(m.(running := false))
    case Error(text) => Done(Fail(m, text))
    case Call(run) =>
      if fuel == 0 then Spent else
        var (env, script) := run(m.env);
        Run(su, m.(env := env), script, pinned, fuel - 1)
  }

  ghost function MakeTransition<E>(su: Setup<E>, m: M<E>, target: string, fuel: nat): Outcome<M<E>>
    decreases fuel
  {
    match Route(Parents(su.states), m.current, target)
    case None => Thrown
    case Some((exits, entries)) =>
      if fuel == 0 then Spent else
        var m1 :- ExitAll(su, m, exits, fuel - 1);
        EnterAll(su, m1.(current := target), entries, fuel - 1)
  }

  ghost function ExitAll<E>(su: Setup<E>, m: M<E>, exits: seq<string>, fuel: nat): Outcome<M<E>>
    decreases fuel
  {
    if exits == [] then Done(m)
    else if exits[0] !in su.states then Thrown
    else if fuel == 0 then Spent
    else
      var m1 :- Run(su, Note(m, Exited(exits[0])), su.states[exits[0]].onExit, true, fuel - 1);
      ExitAll(su, m1, exits[1..], fuel - 1)
  }

  ghost function EnterAll<E>(su: Setup<E>, m: M<E>, entries: seq<string>, fuel: nat): Outcome<M<E>>
    decreases fuel
  {
    if entries == [] then Done(m)
    else if entries[0] !in su.states then Thrown
    else if fuel == 0 then Spent
    else
      var m1 :- Run(su, Note(m, Entered(entries[0])), su.states[entries[0]].onEnter, |entries| > 1, fuel - 1);
      EnterAll(su, m1, entries[1..], fuel - 1)
  }

  // ---------- messages ----------

  function KindOf(message: string): Kind {
    var t := Word(message);
    if t == "exit" then ExitRequest
    else if t == "started" then ChildStarted
    else if t == "exited" then ChildExited
    else if t == "pulsed" then ChildPulsed
    else Other
  }

  /** The name in a "started" message. */
  function NameIn(message: string): string {
    Word(AfterWord(message))
  }

  function Hear(key: string, message: string, now: int): Heard {
    Heard(key, message, KindOf(message), NameIn(message), now)
  }

  /** The effect of a message on the table of children. */
  function Track(spawned: map<string, Child>, h: Heard): map<string, Child> {
    match h.kind
    case ChildStarted =>
      if h.key in spawned then spawned else spawned[h.key := Child(h.name, h.now)]
    case ChildExited => spawned - {h.key}
    case ChildPulsed =>
      if h.key in spawned then spawned[h.key := spawned[h.key].(seen := h.now)] else spawned
    case _ => spawned
  }

  function Supervise<E>(m: M<E>, h: Heard): M<E> {
    m.(running := m.running && h.kind != ExitRequest,
       spawned := Track(m.spawned, h), heard := m.heard + [h])
  }

  /** The state whose receiver gets a message, by its exact key or by the empty one. */
  datatype Match = Match(state: string, exact: bool)

  predicate Handles<E>(states: map<string, State<E>>, s: string, t: string) {
    s in states && (t in states[s].receivers || "" in states[s].receivers)
  }

  /** The first state of the list that handles t. */
  function Nearest<E>(states: map<string, State<E>>, l: seq<string>, t: string): (r: Option<Match>)
    ensures r.Some? ==> Handles(states, r.value.state, t)
    ensures r.Some? && r.value.exact ==> t in states[r.value.state].receivers
    ensures r.Some? && !r.value.exact ==> "" in states[r.value.state].receivers
  {
    if l == [] then None
    else if Handles(states, l[0], t) then Some(Match(l[0], t in states[l[0]].receivers))
    else Nearest(states, l[1..], t)
  }

  /** What an exact receiver finds in the stream: the rest, and for "started" from the name on. */
  function Arguments(message: string, exact: bool): string {
    if !exact then message
    else if KindOf(message) == ChildStarted then SkipSpaces(AfterWord(message))
    else AfterWord(message)
  }

  function ReceiverScript<E>(su: Setup<E>, x: Match, from: Address, to: Address, message: string): Script<E>
    requires Handles(su.states, x.state, Word(message))
    requires x.exact ==> Word(message) in su.states[x.state].receivers
    requires !x.exact ==> "" in su.states[x.state].receivers
  {
    su.states[x.state].receivers[if x.exact then Word(message) else ""](from, to, Arguments(message, x.exact))
  }

  /** The search up the hierarchy, and the receiver it finds. */
  ghost function Dispatch<E>(su: Setup<E>, m: M<E>, from: Address, to: Address, message: string,
                             fuel: nat): Outcome<M<E>>
  {
    match Lineage(Parents(su.states), m.current)
    case None => Endless
    case Some(l) =>
      match Nearest(su.states, l, Word(message))
      case Some(x) => Run(su, m, ReceiverScript(su, x, from, to, message), false, fuel)
      case None => Done(if KindOf(message) == ExitRequest then m else Fail(m, "Unhandled message: " + Word(message)))
  }

  ghost function HandleMessage<E>(su: Setup<E>, m: M<E>, now: int, from: Address, to: Address, message: string,
                                  fuel: nat): Outcome<M<E>>
  {
    Dispatch(su, Supervise(m, Hear(Print(from.ip, from.port), message, now)), from, to, message, fuel)
  }

  // ---------- the table of children in key order ----------

  lemma {:induction false} LeastExists(keys: set<string>)
    requires keys != {}
    ensures exists k :: k in keys && forall o :: o in keys && o != k ==> Less(k, o)
  {
    var x :| x in keys;
    if keys == {x} {
    } else {
      var rest := keys - {x};
      LeastExists(rest);
      var k :| k in rest && forall o :: o in rest && o != k ==> Less(k, o);
      LessTotal(x, k);
      if Less(x, k) {
        forall o | o in keys && o != x ensures Less(x, o) {
          if o != k {
            LessTransitive(x, k, o);
          }
        }
      } else {
        assert forall o :: o in keys && o != k ==> o == x || o in rest;
      }
    }
  }

  /** The keys in the order in which a `std::map` is iterated. */
  ghost function InOrder(keys: set<string>): (l: seq<string>)
    ensures |l| == |keys| && forall k :: k in l <==> k in keys
  {
    if keys == {} then [] else
      LeastExists(keys);
      var k :| k in keys && forall o :: o in keys && o != k ==> Less(k, o);
      [k] + InOrder(keys - {k})
  }

  // ---------- the loop of Start ----------

  predicate IsOverdue(c: Child, now: int) {
    now - c.seen > HEARTBEAT_TIMEOUT
  }

  function Overdue(spawned: map<string, Child>, now: int): set<string> {
    set k | k in spawned && IsOverdue(spawned[k], now)
  }

  function ErroredText(name: string): string {
    "errored " + name + " heartbeat timeout"
  }

  function ExitedText(name: string): string {
    "exited " + name
  }

  /** The machine handles two messages as if `child` had sent them. */
  ghost function HandleBoth<E>(su: Setup<E>, m: M<E>, now: int, child: Address, first: string, second: string,
                               fuel: nat): Outcome<M<E>>
  {
    var m1 :- HandleMessage(su, m, now, child, su.address, first, fuel);
    HandleMessage(su, m1, now, child, su.address, second, fuel)
  }

  /** One entry of the list of the dead: the machine tells itself that the child errored and exited. */
  ghost function Bury<E>(su: Setup<E>, m: M<E>, now: int, key: string, fuel: nat): Outcome<M<E>> {
    if key !in m.spawned then Done(m) else
      var name := m.spawned[key].name;
      match Extract(su.dns, key)
      case Ok(child) => HandleBoth(su, m, now, child, ErroredText(name), ExitedText(name), fuel)
      case InvalidArgument => Thrown
      case OutOfRange => Thrown
  }

  ghost function BuryAll<E>(su: Setup<E>, m: M<E>, now: int, dead: seq<string>, fuel: nat): Outcome<M<E>>
    decreases |dead|
  {
    if dead == [] then Done(m) else
      var m1 :- Bury(su, m, now, dead[0], fuel);
      BuryAll(su, m1, now, dead[1..], fuel)
  }

  ghost function CheckChildren<E>(su: Setup<E>, m: M<E>, now: int, fuel: nat): Outcome<M<E>> {
    BuryAll(su, m, now, InOrder(Overdue(m.spawned, now)), fuel)
  }

  function Pulse<E>(su: Setup<E>, m: M<E>, now: int): M<E> {
    if now - m.last > PULSE_INTERVAL then
      Emit(m, su.parent, "pulsed " + su.name, true).(last := now, pulses := m.pulses + [now])
    else m
  }

  function AsPosted(e: Scheduled): Posted {
    Posted(e.to, e.message, false, Some(e.time))
  }

  /** The scheduled messages that are due, as they are posted. */
  function DueNow(q: seq<Scheduled>, now: int): seq<Posted> {
    if q == [] then [] else
      (if q[0].time < now then [AsPosted(q[0])] else []) + DueNow(q[1..], now)
  }

  function NotYet(q: seq<Scheduled>, now: int): seq<Scheduled> {
    if q == [] then [] else (if q[0].time < now then [] else [q[0]]) + NotYet(q[1..], now)
  }

  function SendScheduled<E>(m: M<E>, now: int): M<E> {
    m.(outbox := m.outbox + DueNow(m.queue, now), queue := NotYet(m.queue, now))
  }

  datatype Incoming = Incoming(from: Address, to: Address, message: string)

  /** One turn of the loop: the clock it reads, and what the mailbox gives it. */
  datatype Tick = Tick(now: int, incoming: Option<Incoming>)

  /** `ReceiveMessage`. */
  ghost function ReceiveMessage<E>(su: Setup<E>, m: M<E>, tick: Tick, fuel: nat): Outcome<M<E>> {
    match tick.incoming
    case None => Done(m)
    case Some(i) => HandleMessage(su, m, tick.now, i.from, i.to, i.message, fuel)
  }

  ghost function Iterate<E>(su: Setup<E>, m: M<E>, tick: Tick, fuel: nat): Outcome<M<E>> {
    var m1 :- CheckChildren(su, m, tick.now, fuel);
    ReceiveMessage(su, SendScheduled(Pulse(su, m1, tick.now), tick.now), tick, fuel)
  }

  /** The loop; SIGTERM arrives after the last tick. */
  ghost function Loop<E>(su: Setup<E>, m: M<E>, ticks: seq<Tick>, fuel: nat): Outcome<M<E>>
    decreases |ticks|
  {
    if !m.running || ticks == [] then Done(m) else
      var m1 :- Iterate(su, m, ticks[0], fuel);
      Loop(su, m1, ticks[1..], fuel)
  }

  function Server<E>(su: Setup<E>): Address {
    Make(su.dns, su.address.ip, SERVER_PORT)
  }

  /** Started and registered. */
  function Announce<E>(su: Setup<E>, m: M<E>): M<E> {
    Emit(Emit(m, su.parent, "started " + su.name, true), Server(su), "register " + su.name + " " + su.pid, true)
  }

  /** The loop, and the exit of what is left. */
  ghost function Stay<E>(su: Setup<E>, m: M<E>, ticks: seq<Tick>, fuel: nat): Outcome<M<E>> {
    var m1 :- Loop(su, m, ticks, fuel);
    match Lineage(Parents(su.states), m1.current)
    case None => Thrown
    case Some(l) => ExitAll(su, m1, l, fuel)
  }

  /** The first transition, and what follows. */
  ghost function Live<E>(su: Setup<E>, m: M<E>, initial: string, begin: int, ticks: seq<Tick>,
                         fuel: nat): Outcome<M<E>> {
    if su.states == map[] then Done(m) else
      var first := if initial != "" then initial else m.current;
      var m1 :- MakeTransition(su, m.(current := ""), first, fuel);
      Stay(su, m1.(last := begin), ticks, fuel)
  }

  /** Errored, exited and unregistered. */
  function Farewell<E>(su: Setup<E>, m: M<E>): M<E> {
    var m1 := if m.error != "" then Emit(m, su.parent, "errored " + su.name + " " + m.error, true) else m;
    Emit(Emit(m1, su.parent, "exited " + su.name, true), Server(su), "unregister", true)
  }

  /** The request to the server of a child's host to stop the process at the child's port. */
  function StopMessage<E>(su: Setup<E>, key: string): Outcome<Posted> {
    match Extract(su.dns, key)
    case Ok(child) => Done(Posted(Make(su.dns, child.ip, SERVER_PORT), "stop " + Decimal(child.port), true))
    case InvalidArgument => Thrown
    case OutOfRange => Thrown
  }

  function StopAll<E>(su: Setup<E>, m: M<E>, keys: seq<string>): Outcome<M<E>>
    decreases |keys|
  {
    if keys == [] then Done(m) else
      var stop :- StopMessage(su, keys[0]);
      StopAll(su, m.(outbox := m.outbox + [stop]), keys[1..])
  }

  /** A whole run of `Start`. */
  ghost function Start<E>(su: Setup<E>, m: M<E>, initial: string, begin: int, ticks: seq<Tick>,
                          fuel: nat): Outcome<M<E>> {
    var m1 :- Live(su, Announce(su, m), initial, begin, ticks, fuel);
    StopAll(su, Farewell(su, m1), InOrder(m1.spawned.Keys))
  }
}
