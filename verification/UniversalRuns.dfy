/** The universal machine simulates the Turing machine of its quintuples, symbol by symbol. */
module UniversalRuns {
  import opened Text
  import opened Addresses
  import opened Lineages
  import opened Machines
  import opened Posts
  import opened Tapes
  import opened Universal
  import opened Simulations

  // ---------- running short scripts ----------

  lemma RunOne<E>(su: Setup<E>, m: M<E>, c: Command<E>, pinned: bool, fuel: nat, m': M<E>)
    requires fuel > 0 && Execute(su, m, c, pinned, fuel - 1) == Done(m')
    ensures Run(su, m, [c], pinned, fuel) == Done(m')
  {
    assert [c][1..] == [];
  }

  lemma RunCall<E>(su: Setup<E>, m: M<E>, call: E -> (E, seq<Command<E>>), pinned: bool, fuel: nat, m': M<E>)
    requires fuel > 1
    requires Run(su, m.(env := call(m.env).0), call(m.env).1, pinned, fuel - 2) == Done(m')
    ensures Run(su, m, [Call(call)], pinned, fuel) == Done(m')
  {
    RunOne(su, m, Call(call), pinned, fuel, m');
  }

  lemma RunPostThen<E>(su: Setup<E>, m: M<E>, to: Address, message: string, c: Command<E>, pinned: bool, fuel: nat,
                       m': M<E>)
    requires fuel > 1 && Execute(su, Emit(m, to, message, false), c, pinned, fuel - 2) == Done(m')
    ensures Run(su, m, [Post(to, message), c], pinned, fuel) == Done(m')
  {
    RunOne(su, Emit(m, to, message, false), c, pinned, fuel - 1, m');
    assert [Post(to, message), c][1..] == [c];
  }

  /** A transition between two roots, whether or not they are the same. */
  lemma RootTransition<E>(su: Setup<E>, m: M<E>, t: string, fuel: nat, m': M<E>)
    requires m.current in su.states && t in su.states && m.current != "" && t != "" && fuel > 3
    requires su.states[m.current].parent == "" && su.states[t].parent == "" && su.states[m.current].onExit == []
    requires Run(su, Note(Note(m, Exited(m.current)).(current := t), Entered(t)), su.states[t].onEnter, false,
                 fuel - 2) == Done(m')
    ensures MakeTransition(su, m, t, fuel) == Done(m')
  {
    var f, s := Parents(su.states), m.current;
    RootRoute(f, s, t);
    var m1 := Note(m, Exited(s));
    assert [s][1..] == [] && [t][1..] == [];
    assert Run(su, m1, [], true, fuel - 2) == Done(m1);
    assert ExitAll(su, m1, [], fuel - 2) == Done(m1);
    assert ExitAll(su, m, [s], fuel - 1) == Done(m1);
    assert EnterAll(su, m', [], fuel - 2) == Done(m');
    assert EnterAll(su, m1.(current := t), [t], fuel - 1) == Done(m');
  }

  lemma RootRoute(f: Forest, s: string, t: string)
    requires s in f && t in f && s != "" && t != "" && f[s] == "" && f[t] == ""
    ensures Lineage(f, s) == Some([s])
    ensures Route(f, s, t) == Some(([s], [t]))
  {
    RootLineage(f, s);
    RootLineage(f, t);
    if s != t {
      assert RootPath(f, s) == [s] && RootPath(f, t) == [t];
      assert Shared(f, s, t) == 0;
      assert Reverse([s][0..]) == [s] && [t][0..] == [t];
    }
  }

  lemma RootLineage(f: Forest, s: string)
    requires s in f && s != "" && f[s] == ""
    ensures Lineage(f, s) == Some([s])
  {
    assert [s][1..] == [];
    LineageIs(f, s, [s]);
  }

  // ---------- the states of the universal machine ----------

  /** A universal machine for the program. */
  ghost predicate IsUniversal(su: Setup<World>, program: Program, self: Address, first: char, blank: char) {
    && WellFormed(program, blank) && first in StatesOf(program)
    && su.states == UniversalStates(program, self, first)
  }

  lemma ProgramStates(su: Setup<World>, program: Program, self: Address, first: char, blank: char, c: char)
    requires IsUniversal(su, program, self, first, blank) && c in StatesOf(program)
    ensures [c] in su.states && su.states[[c]] == ProgramState(program, self, c)
  {
    assert c != HALT;
    assert [c][0] == c && "H"[0] == HALT;
    assert |[c]| != |"Initial"|;
  }

  lemma SpecialStates(su: Setup<World>, program: Program, self: Address, first: char, blank: char)
    requires IsUniversal(su, program, self, first, blank)
    ensures "Initial" in su.states && su.states["Initial"] == InitialState(first)
    ensures "H" in su.states && su.states["H"] == HaltState()
  {
    assert |"H"| != |"Initial"|;
    NotMade(program, self, blank);
  }

  lemma NotMade(program: Program, self: Address, blank: char)
    requires WellFormed(program, blank)
    ensures "Initial" !in Made(program, self, StatesOf(program)) && "H" !in Made(program, self, StatesOf(program))
  {
    forall c | c in StatesOf(program) ensures [c] != "Initial" && [c] != "H" {
      assert |[c]| != |"Initial"| && [c][0] == c && "H"[0] == HALT;
    }
  }

  lemma {:induction false} QuadsHead(program: Program, state: char)
    requires program != []
    ensures QuadsOf(program, state) ==
            (if program[0].state == state then [Quad(program[0])] else []) + QuadsOf(program[1..], state)
  {
    if |program| == 1 {
      assert program[..0] == [] && program[1..] == [];
    } else {
      var p := program[..|program| - 1];
      QuadsHead(p, state);
      assert p[1..] == program[1..][..|program[1..]| - 1];
    }
  }

  /** The receivers of a state are those of its first quintuple for each symbol. */
  lemma {:induction false} ReceiverIsRule(program: Program, state: char, c: char)
    ensures var rs := Receivers(QuadsOf(program, state));
            var q := Rule(program, state, c);
            && "" !in rs
            && ([c] in rs <==> q.Some?)
            && (q.Some? ==> rs[[c]] == SymbolReceiver(Quad(q.value)))
  {
    if program != [] {
      QuadsHead(program, state);
      ReceiverIsRule(program[1..], state, c);
      if program[0].state == state {
        var quads := QuadsOf(program, state);
        assert quads[1..] == QuadsOf(program[1..], state) && quads[0] == Quad(program[0]);
        assert [quads[0].read] == [c] <==> quads[0].read == c by {
          assert [quads[0].read][0] == quads[0].read && [c][0] == c;
        }
      } else {
        assert QuadsOf(program, state) == QuadsOf(program[1..], state);
      }
    }
  }

  // ---------- one symbol ----------

  lemma OneSymbolMessage(c: char)
    requires !IsSpace(c)
    ensures Word([c]) == [c] && KindOf([c]) == Other
  {
    var w := [c];
    WordOfWord(w, "");
    assert w + "" == w;
    assert |w| == 1;
  }

  /** Told to start in "Initial", the machine enters that state and no other, and then begins its loop; nothing has
      been posted. */
  lemma StartsInInitial(su: Setup<World>, m: M<World>, program: Program, self: Address, first: char, blank: char,
                        begin: int, ticks: seq<Tick>, fuel: nat)
    requires IsUniversal(su, program, self, first, blank) && fuel > 5
    ensures Live(su, m, "Initial", begin, ticks, fuel) ==
            Stay(su, m.(current := "Initial", trace := m.trace + [Entered("Initial")], last := begin), ticks, fuel)
  {
    SpecialStates(su, program, self, first, blank);
    EntersRoot(su, m.(current := ""), "Initial", fuel);
  }

  /** From nowhere to a root whose entry action does nothing. */
  lemma EntersRoot<E>(su: Setup<E>, m: M<E>, t: string, fuel: nat)
    requires m.current == "" && t != "" && t in su.states && fuel > 5
    requires su.states[t].parent == "" && su.states[t].onEnter == []
    ensures MakeTransition(su, m, t, fuel) == Done(m.(current := t, trace := m.trace + [Entered(t)]))
  {
    RouteToRoot(Parents(su.states), t);
    var m1 := Note(m.(current := t), Entered(t));
    assert ExitAll(su, m, [], fuel - 1) == Done(m);
    assert [t][1..] == [];
    assert EnterAll(su, m1, [], fuel - 2) == Done(m1);
    assert EnterAll(su, m.(current := t), [t], fuel - 1) == Done(m1);
  }

  lemma RouteToRoot(f: Forest, t: string)
    requires t != "" && t in f && f[t] == ""
    ensures Route(f, "", t) == Some(([], [t]))
  {
    var e: seq<string> := [];
    LineageIs(f, "", e);
    RootLineage(f, t);
    assert RootPath(f, "") == e && RootPath(f, t) == [t];
    assert Shared(f, "", t) == 0 && e[0..] == e && Reverse(e) == e && [t][0..] == [t];
  }

  /** Entering a program state posts the symbol under the head to the machine itself. */
  lemma EnterProgramState(su: Setup<World>, m: M<World>, program: Program, self: Address, c: char, fuel: nat)
    requires fuel > 3
    ensures Run(su, m, ProgramState(program, self, c).onEnter, false, fuel)
         == Done(Emit(m, self, Symbol(m.env.tape), false))
  {
    var call := (w: World) => (w, [Post(self, Symbol(w.tape))]);
    var m' := Emit(m, self, Symbol(m.env.tape), false);
    RunOne(su, m, Post(self, Symbol(m.env.tape)), false, fuel - 2, m');
    assert m.(env := call(m.env).0) == m;
    var script := ProgramState(program, self, c).onEnter;
    assert script == [script[0]] && script[0].Call?;
    assert script[0].run(m.env) == call(m.env);
    RunCall(su, m, script[0].run, false, fuel, m');
  }

  /** Entering the halting state posts the tape to the requester and goes on to the initial state. */
  lemma EnterHaltState(su: Setup<World>, m: M<World>, program: Program, self: Address, first: char, blank: char,
                       fuel: nat)
    requires IsUniversal(su, program, self, first, blank) && m.current == "H" && fuel > 10
    ensures Run(su, m, HaltState().onEnter, false, fuel)
         == Done(Note(Note(Emit(m, m.env.requester, m.env.tape.cells, false), Exited("H")).(current := "Initial"),
                      Entered("Initial")))
  {
    SpecialStates(su, program, self, first, blank);
    var m1 := Emit(m, m.env.requester, m.env.tape.cells, false);
    var m' := Note(Note(m1, Exited("H")).(current := "Initial"), Entered("Initial"));
    RootTransition(su, m1, "Initial", fuel - 5, m');
    assert m1.(stale := m1.stale || false) == m1;
    assert Execute(su, m1, Transition("Initial"), false, fuel - 4) == Done(m');
    RunPostThen(su, m, m.env.requester, m.env.tape.cells, Transition("Initial"), false, fuel - 2, m');
    var script := HaltState().onEnter;
    assert script == [script[0]] && script[0].Call?;
    assert script[0].run(m.env) == (m.env, [Post(m.env.requester, m.env.tape.cells), Transition("Initial")]);
    assert m.(env := m.env) == m;
    RunCall(su, m, script[0].run, false, fuel, m');
  }

  /** The machine after state s has obeyed a quintuple and made its transition. */
  function Continued(m: M<World>, self: Address, s: char, next: char): M<World> {
    if next == HALT then
      Emit(m, m.env.requester, m.env.tape.cells, false).(
        current := "Initial", trace := m.trace + [Exited([s]), Entered("H"), Exited("H"), Entered("Initial")])
    else
      Emit(m, self, Symbol(m.env.tape), false).(
        current := [next], trace := m.trace + [Exited([s]), Entered([next])])
  }

  lemma Noted<E>(m: M<E>, a: Happening, b: Happening)
    ensures Note(Note(m, a), b) == m.(trace := m.trace + [a, b])
  {
    assert m.trace + [a] + [b] == m.trace + [a, b];
  }

  lemma TraceOfHalt(t: seq<Happening>, a: Happening, b: Happening, c: Happening, d: Happening)
    ensures t + [a] + [b] + [c] + [d] == t + [a, b, c, d]
  {
  }

  lemma GoesOn(su: Setup<World>, m: M<World>, program: Program, self: Address, first: char, blank: char,
               s: char, next: char, fuel: nat)
    requires IsUniversal(su, program, self, first, blank) && m.current == [s] && s in StatesOf(program) && fuel > 15
    requires next != HALT && next in StatesOf(program)
    ensures MakeTransition(su, m, [next], fuel) == Done(Continued(m, self, s, next))
  {
    ProgramStates(su, program, self, first, blank, s);
    ProgramStates(su, program, self, first, blank, next);
    Noted(m, Exited([s]), Entered([next]));
    EnterProgramState(su, Note(Note(m, Exited([s])).(current := [next]), Entered([next])), program, self, next,
                      fuel - 2);
    RootTransition(su, m, [next], fuel, Continued(m, self, s, next));
  }

  lemma Halts(su: Setup<World>, m: M<World>, program: Program, self: Address, first: char, blank: char,
              s: char, fuel: nat)
    requires IsUniversal(su, program, self, first, blank) && m.current == [s] && s in StatesOf(program) && fuel > 15
    ensures MakeTransition(su, m, "H", fuel) == Done(Continued(m, self, s, HALT))
  {
    ProgramStates(su, program, self, first, blank, s);
    SpecialStates(su, program, self, first, blank);
    var m1 := Note(Note(m, Exited([s])).(current := "H"), Entered("H"));
    TraceOfHalt(m.trace, Exited([s]), Entered("H"), Exited("H"), Entered("Initial"));
    EnterHaltState(su, m1, program, self, first, blank, fuel - 2);
    RootTransition(su, m, "H", fuel, Continued(m, self, s, HALT));
  }

  lemma TransitionContinues(su: Setup<World>, m: M<World>, program: Program, self: Address, first: char, blank: char,
                            s: char, next: char, fuel: nat)
    requires IsUniversal(su, program, self, first, blank) && m.current == [s] && s in StatesOf(program) && fuel > 15
    requires next == HALT || next in StatesOf(program)
    ensures MakeTransition(su, m, [next], fuel) == Done(Continued(m, self, s, next))
  {
    if next == HALT {
      assert [next] == "H";
      Halts(su, m, program, self, first, blank, s, fuel);
    } else {
      GoesOn(su, m, program, self, first, blank, s, next, fuel);
    }
  }

  /** A symbol with a rule: the tape is updated and the transition made. */
  lemma SymbolObeyed(su: Setup<World>, m: M<World>, program: Program, self: Address, first: char, blank: char,
                     s: char, c: char, from: Address, to: Address, fuel: nat)
    requires IsUniversal(su, program, self, first, blank) && m.current == [s] && s in StatesOf(program) && fuel > 20
    requires !IsSpace(c) && Rule(program, s, c).Some?
    ensures var q := Rule(program, s, c).value;
            Dispatch(su, m, from, to, [c], fuel) == Done(Continued(m.(env := Obey(m.env, Quad(q))), self, s, q.next))
  {
    var q := Rule(program, s, c).value;
    ProgramStates(su, program, self, first, blank, s);
    ReceiverIsRule(program, s, c);
    OneSymbolMessage(c);
    RootLineage(Parents(su.states), [s]);
    assert Nearest(su.states, [[s]], [c]) == Some(Match([s], true));
    var m1 := m.(env := Obey(m.env, Quad(q)));
    var m' := Continued(m1, self, s, q.next);
    TransitionContinues(su, m1, program, self, first, blank, s, q.next, fuel - 4);
    assert m1.(stale := m1.stale || false) == m1;
    RunOne(su, m1, Transition([q.next]), false, fuel - 2, m');
    var script := SymbolReceiver(Quad(q))(from, to, Arguments([c], true));
    assert script == [script[0]] && script[0].Call?;
    assert script[0].run(m.env) == (Obey(m.env, Quad(q)), [Transition([q.next])]);
    RunCall(su, m, script[0].run, false, fuel, m');
  }

  /** A symbol without a rule is an unhandled message. */
  lemma SymbolUnhandled(su: Setup<World>, m: M<World>, program: Program, self: Address, first: char, blank: char,
                        s: char, c: char, from: Address, to: Address, fuel: nat)
    requires IsUniversal(su, program, self, first, blank) && m.current == [s] && s in StatesOf(program)
    requires !IsSpace(c) && Rule(program, s, c).None?
    ensures Dispatch(su, m, from, to, [c], fuel) == Done(Fail(m, "Unhandled message: " + [c]))
  {
    ProgramStates(su, program, self, first, blank, s);
    ReceiverIsRule(program, s, c);
    OneSymbolMessage(c);
    RootLineage(Parents(su.states), [s]);
    NoneNearest(su.states, [s], [c]);
  }

  lemma NoneNearest<E>(states: map<string, State<E>>, s: string, t: string)
    requires !Handles(states, s, t)
    ensures Nearest(states, [s], t) == None
  {
    assert [s][1..] == [];
  }

  // ---------- simulation ----------

  /** The machine runs, supervises no one and has scheduled nothing. */
  predicate Undisturbed<E>(m: M<E>) {
    m.running && m.spawned == map[] && m.queue == []
  }

  /** A machine whose mailbox brings back what it posts to itself, and how many of those it has taken. */
  datatype Loopback = Loopback(m: M<World>, taken: nat)

  function Pending(b: Loopback, self: Address): seq<string> {
    Untaken(Own(b.m.outbox, Key(self)), b.taken)
  }

  /** The symbol under the head, unless the machine has halted. */
  function Scan(c: Configuration): string {
    if c.state == HALT then "" else [Cell(c.tape, c.tape.head)]
  }

  /** The symbols scanned in the n steps after c. */
  function Scanned(program: Program, c: Configuration, n: nat): string
    decreases n
  {
    if n == 0 then "" else
      match Step(program, c)
      case None => ""
      case Some(d) => Scan(d) + Scanned(program, d, n - 1)
  }

  /** One message to the machine itself for each symbol. */
  function SymbolPosts(self: Address, said: string): seq<Posted> {
    seq(|said|, i requires 0 <= i < |said| => Posted(self, [said[i]], false))
  }

  function AnswerTo(requester: Address, w: World): Posted {
    Posted(requester, w.tape.cells, false)
  }

  /** The machine is in the configuration's state, its tape stands for the configuration's, and exactly one of
      its messages to itself is pending: the symbol under the head. */
  ghost predicate Simulates(b: Loopback, program: Program, self: Address, c: Configuration, origin: int) {
    && c.state in StatesOf(program) && b.m.current == [c.state]
    && StandsFor(b.m.env.tape, c.tape, origin) && NoSpaces(b.m.env.tape.cells)
    && b.taken + 1 == |Own(b.m.outbox, Key(self))| && Pending(b, self) == [Scan(c)]
  }

  /** The machine has halted on a configuration and awaits the next request; nothing is pending, unless the
      answer itself went back to the machine. */
  ghost predicate Answered(b: Loopback, self: Address, requester: Address, c: Configuration, origin: int) {
    && c.state == HALT && b.m.current == "Initial"
    && StandsFor(b.m.env.tape, c.tape, origin)
    && b.taken + (if Key(requester) == Key(self) then 1 else 0) == |Own(b.m.outbox, Key(self))|
    && Pending(b, self) == if Key(requester) == Key(self) then [AnswerTo(requester, b.m.env).message] else []
  }

  /** What the application has posted since: one message per symbol scanned, and one answer when it halted. */
  ghost predicate Told(m: M<World>, self: Address, requester: Address, c: Configuration, base: seq<Posted>,
                       said: string) {
    Application(m.outbox) ==
      base + SymbolPosts(self, said) + if c.state == HALT then [AnswerTo(requester, m.env)] else []
  }

  ghost predicate Follows(b: Loopback, program: Program, self: Address, requester: Address, c: Configuration,
                          origin: int, base: seq<Posted>, said: string)
  {
    && Undisturbed(b.m) && b.m.env.requester == requester && Told(b.m, self, requester, c, base, said)
    && if c.state == HALT then Answered(b, self, requester, c, origin) else Simulates(b, program, self, c, origin)
  }

  lemma ObeyStandsFor(w: World, f: Infinite, origin: int, q: Quintuple) returns (origin': int)
    requires StandsFor(w.tape, f, origin) && NoSpaces(w.tape.cells) && !IsSpace(w.tape.blank)
    requires IsDirection(q.move) && !IsSpace(q.write)
    ensures StandsFor(Obey(w, Quad(q)).tape, Shift(Mark(f, q.write), q.move), origin')
    ensures NoSpaces(Obey(w, Quad(q)).tape.cells)
  {
    WriteRefines(w.tape, f, origin, q.write);
    var t := Write(w.tape, q.write);
    MoveRefines(t, Mark(f, q.write), origin, q.move);
    origin' := if q.move == 'L' && t.pos == 0 then origin - 1 else origin;
  }

  /** A turn of the loop in which the mailbox gives the machine the next message it has posted to itself. */
  ghost function TakeOwn(su: Setup<World>, b: Loopback, now: int, self: Address, fuel: nat): Outcome<M<World>> {
    if !b.m.running || Pending(b, self) == [] then Thrown
    else Iterate(su, b.m, Tick(now, Some(Incoming(Bound(Key(self)), self, Pending(b, self)[0]))), fuel)
  }

  /** What the machine posts on reaching a configuration. */
  function Report(self: Address, requester: Address, d: Configuration, w: World): Posted {
    if d.state == HALT then AnswerTo(requester, w) else Posted(self, Scan(d), false)
  }

  /** The outcome of a turn for one symbol, from the machine m as its pulse has left it: the Turing machine's
      step and one post, or the report of an unhandled message. */
  ghost predicate Stepped(m: M<World>, o: Outcome<M<World>>, taken: nat, program: Program, self: Address,
                          requester: Address, c: Configuration, origin: int, base: seq<Posted>, said: string)
  {
    && o.Done? && o.value.last == m.last
    && match Step(program, c)
       case Some(d) =>
         && o.value.outbox == m.outbox + [Report(self, requester, d, o.value.env)]
         && Follows(Loopback(o.value, taken), program, self, requester, d, origin, base, said + Scan(d))
         && d.tape.blank == c.tape.blank
       case None =>
         && o.value.outbox == m.outbox && |Own(m.outbox, Key(self))| == taken
         && !o.value.running && o.value.error == "Unhandled message: " + Scan(c)
         && Told(o.value, self, requester, c, base, said)
  }

  /** The machine is in the configuration, and its message has just been taken, so that nothing is pending. */
  ghost predicate Scanning(m: M<World>, program: Program, self: Address, requester: Address, c: Configuration,
                           origin: int, base: seq<Posted>, said: string)
  {
    && Undisturbed(m) && m.env.requester == requester && Application(m.outbox) == base + SymbolPosts(self, said)
    && c.state in StatesOf(program) && m.current == [c.state]
    && StandsFor(m.env.tape, c.tape, origin) && NoSpaces(m.env.tape.cells)
  }

  lemma RuleStep(su: Setup<World>, m: M<World>, program: Program, self: Address, requester: Address, first: char,
                 blank: char, c: Configuration, origin: int, base: seq<Posted>, said: string, i: Incoming, fuel: nat)
    returns (origin': int)
    requires IsUniversal(su, program, self, first, blank) && fuel > 20 && c.tape.blank == blank
    requires Scanning(m, program, self, requester, c, origin, base, said)
    requires Step(program, c).Some? && i.message == Scan(c)
    ensures Stepped(m, Dispatch(su, m, i.from, i.to, i.message, fuel), |Own(m.outbox, Key(self))|, program, self,
                    requester, c, origin', base, said)
  {
    var symbol := Cell(c.tape, c.tape.head);
    assert symbol == m.env.tape.cells[m.env.tape.pos];
    var q := Rule(program, c.state, symbol).value;
    SymbolObeyed(su, m, program, self, first, blank, c.state, symbol, i.from, i.to, fuel);
    origin' := ObeyStandsFor(m.env, c.tape, origin, q);
    ContinuedFollows(m.(env := Obey(m.env, Quad(q))), program, self, requester, blank, c.state,
                     Configuration(q.next, Shift(Mark(c.tape, q.write), q.move)), origin', base, said);
  }

  lemma SymbolStep(su: Setup<World>, m: M<World>, program: Program, self: Address, requester: Address, first: char,
                   blank: char, c: Configuration, origin: int, base: seq<Posted>, said: string, i: Incoming, fuel: nat)
    returns (origin': int)
    requires IsUniversal(su, program, self, first, blank) && fuel > 20 && c.tape.blank == blank
    requires Scanning(m, program, self, requester, c, origin, base, said) && i.message == Scan(c)
    ensures Stepped(m, Dispatch(su, m, i.from, i.to, i.message, fuel), |Own(m.outbox, Key(self))|, program, self,
                    requester, c, origin', base, said)
  {
    origin' := origin;
    if Step(program, c).Some? {
      origin' := RuleStep(su, m, program, self, requester, first, blank, c, origin, base, said, i, fuel);
    } else {
      var symbol := Cell(c.tape, c.tape.head);
      assert symbol == m.env.tape.cells[m.env.tape.pos];
      SymbolUnhandled(su, m, program, self, first, blank, c.state, symbol, i.from, i.to, fuel);
    }
  }

  /** In a turn of an undisturbed machine nothing but a pulse comes before the message is handled. */
  lemma UndisturbedTurn<E>(su: Setup<E>, m: M<E>, now: int, i: Incoming, fuel: nat)
    requires Undisturbed(m)
    ensures Undisturbed(Pulse(su, m, now))
    ensures Iterate(su, m, Tick(now, None), fuel) == Done(Pulse(su, m, now))
    ensures Iterate(su, m, Tick(now, Some(i)), fuel)
         == HandleMessage(su, Pulse(su, m, now), now, i.from, i.to, i.message, fuel)
  {
    var m1 := Pulse(su, m, now);
    NoChildren(su, m, now, fuel);
    assert m1.outbox + DueNow(m1.queue, now) == m1.outbox;
    assert SendScheduled(m1, now) == m1;
  }

  lemma NoChildren<E>(su: Setup<E>, m: M<E>, now: int, fuel: nat)
    requires m.spawned == map[]
    ensures CheckChildren(su, m, now, fuel) == Done(m)
  {
    assert Overdue(m.spawned, now) == {};
  }

  lemma PulseFollows(su: Setup<World>, m: M<World>, now: int, taken: nat, program: Program, self: Address,
                     requester: Address, c: Configuration, origin: int, base: seq<Posted>, said: string)
    requires Follows(Loopback(m, taken), program, self, requester, c, origin, base, said)
    requires PulseStaysAway(su, m.last, now, Key(self))
    ensures Follows(Loopback(Pulse(su, m, now), taken), program, self, requester, c, origin, base, said)
  {
    PulseEchoes(su, m, now, Key(self));
  }

  /** The two machines differ in the history of messages only. */
  ghost predicate SameButHeard<E>(m: M<E>, m1: M<E>) {
    m1 == m.(heard := m1.heard)
  }

  /** A message that means nothing to the machine itself goes straight to the receivers. */
  lemma OtherMessage<E>(su: Setup<E>, m: M<E>, now: int, i: Incoming, fuel: nat) returns (m1: M<E>)
    requires KindOf(i.message) == Other
    ensures SameButHeard(m, m1)
    ensures HandleMessage(su, m, now, i.from, i.to, i.message, fuel) == Dispatch(su, m1, i.from, i.to, i.message, fuel)
  {
    m1 := Supervise(m, Hear(Print(i.from.ip, i.from.port), i.message, now));
  }

  lemma OtherTurn<E>(su: Setup<E>, m: M<E>, now: int, i: Incoming, fuel: nat) returns (m1: M<E>)
    requires Undisturbed(m) && KindOf(i.message) == Other
    ensures Undisturbed(m1) && SameButHeard(Pulse(su, m, now), m1)
    ensures Iterate(su, m, Tick(now, Some(i)), fuel) == Dispatch(su, m1, i.from, i.to, i.message, fuel)
  {
    UndisturbedTurn(su, m, now, i, fuel);
    m1 := OtherMessage(su, Pulse(su, m, now), now, i, fuel);
  }

  /** One symbol, from whichever of its addresses it comes: the machine makes the step the Turing machine makes
      and posts one message; where that one has no step, it reports an unhandled message and stops. What it
      is then waiting for does not count its pulse, should that come back. */
  lemma TurnIsSimulated(su: Setup<World>, b: Loopback, program: Program, self: Address, requester: Address, first: char,
                        blank: char, c: Configuration, origin: int, base: seq<Posted>, said: string,
                        i: Incoming, now: int, fuel: nat)
    returns (origin': int)
    requires IsUniversal(su, program, self, first, blank) && fuel > 20 && c.tape.blank == blank && c.state != HALT
    requires Follows(b, program, self, requester, c, origin, base, said) && i.message == Scan(c)
    ensures Stepped(Pulse(su, b.m, now), Iterate(su, b.m, Tick(now, Some(i)), fuel),
                    b.taken + 1 + |Echo(su, b.m.last, now, Key(self))|, program, self, requester, c, origin', base,
                        said)
  {
    assert Cell(c.tape, c.tape.head) == b.m.env.tape.cells[b.m.env.tape.pos];
    OneSymbolMessage(Cell(c.tape, c.tape.head));
    PulseEchoes(su, b.m, now, Key(self));
    var m1 := OtherTurn(su, b.m, now, i, fuel);
    origin' := SymbolStep(su, m1, program, self, requester, first, blank, c, origin, base, said, i, fuel);
  }

  /** One turn with the machine's own pending message. */
  lemma OwnTurnIsSimulated(su: Setup<World>, b: Loopback, program: Program, self: Address, requester: Address,
                           first: char, blank: char, c: Configuration, origin: int, base: seq<Posted>, said: string,
                           now: int, fuel: nat)
    returns (origin': int)
    requires IsUniversal(su, program, self, first, blank) && fuel > 20 && c.tape.blank == blank && c.state != HALT
    requires Follows(b, program, self, requester, c, origin, base, said)
    ensures Stepped(Pulse(su, b.m, now), TakeOwn(su, b, now, self, fuel),
                    b.taken + 1 + |Echo(su, b.m.last, now, Key(self))|, program, self, requester, c, origin', base,
                        said)
  {
    origin' := TurnIsSimulated(su, b, program, self, requester, first, blank, c, origin, base, said,
                               Incoming(Bound(Key(self)), self, Pending(b, self)[0]), now, fuel);
  }

  lemma ContinuedFollows(m: M<World>, program: Program, self: Address, requester: Address, blank: char, s: char,
                         d: Configuration, origin: int, base: seq<Posted>, said: string)
    requires Undisturbed(m) && m.env.requester == requester && StandsFor(m.env.tape, d.tape, origin)
    requires NoSpaces(m.env.tape.cells) && Application(m.outbox) == base + SymbolPosts(self, said)
    requires d.state == HALT || d.state in StatesOf(program)
    ensures Follows(Loopback(Continued(m, self, s, d.state), |Own(m.outbox, Key(self))|), program, self, requester, d,
                    origin, base, said + Scan(d))
    ensures Continued(m, self, s, d.state).outbox == m.outbox + [Report(self, requester, d, m.env)]
  {
    assert Symbol(m.env.tape) == [Cell(d.tape, d.tape.head)];
    SaidOneMore(base, self, said, Cell(d.tape, d.tape.head));
    assert said + "" == said;
    OneMore(m.outbox, Posted(self, Symbol(m.env.tape), false), Key(self));
    OneMore(m.outbox, Posted(requester, m.env.tape.cells, false), Key(self));
  }

  lemma SaidOneMore(base: seq<Posted>, self: Address, said: string, c: char)
    ensures base + SymbolPosts(self, said) + [Posted(self, [c], false)] == base + SymbolPosts(self, said + [c]) + []
  {
    assert SymbolPosts(self, said + [c]) == SymbolPosts(self, said) + [Posted(self, [c], false)];
  }

  // ---------- any number of symbols ----------

  /** Taking one's own messages, one after the other, at the given clock readings. */
  ghost function Answering(su: Setup<World>, self: Address, fuel: nat): (Loopback, int) -> Option<Loopback> {
    (b, now) =>
      match TakeOwn(su, b, now, self, fuel)
      case Done(m1) => Some(Loopback(m1, b.taken + 1))
      case _ => None
  }

  ghost function RunOn(su: Setup<World>, b: Loopback, self: Address, clocks: seq<int>, fuel: nat): Option<Loopback> {
    Answers(Answering(su, self, fuel), b, clocks)
  }

  /** The Turing machine, with a record of the symbols it has scanned. */
  datatype Telling = Telling(c: Configuration, said: string)

  function Tell(program: Program): Telling -> Option<Telling> {
    (t: Telling) =>
      match Step(program, t.c)
      case None => None
      case Some(d) => Some(Telling(d, t.said + Scan(d)))
  }

  lemma {:induction false} TellingIs(program: Program, c: Configuration, said: string, n: nat)
    requires Steps(program, c, n).Some?
    ensures Makes(Tell(program), Telling(c, said), n)
         == Some(Telling(Steps(program, c, n).value, said + Scanned(program, c, n)))
    decreases n
  {
    if n == 0 {
      assert said + "" == said;
    } else {
      var d := Stepping(program)(c).value;
      TellingIs(program, d, said + Scan(d), n - 1);
      assert said + Scan(d) + Scanned(program, d, n - 1) == said + (Scan(d) + Scanned(program, d, n - 1));
    }
  }

  /** No pulse comes back at this clock reading, as long as none has been sent since `last`. */
  function StaysAway(su: Setup<World>, last: int, self: Address): int -> bool {
    now => PulseStaysAway(su, last, now, Key(self))
  }

  ghost function Following(su: Setup<World>, program: Program, self: Address, requester: Address, blank: char,
                           base: seq<Posted>, last: int)
    : (Loopback, Telling) -> bool
  {
    (b: Loopback, t: Telling) =>
      && t.c.tape.blank == blank && (Key(su.parent) == Key(self) ==> b.m.last == last)
      && exists origin :: Follows(b, program, self, requester, t.c, origin, base, t.said)
  }

  lemma AnswersKeep(su: Setup<World>, program: Program, self: Address, requester: Address,
                    first: char, blank: char, base: seq<Posted>, last: int, fuel: nat)
    requires IsUniversal(su, program, self, first, blank) && fuel > 20
    ensures Keeps(Answering(su, self, fuel), Tell(program), Following(su, program, self, requester, blank, base, last),
                  StaysAway(su, last, self))
  {
    var answer, step := Answering(su, self, fuel), Tell(program);
    var follows := Following(su, program, self, requester, blank, base, last);
    forall b: Loopback, t: Telling, now: int | follows(b, t) && step(t).Some? && StaysAway(su, last, self)(now)
      ensures answer(b, now).Some? && follows(answer(b, now).value, step(t).value)
    {
      var origin :| Follows(b, program, self, requester, t.c, origin, base, t.said);
      var m', origin' := FollowsStep(su, b, program, self, requester, first, blank, t.c, step(t).value.c, origin,
                                     base, t.said, now, fuel);
    }
  }

  /** No pulse comes back at any of the clock readings. */
  ghost predicate PulsesStayAway(su: Setup<World>, last: int, clocks: seq<int>, self: Address) {
    forall i :: 0 <= i < |clocks| ==> PulseStaysAway(su, last, clocks[i], Key(self))
  }

  /** As long as none of its pulses comes back, after any number n of handled symbols the machine is where the
      Turing machine is after n steps, if that one makes them; exactly one message, the symbol under the head, is
      pending, and the application has posted one message for each symbol scanned and nothing else but, in the
      end, one answer. */
  lemma RunFollows(su: Setup<World>, b: Loopback, program: Program, self: Address, requester: Address, first: char,
                   blank: char, c: Configuration, origin: int, base: seq<Posted>, said: string,
                   clocks: seq<int>, fuel: nat)
    returns (origin': int)
    requires IsUniversal(su, program, self, first, blank) && fuel > 20 && c.tape.blank == blank
    requires Follows(b, program, self, requester, c, origin, base, said)
    requires Steps(program, c, |clocks|).Some? && PulsesStayAway(su, b.m.last, clocks, self)
    ensures var o := RunOn(su, b, self, clocks, fuel);
            o.Some? && Follows(o.value, program, self, requester, Steps(program, c, |clocks|).value, origin', base,
                               said + Scanned(program, c, |clocks|))
  {
    var answer, step := Answering(su, self, fuel), Tell(program);
    var follows := Following(su, program, self, requester, blank, base, b.m.last);
    var t := Telling(c, said);
    assert follows(b, t);
    AnswersKeep(su, program, self, requester, first, blank, base, b.m.last, fuel);
    TellingIs(program, c, said, |clocks|);
    ForwardSimulation(answer, step, follows, StaysAway(su, b.m.last, self), b, t, clocks);
    var b' := RunOn(su, b, self, clocks, fuel).value;
    var t' := Telling(Steps(program, c, |clocks|).value, said + Scanned(program, c, |clocks|));
    assert follows(b', t');
    origin' :| Follows(b', program, self, requester, t'.c, origin', base, t'.said);
  }

  lemma FollowsStep(su: Setup<World>, b: Loopback, program: Program, self: Address, requester: Address, first: char,
                    blank: char, c: Configuration, d: Configuration, origin: int, base: seq<Posted>, said: string,
                    now: int, fuel: nat)
    returns (m': M<World>, origin': int)
    requires IsUniversal(su, program, self, first, blank) && fuel > 20 && c.tape.blank == blank
    requires Follows(b, program, self, requester, c, origin, base, said) && Step(program, c) == Some(d)
    ensures TakeOwn(su, b, now, self, fuel) == Done(m') && m'.last == Pulse(su, b.m, now).last
    ensures Follows(Loopback(m', b.taken + 1 + |Echo(su, b.m.last, now, Key(self))|), program, self, requester, d,
                    origin',
                    base, said + Scan(d))
    ensures m'.outbox == Pulse(su, b.m, now).outbox + [Report(self, requester, d, m'.env)] && d.tape.blank == blank
  {
    origin' := OwnTurnIsSimulated(su, b, program, self, requester, first, blank, c, origin, base, said, now, fuel);
    m' := TakeOwn(su, b, now, self, fuel).value;
  }

  // ---------- the request that starts a computation ----------

  /** The first configuration for a request. */
  function Begin(first: char, text: string, blank: char): Configuration {
    Configuration(first, Inscribed(text, blank))
  }

  /** The machine after a request: the text is on the tape, and the first state has been entered. */
  function Requested(m: M<World>, self: Address, first: char, from: Address, text: string): M<World> {
    var tape := Assign(m.env.tape, text);
    Emit(m.(env := World(tape, from)), self, Symbol(tape), false).(
      current := [first], trace := m.trace + [Exited("Initial"), Entered([first])])
  }

  lemma LeavesInitial(su: Setup<World>, m: M<World>, program: Program, self: Address, first: char, blank: char,
                      fuel: nat)
    requires IsUniversal(su, program, self, first, blank) && m.current == "Initial" && fuel > 10
    ensures MakeTransition(su, m, [first], fuel)
         == Done(Emit(m, self, Symbol(m.env.tape), false).(
                   current := [first], trace := m.trace + [Exited("Initial"), Entered([first])]))
  {
    SpecialStates(su, program, self, first, blank);
    ProgramStates(su, program, self, first, blank, first);
    Noted(m, Exited("Initial"), Entered([first]));
    EnterProgramState(su, Note(Note(m, Exited("Initial")).(current := [first]), Entered([first])), program, self,
                      first, fuel - 2);
    RootTransition(su, m, [first], fuel, Emit(m, self, Symbol(m.env.tape), false).(
                     current := [first], trace := m.trace + [Exited("Initial"), Entered([first])]));
  }

  lemma RequestScript(su: Setup<World>, m: M<World>, program: Program, self: Address, first: char, blank: char,
                      from: Address, to: Address, text: string, fuel: nat)
    requires IsUniversal(su, program, self, first, blank) && m.current == "Initial" && fuel > 20
    ensures Run(su, m, InitialState(first).receivers[""](from, to, text), false, fuel)
         == Done(Requested(m, self, first, from, text))
  {
    var m1 := m.(env := World(Assign(m.env.tape, text), from));
    var m' := Requested(m, self, first, from, text);
    LeavesInitial(su, m1, program, self, first, blank, fuel - 4);
    assert m1.(stale := m1.stale || false) == m1;
    RunOne(su, m1, Transition([first]), false, fuel - 2, m');
    var script := InitialState(first).receivers[""](from, to, text);
    assert script == [script[0]] && script[0].Call?;
    assert script[0].run(m.env) == (m1.env, [Transition([first])]);
    RunCall(su, m, script[0].run, false, fuel, m');
  }

  lemma InitialReceives(su: Setup<World>, first: char, t: string)
    requires "Initial" in su.states && su.states["Initial"] == InitialState(first)
    requires t != "exit" && t != ""
    ensures Nearest(su.states, ["Initial"], t) == Some(Match("Initial", false))
  {
    assert t !in InitialState(first).receivers;
    assert "" in InitialState(first).receivers;
  }

  lemma RequestDispatched(su: Setup<World>, m: M<World>, program: Program, self: Address, first: char, blank: char,
                          i: Incoming, fuel: nat)
    requires IsUniversal(su, program, self, first, blank) && fuel > 20 && m.current == "Initial"
    requires KindOf(i.message) == Other && Symbols(i.message) != ""
    ensures Dispatch(su, m, i.from, i.to, i.message, fuel) == Done(Requested(m, self, first, i.from, i.message))
  {
    SpecialStates(su, program, self, first, blank);
    RootLineage(Parents(su.states), "Initial");
    RequestMessage(i.message);
    InitialReceives(su, first, Word(i.message));
    RequestScript(su, m, program, self, first, blank, i.from, i.to, i.message, fuel);
  }

  /** A request, which is any message that means nothing to the machine itself and has something to write
      on the tape, puts a machine that awaits one into the first configuration. */
  lemma RequestBegins(su: Setup<World>, m: M<World>, program: Program, self: Address, first: char, blank: char,
                      i: Incoming, now: int, fuel: nat)
    requires IsUniversal(su, program, self, first, blank) && fuel > 20
    requires Undisturbed(m) && m.current == "Initial" && m.env.tape.blank == blank
    requires KindOf(i.message) == Other && Symbols(i.message) != ""
    ensures var o, c := Iterate(su, m, Tick(now, Some(i)), fuel), Begin(first, i.message, blank);
            && o.Done? && o.value.last == Pulse(su, m, now).last
            && o.value.outbox == Pulse(su, m, now).outbox + [Posted(self, Scan(c), false)]
            && Follows(Loopback(o.value, |Own(m.outbox, Key(self)) + Echo(su, m.last, now, Key(self))|), program, self,
                       i.from, c, 0, Application(m.outbox), Scan(c))
  {
    var m1 := OtherTurn(su, m, now, i, fuel);
    PulseEchoes(su, m, now, Key(self));
    RequestDispatched(su, m1, program, self, first, blank, i, fuel);
    RequestedFollows(m1, program, self, first, blank, i.from, i.message);
  }

  lemma RequestedFollows(m: M<World>, program: Program, self: Address, first: char, blank: char,
                         from: Address, text: string)
    requires WellFormed(program, blank) && first in StatesOf(program)
    requires Undisturbed(m) && m.env.tape.blank == blank && Symbols(text) != ""
    ensures Follows(Loopback(Requested(m, self, first, from, text), |Own(m.outbox, Key(self))|), program, self, from,
                    Begin(first, text, blank), 0, Application(m.outbox), Scan(Begin(first, text, blank)))
    ensures Requested(m, self, first, from, text).outbox
         == m.outbox + [Posted(self, Scan(Begin(first, text, blank)), false)]
  {
    AssignStandsFor(m.env.tape, text);
    var tape := Assign(m.env.tape, text);
    var symbol := Cell(Inscribed(text, blank), 0);
    assert Symbol(tape) == [symbol];
    OneMore(m.outbox, Posted(self, Symbol(tape), false), Key(self));
    SaidOneMore(Application(m.outbox), self, "", symbol);
    assert Application(m.outbox) + SymbolPosts(self, "") == Application(m.outbox) && "" + [symbol] == [symbol];
  }

  lemma {:induction false} SymbolsLeft(text: string)
    ensures SkipSpaces(text) == "" ==> Symbols(text) == ""
  {
    if text != "" && IsSpace(text[0]) {
      SymbolsLeft(text[1..]);
    }
  }

  lemma RequestMessage(text: string)
    requires KindOf(text) == Other && Symbols(text) != ""
    ensures Word(text) != "" && Word(text) != "exit"
  {
    SymbolsLeft(text);
  }

  /** The code starts in the least state of the program; that is the state of the first quintuple, which the
      sample's documentation names, exactly when no quintuple has a smaller one. A null character, which the
      code takes for no state, only counts when there is no other. */
  lemma FirstStateIff(program: Program, first: char)
    requires program != [] && IsFirst(StatesOf(program), first)
    ensures var s := program[0].state;
            first == s <==> forall q :: q in program && q.state != NUL ==> s != NUL && s <= q.state
  {
    assert program[0] in program;
    assert forall q :: q in program ==> q.state in StatesOf(program);
  }
}
