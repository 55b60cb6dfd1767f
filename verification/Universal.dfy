/** The universal Turing machine sample: a state machine built from quintuples, and the Turing machine it
    is meant to be. */
module Universal {
  import opened Text
  import opened Addresses
  import opened Machines
  import opened Tapes
  import opened Simulations

  datatype Quintuple = Quintuple(state: char, read: char, write: char, move: char, next: char)

  type Program = seq<Quintuple>

  // ---------- the Turing machine ----------

  datatype Configuration = Configuration(state: char, tape: Infinite)

  const HALT: char := 'H'

  /** The first quintuple for a state and a symbol. */
  function Rule(program: Program, state: char, read: char): (r: Option<Quintuple>)
    ensures r.Some? ==> r.value in program && r.value.state == state && r.value.read == read
  {
    if program == [] then None
    else if program[0].state == state && program[0].read == read then Some(program[0])
    else Rule(program[1..], state, read)
  }

  /** None when the machine has halted or no quintuple applies. */
  function Step(program: Program, c: Configuration): Option<Configuration> {
    if c.state == HALT then None else
      match Rule(program, c.state, Cell(c.tape, c.tape.head))
      case None => None
      case Some(q) => Some(Configuration(q.next, Shift(Mark(c.tape, q.write), q.move)))
  }

  predicate Applies(q: Quintuple, c: Configuration) {
    q.state == c.state && q.read == Cell(c.tape, c.tape.head)
  }

  /** The step the i-th quintuple describes: it is the first that applies; its symbol is written where the head was and
      nowhere else, and the head goes one cell to the left, one to the right, or stays. */
  ghost predicate Obeys(program: Program, c: Configuration, d: Configuration, i: nat) {
    && i < |program| && Applies(program[i], c) && (forall j :: 0 <= j < i ==> !Applies(program[j], c))
    && d.state == program[i].next
    && d.tape.head - c.tape.head == (match program[i].move case 'L' => -1 case 'R' => 1 case _ => 0)
    && d.tape.blank == c.tape.blank
    && forall k :: Cell(d.tape, k) == if k == c.tape.head then program[i].write else Cell(c.tape, k)
  }

  lemma {:induction false} RuleIs(program: Program, state: char, read: char) returns (i: nat)
    ensures i <= |program| && forall j :: 0 <= j < i ==> !(program[j].state == state && program[j].read == read)
    ensures Rule(program, state, read) == if i < |program| then Some(program[i]) else None
    ensures i < |program| ==> program[i].state == state && program[i].read == read
  {
    if program == [] || (program[0].state == state && program[0].read == read) {
      i := 0;
    } else {
      i := RuleIs(program[1..], state, read);
      i := i + 1;
      assert forall j :: 0 < j < |program| ==> program[j] == program[1..][j - 1];
    }
  }

  /** The Turing machine makes a step exactly when it is not in state H and some quintuple applies, and then the step
      of the first one that does. */
  lemma StepIs(program: Program, c: Configuration)
    ensures Step(program, c).Some? <==> c.state != 'H' && exists q :: q in program && Applies(q, c)
    ensures Step(program, c).Some? ==> exists i :: Obeys(program, c, Step(program, c).value, i)
  {
    var i := RuleIs(program, c.state, Cell(c.tape, c.tape.head));
    if i < |program| {
      assert Applies(program[i], c);
      if c.state != HALT {
        StepObeys(program, c, i);
      }
    }
  }

  lemma StepObeys(program: Program, c: Configuration, i: nat)
    requires c.state != HALT && i < |program| && Applies(program[i], c)
    requires forall j :: 0 <= j < i ==> !Applies(program[j], c)
    requires Rule(program, c.state, Cell(c.tape, c.tape.head)) == Some(program[i])
    ensures Obeys(program, c, Step(program, c).value, i)
  {
    var marked := Mark(c.tape, program[i].write);
    assert forall k :: Cell(marked, k) == if k == c.tape.head then program[i].write else Cell(c.tape, k);
    assert forall k :: Cell(Shift(marked, program[i].move), k) == Cell(marked, k);
  }

  function Stepping(program: Program): Configuration -> Option<Configuration> {
    c => Step(program, c)
  }

  ghost function Steps(program: Program, c: Configuration, n: nat): Option<Configuration> {
    Makes(Stepping(program), c, n)
  }

  // ---------- the table and the states made of it ----------

  /** What a quintuple says about its state. */
  datatype Quadruple = Quadruple(read: char, write: char, move: char, next: char)

  function Quad(q: Quintuple): Quadruple {
    Quadruple(q.read, q.write, q.move, q.next)
  }

  /** The quadruples of a state, in program order. */
  function QuadsOf(program: Program, state: char): seq<Quadruple> {
    if program == [] then [] else
      QuadsOf(program[..|program| - 1], state) +
      if program[|program| - 1].state == state then [Quad(program[|program| - 1])] else []
  }

  function StatesOf(program: Program): set<char> {
    set q | q in program :: q.state
  }

  lemma OneMoreQuintuple(program: Program, i: nat)
    requires i < |program|
    ensures StatesOf(program[..i + 1]) == StatesOf(program[..i]) + {program[i].state}
    ensures forall c :: QuadsOf(program[..i + 1], c) ==
                        QuadsOf(program[..i], c) + if program[i].state == c then [Quad(program[i])] else []
  {
    assert program[..i + 1][..i] == program[..i];
    assert forall q :: q in program[..i + 1] <==> q in program[..i] || q == program[i];
  }

  /** The loop that fills the `states` map. */
  method BuildTable(program: Program) returns (table: map<char, seq<Quadruple>>)
    ensures table.Keys == StatesOf(program)
    ensures forall c :: c in table ==> table[c] == QuadsOf(program, c)
  {
    table := map[];
    var i := 0;
    while i < |program|
      invariant 0 <= i <= |program|
      invariant table.Keys == StatesOf(program[..i])
      invariant forall c :: c in table ==> table[c] == QuadsOf(program[..i], c)
      invariant forall c :: c !in table ==> QuadsOf(program[..i], c) == []
    {
      var q := program[i];
      OneMoreQuintuple(program, i);
      if q.state !in table {
        table := table[q.state := [Quad(q)]];
      } else {
        table := table[q.state := table[q.state] + [Quad(q)]];
      }
      i := i + 1;
    }
    assert program[..i] == program;
  }

  /** The application's data: the tape, and who asked. */
  datatype World = World(tape: Tape, requester: Address)

  /** What the receiver of a symbol does to the tape. */
  function Obey(w: World, q: Quadruple): World {
    if !Valid(w.tape) then w else
      match Move(Write(w.tape, q.write), q.move)
      case Some(t) => w.(tape := t)
      case None => w
  }

  function SymbolReceiver(q: Quadruple): (Address, Address, string) -> Script<World> {
    (from, to, args) => [Call((w: World) => (Obey(w, q), [Transition([q.next])]))]
  }

  /** The receivers of a state; `emplace` keeps the first one for a symbol. */
  function Receivers(quads: seq<Quadruple>): map<string, (Address, Address, string) -> Script<World>> {
    if quads == [] then map[] else Receivers(quads[1..])[[quads[0].read] := SymbolReceiver(quads[0])]
  }

  function Symbol(t: Tape): string {
    if Valid(t) then [Read(t)] else ""
  }

  /** The entry action of a program state. */
  function PostSymbol(self: Address): Script<World> {
    [Call((w: World) => (w, [Post(self, Symbol(w.tape))]))]
  }

  function ProgramState(program: Program, self: Address, c: char): State<World> {
    State([c], "", PostSymbol(self), [], Receivers(QuadsOf(program, c)))
  }

  const NUL: char := 0 as char

  /** What the loop over the table leaves in `first_state`, where the null character counts as not set. */
  ghost predicate IsFirst(cs: set<char>, c: char) {
    if cs <= {NUL} then c == NUL
    else c in cs && c != NUL && forall d :: d in cs ==> d == NUL || c <= d
  }

  function InitialState(first: char): State<World> {
    State("Initial", "", [], [],
          map["exit" := (from: Address, to: Address, args: string) => [],
              "" := (from: Address, to: Address, args: string) =>
                [Call((w: World) => (World(Assign(w.tape, args), from), [Transition([first])]))]])
  }

  function HaltState(): State<World> {
    State("H", "", [Call((w: World) => (w, [Post(w.requester, w.tape.cells), Transition("Initial")]))], [], map[])
  }

  /** The machine's states after those of the given characters have been added. */
  function Made(program: Program, self: Address, cs: set<char>): map<string, State<World>> {
    map c | c in cs :: [c] := ProgramState(program, self, c)
  }

  /** A name that the program has taken keeps its state. */
  function UniversalStates(program: Program, self: Address, first: char): map<string, State<World>> {
    map["Initial" := InitialState(first), "H" := HaltState()] + Made(program, self, StatesOf(program))
  }

  // ---------- well-formed programs ----------

  /** No quintuple for the halting state, known directions, states that exist, and no spaces as symbols. */
  ghost predicate WellFormed(program: Program, blank: char) {
    && !IsSpace(blank)
    && forall q :: q in program ==>
         && q.state != HALT && IsDirection(q.move) && !IsSpace(q.write)
         && (q.next == HALT || q.next in StatesOf(program))
  }
}
