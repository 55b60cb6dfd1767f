/** The sample's set-up: the loops that make states of the quintuples and add them to the machine. */
module UniversalObjects {
  import opened Addresses
  import opened Lineages
  import opened Machines
  import opened MachineObjects
  import opened Quietness
  import opened Universal

  lemma {:induction false} LeastCharExists(cs: set<char>)
    requires cs != {}
    ensures exists c :: c in cs && forall d :: d in cs ==> c <= d
  {
    var x :| x in cs;
    if cs != {x} {
      LeastCharExists(cs - {x});
      var c :| c in cs - {x} && forall d :: d in cs - {x} ==> c <= d;
      assert forall d :: d in cs ==> d == x || d in cs - {x};
      assert forall d :: d in cs ==> (if x <= c then x else c) <= d;
    }
  }

  /** The next key of an iteration over the table. */
  method LeastChar(cs: set<char>) returns (c: char)
    requires cs != {}
    ensures c in cs && forall d :: d in cs ==> c <= d
  {
    LeastCharExists(cs);
    c :| c in cs && forall d :: d in cs ==> c <= d;
  }

  /** The inner loop: the first quadruple for a symbol gets it. */
  method BuildReceivers(quads: seq<Quadruple>) returns (r: map<string, (Address, Address, string) -> Script<World>>)
    ensures r == Receivers(quads)
  {
    r := map[];
    var i := 0;
    while i < |quads|
      invariant 0 <= i <= |quads|
      invariant Receivers(quads[i..]) + r == Receivers(quads)
    {
      var key, receiver := [quads[i].read], SymbolReceiver(quads[i]);
      assert quads[i..][0] == quads[i] && quads[i..][1..] == quads[i + 1..];
      if key !in r {
        EmplaceOne(Receivers(quads[i + 1..]), r, key, receiver);
        r := r[key := receiver];
      } else {
        SkipOne(Receivers(quads[i + 1..]), r, key, receiver);
      }
      i := i + 1;
    }
  }

  lemma EmplaceOne<K, V>(rest: map<K, V>, r: map<K, V>, k: K, v: V)
    requires k !in r
    ensures rest[k := v] + r == rest + r[k := v]
  {
  }

  lemma SkipOne<K, V>(rest: map<K, V>, r: map<K, V>, k: K, v: V)
    requires k in r
    ensures rest[k := v] + r == rest + r
  {
  }

  lemma MadeOneMore(program: Program, self: Address, cs: set<char>, c: char)
    requires c !in cs
    ensures [c] !in Made(program, self, cs)
    ensures Made(program, self, cs + {c}) == Made(program, self, cs)[[c] := ProgramState(program, self, c)]
  {
    forall d | d in cs ensures [d] != [c] {
      assert [d][0] == d && [c][0] == c;
    }
  }

  ghost predicate Below(done: set<char>, rest: set<char>) {
    forall d, e :: d in done && e in rest ==> d < e
  }

  lemma FirstOneMore(done: set<char>, rest: set<char>, first: char, c: char)
    requires IsFirst(done, first) && Below(done, rest) && c in rest && forall d :: d in rest ==> c <= d
    ensures IsFirst(done + {c}, if first == NUL then c else first)
    ensures Below(done + {c}, rest - {c})
  {
  }

  /** The body of the loop over the table. */
  method AddProgramState(m: Machine<World>, program: Program, self: Address, c: char, quads: seq<Quadruple>,
                         ghost done: set<char>)
    requires m.states == Made(program, self, done) && c !in done && quads == QuadsOf(program, c)
    modifies m`states, m`current
    ensures m.states == Made(program, self, done + {c})
  {
    var receivers := BuildReceivers(quads);
    MadeOneMore(program, self, done, c);
    m.AddState(State([c], "", PostSymbol(self), [], receivers));
  }

  /** The loop over the table. */
  method AddProgramStates(m: Machine<World>, program: Program, self: Address, table: map<char, seq<Quadruple>>)
    returns (first: char)
    requires m.states == map[]
    requires table.Keys == StatesOf(program) && forall c :: c in table ==> table[c] == QuadsOf(program, c)
    modifies m`states, m`current
    ensures m.states == Made(program, self, StatesOf(program)) && IsFirst(StatesOf(program), first)
  {
    first := NUL;
    var rest := table.Keys;
    ghost var done: set<char> := {};
    while rest != {}
      invariant done == table.Keys - rest && rest <= table.Keys
      invariant m.states == Made(program, self, done)
      invariant IsFirst(done, first) && Below(done, rest)
      decreases |rest|
    {
      var c := LeastChar(rest);
      FirstOneMore(done, rest, first, c);
      if first == NUL {
        first := c;
      }
      assert table.Keys - (rest - {c}) == done + {c};
      AddProgramState(m, program, self, c, table[c], done);
      rest := rest - {c};
      done := table.Keys - rest;
    }
    assert done == table.Keys;
  }

  /** The states of the program, then the initial and the halting one. */
  method AddStates(m: Machine<World>, program: Program, self: Address) returns (first: char)
    requires m.states == map[]
    modifies m`states, m`current
    ensures IsFirst(StatesOf(program), first)
    ensures m.states == UniversalStates(program, self, first) && m.Valid()
    ensures QuietSetup(m.Config())
  {
    var table := BuildTable(program);
    first := AddProgramStates(m, program, self, table);
    m.AddState(InitialState(first));
    m.AddState(HaltState());
    Complete(Made(program, self, StatesOf(program)), InitialState(first), HaltState());
    OnlyRoots(program, self, first);
    RootsAreQuiet(m.Config());
  }

  /** A state is added under a name that is not taken. */
  function Added<V>(states: map<string, V>, name: string, v: V): map<string, V> {
    if name in states then states else states[name := v]
  }

  lemma Complete<V>(made: map<string, V>, initial: V, halt: V)
    ensures Added(Added(made, "Initial", initial), "H", halt) == map["Initial" := initial, "H" := halt] + made
  {
    assert |"H"| != |"Initial"|;
  }

  /** All states are roots without exit actions. */
  lemma OnlyRoots(program: Program, self: Address, first: char)
    ensures var states := UniversalStates(program, self, first);
            "" !in states && forall s :: s in states ==> states[s].parent == "" && states[s].onExit == []
  {
    forall c | c in StatesOf(program) ensures [c] != "" {
      assert |[c]| == 1;
    }
    assert |"Initial"| > 0 && |"H"| > 0;
  }

  /** Such a machine is acyclic, and its transitions never go out of date. */
  lemma RootsAreQuiet(su: Setup<World>)
    requires "" !in su.states && forall s :: s in su.states ==> su.states[s].parent == "" && su.states[s].onExit == []
    ensures Acyclic(Parents(su.states)) && QuietSetup(su)
  {
    assert Ranked(Parents(su.states), map s | s in su.states :: 0);
  }
}
