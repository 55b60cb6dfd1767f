/** Which scripts a transition runs, one after the other, and what machines make of them whose actions only post. */
module Actions {
  import opened Lineages
  import opened Machines
  import opened MachineRuns

  // ---------- one action after the other ----------

  /** Leaving state s is noting it and running the exit action of s. */
  ghost predicate Leaves<E>(su: Setup<E>, m: M<E>, s: string, fuel: nat, m': M<E>) {
    s in su.states && Run(su, m.(trace := m.trace + [Exited(s)]), su.states[s].onExit, true, fuel) == Done(m')
  }

  /** Entering it is noting it and running the entry action of s. */
  ghost predicate Comes<E>(su: Setup<E>, m: M<E>, s: string, pinned: bool, fuel: nat, m': M<E>) {
    s in su.states && Run(su, m.(trace := m.trace + [Entered(s)]), su.states[s].onEnter, pinned, fuel) == Done(m')
  }

  /** From m to m' by leaving the listed states, and nothing else: ms are the machines in between. */
  ghost predicate LeavesAll<E>(su: Setup<E>, m: M<E>, exits: seq<string>, m': M<E>, ms: seq<M<E>>, left: seq<nat>) {
    && |ms| == |exits| + 1 && |left| == |exits| && ms[0] == m && ms[|exits|] == m'
    && forall i :: 0 <= i < |exits| ==> Leaves(su, ms[i], exits[i], left[i], ms[i + 1])
  }

  ghost predicate ComesAll<E>(su: Setup<E>, m: M<E>, entries: seq<string>, m': M<E>, ms: seq<M<E>>, left: seq<nat>) {
    && |ms| == |entries| + 1 && |left| == |entries| && ms[0] == m && ms[|entries|] == m'
    && forall i :: 0 <= i < |entries| ==>
         Comes(su, ms[i], entries[i], i + 1 < |entries|, left[i], ms[i + 1])
  }

  lemma LeavesOneMore<E>(su: Setup<E>, m: M<E>, exits: seq<string>, m1: M<E>, m': M<E>, ms: seq<M<E>>,
                         left: seq<nat>, fuel: nat)
    requires exits != [] && Leaves(su, m, exits[0], fuel, m1) && LeavesAll(su, m1, exits[1..], m', ms, left)
    ensures LeavesAll(su, m, exits, m', [m] + ms, [fuel] + left)
  {
    forall i | 0 <= i < |exits| ensures Leaves(su, ([m] + ms)[i], exits[i], ([fuel] + left)[i], ([m] + ms)[i + 1]) {
      if i > 0 {
        assert Leaves(su, ms[i - 1], exits[1..][i - 1], left[i - 1], ms[i - 1 + 1]);
      }
    }
  }

  lemma ComesOneMore<E>(su: Setup<E>, m: M<E>, entries: seq<string>, m1: M<E>, m': M<E>, ms: seq<M<E>>,
                        left: seq<nat>, fuel: nat)
    requires entries != [] && Comes(su, m, entries[0], 1 < |entries|, fuel, m1)
    requires ComesAll(su, m1, entries[1..], m', ms, left)
    ensures ComesAll(su, m, entries, m', [m] + ms, [fuel] + left)
  {
    forall i | 0 <= i < |entries|
      ensures Comes(su, ([m] + ms)[i], entries[i], i + 1 < |entries|, ([fuel] + left)[i], ([m] + ms)[i + 1])
    {
      if i > 0 {
        assert Comes(su, ms[i - 1], entries[1..][i - 1], i - 1 + 1 < |entries[1..]|, left[i - 1], ms[i - 1 + 1]);
      }
    }
  }

  lemma {:induction false} ExitsInTurn<E>(su: Setup<E>, m: M<E>, exits: seq<string>, fuel: nat)
    returns (ms: seq<M<E>>, left: seq<nat>)
    requires ExitAll(su, m, exits, fuel).Done?
    ensures LeavesAll(su, m, exits, ExitAll(su, m, exits, fuel).value, ms, left)
    decreases fuel
  {
    if exits == [] {
      ms, left := [m], [];
    } else {
      var o := Run(su, Note(m, Exited(exits[0])), su.states[exits[0]].onExit, true, fuel - 1);
      ms, left := ExitsInTurn(su, o.value, exits[1..], fuel - 1);
      LeavesOneMore(su, m, exits, o.value, ExitAll(su, m, exits, fuel).value, ms, left, fuel - 1);
      ms, left := [m] + ms, [fuel - 1] + left;
    }
  }

  lemma {:induction false} EntriesInTurn<E>(su: Setup<E>, m: M<E>, entries: seq<string>, fuel: nat)
    returns (ms: seq<M<E>>, left: seq<nat>)
    requires EnterAll(su, m, entries, fuel).Done?
    ensures ComesAll(su, m, entries, EnterAll(su, m, entries, fuel).value, ms, left)
    decreases fuel
  {
    if entries == [] {
      ms, left := [m], [];
    } else {
      var o := Run(su, Note(m, Entered(entries[0])), su.states[entries[0]].onEnter, |entries| > 1, fuel - 1);
      ms, left := EntriesInTurn(su, o.value, entries[1..], fuel - 1);
      ComesOneMore(su, m, entries, o.value, EnterAll(su, m, entries, fuel).value, ms, left, fuel - 1);
      ms, left := [m] + ms, [fuel - 1] + left;
    }
  }

  /** A finished transition is the exit action of every state it leaves, one after the other from the current state
      upwards, then the entry action of every state it enters, down to the target; and nothing else. */
  lemma TransitionInTurn<E>(su: Setup<E>, m: M<E>, target: string, fuel: nat)
    returns (m1: M<E>, ms: seq<M<E>>, left: seq<nat>, ns: seq<M<E>>, more: seq<nat>)
    requires MakeTransition(su, m, target, fuel).Done?
    ensures Route(Parents(su.states), m.current, target).Some?
    ensures var (exits, entries) := Route(Parents(su.states), m.current, target).value;
            && LeavesAll(su, m, exits, m1, ms, left)
            && ComesAll(su, m1.(current := target), entries, MakeTransition(su, m, target, fuel).value, ns, more)
  {
    var (exits, entries) := Route(Parents(su.states), m.current, target).value;
    m1 := ExitAll(su, m, exits, fuel - 1).value;
    ms, left := ExitsInTurn(su, m, exits, fuel - 1);
    ns, more := EntriesInTurn(su, m1.(current := target), entries, fuel - 1);
  }

  /** After the loop, the exit action of every state still entered is run, from the current state upwards. */
  lemma FinalExitsInTurn<E>(su: Setup<E>, m: M<E>, ticks: seq<Tick>, fuel: nat)
    returns (m1: M<E>, ms: seq<M<E>>, left: seq<nat>)
    requires Stay(su, m, ticks, fuel).Done?
    ensures Loop(su, m, ticks, fuel) == Done(m1) && Lineage(Parents(su.states), m1.current).Some?
    ensures LeavesAll(su, m1, Lineage(Parents(su.states), m1.current).value, Stay(su, m, ticks, fuel).value, ms, left)
  {
    m1 := Loop(su, m, ticks, fuel).value;
    ms, left := ExitsInTurn(su, m1, Lineage(Parents(su.states), m1.current).value, fuel);
  }

  // ---------- actions that post ----------

  predicate OnlyPosts<E(!new)>(script: Script<E>) {
    forall i :: 0 <= i < |script| ==> script[i].Post?
  }

  /** What such a script posts. */
  function Words<E(!new)>(script: Script<E>): seq<Posted>
    requires OnlyPosts(script)
  {
    seq(|script|, i requires 0 <= i < |script| => Posted(script[i].to, script[i].message, false))
  }

  /** A machine whose entry and exit actions only post. */
  ghost predicate Posting<E(!new)>(su: Setup<E>) {
    forall s :: s in su.states ==> OnlyPosts(su.states[s].onEnter) && OnlyPosts(su.states[s].onExit)
  }

  ghost predicate AllKnown<E>(su: Setup<E>, l: seq<string>) {
    forall i :: 0 <= i < |l| ==> l[i] in su.states
  }

  ghost function ExitWords<E(!new)>(su: Setup<E>, exits: seq<string>): seq<Posted>
    requires Posting(su) && AllKnown(su, exits)
  {
    if exits == [] then [] else Words(su.states[exits[0]].onExit) + ExitWords(su, exits[1..])
  }

  ghost function EntryWords<E(!new)>(su: Setup<E>, entries: seq<string>): seq<Posted>
    requires Posting(su) && AllKnown(su, entries)
  {
    if entries == [] then [] else Words(su.states[entries[0]].onEnter) + EntryWords(su, entries[1..])
  }

  /** After the words and the happenings, and otherwise as before. */
  function Said<E>(m: M<E>, words: seq<Posted>, happenings: seq<Happening>): M<E> {
    m.(outbox := m.outbox + words, trace := m.trace + happenings)
  }

  lemma SaidTwice<E>(m: M<E>, a: seq<Posted>, b: seq<Posted>, h: seq<Happening>, i: seq<Happening>)
    ensures Said(Said(m, a, h), b, i) == Said(m, a + b, h + i)
  {
    assert m.outbox + a + b == m.outbox + (a + b);
    assert m.trace + h + i == m.trace + (h + i);
  }

  lemma {:induction false} RunSays<E(!new)>(su: Setup<E>, m: M<E>, script: Script<E>, pinned: bool, fuel: nat)
    requires OnlyPosts(script) && fuel >= |script|
    ensures Run(su, m, script, pinned, fuel) == Done(Said(m, Words(script), []))
    decreases fuel
  {
    if script == [] {
      assert Said(m, Words(script), []) == m;
    } else {
      var c := script[0];
      var word := [Posted(c.to, c.message, false)];
      assert m.trace + [] == m.trace;
      assert Execute(su, m, c, pinned, fuel - 1) == Done(Said(m, word, []));
      RunSays(su, Said(m, word, []), script[1..], pinned, fuel - 1);
      SaidTwice(m, word, Words(script[1..]), [], []);
      assert Words(script) == word + Words(script[1..]);
    }
  }

  lemma {:induction false} RunRunsOut<E(!new)>(su: Setup<E>, m: M<E>, script: Script<E>, pinned: bool, fuel: nat)
    requires OnlyPosts(script) && fuel < |script|
    ensures Run(su, m, script, pinned, fuel).Spent?
    decreases fuel
  {
    if fuel > 0 {
      var c := script[0];
      RunRunsOut(su, Emit(m, c.to, c.message, false), script[1..], pinned, fuel - 1);
    }
  }

  lemma {:induction false} ExitAllSays<E(!new)>(su: Setup<E>, m: M<E>, exits: seq<string>, fuel: nat)
    requires Posting(su) && ExitAll(su, m, exits, fuel).Done?
    ensures AllKnown(su, exits)
    ensures ExitAll(su, m, exits, fuel) == Done(Said(m, ExitWords(su, exits), Exits(exits)))
    decreases fuel
  {
    if exits == [] {
      assert Said(m, [], Exits(exits)) == m;
    } else {
      var s, m1 := exits[0], Said(m, [], [Exited(exits[0])]);
      var words := Words(su.states[s].onExit);
      assert m1 == Note(m, Exited(s));
      if fuel - 1 < |words| {
        RunRunsOut(su, m1, su.states[s].onExit, true, fuel - 1);
      } else {
        RunSays(su, m1, su.states[s].onExit, true, fuel - 1);
      }
      SaidTwice(m, [], words, [Exited(s)], []);
      var m2 := Said(m, [] + words, [Exited(s)] + []);
      ExitAllSays(su, m2, exits[1..], fuel - 1);
      AllKnownMore(su, exits);
      SaidTwice(m, [] + words, ExitWords(su, exits[1..]), [Exited(s)] + [], Exits(exits[1..]));
      assert [] + words + ExitWords(su, exits[1..]) == ExitWords(su, exits);
      assert [Exited(s)] + [] + Exits(exits[1..]) == Exits(exits);
    }
  }

  lemma AllKnownMore<E>(su: Setup<E>, l: seq<string>)
    requires l != [] && l[0] in su.states && AllKnown(su, l[1..])
    ensures AllKnown(su, l)
  {
    forall i | 0 <= i < |l| ensures l[i] in su.states {
      if i > 0 {
        assert l[i] == l[1..][i - 1];
      }
    }
  }

  lemma {:induction false} EnterAllSays<E(!new)>(su: Setup<E>, m: M<E>, entries: seq<string>, fuel: nat)
    requires Posting(su) && EnterAll(su, m, entries, fuel).Done?
    ensures AllKnown(su, entries)
    ensures EnterAll(su, m, entries, fuel) == Done(Said(m, EntryWords(su, entries), Enters(entries)))
    decreases fuel
  {
    if entries == [] {
      assert Said(m, [], Enters(entries)) == m;
    } else {
      var s, m1 := entries[0], Said(m, [], [Entered(entries[0])]);
      var words := Words(su.states[s].onEnter);
      assert m1 == Note(m, Entered(s));
      if fuel - 1 < |words| {
        RunRunsOut(su, m1, su.states[s].onEnter, |entries| > 1, fuel - 1);
      } else {
        RunSays(su, m1, su.states[s].onEnter, |entries| > 1, fuel - 1);
      }
      SaidTwice(m, [], words, [Entered(s)], []);
      var m2 := Said(m, [] + words, [Entered(s)] + []);
      EnterAllSays(su, m2, entries[1..], fuel - 1);
      AllKnownMore(su, entries);
      SaidTwice(m, [] + words, EntryWords(su, entries[1..]), [Entered(s)] + [], Enters(entries[1..]));
      assert [] + words + EntryWords(su, entries[1..]) == EntryWords(su, entries);
      assert [Entered(s)] + [] + Enters(entries[1..]) == Enters(entries);
    }
  }

  /** A transition of a machine whose actions only post adds to its posts exactly those of the exit actions on the
      route, in order, and those of the entry actions after them, and changes nothing else but the current state. */
  lemma TransitionSays<E(!new)>(su: Setup<E>, m: M<E>, target: string, fuel: nat)
    requires Posting(su) && MakeTransition(su, m, target, fuel).Done?
    ensures Route(Parents(su.states), m.current, target).Some?
    ensures var (exits, entries) := Route(Parents(su.states), m.current, target).value;
            && AllKnown(su, exits) && AllKnown(su, entries)
            && MakeTransition(su, m, target, fuel).value ==
                 m.(current := target, outbox := m.outbox + (ExitWords(su, exits) + EntryWords(su, entries)),
                    trace := m.trace + (Exits(exits) + Enters(entries)))
  {
    var (exits, entries) := Route(Parents(su.states), m.current, target).value;
    ExitAllSays(su, m, exits, fuel - 1);
    var m1 := ExitAll(su, m, exits, fuel - 1).value.(current := target);
    EnterAllSays(su, m1, entries, fuel - 1);
    SaidTwice(m.(current := target), ExitWords(su, exits), EntryWords(su, entries), Exits(exits), Enters(entries));
  }
}
