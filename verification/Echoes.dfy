/** Exactly when the universal machine follows the Turing machine: as long as none of its pulses comes back. */
module Echoes {
  import opened Text
  import opened Addresses
  import opened Machines
  import opened Children
  import opened Posts
  import opened Simulations
  import opened Tapes
  import opened Universal
  import opened UniversalRuns

  // ---------- one turn ----------

  /** How many messages have been taken can be read off the machine. */
  lemma TakenIsUnique(m: M<World>, t: nat, t': nat, program: Program, self: Address, requester: Address,
                      d: Configuration, origin: int, origin': int, base: seq<Posted>, said: string)
    requires Follows(Loopback(m, t), program, self, requester, d, origin, base, said)
    requires Follows(Loopback(m, t'), program, self, requester, d, origin', base, said)
    ensures t == t'
  {
  }

  lemma SteppedIsUnique(m: M<World>, o: Outcome<M<World>>, t: nat, t': nat, program: Program, self: Address,
                        requester: Address, c: Configuration, origin: int, origin': int, base: seq<Posted>,
                            said: string)
    requires Stepped(m, o, t, program, self, requester, c, origin, base, said)
    requires Stepped(m, o, t', program, self, requester, c, origin', base, said)
    ensures t == t'
  {
    if Step(program, c).Some? {
      TakenIsUnique(o.value, t, t', program, self, requester, Step(program, c).value, origin, origin', base,
                    said + Scan(Step(program, c).value));
    }
  }

  /** The turn with the machine's own pending message is the Turing machine's step, and leaves nothing else
      pending. */
  ghost predicate TurnIsStep(su: Setup<World>, b: Loopback, program: Program, self: Address, requester: Address,
                             c: Configuration, origin: int, base: seq<Posted>, said: string, now: int, fuel: nat) {
    Stepped(Pulse(su, b.m, now), TakeOwn(su, b, now, self, fuel), b.taken + 1, program, self, requester, c, origin,
            base,
            said)
  }

  /** One turn with the machine's own pending message, whoever its parent is: the machine makes the Turing
      machine's step, or reports an unhandled message where there is none, and has nothing else pending, if and
      only if the machine is not its own parent or no pulse is due. */
  lemma StepIsSimulated(su: Setup<World>, b: Loopback, program: Program, self: Address, requester: Address, first: char,
                        blank: char, c: Configuration, origin: int, base: seq<Posted>, said: string,
                        now: int, fuel: nat)
    requires IsUniversal(su, program, self, first, blank) && fuel > 20 && c.tape.blank == blank && c.state != HALT
    requires Follows(b, program, self, requester, c, origin, base, said)
    ensures (exists origin' :: TurnIsStep(su, b, program, self, requester, c, origin', base, said, now, fuel))
       <==> Key(su.parent) != Key(self) || now - b.m.last <= PULSE_INTERVAL
  {
    var m, o := Pulse(su, b.m, now), TakeOwn(su, b, now, self, fuel);
    var t := b.taken + 1 + |Echo(su, b.m.last, now, Key(self))|;
    var origin1 := OwnTurnIsSimulated(su, b, program, self, requester, first, blank, c, origin, base, said, now, fuel);
    if PulseStaysAway(su, b.m.last, now, Key(self)) {
      assert TurnIsStep(su, b, program, self, requester, c, origin1, base, said, now, fuel);
    }
    forall origin' | TurnIsStep(su, b, program, self, requester, c, origin', base, said, now, fuel)
      ensures t == b.taken + 1
    {
      SteppedIsUnique(m, o, t, b.taken + 1, program, self, requester, c, origin1, origin', base, said);
    }
  }

  // ---------- a pulse that has come back ----------

  /** Symbols are the only keys of a program state. */
  lemma {:induction false} KeysAreSymbols(quads: seq<Quadruple>, key: string)
    requires key in Receivers(quads)
    ensures |key| == 1
  {
    if key != [quads[0].read] {
      KeysAreSymbols(quads[1..], key);
    }
  }

  lemma PulseText(name: string)
    ensures KindOf("pulsed " + name) == ChildPulsed && Word("pulsed " + name) == "pulsed"
  {
    var w := "pulsed";
    PulsedMeans(name);
    Said(w, name);
    assert w + " " + name == "pulsed " + name;
  }

  lemma PulseIsUnhandled(su: Setup<World>, m: M<World>, program: Program, self: Address, first: char, blank: char,
                         s: char, from: Address, to: Address, message: string, fuel: nat)
    requires IsUniversal(su, program, self, first, blank) && m.current == [s] && s in StatesOf(program)
    requires Word(message) == "pulsed" && KindOf(message) == ChildPulsed
    ensures Dispatch(su, m, from, to, message, fuel) == Done(Fail(m, "Unhandled message: " + Word(message)))
  {
    ProgramStates(su, program, self, first, blank, s);
    RootLineage(Parents(su.states), [s]);
    if "pulsed" in ProgramState(program, self, s).receivers {
      KeysAreSymbols(QuadsOf(program, s), "pulsed");
    }
    if "" in ProgramState(program, self, s).receivers {
      KeysAreSymbols(QuadsOf(program, s), "");
    }
    NoneNearest(su.states, [s], "pulsed");
  }

  /** In a program state the pulse that has come back is an unhandled message, and stops the machine. */
  lemma PulseStops(su: Setup<World>, m: M<World>, program: Program, self: Address, first: char, blank: char,
                   s: char, i: Incoming, now: int, fuel: nat)
    requires IsUniversal(su, program, self, first, blank) && Undisturbed(m) && m.current == [s]
        && s in StatesOf(program)
    requires i.message == "pulsed " + su.name
    ensures var o := Iterate(su, m, Tick(now, Some(i)), fuel); o.Done? && !o.value.running
  {
    UndisturbedTurn(su, m, now, i, fuel);
    PulseText(su.name);
    var m1 := Supervise(Pulse(su, m, now), Hear(Print(i.from.ip, i.from.port), i.message, now));
    PulseIsUnhandled(su, m1, program, self, first, blank, s, i.from, i.to, i.message, fuel);
  }

  /** The machine follows the configuration, but for a pulse of its own that is pending before its message. */
  ghost predicate Echoed(su: Setup<World>, b: Loopback, program: Program, self: Address, requester: Address,
                         c: Configuration, origin: int, base: seq<Posted>, said: string) {
    && Follows(Loopback(b.m, b.taken + 1), program, self, requester, c, origin, base, said)
    && Pending(b, self) != [] && Pending(b, self)[0] == "pulsed " + su.name
  }

  lemma AnswersOnce<S, I>(answer: (S, I) -> Option<S>, s: S, inputs: seq<I>)
    requires inputs != []
    ensures Answers(answer, s, inputs) ==
            if answer(s, inputs[0]).Some? then Answers(answer, answer(s, inputs[0]).value, inputs[1..]) else None
  {
  }

  lemma RunOnOnce(su: Setup<World>, b: Loopback, self: Address, clocks: seq<int>, fuel: nat)
    requires clocks != []
    ensures RunOn(su, b, self, clocks, fuel) ==
            var o := TakeOwn(su, b, clocks[0], self, fuel);
            if o.Done? then RunOn(su, Loopback(o.value, b.taken + 1), self, clocks[1..], fuel) else None
  {
    AnswersOnce(Answering(su, self, fuel), b, clocks);
    AnsweringIs(su, b, self, clocks[0], fuel);
  }

  lemma AnsweringIs(su: Setup<World>, b: Loopback, self: Address, now: int, fuel: nat)
    ensures Answering(su, self, fuel)(b, now) ==
            var o := TakeOwn(su, b, now, self, fuel);
            if o.Done? then Some(Loopback(o.value, b.taken + 1)) else None
  {
  }

  /** A stopped machine takes nothing. */
  lemma StoppedStays(su: Setup<World>, b: Loopback, self: Address, clocks: seq<int>, fuel: nat)
    requires !b.m.running
    ensures var o := RunOn(su, b, self, clocks, fuel); o.Some? ==> !o.value.m.running
  {
    if clocks != [] {
      RunOnOnce(su, b, self, clocks, fuel);
    }
  }

  /** All the turns were made, and the machine follows the configuration. */
  ghost predicate ArrivedAt(o: Option<Loopback>, program: Program, self: Address, requester: Address,
                            c: Configuration, base: seq<Posted>, said: string) {
    o.Some? && exists origin :: Follows(o.value, program, self, requester, c, origin, base, said)
  }

  /** The machine makes all the turns and follows the Turing machine. */
  ghost predicate Arrives(su: Setup<World>, b: Loopback, program: Program, self: Address, requester: Address,
                          c: Configuration, base: seq<Posted>, said: string, clocks: seq<int>, fuel: nat)
    requires Steps(program, c, |clocks|).Some?
  {
    ArrivedAt(RunOn(su, b, self, clocks, fuel), program, self, requester, Steps(program, c, |clocks|).value, base,
              said + Scanned(program, c, |clocks|))
  }

  lemma StepsAtLeast(program: Program, c: Configuration, n: nat) returns (d: Configuration)
    requires n > 0 && Steps(program, c, n).Some?
    ensures Step(program, c) == Some(d) && Steps(program, d, n - 1) == Steps(program, c, n)
    ensures Scanned(program, c, n) == Scan(d) + Scanned(program, d, n - 1)
  {
    d := Stepping(program)(c).value;
  }

  lemma EchoedTakesPulse(su: Setup<World>, b: Loopback, program: Program, self: Address, requester: Address,
                         first: char, blank: char, c: Configuration, origin: int, base: seq<Posted>, said: string,
                         now: int, fuel: nat)
    requires IsUniversal(su, program, self, first, blank) && c.state != HALT
    requires Echoed(su, b, program, self, requester, c, origin, base, said)
    ensures var o := TakeOwn(su, b, now, self, fuel); o.Done? && !o.value.running
  {
    PulseStops(su, b.m, program, self, first, blank, c.state, Incoming(Bound(Key(self)), self, Pending(b, self)[0]),
               now, fuel);
  }

  lemma EchoedIsNotThere(su: Setup<World>, b: Loopback, program: Program, self: Address, requester: Address,
                         c: Configuration, origin: int, base: seq<Posted>, said: string)
    requires Echoed(su, b, program, self, requester, c, origin, base, said)
    ensures !ArrivedAt(Some(b), program, self, requester, c, base, said)
  {
    forall origin' ensures !Follows(b, program, self, requester, c, origin', base, said) {
    }
  }

  lemma StoppedIsNotThere(o: Option<Loopback>, program: Program, self: Address, requester: Address,
                          c: Configuration, base: seq<Posted>, said: string)
    requires o.Some? ==> !o.value.m.running
    ensures !ArrivedAt(o, program, self, requester, c, base, said)
  {
  }

  /** Once a pulse is pending before its message, the machine never follows the Turing machine again. */
  lemma EchoedNeverArrives(su: Setup<World>, b: Loopback, program: Program, self: Address, requester: Address,
                           first: char, blank: char, c: Configuration, origin: int, base: seq<Posted>, said: string,
                           clocks: seq<int>, end: Configuration, told: string, fuel: nat)
    requires IsUniversal(su, program, self, first, blank) && Steps(program, c, |clocks|) == Some(end)
    requires told == said + Scanned(program, c, |clocks|)
    requires Echoed(su, b, program, self, requester, c, origin, base, said)
    ensures !ArrivedAt(RunOn(su, b, self, clocks, fuel), program, self, requester, end, base, told)
  {
    if clocks == [] {
      assert told == said && RunOn(su, b, self, clocks, fuel) == Some(b);
      EchoedIsNotThere(su, b, program, self, requester, c, origin, base, said);
    } else {
      var d := StepsAtLeast(program, c, |clocks|);
      EchoedTakesPulse(su, b, program, self, requester, first, blank, c, origin, base, said, clocks[0], fuel);
      RunOnOnce(su, b, self, clocks, fuel);
      StoppedStays(su, Loopback(TakeOwn(su, b, clocks[0], self, fuel).value, b.taken + 1), self, clocks[1..], fuel);
      StoppedIsNotThere(RunOn(su, b, self, clocks, fuel), program, self, requester, end, base, told);
    }
  }

  // ---------- any number of turns ----------

  /** The turn in which a pulse comes back. */
  lemma EchoTurn(su: Setup<World>, b: Loopback, program: Program, self: Address, requester: Address, first: char,
                 blank: char, c: Configuration, d: Configuration, origin: int, base: seq<Posted>, said: string,
                 now: int, fuel: nat)
    returns (m': M<World>, origin': int)
    requires IsUniversal(su, program, self, first, blank) && fuel > 20 && c.tape.blank == blank
    requires Follows(b, program, self, requester, c, origin, base, said) && Step(program, c) == Some(d)
    requires !PulseStaysAway(su, b.m.last, now, Key(self))
    ensures TakeOwn(su, b, now, self, fuel) == Done(m')
    ensures Echoed(su, Loopback(m', b.taken + 1), program, self, requester, d, origin', base, said + Scan(d))
  {
    m', origin' := FollowsStep(su, b, program, self, requester, first, blank, c, d, origin, base, said, now, fuel);
    PulseEchoes(su, b.m, now, Key(self));
    OneMore(Pulse(su, b.m, now).outbox, Report(self, requester, d, m'.env), Key(self));
  }

  /** Without a due pulse, for a machine that is its own parent, the last pulse stays the last one. */
  lemma LastStays(su: Setup<World>, m: M<World>, now: int, self: Address, m': M<World>)
    requires PulseStaysAway(su, m.last, now, Key(self)) && m'.last == Pulse(su, m, now).last
    ensures Key(su.parent) == Key(self) ==> m'.last == m.last
  {
  }

  /** The first of several turns: the machine follows the Turing machine's step, or its pulse has come back. */
  lemma FirstTurn(su: Setup<World>, b: Loopback, program: Program, self: Address, requester: Address, first: char,
                  blank: char, c: Configuration, d: Configuration, origin: int, base: seq<Posted>, said: string,
                  clocks: seq<int>, fuel: nat)
    returns (b': Loopback, origin': int)
    requires IsUniversal(su, program, self, first, blank) && fuel > 20 && c.tape.blank == blank
    requires Follows(b, program, self, requester, c, origin, base, said)
    requires clocks != [] && Step(program, c) == Some(d)
    ensures RunOn(su, b, self, clocks, fuel) == RunOn(su, b', self, clocks[1..], fuel) && d.tape.blank == blank
    ensures if PulseStaysAway(su, b.m.last, clocks[0], Key(self)) then
              && Follows(b', program, self, requester, d, origin', base, said + Scan(d))
              && (Key(su.parent) == Key(self) ==> b'.m.last == b.m.last)
            else
              Echoed(su, b', program, self, requester, d, origin', base, said + Scan(d))
  {
    RunOnOnce(su, b, self, clocks, fuel);
    var m';
    m', origin' := FollowsStep(su, b, program, self, requester, first, blank, c, d, origin, base, said, clocks[0],
                               fuel);
    b' := Loopback(m', b.taken + 1);
    if PulseStaysAway(su, b.m.last, clocks[0], Key(self)) {
      LastStays(su, b.m, clocks[0], self, m');
    } else {
      m', origin' := EchoTurn(su, b, program, self, requester, first, blank, c, d, origin, base, said, clocks[0], fuel);
    }
  }

  lemma {:induction false} RunDiverges(su: Setup<World>, b: Loopback, program: Program, self: Address,
                                       requester: Address, first: char, blank: char, c: Configuration, origin: int,
                                       base: seq<Posted>, said: string, clocks: seq<int>, end: Configuration,
                                       told: string, fuel: nat)
    requires IsUniversal(su, program, self, first, blank) && fuel > 20 && c.tape.blank == blank
    requires Follows(b, program, self, requester, c, origin, base, said)
    requires Steps(program, c, |clocks|) == Some(end) && told == said + Scanned(program, c, |clocks|)
    requires !PulsesStayAway(su, b.m.last, clocks, self)
    ensures !ArrivedAt(RunOn(su, b, self, clocks, fuel), program, self, requester, end, base, told)
    decreases |clocks|
  {
    var d := OneTold(program, c, said, clocks, end, told);
    var b', origin' := FirstTurn(su, b, program, self, requester, first, blank, c, d, origin, base, said, clocks, fuel);
    if PulseStaysAway(su, b.m.last, clocks[0], Key(self)) {
      RestDoesNotStayAway(su, b.m.last, b'.m.last, clocks, self);
      RunDiverges(su, b', program, self, requester, first, blank, d, origin', base, said + Scan(d), clocks[1..], end,
                  told, fuel);
    } else {
      EchoedNeverArrives(su, b', program, self, requester, first, blank, d, origin', base, said + Scan(d), clocks[1..],
                         end, told, fuel);
    }
  }

  lemma SaidInOrder(a: string, b: string, c: string)
    ensures a + b + c == a + (b + c)
  {
  }

  lemma OneTold(program: Program, c: Configuration, said: string, clocks: seq<int>, end: Configuration, told: string)
    returns (d: Configuration)
    requires clocks != [] && Steps(program, c, |clocks|) == Some(end)
    requires told == said + Scanned(program, c, |clocks|)
    ensures Step(program, c) == Some(d) && Steps(program, d, |clocks[1..]|) == Some(end)
    ensures told == said + Scan(d) + Scanned(program, d, |clocks[1..]|)
  {
    d := StepsAtLeast(program, c, |clocks|);
    SaidInOrder(said, Scan(d), Scanned(program, d, |clocks| - 1));
  }

  lemma RestDoesNotStayAway(su: Setup<World>, last: int, last': int, clocks: seq<int>, self: Address)
    requires clocks != [] && !PulsesStayAway(su, last, clocks, self) && PulseStaysAway(su, last, clocks[0], Key(self))
    requires Key(su.parent) == Key(self) ==> last' == last
    ensures !PulsesStayAway(su, last', clocks[1..], self)
  {
    var i :| 0 <= i < |clocks| && !PulseStaysAway(su, last, clocks[i], Key(self));
    assert clocks[1..][i - 1] == clocks[i];
  }

  /** Whoever the parent is: with its own messages at the given clock readings the machine arrives where the
      Turing machine is after as many steps, with exactly one message, the symbol under the head, pending, and
      with one message posted for each symbol scanned and one answer in the end, if and only if the machine is
      not its own parent or no pulse becomes due. */
  lemma RunIsSimulated(su: Setup<World>, b: Loopback, program: Program, self: Address, requester: Address, first: char,
                       blank: char, c: Configuration, origin: int, base: seq<Posted>, said: string,
                       clocks: seq<int>, fuel: nat)
    requires IsUniversal(su, program, self, first, blank) && fuel > 20 && c.tape.blank == blank
    requires Follows(b, program, self, requester, c, origin, base, said) && Steps(program, c, |clocks|).Some?
    ensures Arrives(su, b, program, self, requester, c, base, said, clocks, fuel) <==>
            Key(su.parent) != Key(self) || forall i :: 0 <= i < |clocks| ==> clocks[i] - b.m.last <= PULSE_INTERVAL
  {
    if PulsesStayAway(su, b.m.last, clocks, self) {
      var origin' := RunFollows(su, b, program, self, requester, first, blank, c, origin, base, said, clocks, fuel);
    } else {
      RunDiverges(su, b, program, self, requester, first, blank, c, origin, base, said, clocks,
                  Steps(program, c, |clocks|).value, said + Scanned(program, c, |clocks|), fuel);
    }
  }

  /** At all clock readings, if and only if the machine is not its own parent, or has no step to make. */
  lemma AllRunsAreSimulated(su: Setup<World>, b: Loopback, program: Program, self: Address, requester: Address,
                            first: char, blank: char, c: Configuration, origin: int, base: seq<Posted>, said: string,
                            fuel: nat)
    requires IsUniversal(su, program, self, first, blank) && fuel > 20 && c.tape.blank == blank
    requires Follows(b, program, self, requester, c, origin, base, said)
    ensures (forall clocks :: Steps(program, c, |clocks|).Some? ==>
               Arrives(su, b, program, self, requester, c, base, said, clocks, fuel))
       <==> Key(su.parent) != Key(self) || Step(program, c).None?
  {
    if Key(su.parent) != Key(self) || Step(program, c).None? {
      forall clocks: seq<int> | Steps(program, c, |clocks|).Some?
        ensures Arrives(su, b, program, self, requester, c, base, said, clocks, fuel)
      {
        if Step(program, c).None? && clocks != [] {
          var d := StepsAtLeast(program, c, |clocks|);
        }
        RunIsSimulated(su, b, program, self, requester, first, blank, c, origin, base, said, clocks, fuel);
      }
    } else {
      var clocks := [b.m.last + PULSE_INTERVAL + 1];
      OneStep(program, c);
      assert clocks[0] - b.m.last > PULSE_INTERVAL;
      RunIsSimulated(su, b, program, self, requester, first, blank, c, origin, base, said, clocks, fuel);
    }
  }

  lemma OneStep(program: Program, c: Configuration)
    requires Step(program, c).Some?
    ensures Steps(program, c, 1) == Step(program, c)
  {
    var d := Stepping(program)(c).value;
    assert Makes(Stepping(program), d, 0) == Some(d);
  }

  // ---------- from the request on ----------

  /** The pulse of the request's turn is pending before the first symbol. */
  lemma EchoedAtOnce(su: Setup<World>, m: M<World>, m1: M<World>, now: int, self: Address, symbol: string)
    requires m1.outbox == Pulse(su, m, now).outbox + [Posted(self, symbol, false)]
    requires !PulseStaysAway(su, m.last, now, Key(self))
    ensures Pending(Loopback(m1, |Own(m.outbox, Key(self))|), self) == ["pulsed " + su.name, symbol]
    ensures |Own(m.outbox, Key(self)) + Echo(su, m.last, now, Key(self))| == |Own(m.outbox, Key(self))| + 1
  {
    PulseEchoes(su, m, now, Key(self));
    OneMore(Pulse(su, m, now).outbox, Posted(self, symbol, false), Key(self));
  }

  /** The machine after a request that its pulse did not precede. */
  lemma RequestIsFollowed(su: Setup<World>, m: M<World>, program: Program, self: Address, first: char, blank: char,
                          i: Incoming, now: int, fuel: nat) returns (m1: M<World>)
    requires IsUniversal(su, program, self, first, blank) && fuel > 20
    requires Undisturbed(m) && m.current == "Initial" && m.env.tape.blank == blank
    requires KindOf(i.message) == Other && Symbols(i.message) != ""
    ensures Iterate(su, m, Tick(now, Some(i)), fuel) == Done(m1)
    ensures var c0, b0 := Begin(first, i.message, blank), Loopback(m1, |Own(m.outbox, Key(self))|);
            if PulseStaysAway(su, m.last, now, Key(self)) then
              && Follows(b0, program, self, i.from, c0, 0, Application(m.outbox), Scan(c0))
              && (Key(su.parent) == Key(self) ==> m1.last == m.last)
            else
              Echoed(su, b0, program, self, i.from, c0, 0, Application(m.outbox), Scan(c0))
  {
    RequestBegins(su, m, program, self, first, blank, i, now, fuel);
    m1 := Iterate(su, m, Tick(now, Some(i)), fuel).value;
    FollowedOrEchoed(su, m, m1, program, self, i.from, Begin(first, i.message, blank), now);
  }

  lemma FollowedOrEchoed(su: Setup<World>, m: M<World>, m1: M<World>, program: Program, self: Address,
                         requester: Address, c0: Configuration, now: int)
    requires m1.last == Pulse(su, m, now).last
    requires m1.outbox == Pulse(su, m, now).outbox + [Posted(self, Scan(c0), false)]
    requires Follows(Loopback(m1, |Own(m.outbox, Key(self)) + Echo(su, m.last, now, Key(self))|), program, self,
                     requester, c0, 0, Application(m.outbox), Scan(c0))
    ensures var b0 := Loopback(m1, |Own(m.outbox, Key(self))|);
            if PulseStaysAway(su, m.last, now, Key(self)) then
              && Follows(b0, program, self, requester, c0, 0, Application(m.outbox), Scan(c0))
              && (Key(su.parent) == Key(self) ==> m1.last == m.last)
            else
              Echoed(su, b0, program, self, requester, c0, 0, Application(m.outbox), Scan(c0))
  {
    if PulseStaysAway(su, m.last, now, Key(self)) {
      LastStays(su, m, now, self, m1);
      assert Own(m.outbox, Key(self)) + Echo(su, m.last, now, Key(self)) == Own(m.outbox, Key(self));
    } else {
      EchoedAtOnce(su, m, m1, now, self, Scan(c0));
    }
  }

  /** A request and any number of turns with the machine's own messages, whoever the parent is: the machine
      arrives, which for a Turing machine that halts means that the requester has been sent one answer, the tape
      it halts with, if and only if the machine is not its own parent or no pulse becomes due. */
  lemma RequestIsComputed(su: Setup<World>, m: M<World>, program: Program, self: Address, first: char, blank: char,
                          i: Incoming, now: int, clocks: seq<int>, fuel: nat)
    returns (m1: M<World>)
    requires IsUniversal(su, program, self, first, blank) && fuel > 20
    requires Undisturbed(m) && m.current == "Initial" && m.env.tape.blank == blank
    requires KindOf(i.message) == Other && Symbols(i.message) != ""
    requires Steps(program, Begin(first, i.message, blank), |clocks|).Some?
    ensures Iterate(su, m, Tick(now, Some(i)), fuel) == Done(m1)
    ensures var c0, b0 := Begin(first, i.message, blank), Loopback(m1, |Own(m.outbox, Key(self))|);
            Arrives(su, b0, program, self, i.from, c0, Application(m.outbox), Scan(c0), clocks, fuel) <==>
            || Key(su.parent) != Key(self)
            || (now - m.last <= PULSE_INTERVAL
                && forall k :: 0 <= k < |clocks| ==> clocks[k] - m.last <= PULSE_INTERVAL)
  {
    m1 := RequestIsFollowed(su, m, program, self, first, blank, i, now, fuel);
    var c0, b0, base := Begin(first, i.message, blank), Loopback(m1, |Own(m.outbox, Key(self))|), Application(m.outbox);
    if PulseStaysAway(su, m.last, now, Key(self)) {
      RunIsSimulated(su, b0, program, self, i.from, first, blank, c0, 0, base, Scan(c0), clocks, fuel);
    } else {
      EchoedNeverArrives(su, b0, program, self, i.from, first, blank, c0, 0, base, Scan(c0), clocks,
                         Steps(program, c0, |clocks|).value, Scan(c0) + Scanned(program, c0, |clocks|), fuel);
    }
  }
}
