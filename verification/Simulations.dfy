/** Forward simulation: a machine that answers inputs one by one follows a specification that makes steps. */
module Simulations {
  import opened Text

  /** Answering the inputs in turn; None as soon as one answer fails. */
  ghost function Answers<S, I>(answer: (S, I) -> Option<S>, s: S, inputs: seq<I>): Option<S>
    decreases |inputs|
  {
    if inputs == [] then Some(s) else
      match answer(s, inputs[0])
      case None => None
      case Some(s1) => Answers(answer, s1, inputs[1..])
  }

  ghost function Makes<C>(step: C -> Option<C>, c: C, n: nat): Option<C>
    decreases n
  {
    if n == 0 then Some(c) else
      match step(c)
      case None => None
      case Some(d) => Makes(step, d, n - 1)
  }

  /** Whatever the input, as long as it is an allowed one, a machine that follows c follows the step c makes. */
  ghost predicate Keeps<S(!new), C(!new), I(!new)>(answer: (S, I) -> Option<S>, step: C -> Option<C>,
                                                   follows: (S, C) -> bool, allowed: I -> bool) {
    forall s, c, i :: follows(s, c) && step(c).Some? && allowed(i) ==>
      answer(s, i).Some? && follows(answer(s, i).value, step(c).value)
  }

  lemma {:induction false} ForwardSimulation<S(!new), C(!new), I(!new)>(
    answer: (S, I) -> Option<S>, step: C -> Option<C>, follows: (S, C) -> bool, allowed: I -> bool,
    s: S, c: C, inputs: seq<I>)
    requires Keeps(answer, step, follows, allowed) && follows(s, c)
    requires Makes(step, c, |inputs|).Some? && forall i :: 0 <= i < |inputs| ==> allowed(inputs[i])
    ensures var r := Answers(answer, s, inputs);
            r.Some? && follows(r.value, Makes(step, c, |inputs|).value)
    decreases |inputs|
  {
    if inputs != [] {
      var s1 := answer(s, inputs[0]).value;
      ForwardSimulation(answer, step, follows, allowed, s1, step(c).value, inputs[1..]);
    }
  }

  // ---------- runs that exist ----------

  ghost predicate Composes<S(!new), A(!new)>(run: (S, seq<A>) -> S) {
    (forall s :: run(s, []) == s) && forall s, acts, more :: ComposesAt(run, s, acts, more)
  }

  ghost predicate ComposesAt<S, A>(run: (S, seq<A>) -> S, s: S, acts: seq<A>, more: seq<A>) {
    run(s, acts + more) == run(run(s, acts), more)
  }

  ghost predicate AllAllowed<A>(allowed: A -> bool, acts: seq<A>) {
    forall i :: 0 <= i < |acts| ==> allowed(acts[i])
  }

  /** From every good state some allowed acts lead to a good one for the next step. */
  ghost predicate Advances<S(!new), C(!new), A(!new)>(run: (S, seq<A>) -> S, allowed: A -> bool, good: (S, C) -> bool,
                                                      step: C -> Option<C>) {
    forall s, c :: good(s, c) && step(c).Some? ==> LeadsTo(run, allowed, good, s, step(c).value)
  }

  ghost predicate LeadsTo<S, C, A(!new)>(run: (S, seq<A>) -> S, allowed: A -> bool, good: (S, C) -> bool, s: S, d: C) {
    exists acts :: AllAllowed(allowed, acts) && good(run(s, acts), d)
  }

  /** Then some lead to every step. */
  lemma {:induction false} EveryStepHasARun<S(!new), C(!new), A(!new)>(
    run: (S, seq<A>) -> S, allowed: A -> bool, good: (S, C) -> bool, step: C -> Option<C>, s: S, c: C, n: nat)
    returns (acts: seq<A>)
    requires Composes(run) && Advances(run, allowed, good, step) && good(s, c) && Makes(step, c, n).Some?
    ensures AllAllowed(allowed, acts) && good(run(s, acts), Makes(step, c, n).value)
    decreases n
  {
    if n == 0 {
      acts := [];
    } else {
      var d := step(c).value;
      assert LeadsTo(run, allowed, good, s, d);
      var acts1 :| AllAllowed(allowed, acts1) && good(run(s, acts1), d);
      var more := EveryStepHasARun(run, allowed, good, step, run(s, acts1), d, n - 1);
      acts := acts1 + more;
      assert ComposesAt(run, s, acts1, more);
    }
  }
}
