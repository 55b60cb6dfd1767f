/** Which receiver gets a message, and what becomes of scheduled messages. */
module Dispatching {
  import opened Text
  import opened Addresses
  import opened Lineages
  import opened Machines

  /** The search finds the nearest state on the list that has the exact key or the empty one, the exact one
      first; it finds nothing exactly when no state has either. */
  lemma {:induction false} NearestIs<E>(states: map<string, State<E>>, l: seq<string>, t: string)
    ensures Nearest(states, l, t).None? <==> forall s :: s in l ==> !Handles(states, s, t)
    ensures Nearest(states, l, t).Some? ==>
              var x := Nearest(states, l, t).value;
              && (x.exact <==> t in states[x.state].receivers)
              && exists i :: 0 <= i < |l| && l[i] == x.state && forall j :: 0 <= j < i ==> !Handles(states, l[j], t)
  {
    if l != [] {
      if Handles(states, l[0], t) {
        assert l[0] in l;
      } else {
        NearestIs(states, l[1..], t);
        assert forall s :: s in l <==> s == l[0] || s in l[1..];
        var r := Nearest(states, l[1..], t);
        if r.Some? {
          var i :| 0 <= i < |l[1..]| && l[1..][i] == r.value.state
                   && forall j :: 0 <= j < i ==> !Handles(states, l[1..][j], t);
          assert l[i + 1] == r.value.state;
          forall j | 0 <= j < i + 1 ensures !Handles(states, l[j], t) {
            if j > 0 {
              assert l[j] == l[1..][j - 1];
            }
          }
        }
      }
    }
  }

  /** A message that no state of the lineage handles is an error, unless it is "exit"; a message some state
      handles goes to one receiver, the one `NearestIs` describes. */
  lemma HandledOrError<E>(su: Setup<E>, m: M<E>, l: seq<string>, from: Address, to: Address, message: string, fuel: nat)
    requires Lineage(Parents(su.states), m.current) == Some(l)
    ensures (forall s :: s in l ==> !Handles(su.states, s, Word(message))) ==>
              Dispatch(su, m, from, to, message, fuel) ==
              Done(if KindOf(message) == ExitRequest then m
                   else m.(running := false, error := "Unhandled message: " + Word(message)))
    ensures (exists s :: s in l && Handles(su.states, s, Word(message))) ==>
              var x := Nearest(su.states, l, Word(message));
              && x.Some?
              && var receivers := su.states[x.value.state].receivers;
              Dispatch(su, m, from, to, message, fuel) ==
              if x.value.exact
              then Run(su, m, receivers[Word(message)](from, to, Arguments(message, true)), false, fuel)
              else Run(su, m, receivers[""](from, to, message), false, fuel)
  {
    NearestIs(su.states, l, Word(message));
  }

  // ---------- scheduled messages ----------

  /** A run of `SendAt` and `SendScheduled`. */
  datatype Op = At(entry: Scheduled) | PassOver(now: int)

  function QueueAfter(q: seq<Scheduled>, ops: seq<Op>): seq<Scheduled>
    decreases |ops|
  {
    if ops == [] then q else
      QueueAfter(match ops[0]
                 case At(e) => q + [e]
                 case PassOver(now) => NotYet(q, now), ops[1..])
  }

  /** Some pass has a time strictly later than the entry's own. */
  predicate Passed(e: Scheduled, ops: seq<Op>) {
    ops != [] && ((ops[0].PassOver? && e.time < ops[0].now) || Passed(e, ops[1..]))
  }

  function Unpassed(q: seq<Scheduled>, ops: seq<Op>): seq<Scheduled> {
    if q == [] then [] else (if Passed(q[0], ops) then [] else [q[0]]) + Unpassed(q[1..], ops)
  }

  /** In the order in which they were scheduled, the messages no pass after their scheduling was late for. */
  function Remaining(ops: seq<Op>): seq<Scheduled> {
    if ops == [] then [] else
      (if ops[0].At? && !Passed(ops[0].entry, ops[1..]) then [ops[0].entry] else []) + Remaining(ops[1..])
  }

  lemma {:induction false} UnpassedConcat(p: seq<Scheduled>, q: seq<Scheduled>, ops: seq<Op>)
    ensures Unpassed(p + q, ops) == Unpassed(p, ops) + Unpassed(q, ops)
  {
    if p == [] {
      assert p + q == q;
    } else {
      UnpassedConcat(p[1..], q, ops);
      assert (p + q)[1..] == p[1..] + q;
      var one := if Passed(p[0], ops) then [] else [p[0]];
      Reassociate(one, Unpassed(p[1..], ops), Unpassed(q, ops));
    }
  }

  lemma {:induction false} UnpassedAfterPass(q: seq<Scheduled>, now: int, ops: seq<Op>)
    ensures Unpassed(NotYet(q, now), ops) == Unpassed(q, [PassOver(now)] + ops)
  {
    if q != [] {
      UnpassedAfterPass(q[1..], now, ops);
      assert ([PassOver(now)] + ops)[1..] == ops;
      UnpassedConcat(if q[0].time < now then [] else [q[0]], NotYet(q[1..], now), ops);
      assert Unpassed([q[0]], ops) == if Passed(q[0], ops) then [] else [q[0]];
    }
  }

  lemma {:induction false} UnpassedAfterAt(q: seq<Scheduled>, e: Scheduled, ops: seq<Op>)
    ensures Unpassed(q, [At(e)] + ops) == Unpassed(q, ops)
  {
    if q != [] {
      UnpassedAfterAt(q[1..], e, ops);
      assert ([At(e)] + ops)[1..] == ops;
    }
  }

  lemma {:induction false} UnpassedByNone(q: seq<Scheduled>)
    ensures Unpassed(q, []) == q
  {
    if q != [] {
      UnpassedByNone(q[1..]);
    }
  }

  lemma OneMoreWaits(q: seq<Scheduled>, e: Scheduled, ops: seq<Op>)
    ensures Unpassed(q + [e], ops) + Remaining(ops) == Unpassed(q, [At(e)] + ops) + Remaining([At(e)] + ops)
  {
    UnpassedConcat(q, [e], ops);
    UnpassedAfterAt(q, e, ops);
    var one := if Passed(e, ops) then [] else [e];
    assert Unpassed([e], ops) == one;
    RemainingAfterAt(e, ops);
    Reassociate(Unpassed(q, ops), one, Remaining(ops));
  }

  lemma RemainingAfterAt(e: Scheduled, ops: seq<Op>)
    ensures Remaining([At(e)] + ops) == (if Passed(e, ops) then [] else [e]) + Remaining(ops)
  {
    assert ([At(e)] + ops)[1..] == ops;
  }

  lemma Reassociate(a: seq<Scheduled>, b: seq<Scheduled>, c: seq<Scheduled>)
    ensures a + b + c == a + (b + c)
  {
  }

  /** After any run, what is still queued is, in order, what no later pass was late for. */
  lemma {:induction false} QueueHoldsTheRest(q: seq<Scheduled>, ops: seq<Op>)
    ensures QueueAfter(q, ops) == Unpassed(q, ops) + Remaining(ops)
    decreases |ops|
  {
    if ops == [] {
      UnpassedByNone(q);
    } else {
      var rest := ops[1..];
      assert ops == [ops[0]] + rest;
      match ops[0] {
        case At(e) =>
          QueueHoldsTheRest(q + [e], rest);
          OneMoreWaits(q, e, rest);
        case PassOver(now) =>
          QueueHoldsTheRest(NotYet(q, now), rest);
          UnpassedAfterPass(q, now, rest);
      }
    }
  }

  /** The entries a pass takes. */
  function TakenNow(q: seq<Scheduled>, now: int): seq<Scheduled> {
    if q == [] then [] else (if q[0].time < now then [q[0]] else []) + TakenNow(q[1..], now)
  }

  lemma {:induction false} TakenArePosted(q: seq<Scheduled>, now: int)
    ensures |DueNow(q, now)| == |TakenNow(q, now)|
    ensures forall i :: 0 <= i < |TakenNow(q, now)| ==>
              var e := TakenNow(q, now)[i];
              e.time < now && DueNow(q, now)[i] == Posted(e.to, e.message, false, Some(e.time))
  {
    if q != [] {
      TakenArePosted(q[1..], now);
    }
  }

  lemma {:induction false} PassSplits(q: seq<Scheduled>, now: int)
    ensures multiset(TakenNow(q, now)) + multiset(NotYet(q, now)) == multiset(q)
  {
    if q != [] {
      PassSplits(q[1..], now);
      assert q == [q[0]] + q[1..];
    }
  }

  /** Everything the passes of a run take, in the order in which they take it. */
  function Taken(q: seq<Scheduled>, ops: seq<Op>): seq<Scheduled>
    decreases |ops|
  {
    if ops == [] then [] else
      match ops[0]
      case At(e) => Taken(q + [e], ops[1..])
      case PassOver(now) => TakenNow(q, now) + Taken(NotYet(q, now), ops[1..])
  }

  function Entries(ops: seq<Op>): seq<Scheduled> {
    if ops == [] then [] else (if ops[0].At? then [ops[0].entry] else []) + Entries(ops[1..])
  }

  lemma MultisetOneMore(q: seq<Scheduled>, e: Scheduled, more: seq<Scheduled>)
    ensures multiset(q + [e]) + multiset(more) == multiset(q) + multiset([e] + more)
  {
  }

  lemma MultisetTaken(taken: seq<Scheduled>, more: seq<Scheduled>)
    ensures multiset(taken + more) == multiset(taken) + multiset(more)
  {
  }

  /** Each scheduled message is sent once or still queued, never both. */
  ghost predicate ConservedBy(q: seq<Scheduled>, ops: seq<Op>) {
    multiset(Taken(q, ops)) + multiset(QueueAfter(q, ops)) == multiset(q) + multiset(Entries(ops))
  }

  lemma AtConserves(q: seq<Scheduled>, e: Scheduled, rest: seq<Op>)
    requires ConservedBy(q + [e], rest)
    ensures ConservedBy(q, [At(e)] + rest)
  {
    var ops := [At(e)] + rest;
    assert ops[1..] == rest;
    assert Taken(q, ops) == Taken(q + [e], rest) && QueueAfter(q, ops) == QueueAfter(q + [e], rest);
    assert Entries(ops) == [e] + Entries(rest);
    MultisetOneMore(q, e, Entries(rest));
  }

  lemma PassConserves(q: seq<Scheduled>, now: int, rest: seq<Op>)
    requires ConservedBy(NotYet(q, now), rest)
    ensures ConservedBy(q, [PassOver(now)] + rest)
  {
    var ops := [PassOver(now)] + rest;
    assert ops[1..] == rest;
    assert QueueAfter(q, ops) == QueueAfter(NotYet(q, now), rest);
    EntriesAfterPass(now, rest);
    PassSplits(q, now);
    var taken, kept, later := TakenNow(q, now), NotYet(q, now), Taken(NotYet(q, now), rest);
    assert Taken(q, ops) == taken + later;
    MultisetTaken(taken, later);
    Combine(multiset(taken), multiset(kept), multiset(q), multiset(later), multiset(QueueAfter(kept, rest)),
            multiset(Entries(rest)));
  }

  lemma EntriesAfterPass(now: int, rest: seq<Op>)
    ensures Entries([PassOver(now)] + rest) == Entries(rest)
  {
    assert ([PassOver(now)] + rest)[1..] == rest;
  }

  lemma Combine(taken: multiset<Scheduled>, kept: multiset<Scheduled>, q: multiset<Scheduled>,
                later: multiset<Scheduled>, left: multiset<Scheduled>, scheduled: multiset<Scheduled>)
    requires taken + kept == q && later + left == kept + scheduled
    ensures taken + later + left == q + scheduled
  {
    assert taken + later + left == taken + (later + left);
    assert taken + kept + scheduled == taken + (kept + scheduled);
  }

  lemma {:induction false} ScheduledAreConserved(q: seq<Scheduled>, ops: seq<Op>)
    ensures ConservedBy(q, ops)
    decreases |ops|
  {
    if ops != [] {
      assert ops == [ops[0]] + ops[1..];
      match ops[0] {
        case At(e) =>
          ScheduledAreConserved(q + [e], ops[1..]);
          AtConserves(q, e, ops[1..]);
        case PassOver(now) =>
          ScheduledAreConserved(NotYet(q, now), ops[1..]);
          PassConserves(q, now, ops[1..]);
      }
    }
  }
}
