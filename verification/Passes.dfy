/** What passes of `BackgroundSend` do to a queue: nothing is lost or reordered, every message is tried
    on schedule, and the queue drains. */
module Passes {
  import opened Addresses
  import opened Mailboxes

  /** The entries of a queue that are message `n` to `to`. */
  predicate Is(e: Queued, to: Endpoint, n: nat) {
    Key(e.to) == to && e.seqNum == n
  }

  function Count(q: seq<Queued>, to: Endpoint, n: nat): nat {
    if q == [] then 0 else Count(q[..|q| - 1], to, n) + if Is(q[|q| - 1], to, n) then 1 else 0
  }

  lemma {:induction false} CountConcat(p: seq<Queued>, q: seq<Queued>, to: Endpoint, n: nat)
    ensures Count(p + q, to, n) == Count(p, to, n) + Count(q, to, n)
  {
    if q == [] {
      assert p + q == p;
    } else {
      CountConcat(p, q[..|q| - 1], to, n);
      assert (p + q)[..|p + q| - 1] == p + q[..|q| - 1];
    }
  }

  lemma CountOne(e: Queued, to: Endpoint, n: nat)
    ensures Count([e], to, n) == if Is(e, to, n) then 1 else 0
  {
    assert [e][..0] == [];
  }

  lemma {:induction false} CountMember(q: seq<Queued>, to: Endpoint, n: nat)
    ensures Count(q, to, n) > 0 <==> exists e :: e in q && Is(e, to, n)
  {
    if q != [] {
      CountMember(q[..|q| - 1], to, n);
      assert forall e :: e in q <==> e in q[..|q| - 1] || e == q[|q| - 1];
    }
  }

  /** A pass keeps or gives up every entry, once. */
  lemma {:induction false} PassConserves(q: seq<Queued>, now: int, to: Endpoint, n: nat)
    ensures Count(Kept(q, now), to, n) + Count(GivenUp(q), to, n) == Count(q, to, n)
  {
    if q != [] {
      var p, e := q[..|q| - 1], q[|q| - 1];
      PassConserves(p, now, to, n);
      CountConcat(Kept(p, now), KeptOne(e, now), to, n);
      CountConcat(GivenUp(p), GivenUpOne(e), to, n);
      CountOne(e, to, n);
      CountOne(Attempted(e, now), to, n);
    }
  }

  /** Removing one entry takes that entry out of the count and nothing else. */
  lemma RemovalConserves(q: seq<Queued>, i: nat, to: Endpoint, n: nat)
    requires i < |q|
    ensures Count(Without(q, i), to, n) + Count([q[i]], to, n) == Count(q, to, n)
  {
    assert q == q[..i] + [q[i]] + q[i + 1..];
    CountConcat(q[..i] + [q[i]], q[i + 1..], to, n);
    CountConcat(q[..i], [q[i]], to, n);
    CountConcat(q[..i], q[i + 1..], to, n);
  }

  /** Per destination the queue holds strictly increasing numbers. */
  ghost predicate Ordered(q: seq<Queued>) {
    forall i, j :: 0 <= i < j < |q| && Key(q[i].to) == Key(q[j].to) ==> q[i].seqNum < q[j].seqNum
  }

  lemma RemovalKeepsOrder(q: seq<Queued>, i: nat)
    requires Ordered(q)
    ensures Ordered(Without(q, i))
  {
  }

  /** A kept entry is an entry of the queue, or one that has just been attempted. */
  lemma {:induction false} KeptFrom(q: seq<Queued>, now: int, e: Queued)
    requires e in Kept(q, now)
    ensures exists o :: o in q && !Exhausted(o) && e == (if Due(o, now) then Attempted(o, now) else o)
  {
    var p, l := q[..|q| - 1], q[|q| - 1];
    if e in Kept(p, now) {
      KeptFrom(p, now, e);
      var o :| o in p && !Exhausted(o) && e == (if Due(o, now) then Attempted(o, now) else o);
      assert o in q;
    } else {
      assert e in KeptOne(l, now) && l in q;
    }
  }

  lemma {:induction false} PassKeepsOrder(q: seq<Queued>, now: int)
    requires Ordered(q)
    ensures Ordered(Kept(q, now))
  {
    if q != [] {
      var p, l := q[..|q| - 1], q[|q| - 1];
      PassKeepsOrder(p, now);
      var k := Kept(p, now);
      forall i | 0 <= i < |k| && Key(k[i].to) == Key(l.to) ensures k[i].seqNum < l.seqNum {
        KeptPrecedes(q, now, k[i]);
      }
    }
  }

  lemma KeptPrecedes(q: seq<Queued>, now: int, e: Queued)
    requires q != [] && Ordered(q) && e in Kept(q[..|q| - 1], now) && Key(e.to) == Key(q[|q| - 1].to)
    ensures e.seqNum < q[|q| - 1].seqNum
  {
    var p := q[..|q| - 1];
    KeptFrom(p, now, e);
    var o :| o in p && e == (if Due(o, now) then Attempted(o, now) else o);
    var j :| 0 <= j < |p| && p[j] == o;
    assert q[j] == o;
  }

  lemma {:induction false} GivenUpFrom(q: seq<Queued>, e: Queued)
    requires e in GivenUp(q)
    ensures e in q && Exhausted(e)
  {
    if e in GivenUp(q[..|q| - 1]) {
      GivenUpFrom(q[..|q| - 1], e);
    }
  }

  // ---------- the retry schedule ----------

  /** Attempt k was made at least 2k seconds after the message was queued, and there were at most five. */
  ghost predicate OnSchedule(e: Queued) {
    && |e.sentAt| == e.attempts <= MAX_RETRIES
    && forall k :: 0 <= k < |e.sentAt| ==> e.sentAt[k] >= e.time + k * RECEIVE_TIMEOUT
  }

  lemma AttemptKeepsSchedule(e: Queued, now: int)
    requires OnSchedule(e) && !Exhausted(e) && Due(e, now)
    ensures OnSchedule(Attempted(e, now))
  {
  }

  // ---------- draining ----------

  /** A run of passes at the given clock readings, with nothing new being sent. */
  function AfterPasses(q: seq<Queued>, clocks: seq<int>): seq<Queued>
    decreases |clocks|
  {
    if clocks == [] then q else AfterPasses(Kept(q, clocks[0]), clocks[1..])
  }

  /** The clock is past the last deadline of every entry. */
  ghost predicate Late(q: seq<Queued>, clocks: seq<int>) {
    forall e, i :: e in q && 0 <= i < |clocks| ==> clocks[i] >= e.time + (MAX_RETRIES - 1) * RECEIVE_TIMEOUT
  }

  function Work(q: seq<Queued>): int {
    if q == [] then 0 else Work(q[..|q| - 1]) + (1 + MAX_RETRIES - q[|q| - 1].attempts)
  }

  lemma {:induction false} WorkConcat(p: seq<Queued>, q: seq<Queued>)
    ensures Work(p + q) == Work(p) + Work(q)
  {
    if q == [] {
      assert p + q == p;
    } else {
      WorkConcat(p, q[..|q| - 1]);
      assert (p + q)[..|p + q| - 1] == p + q[..|q| - 1];
    }
  }

  lemma WorkOne(e: Queued)
    ensures Work([e]) == 1 + MAX_RETRIES - e.attempts
  {
    assert [e][..0] == [];
  }

  /** The measure that makes the `Flushed` loops end: with the clock late, every pass takes one unit of
      work from every queued message. */
  lemma {:induction false} WorkFalls(q: seq<Queued>, now: int)
    requires Late(q, [now]) && forall e :: e in q ==> e.attempts <= MAX_RETRIES
    ensures Work(Kept(q, now)) == Work(q) - |q|
  {
    if q != [] {
      var p, l := q[..|q| - 1], q[|q| - 1];
      assert l in q && forall e :: e in p ==> e in q;
      LatePart(q, p, [now]);
      WorkFalls(p, now);
      assert [now][0] == now;
      WorkOfLateOne(l, now);
      WorkConcat(Kept(p, now), KeptOne(l, now));
    }
  }

  lemma LatePart(q: seq<Queued>, p: seq<Queued>, clocks: seq<int>)
    requires Late(q, clocks) && forall e :: e in p ==> e in q
    ensures Late(p, clocks)
  {
  }

  lemma LateIsDue(e: Queued, now: int)
    requires now >= e.time + (MAX_RETRIES - 1) * RECEIVE_TIMEOUT && !Exhausted(e)
    ensures Due(e, now)
  {
  }

  lemma WorkOfLateOne(e: Queued, now: int)
    requires now >= e.time + (MAX_RETRIES - 1) * RECEIVE_TIMEOUT && e.attempts <= MAX_RETRIES
    ensures Work(KeptOne(e, now)) == MAX_RETRIES - e.attempts
  {
    if !Exhausted(e) {
      LateIsDue(e, now);
      WorkOne(Attempted(e, now));
    }
  }

  lemma LateAfterPass(q: seq<Queued>, clocks: seq<int>)
    requires Late(q, clocks) && clocks != []
    ensures Late(Kept(q, clocks[0]), clocks[1..])
  {
    forall e, i | e in Kept(q, clocks[0]) && 0 <= i < |clocks[1..]|
      ensures clocks[1..][i] >= e.time + (MAX_RETRIES - 1) * RECEIVE_TIMEOUT
    {
      KeptFrom(q, clocks[0], e);
    }
  }

  lemma {:induction false} ExhaustedAreGivenUp(q: seq<Queued>, now: int)
    requires forall e :: e in q ==> Exhausted(e)
    ensures Kept(q, now) == []
  {
    if q != [] {
      ExhaustedAreGivenUp(q[..|q| - 1], now);
      assert q[|q| - 1] in q;
    }
  }

  lemma {:induction false} PassesRaiseAttempts(q: seq<Queued>, clocks: seq<int>, m: nat)
    requires Late(q, clocks) && clocks != []
    requires forall e :: e in q ==> e.attempts >= m
    ensures m + |clocks| > MAX_RETRIES ==> AfterPasses(q, clocks) == []
    decreases |clocks|
  {
    var q' := Kept(q, clocks[0]);
    forall e | e in q' ensures e.attempts >= m + 1 {
      KeptFrom(q, clocks[0], e);
      var o :| o in q && !Exhausted(o) && e == (if Due(o, clocks[0]) then Attempted(o, clocks[0]) else o);
      assert Due(o, clocks[0]);
    }
    if |clocks| > 1 {
      LateAfterPass(q, clocks);
      PassesRaiseAttempts(q', clocks[1..], m + 1);
    } else {
      assert AfterPasses(q', clocks[1..]) == q';
      if m >= MAX_RETRIES {
        ExhaustedAreGivenUp(q, clocks[0]);
      }
    }
  }

  /** Six late passes empty any queue. */
  lemma SixPassesDrain(q: seq<Queued>, clocks: seq<int>)
    requires Late(q, clocks) && |clocks| > MAX_RETRIES
    ensures AfterPasses(q, clocks) == []
  {
    PassesRaiseAttempts(q, clocks, 0);
  }

  lemma KeptOfOne(e: Queued, now: int)
    ensures Kept([e], now) == KeptOne(e, now)
  {
    assert [e][..0] == [];
  }

  lemma LateOneIsTried(e: Queued, clocks: seq<int>)
    requires Late([e], clocks) && clocks != [] && !Exhausted(e)
    ensures Kept([e], clocks[0]) == [Attempted(e, clocks[0])]
    ensures Late([Attempted(e, clocks[0])], clocks[1..])
  {
    assert e in [e];
    LateIsDue(e, clocks[0]);
    KeptOfOne(e, clocks[0]);
    LateAfterPass([e], clocks);
  }

  /** The entry after an attempt at each of the clock readings. */
  function TriedAt(e: Queued, clocks: seq<int>): Queued {
    e.(attempts := e.attempts + |clocks|, sentAt := e.sentAt + clocks)
  }

  lemma TriedAtSteps(e: Queued, clocks: seq<int>)
    ensures clocks == [] ==> TriedAt(e, clocks) == e
    ensures clocks != [] ==> TriedAt(e, clocks) == TriedAt(Attempted(e, clocks[0]), clocks[1..])
  {
    if clocks == [] {
      assert e.sentAt + clocks == e.sentAt;
    } else {
      assert e.sentAt + [clocks[0]] + clocks[1..] == e.sentAt + clocks;
    }
  }

  /** Six are needed: a new message is still there, tried once by every pass, up to the fifth. */
  lemma {:induction false} NewMessageIsTriedFiveTimes(e: Queued, clocks: seq<int>)
    requires Late([e], clocks) && e.attempts == |e.sentAt| && e.attempts + |clocks| <= MAX_RETRIES
    ensures AfterPasses([e], clocks) == [TriedAt(e, clocks)]
    decreases |clocks|
  {
    TriedAtSteps(e, clocks);
    if clocks != [] {
      var o := Attempted(e, clocks[0]);
      LateOneIsTried(e, clocks);
      NewMessageIsTriedFiveTimes(o, clocks[1..]);
      AfterOnePass([e], [o], clocks);
    }
  }

  lemma AfterOnePass(q: seq<Queued>, q': seq<Queued>, clocks: seq<int>)
    requires clocks != [] && Kept(q, clocks[0]) == q'
    ensures AfterPasses(q, clocks) == AfterPasses(q', clocks[1..])
  {
  }
}
