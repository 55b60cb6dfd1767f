/** Parent and child together: a child that makes its turns in time, and whose pulses arrive in time, is never
    taken for dead. */
module Heartbeats {
  import opened Text
  import opened Addresses
  import opened Machines
  import opened Supervision
  import opened MachineTheorems
  import opened Children
  import opened Histories

  // ---------- the child ----------

  /** From `prev` on, each turn comes at most `gap` after the one before. */
  predicate InTime(prev: int, ticks: seq<Tick>, gap: int)
    decreases |ticks|
  {
    ticks == [] || (ticks[0].now - prev <= gap && InTime(ticks[0].now, ticks[1..], gap))
  }

  /** Each stamp is at most so much after the one before. */
  ghost predicate Frequent(stamps: seq<int>, most: int) {
    forall i :: 0 < i < |stamps| ==> StepIsAtMost(stamps, i, most)
  }

  predicate StepIsAtMost(stamps: seq<int>, i: nat, most: int)
    requires 0 < i < |stamps|
  {
    stamps[i] - stamps[i - 1] <= most
  }

  /** A child that makes its turns in time sends its pulses at most one interval and one turn apart. */
  lemma {:induction false} PulsesAreFrequent(last: int, prev: int, ticks: seq<Tick>, gap: int)
    requires prev - last <= PULSE_INTERVAL && InTime(prev, ticks, gap)
    ensures Frequent([last] + PulseStamps(last, ticks), PULSE_INTERVAL + gap)
    decreases |ticks|
  {
    if ticks != [] {
      var now := ticks[0].now;
      if now - last > PULSE_INTERVAL {
        PulsesAreFrequent(now, now, ticks[1..], gap);
        FrequentOneMore(last, now, PulseStamps(now, ticks[1..]), PULSE_INTERVAL + gap);
      } else {
        PulsesAreFrequent(last, now, ticks[1..], gap);
      }
    }
  }

  lemma FrequentOneMore(last: int, now: int, stamps: seq<int>, most: int)
    requires now - last <= most && Frequent([now] + stamps, most)
    ensures Frequent([last] + ([now] + stamps), most)
  {
    var s := [last] + ([now] + stamps);
    forall i | 0 < i < |s| ensures StepIsAtMost(s, i, most) {
      if i > 1 {
        assert StepIsAtMost([now] + stamps, i - 1, most);
      }
    }
  }

  // ---------- what reaches the parent ----------

  /** The key of whoever sent the message of a turn. */
  predicate ComesFrom(tick: Tick, key: string) {
    tick.incoming.Some? && Print(tick.incoming.value.from.ip, tick.incoming.value.from.port) == key
  }

  /** The child's k-th message: started, then pulses. */
  function Message(name: string, k: nat): string {
    if k == 0 then "started " + name else "pulsed " + name
  }

  /** The child's messages, sent at the given times, are given to the parent in the turns numbered `at`, in order,
      each no sooner than it was sent and at most `delay` later; nothing else comes from its key. The parent's
      clock does not go back. */
  ghost predicate Delivers(ticks: seq<Tick>, key: string, name: string, sent: seq<int>, at: seq<nat>, delay: int) {
    && |at| == |sent|
    && (forall k :: 0 <= k < |at| ==> at[k] < |ticks|)
    && (forall k :: 0 <= k < |at| ==> DeliversOne(ticks, key, name, sent, at, delay, k))
    && (forall k, o :: 0 <= k < o < |at| ==> at[k] < at[o])
    && (forall n :: 0 <= n < |ticks| ==> NothingElse(ticks, key, at, n))
    && (forall n, o :: 0 <= n <= o < |ticks| ==> ClockGoesOn(ticks, n, o))
  }

  predicate DeliversOne(ticks: seq<Tick>, key: string, name: string, sent: seq<int>, at: seq<nat>, delay: int, k: nat)
    requires k < |at| == |sent| && at[k] < |ticks|
  {
    && ComesFrom(ticks[at[k]], key) && ticks[at[k]].incoming.value.message == Message(name, k)
    && sent[k] <= ticks[at[k]].now <= sent[k] + delay
  }

  predicate NothingElse(ticks: seq<Tick>, key: string, at: seq<nat>, n: nat)
    requires n < |ticks|
  {
    ComesFrom(ticks[n], key) ==> n in at
  }

  predicate ClockGoesOn(ticks: seq<Tick>, n: nat, o: nat)
    requires n < |ticks| && o < |ticks|
  {
    ticks[n].now <= ticks[o].now
  }

  /** The first k of the turns, and no more, come before turn t. */
  predicate Between(at: seq<nat>, t: nat, k: nat) {
    k <= |at| && (k > 0 ==> at[k - 1] < t) && (k < |at| ==> t <= at[k])
  }

  /** The first k of the messages, as the parent hears them. */
  function LifeHeard(ticks: seq<Tick>, key: string, name: string, at: seq<nat>, k: nat): seq<Heard>
    requires k <= |at| && forall i :: 0 <= i < |at| ==> at[i] < |ticks|
  {
    if k == 0 then [] else
      LifeHeard(ticks, key, name, at, k - 1) + [Hear(key, Message(name, k - 1), ticks[at[k - 1]].now)]
  }

  lemma MessageMeans(key: string, name: string, k: nat, now: int)
    ensures var h := Hear(key, Message(name, k), now);
            && h.key == key && h.now == now
            && (if k == 0 then h.kind == ChildStarted && h.name == Word(name) else h.kind == ChildPulsed)
  {
    if k == 0 {
      StartedMeans(name);
    } else {
      PulsedMeans(name);
    }
  }

  lemma TrackMessage(past: seq<Heard>, h: Heard, key: string, name: string, seen: int, start: bool)
    requires h.key == key && TrackAll(past) == if start then map[] else map[key := Child(name, seen)]
    requires if start then h.kind == ChildStarted && h.name == name else h.kind == ChildPulsed
    ensures TrackAll(past + [h]) == map[key := Child(name, h.now)]
  {
    TrackOneMore(past, h);
  }

  lemma {:induction false} LifeIsTracked(ticks: seq<Tick>, key: string, name: string, at: seq<nat>, k: nat)
    requires 0 < k <= |at| && forall i :: 0 <= i < |at| ==> at[i] < |ticks|
    ensures TrackAll(LifeHeard(ticks, key, name, at, k)) == map[key := Child(Word(name), ticks[at[k - 1]].now)]
  {
    var now := ticks[at[k - 1]].now;
    MessageMeans(key, name, k - 1, now);
    if k > 1 {
      LifeIsTracked(ticks, key, name, at, k - 1);
    }
    TrackMessage(LifeHeard(ticks, key, name, at, k - 1), Hear(key, Message(name, k - 1), now), key, Word(name),
                 if k == 1 then 0 else ticks[at[k - 2]].now, k == 1);
  }

  lemma {:induction false} HeardOverSnoc(heard: seq<Heard>, ticks: seq<Tick>, tick: Tick)
    ensures HeardOver(heard, ticks + [tick]) == HeardIn(HeardOver(heard, ticks), tick)
    decreases |ticks|
  {
    if ticks == [] {
      assert ticks + [tick] == [tick] && [tick][1..] == [];
    } else {
      assert (ticks + [tick])[0] == ticks[0] && (ticks + [tick])[1..] == ticks[1..] + [tick];
      HeardOverSnoc(HeardIn(heard, ticks[0]), ticks[1..], tick);
    }
  }

  lemma FromPair(hs: seq<Heard>, key: string)
    requires |hs| == 2 && hs[0].key != key && hs[1].key != key
    ensures FromKey(hs, key) == []
  {
    assert [hs[0]][..0] == [] && FromKey([hs[0]], key) == [] && hs[..1] == [hs[0]];
  }

  lemma ObituaryKeys(key: string, name: string, now: int)
    ensures var o := Obituary(key, name, now); |o| == 2 && o[0].key == key && o[1].key == key
  {
  }

  lemma {:induction false} ObituariesOfOthers(spawned: map<string, Child>, dead: seq<string>, now: int, key: string)
    requires key !in dead && forall k :: k in dead ==> k in spawned
    ensures FromKey(Obituaries(spawned, dead, now), key) == []
  {
    if dead != [] {
      var one := Obituary(dead[0], spawned[dead[0]].name, now);
      ObituariesOfOthers(spawned, dead[1..], now, key);
      FromKeyConcat(one, Obituaries(spawned, dead[1..], now), key);
      ObituaryKeys(dead[0], spawned[dead[0]].name, now);
      FromPair(one, key);
    }
  }

  /** A turn in which the child is not overdue adds to its messages only what it is given from it. */
  lemma TurnHears(heard: seq<Heard>, tick: Tick, key: string)
    requires key !in Overdue(TrackAll(heard), tick.now)
    ensures FromKey(HeardIn(heard, tick), key)
         == FromKey(heard, key) + if ComesFrom(tick, key) then Given(tick) else []
  {
    var spawned := TrackAll(heard);
    var dead := InOrder(Overdue(spawned, tick.now));
    ObituariesOfOthers(spawned, dead, tick.now, key);
    FromKeyConcat(heard, Obituaries(spawned, dead, tick.now), key);
    FromKeyConcat(heard + Obituaries(spawned, dead, tick.now), Given(tick), key);
    GivenFrom(tick, key);
  }

  lemma GivenFrom(tick: Tick, key: string)
    ensures FromKey(Given(tick), key) == if ComesFrom(tick, key) then Given(tick) else []
  {
    if tick.incoming.Some? {
      assert Given(tick)[..0] == [];
    }
  }

  /** By the messages heard so far the child was seen recently. */
  lemma NotOverdue(heard: seq<Heard>, ticks: seq<Tick>, key: string, name: string, at: seq<nat>, k: nat, now: int)
    requires k <= |at| && (forall i :: 0 <= i < |at| ==> at[i] < |ticks|)
    requires FromKey(heard, key) == LifeHeard(ticks, key, name, at, k)
    requires k > 0 ==> now - ticks[at[k - 1]].now <= HEARTBEAT_TIMEOUT
    ensures key !in Overdue(TrackAll(heard), now)
    ensures Entry(TrackAll(heard), key) == if k == 0 then None else Some(Child(Word(name), ticks[at[k - 1]].now))
  {
    OnlyOwnMessages(heard, key);
    if k > 0 {
      LifeIsTracked(ticks, key, name, at, k);
    }
  }

  /** In the t-th turn, after k of its messages, the child was seen recently. */
  lemma SeenRecently(ticks: seq<Tick>, key: string, name: string, sent: seq<int>, at: seq<nat>, delay: int, most: int,
                     t: nat, k: nat)
    requires Delivers(ticks, key, name, sent, at, delay) && Frequent(sent, most) && most + delay <= HEARTBEAT_TIMEOUT
    requires t < |ticks| && 0 < k && Between(at, t, k)
    requires k == |at| ==> ticks[t].now <= sent[k - 1] + most + delay
    ensures ticks[t].now - ticks[at[k - 1]].now <= HEARTBEAT_TIMEOUT
  {
    assert DeliversOne(ticks, key, name, sent, at, delay, k - 1);
    if k < |at| {
      assert ClockGoesOn(ticks, t, at[k]) && DeliversOne(ticks, key, name, sent, at, delay, k);
      assert StepIsAtMost(sent, k, most);
    }
  }

  /** Between these turns the clock has not reached the given time. */
  predicate NotLate(ticks: seq<Tick>, after: nat, t: nat, time: int)
    requires t <= |ticks|
  {
    if t <= after + 1 then true else ticks[t - 1].now <= time && NotLate(ticks, after, t - 1, time)
  }

  lemma {:induction false} NotLateUpTo(ticks: seq<Tick>, after: nat, n: nat, t: nat, time: int)
    requires 0 < n <= t <= |ticks| && NotLate(ticks, after, t, time)
    ensures after < n - 1 ==> ticks[n - 1].now <= time
  {
    if n < t && after + 1 < t {
      NotLateUpTo(ticks, after, n, t - 1, time);
    }
  }

  predicate Climbs(p: nat -> bool, n: nat) {
    p(n) ==> p(n + 1)
  }

  lemma {:induction false} Climb(p: nat -> bool, t: nat)
    requires p(0) && forall n :: 0 <= n < t ==> Climbs(p, n)
    ensures p(t)
  {
    if t > 0 {
      Climb(p, t - 1);
      assert Climbs(p, t - 1);
    }
  }

  /** By turn t the parent has heard of the child what it was given from it, and nothing else. */
  ghost predicate HeardBy(ticks: seq<Tick>, key: string, name: string, at: seq<nat>, t: nat) {
    && t <= |ticks| && (forall i :: 0 <= i < |at| ==> at[i] < |ticks|)
    && exists k :: Between(at, t, k) && FromKey(HeardOver([], ticks[..t]), key) == LifeHeard(ticks, key, name, at, k)
  }

  ghost function Hearing(ticks: seq<Tick>, key: string, name: string, at: seq<nat>): nat -> bool {
    (t: nat) => HeardBy(ticks, key, name, at, t)
  }

  /** As long as the child's next pulse is not late, the parent has heard nothing from or about the child but its
      own messages so far: no obituary. */
  lemma LivingChildIsHeard(ticks: seq<Tick>, key: string, name: string, sent: seq<int>, at: seq<nat>,
                           delay: int, most: int, t: nat, last: nat, time: int)
    requires Delivers(ticks, key, name, sent, at, delay) && Frequent(sent, most) && most + delay <= HEARTBEAT_TIMEOUT
    requires at != [] && last == at[|at| - 1] && time == sent[|at| - 1] + most + delay
    requires t <= |ticks| && NotLate(ticks, last, t, time)
    ensures Hearing(ticks, key, name, at)(t)
  {
    NothingYet(ticks, key, name, at);
    var p := Hearing(ticks, key, name, at);
    forall n | 0 <= n < t ensures Climbs(p, n) {
      OneHearingClimbs(ticks, key, name, sent, at, delay, most, t, n, last, time, p);
    }
    Climb(p, t);
  }

  lemma OneHearingClimbs(ticks: seq<Tick>, key: string, name: string, sent: seq<int>, at: seq<nat>, delay: int,
                         most: int, t: nat, n: nat, last: nat, time: int, p: nat -> bool)
    requires Delivers(ticks, key, name, sent, at, delay) && Frequent(sent, most) && most + delay <= HEARTBEAT_TIMEOUT
    requires at != [] && last == at[|at| - 1] && time == sent[|at| - 1] + most + delay
    requires n < t <= |ticks| && NotLate(ticks, last, t, time) && p == Hearing(ticks, key, name, at)
    ensures Climbs(p, n)
  {
    NotLateUpTo(ticks, last, n + 1, t, time);
    HearingClimbs(ticks, key, name, sent, at, delay, most, n, last, time);
  }

  lemma HearingClimbs(ticks: seq<Tick>, key: string, name: string, sent: seq<int>, at: seq<nat>, delay: int, most: int,
                      t: nat, last: nat, time: int)
    requires Delivers(ticks, key, name, sent, at, delay) && Frequent(sent, most) && most + delay <= HEARTBEAT_TIMEOUT
    requires at != [] && last == at[|at| - 1] && time == sent[|at| - 1] + most + delay
    requires t < |ticks| && (last < t ==> ticks[t].now <= time)
    ensures Climbs(Hearing(ticks, key, name, at), t)
  {
    if HeardBy(ticks, key, name, at, t) {
      HeardByNext(ticks, key, name, sent, at, delay, most, t, last, time);
    }
  }

  lemma HeardByNext(ticks: seq<Tick>, key: string, name: string, sent: seq<int>, at: seq<nat>, delay: int, most: int,
                    t: nat, last: nat, time: int)
    requires Delivers(ticks, key, name, sent, at, delay) && Frequent(sent, most) && most + delay <= HEARTBEAT_TIMEOUT
    requires at != [] && last == at[|at| - 1] && time == sent[|at| - 1] + most + delay
    requires t < |ticks| && (last < t ==> ticks[t].now <= time)
    requires HeardBy(ticks, key, name, at, t)
    ensures HeardBy(ticks, key, name, at, t + 1)
  {
    var k :| Between(at, t, k) && FromKey(HeardOver([], ticks[..t]), key) == LifeHeard(ticks, key, name, at, k);
    LastIsHeard(at, t, k, last);
    var k' := OneTurnLater(ticks, key, name, sent, at, delay, most, t, k, time);
    HeardIsEnough(ticks, key, name, at, t + 1, k');
  }

  lemma LastIsHeard(at: seq<nat>, t: nat, k: nat, last: nat)
    requires Between(at, t, k) && at != [] && last == at[|at| - 1]
    ensures k == |at| ==> last < t
  {
  }

  lemma HeardIsEnough(ticks: seq<Tick>, key: string, name: string, at: seq<nat>, t: nat, k: nat)
    requires t <= |ticks| && (forall i :: 0 <= i < |at| ==> at[i] < |ticks|)
    requires Between(at, t, k) && FromKey(HeardOver([], ticks[..t]), key) == LifeHeard(ticks, key, name, at, k)
    ensures HeardBy(ticks, key, name, at, t)
  {
  }

  lemma NothingYet(ticks: seq<Tick>, key: string, name: string, at: seq<nat>)
    requires forall i :: 0 <= i < |at| ==> at[i] < |ticks|
    ensures Hearing(ticks, key, name, at)(0)
  {
    assert ticks[..0] == [];
    assert Between(at, 0, 0) && FromKey(HeardOver([], ticks[..0]), key) == LifeHeard(ticks, key, name, at, 0);
  }

  lemma FirstTurns(ticks: seq<Tick>, t: nat)
    requires t < |ticks|
    ensures ticks[..t + 1] == ticks[..t] + [ticks[t]]
  {
  }

  lemma OneTurnLater(ticks: seq<Tick>, key: string, name: string, sent: seq<int>, at: seq<nat>, delay: int, most: int,
                     t: nat, k: nat, time: int)
    returns (k': nat)
    requires Delivers(ticks, key, name, sent, at, delay) && Frequent(sent, most) && most + delay <= HEARTBEAT_TIMEOUT
    requires t < |ticks| && Between(at, t, k) && at != [] && time == sent[|at| - 1] + most + delay
    requires k == |at| ==> ticks[t].now <= time
    requires FromKey(HeardOver([], ticks[..t]), key) == LifeHeard(ticks, key, name, at, k)
    ensures Between(at, t + 1, k')
    ensures FromKey(HeardOver([], ticks[..t + 1]), key) == LifeHeard(ticks, key, name, at, k')
  {
    if k > 0 {
      SeenRecently(ticks, key, name, sent, at, delay, most, t, k);
    }
    NotOverdue(HeardOver([], ticks[..t]), ticks, key, name, at, k, ticks[t].now);
    TurnHears(HeardOver([], ticks[..t]), ticks[t], key);
    HeardOverSnoc([], ticks[..t], ticks[t]);
    FirstTurns(ticks, t);
    k' := NextHeard(ticks, key, name, sent, at, delay, t, k);
  }

  /** The turn is the one of the next message, or brings nothing from the child. */
  lemma NextHeard(ticks: seq<Tick>, key: string, name: string, sent: seq<int>, at: seq<nat>, delay: int, t: nat, k: nat)
    returns (k': nat)
    requires Delivers(ticks, key, name, sent, at, delay) && t < |ticks|
    requires Between(at, t, k)
    ensures Between(at, t + 1, k')
    ensures LifeHeard(ticks, key, name, at, k')
         == LifeHeard(ticks, key, name, at, k) + if ComesFrom(ticks[t], key) then Given(ticks[t]) else []
  {
    k' := k;
    if ComesFrom(ticks[t], key) {
      assert NothingElse(ticks, key, at, t);
      var i :| 0 <= i < |at| && at[i] == t;
      OnlyNext(ticks, key, name, sent, at, delay, t, k, i);
      NextIsHeard(ticks, key, name, sent, at, delay, k);
      BetweenNext(at, t, k);
      k' := k + 1;
    } else if k < |at| {
      assert DeliversOne(ticks, key, name, sent, at, delay, k);
    }
  }

  lemma BetweenNext(at: seq<nat>, t: nat, k: nat)
    requires k < |at| && at[k] == t && forall i, o :: 0 <= i < o < |at| ==> at[i] < at[o]
    ensures Between(at, t + 1, k + 1)
  {
  }

  lemma NextIsHeard(ticks: seq<Tick>, key: string, name: string, sent: seq<int>, at: seq<nat>, delay: int, k: nat)
    requires Delivers(ticks, key, name, sent, at, delay) && k < |at|
    ensures LifeHeard(ticks, key, name, at, k + 1) == LifeHeard(ticks, key, name, at, k) + Given(ticks[at[k]])
  {
    assert DeliversOne(ticks, key, name, sent, at, delay, k);
    GivenIs(ticks[at[k]], key, Message(name, k));
  }

  lemma GivenIs(tick: Tick, key: string, message: string)
    requires ComesFrom(tick, key) && tick.incoming.value.message == message
    ensures Given(tick) == [Hear(key, message, tick.now)]
  {
  }

  /** A turn after the first k of them that is one of them is the next. */
  lemma OnlyNext(ticks: seq<Tick>, key: string, name: string, sent: seq<int>, at: seq<nat>, delay: int,
                 t: nat, k: nat, i: nat)
    requires Delivers(ticks, key, name, sent, at, delay) && i < |at| && at[i] == t
    requires Between(at, t, k)
    ensures k == i && at[k] == t
  {
  }

  /** A child that has begun at `begin`, makes its turns at most `gap` apart and whose messages take at most `delay`
      to be handled, with one interval, one gap and one delay within the heartbeat timeout: in every turn of its
      parent after it was first heard, until its next pulse would be late, the parent tracks it under its name, as
      seen at the last message handled, and has heard no obituary of it. */
  lemma LivingChildIsTracked(begin: int, own: seq<Tick>, gap: int, ticks: seq<Tick>, key: string, name: string,
                             at: seq<nat>, delay: int, t: nat)
    returns (k: nat)
    requires InTime(begin, own, gap) && PULSE_INTERVAL + gap + delay <= HEARTBEAT_TIMEOUT
    requires Delivers(ticks, key, name, [begin] + PulseStamps(begin, own), at, delay)
    requires at[0] < t <= |ticks|
    requires var sent := [begin] + PulseStamps(begin, own);
             NotLate(ticks, at[|at| - 1], t, sent[|sent| - 1] + PULSE_INTERVAL + gap + delay)
    ensures 0 < k && Between(at, t, k)
    ensures Entry(TrackAll(HeardOver([], ticks[..t])), key) == Some(Child(Word(name), ticks[at[k - 1]].now))
    ensures FromKey(HeardOver([], ticks[..t]), key) == LifeHeard(ticks, key, name, at, k)
  {
    PulsesAreFrequent(begin, begin, own, gap);
    var sent := [begin] + PulseStamps(begin, own);
    LivingChildIsHeard(ticks, key, name, sent, at, delay, PULSE_INTERVAL + gap, t, at[|at| - 1],
                       sent[|sent| - 1] + PULSE_INTERVAL + gap + delay);
    assert HeardBy(ticks, key, name, at, t);
    k :| Between(at, t, k) && FromKey(HeardOver([], ticks[..t]), key) == LifeHeard(ticks, key, name, at, k);
    NotOverdue(HeardOver([], ticks[..t]), ticks, key, name, at, k, ticks[at[k - 1]].now);
  }
}
