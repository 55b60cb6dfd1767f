/** What every run of `Start` guarantees. */
module MachineTheorems {
  import opened Text
  import opened Addresses
  import opened Machines
  import opened MachineRuns
  import opened Supervision
  import opened Children

  // ---------- the invariant of the loop ----------

  function PulseMessages<E>(su: Setup<E>, n: nat): seq<Posted> {
    seq(n, i => Posted(su.parent, "pulsed " + su.name, true))
  }

  /** Each stamp is more than the pulse interval after the one before it. */
  ghost predicate Spaced(stamps: seq<int>) {
    forall i :: 0 < i < |stamps| ==> stamps[i] - stamps[i - 1] > PULSE_INTERVAL
  }

  /** Since the loop began: the stack is the path to the current state, the table of children is what the
      handled messages say, and the machine itself has sent nothing but pulses. */
  ghost predicate LoopInv<E>(su: Setup<E>, begin: int, base: seq<Posted>, m: M<E>) {
    && "" !in su.states
    && Registered(su, m) && (!m.stale ==> Settled(su, m))
    && m.spawned == TrackAll(m.heard)
    && Framework(m.outbox) == base + PulseMessages(su, |m.pulses|)
    && Spaced([begin] + m.pulses) && m.last == ([begin] + m.pulses)[|m.pulses|]
  }

  lemma SuperviseKeeps<E>(su: Setup<E>, begin: int, base: seq<Posted>, m: M<E>, h: Heard)
    requires LoopInv(su, begin, base, m)
    ensures LoopInv(su, begin, base, Supervise(m, h))
  {
    TrackOneMore(m.heard, h);
  }

  lemma EffectKeepsLoop<E>(su: Setup<E>, begin: int, base: seq<Posted>, m: M<E>, m': M<E>)
    requires LoopInv(su, begin, base, m) && Effect(su, m, m', false)
    ensures LoopInv(su, begin, base, m')
  {
  }

  /** The outcome of handling the messages hs: the invariant, and exactly their effect on the table. */
  ghost predicate Handled<E>(su: Setup<E>, begin: int, base: seq<Posted>, m: M<E>, o: Outcome<M<E>>,
                             hs: seq<Heard>, spawned: map<string, Child>)
  {
    !o.Endless? && (o.Done? ==>
      LoopInv(su, begin, base, o.value) && o.value.heard == m.heard + hs && o.value.spawned == spawned)
  }

  lemma HandledThen<E>(su: Setup<E>, begin: int, base: seq<Posted>, m: M<E>, m1: M<E>, o: Outcome<M<E>>,
                       hs: seq<Heard>, spawned1: map<string, Child>, more: seq<Heard>, spawned: map<string, Child>)
    requires Handled(su, begin, base, m, Done(m1), hs, spawned1)
    requires Handled(su, begin, base, m1, o, more, spawned)
    ensures Handled(su, begin, base, m, o, hs + more, spawned)
  {
    assert m.heard + hs + more == m.heard + (hs + more);
  }

  lemma OneThenOne<E>(su: Setup<E>, begin: int, base: seq<Posted>, m: M<E>, m1: M<E>, o: Outcome<M<E>>, h1: Heard,
                      h2: Heard)
    requires Handled(su, begin, base, m, Done(m1), [h1], Track(m.spawned, h1))
    requires Handled(su, begin, base, m1, o, [h2], Track(m1.spawned, h2))
    requires h1.kind == Other && h2.kind == ChildExited
    ensures Handled(su, begin, base, m, o, [h1, h2], m.spawned - {h2.key})
  {
    HandledThen(su, begin, base, m, m1, o, [h1], m.spawned, [h2], m.spawned - {h2.key});
    assert [h1] + [h2] == [h1, h2];
  }

  lemma HandleKeeps<E>(su: Setup<E>, begin: int, base: seq<Posted>, m: M<E>, now: int,
                       from: Address, to: Address, message: string, fuel: nat)
    requires LoopInv(su, begin, base, m)
    ensures var h := Hear(Print(from.ip, from.port), message, now);
            Handled(su, begin, base, m, HandleMessage(su, m, now, from, to, message, fuel), [h], Track(m.spawned, h))
  {
    var h := Hear(Print(from.ip, from.port), message, now);
    var m1 := Supervise(m, h);
    SuperviseKeeps(su, begin, base, m, h);
    DispatchEffect(su, m1, from, to, message, fuel);
    var o := Dispatch(su, m1, from, to, message, fuel);
    if o.Done? {
      EffectKeepsLoop(su, begin, base, m1, o.value);
    }
  }

  // ---------- children whose heartbeat stopped ----------

  /** The key is the print of an address that survives printing and parsing. */
  ghost predicate PrintedKey(key: string) {
    exists ip, port :: PlainHost(ip) && key == Print(ip, port)
  }

  /** What the machine tells itself about a child that stopped pulsing. */
  function Obituary(key: string, name: string, now: int): seq<Heard> {
    [Hear(key, "errored " + name + " heartbeat timeout", now), Hear(key, "exited " + name, now)]
  }

  lemma ObituaryKinds(name: string)
    ensures KindOf(ErroredText(name)) == Other && KindOf(ExitedText(name)) == ChildExited
  {
    ErroredMeans(name + " heartbeat timeout");
    assert "errored " + (name + " heartbeat timeout") == ErroredText(name);
    ExitedMeans(name);
  }

  lemma BothHandled<E>(su: Setup<E>, begin: int, base: seq<Posted>, m: M<E>, now: int, key: string,
                       child: Address, first: string, second: string, fuel: nat)
    requires LoopInv(su, begin, base, m) && Print(child.ip, child.port) == key
    requires KindOf(first) == Other && KindOf(second) == ChildExited
    ensures Handled(su, begin, base, m, HandleBoth(su, m, now, child, first, second, fuel),
                    [Hear(key, first, now), Hear(key, second, now)], m.spawned - {key})
  {
    var h1, h2 := Hear(key, first, now), Hear(key, second, now);
    HandleKeeps(su, begin, base, m, now, child, su.address, first, fuel);
    var o := HandleMessage(su, m, now, child, su.address, first, fuel);
    if o.Done? {
      HandleKeeps(su, begin, base, o.value, now, child, su.address, second, fuel);
      OneThenOne(su, begin, base, m, o.value, HandleMessage(su, o.value, now, child, su.address, second, fuel), h1, h2);
    }
  }

  lemma BuryRemoves<E>(su: Setup<E>, begin: int, base: seq<Posted>, m: M<E>, now: int, key: string, fuel: nat)
    requires LoopInv(su, begin, base, m) && key in m.spawned && PrintedKey(key)
    ensures Handled(su, begin, base, m, Bury(su, m, now, key, fuel), Obituary(key, m.spawned[key].name, now),
                    m.spawned - {key})
  {
    var name := m.spawned[key].name;
    PrintOfExtract(su.dns, key);
    ObituaryKinds(name);
    BothHandled(su, begin, base, m, now, key, Extract(su.dns, key).value, ErroredText(name), ExitedText(name), fuel);
  }

  /** A tracked child that is mourned: the machine is given two messages as if the child had sent them to it. */
  lemma BuryIsTwoMessages<E>(su: Setup<E>, m: M<E>, now: int, ip: string, port: Port, name: string, seen: int,
                             fuel: nat)
    requires PlainHost(ip) && Print(ip, port) in m.spawned && m.spawned[Print(ip, port)] == Child(name, seen)
    ensures var child := Make(su.dns, ip, port);
            var o := HandleMessage(su, m, now, child, su.address, "errored " + name + " heartbeat timeout", fuel);
            Bury(su, m, now, Print(ip, port), fuel) ==
            if o.Done? then HandleMessage(su, o.value, now, child, su.address, "exited " + name, fuel) else o
  {
    PlainRoundTrip(su.dns, ip, port);
  }

  /** A child whose key does not read as an address: the exception leaves `CheckChildren` when the child is overdue, and
      the loop over the children at the end of `Start` in any case. A key "HOST:X:PORT", with no number at X, is one. */
  lemma UnreadableKeyThrows<E>(su: Setup<E>, m: M<E>, now: int, key: string, rest: seq<string>, fuel: nat)
    requires key in m.spawned && !Extract(su.dns, key).Ok?
    ensures Bury(su, m, now, key, fuel).Thrown? && BuryAll(su, m, now, [key] + rest, fuel).Thrown?
    ensures StopAll(su, m, [key] + rest).Thrown?
    ensures forall host, x, port :: ':' !in host && NoSpaces(host) && NoSpaces(x) && x != "" && 'a' <= x[0] <= 'z' ==>
              !Extract(su.dns, Print(host + ":" + x, port)).Ok?
  {
    forall host: string, x: string, port: Port
      | ':' !in host && NoSpaces(host) && NoSpaces(x) && x != "" && 'a' <= x[0] <= 'z'
      ensures !Extract(su.dns, Print(host + ":" + x, port)).Ok?
    {
      ColonInHost(su.dns, host, x, port);
    }
  }

  lemma ColonInHost(dns: string -> string, host: string, x: string, port: Port)
    requires ':' !in host && NoSpaces(host) && NoSpaces(x) && x != "" && 'a' <= x[0] <= 'z'
    ensures Extract(dns, Print(host + ":" + x, port)) == InvalidArgument
  {
    NoSpacesInPrint(host + ":" + x, port);
    var rest := x + ":" + Decimal(port);
    assert Print(host + ":" + x, port) == host + ":" + rest;
    ParseIs(dns, host, rest, 0);
  }

  lemma OneThenOther<E>(su: Setup<E>, begin: int, base: seq<Posted>, m: M<E>, m1: M<E>, o: Outcome<M<E>>,
                        h1: Heard, h2: Heard, key: string)
    requires Handled(su, begin, base, m, Done(m1), [h1], Track(m.spawned, h1))
    requires Handled(su, begin, base, m1, o, [h2], Track(m1.spawned, h2))
    requires h1.kind == Other && h2.kind == ChildExited && h2.key != key && key in m.spawned
    ensures o.Done? ==> key in o.value.spawned
  {
  }

  lemma OtherHandled<E>(su: Setup<E>, begin: int, base: seq<Posted>, m: M<E>, now: int, key: string,
                        child: Address, first: string, second: string, fuel: nat)
    requires LoopInv(su, begin, base, m) && Print(child.ip, child.port) != key && key in m.spawned
    requires KindOf(first) == Other && KindOf(second) == ChildExited
    ensures var o := HandleBoth(su, m, now, child, first, second, fuel);
            o.Done? ==> key in o.value.spawned
  {
    var k := Print(child.ip, child.port);
    HandleKeeps(su, begin, base, m, now, child, su.address, first, fuel);
    var o := HandleMessage(su, m, now, child, su.address, first, fuel);
    if o.Done? {
      HandleKeeps(su, begin, base, o.value, now, child, su.address, second, fuel);
      OneThenOther(su, begin, base, m, o.value, HandleMessage(su, o.value, now, child, su.address, second, fuel),
                   Hear(k, first, now), Hear(k, second, now), key);
    }
  }

  /** A child that stopped pulsing is dropped from the table exactly when the host in its key is one that
      survives printing and parsing; any other child would stay, and be mourned again on every turn. */
  lemma BuryRemovesIffPlain<E>(su: Setup<E>, begin: int, base: seq<Posted>, m: M<E>, now: int,
                               ip: string, port: Port, fuel: nat)
    requires LoopInv(su, begin, base, m) && Print(ip, port) in m.spawned
    requires Bury(su, m, now, Print(ip, port), fuel).Done?
    ensures Print(ip, port) !in Bury(su, m, now, Print(ip, port), fuel).value.spawned <==> PlainHost(ip)
  {
    var key := Print(ip, port);
    if PlainHost(ip) {
      BuryRemoves(su, begin, base, m, now, key, fuel);
    } else {
      var name := m.spawned[key].name;
      OthersDoNotRoundTrip(su.dns, ip, port);
      ObituaryKinds(name);
      OtherHandled(su, begin, base, m, now, key, Extract(su.dns, key).value, ErroredText(name), ExitedText(name), fuel);
    }
  }

  function Obituaries(spawned: map<string, Child>, dead: seq<string>, now: int): seq<Heard>
    requires forall k :: k in dead ==> k in spawned
  {
    if dead == [] then [] else Obituary(dead[0], spawned[dead[0]].name, now) + Obituaries(spawned, dead[1..], now)
  }

  lemma {:induction false} ObituariesFrame(spawned: map<string, Child>, dead: seq<string>, now: int, key: string)
    requires key !in dead && forall k :: k in dead ==> k in spawned
    ensures Obituaries(spawned - {key}, dead, now) == Obituaries(spawned, dead, now)
  {
    if dead != [] {
      ObituariesFrame(spawned, dead[1..], now, key);
    }
  }

  /** A list of distinct tracked children with printed keys. */
  ghost predicate ToBury(spawned: map<string, Child>, dead: seq<string>)
    ensures ToBury(spawned, dead) ==> forall k :: k in dead ==> k in spawned
  {
    dead == [] ||
    (dead[0] in spawned && PrintedKey(dead[0]) && dead[0] !in dead[1..] && ToBury(spawned, dead[1..]))
  }

  lemma {:induction false} ToBuryIs(spawned: map<string, Child>, dead: seq<string>)
    requires forall k :: k in dead ==> k in spawned && PrintedKey(k)
    requires forall i, j :: 0 <= i < j < |dead| ==> dead[i] != dead[j]
    ensures ToBury(spawned, dead)
  {
    if dead != [] {
      assert dead[0] in dead;
      ToBuryIs(spawned, dead[1..]);
    }
  }

  lemma {:induction false} ToBuryWithout(spawned: map<string, Child>, dead: seq<string>, key: string)
    requires ToBury(spawned, dead) && key !in dead
    ensures ToBury(spawned - {key}, dead)
  {
    if dead != [] {
      ToBuryWithout(spawned, dead[1..], key);
    }
  }

  function Survivors(spawned: map<string, Child>, dead: seq<string>): map<string, Child> {
    spawned - set k | k in dead
  }

  lemma NoneBuried(heard: seq<Heard>, spawned: map<string, Child>, now: int)
    ensures heard + Obituaries(spawned, [], now) == heard && Survivors(spawned, []) == spawned
  {
  }

  lemma RestOfDead(spawned: map<string, Child>, dead: seq<string>, now: int)
    requires dead != [] && ToBury(spawned, dead)
    ensures ToBury(spawned - {dead[0]}, dead[1..])
    ensures Obituaries(spawned - {dead[0]}, dead[1..], now) == Obituaries(spawned, dead[1..], now)
    ensures Survivors(spawned - {dead[0]}, dead[1..]) == Survivors(spawned, dead)
  {
    ToBuryWithout(spawned, dead[1..], dead[0]);
    ObituariesFrame(spawned, dead[1..], now, dead[0]);
  }

  lemma {:induction false} BuryAllRemoves<E>(su: Setup<E>, begin: int, base: seq<Posted>, m: M<E>, now: int,
                                             dead: seq<string>, fuel: nat)
    requires LoopInv(su, begin, base, m) && ToBury(m.spawned, dead)
    ensures Handled(su, begin, base, m, BuryAll(su, m, now, dead, fuel), Obituaries(m.spawned, dead, now),
                    Survivors(m.spawned, dead))
    decreases |dead|
  {
    if dead == [] {
      NoneBuried(m.heard, m.spawned, now);
    } else {
      BuryRemoves(su, begin, base, m, now, dead[0], fuel);
      var o := Bury(su, m, now, dead[0], fuel);
      if o.Done? {
        RestOfDead(m.spawned, dead, now);
        BuryAllRemoves(su, begin, base, o.value, now, dead[1..], fuel);
        HandledThen(su, begin, base, m, o.value, BuryAll(su, o.value, now, dead[1..], fuel),
                    Obituary(dead[0], m.spawned[dead[0]].name, now), m.spawned - {dead[0]},
                    Obituaries(m.spawned, dead[1..], now), Survivors(m.spawned, dead));
      }
    }
  }

  /** `CheckChildren` leaves exactly the children seen within the timeout, and tells the machine of each of
      the others, in key order, that it errored and that it exited, and nothing else. */
  lemma CheckChildrenExact<E>(su: Setup<E>, begin: int, base: seq<Posted>, m: M<E>, now: int, fuel: nat)
    requires LoopInv(su, begin, base, m)
    requires forall k :: k in m.spawned ==> PrintedKey(k)
    ensures Handled(su, begin, base, m, CheckChildren(su, m, now, fuel),
                    Obituaries(m.spawned, InOrder(Overdue(m.spawned, now)), now),
                    map k | k in m.spawned && now - m.spawned[k].seen <= 60_000_000_000 :: m.spawned[k])
  {
    var dead := InOrder(Overdue(m.spawned, now));
    OrderDistinct(Overdue(m.spawned, now));
    ToBuryIs(m.spawned, dead);
    BuryAllRemoves(su, begin, base, m, now, dead, fuel);
    SurvivorsAreRecent(m.spawned, now);
  }

  lemma SurvivorsAreRecent(spawned: map<string, Child>, now: int)
    ensures Survivors(spawned, InOrder(Overdue(spawned, now)))
         == map k | k in spawned && now - spawned[k].seen <= 60_000_000_000 :: spawned[k]
  {
    var dead := InOrder(Overdue(spawned, now));
    assert forall k :: k in dead <==> k in Overdue(spawned, now);
  }

  /** The iteration order is the strict order of strings. */
  lemma {:induction false} OrderSorted(keys: set<string>)
    ensures forall i, j :: 0 <= i < j < |InOrder(keys)| ==> Less(InOrder(keys)[i], InOrder(keys)[j])
    decreases |keys|
  {
    var l := InOrder(keys);
    if keys != {} {
      var k := l[0];
      OrderSorted(keys - {k});
      forall i, j | 0 <= i < j < |l| ensures Less(l[i], l[j]) {
        assert l[1..] == InOrder(keys - {k});
        if i == 0 {
          assert l[1..][j - 1] in keys - {k};
        } else {
          assert Less(l[1..][i - 1], l[1..][j - 1]);
        }
      }
    }
  }

  lemma OrderDistinct(keys: set<string>)
    ensures forall i, j :: 0 <= i < j < |InOrder(keys)| ==> InOrder(keys)[i] != InOrder(keys)[j]
  {
    OrderSorted(keys);
    forall i, j | 0 <= i < j < |InOrder(keys)| ensures InOrder(keys)[i] != InOrder(keys)[j] {
      LessIrreflexive(InOrder(keys)[i]);
    }
  }
}
