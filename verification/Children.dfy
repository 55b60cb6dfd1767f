/** What a machine tells its parent, and what the parent's table makes of it. */
module Children {
  import opened Text
  import opened Machines
  import opened Supervision

  lemma Said(word: string, rest: string)
    requires word != "" && NoSpaces(word)
    ensures Word(word + " " + rest) == word && NameIn(word + " " + rest) == Word(rest)
  {
    WordOfWord(word, " " + rest);
    assert word + (" " + rest) == word + " " + rest;
    assert (" " + rest)[1..] == rest;
  }

  lemma StartedMeans(name: string)
    ensures KindOf("started " + name) == ChildStarted && NameIn("started " + name) == Word(name)
  {
    var w := "started";
    Said(w, name);
    assert w + " " + name == "started " + name;
  }

  lemma PulsedMeans(name: string)
    ensures KindOf("pulsed " + name) == ChildPulsed
  {
    var w := "pulsed";
    Said(w, name);
    assert w + " " + name == "pulsed " + name;
  }

  lemma ErroredMeans(rest: string)
    ensures KindOf("errored " + rest) == Other
  {
    var w := "errored";
    Said(w, rest);
    assert w + " " + rest == "errored " + rest;
  }

  lemma ExitedMeans(name: string)
    ensures KindOf("exited " + name) == ChildExited
  {
    var w := "exited";
    Said(w, name);
    assert w + " " + name == "exited " + name;
  }

  /** The pulses of a child, heard at the given times. */
  function Pulses(key: string, name: string, stamps: seq<int>): seq<Heard> {
    if stamps == [] then [] else
      Pulses(key, name, stamps[..|stamps| - 1]) + [Hear(key, "pulsed " + name, stamps[|stamps| - 1])]
  }

  function LastOf(begin: int, stamps: seq<int>): int {
    if stamps == [] then begin else stamps[|stamps| - 1]
  }

  /** A message of a known kind, one step on. */
  lemma HeardNext(past: seq<Heard>, h: Heard, table: map<string, Child>)
    requires TrackAll(past) == table
    ensures TrackAll(past + [h]) == Track(table, h)
  {
    TrackOneMore(past, h);
  }

  lemma {:induction false} PulsesAreHeard(past: seq<Heard>, table: map<string, Child>, key: string, name: string,
                                          c: Child, stamps: seq<int>)
    requires TrackAll(past) == table[key := c]
    ensures TrackAll(past + Pulses(key, name, stamps)) == table[key := c.(seen := LastOf(c.seen, stamps))]
  {
    if stamps == [] {
      assert past + Pulses(key, name, stamps) == past;
    } else {
      var before, h := stamps[..|stamps| - 1], Hear(key, "pulsed " + name, stamps[|stamps| - 1]);
      PulsesAreHeard(past, table, key, name, c, before);
      PulsedMeans(name);
      HeardNext(past + Pulses(key, name, before), h, table[key := c.(seen := LastOf(c.seen, before))]);
      assert past + Pulses(key, name, stamps) == past + Pulses(key, name, before) + [h];
    }
  }

  // ---------- one child among others ----------

  /** The messages from one key. */
  function FromKey(heard: seq<Heard>, key: string): seq<Heard> {
    if heard == [] then [] else
      FromKey(heard[..|heard| - 1], key) + if heard[|heard| - 1].key == key then [heard[|heard| - 1]] else []
  }

  function Entry(table: map<string, Child>, key: string): Option<Child> {
    if key in table then Some(table[key]) else None
  }

  lemma {:induction false} FromKeyConcat(p: seq<Heard>, q: seq<Heard>, key: string)
    ensures FromKey(p + q, key) == FromKey(p, key) + FromKey(q, key)
  {
    if q == [] {
      assert p + q == p;
    } else {
      FromKeyConcat(p, q[..|q| - 1], key);
      assert (p + q)[..|p + q| - 1] == p + q[..|q| - 1];
    }
  }

  /** A message changes its sender's entry only, and by that entry only. */
  lemma TrackIsLocal(table: map<string, Child>, table': map<string, Child>, h: Heard, key: string)
    requires Entry(table, key) == Entry(table', key)
    ensures Entry(Track(table, h), key) == Entry(if h.key == key then Track(table', h) else table', key)
  {
  }

  /** What the table says of a child depends on the child's own messages only. */
  lemma {:induction false} OnlyOwnMessages(heard: seq<Heard>, key: string)
    ensures Entry(TrackAll(heard), key) == Entry(TrackAll(FromKey(heard, key)), key)
  {
    if heard != [] {
      var past, h := heard[..|heard| - 1], heard[|heard| - 1];
      OnlyOwnMessages(past, key);
      TrackIsLocal(TrackAll(past), TrackAll(FromKey(past, key)), h, key);
      if h.key == key {
        TrackOneMore(FromKey(past, key), h);
      } else {
        assert FromKey(heard, key) == FromKey(past, key);
      }
    }
  }

  /** The last messages of a child, the first of them only if it has an error. */
  function LastWords(key: string, name: string, error: Option<string>, end: int): seq<Heard> {
    (match error
     case None => []
     case Some(text) => [Hear(key, "errored " + (name + " " + text), end)]) + [Hear(key, "exited " + name, end)]
  }

  lemma LastWordsAreHeard(past: seq<Heard>, table: map<string, Child>, key: string, c: Child, name: string,
                          error: Option<string>, end: int)
    requires TrackAll(past) == table[key := c] && key !in table
    ensures TrackAll(past + LastWords(key, name, error, end)) == table
  {
    var exited := Hear(key, "exited " + name, end);
    ExitedMeans(name);
    var before := past;
    match error {
      case None =>
      case Some(text) =>
        var errored := Hear(key, "errored " + (name + " " + text), end);
        ErroredMeans(name + " " + text);
        HeardNext(past, errored, table[key := c]);
        before := past + [errored];
    }
    HeardNext(before, exited, table[key := c]);
    assert past + LastWords(key, name, error, end) == before + [exited];
    assert table[key := c] - {key} == table;
  }

  /** A life without interruption. */
  lemma LifeAlone(past: seq<Heard>, key: string, name: string, begin: int, stamps: seq<int>,
                  error: Option<string>, end: int)
    requires key !in TrackAll(past)
    ensures var alive := past + ([Hear(key, "started " + name, begin)] + Pulses(key, name, stamps));
            && TrackAll(alive) == TrackAll(past)[key := Child(Word(name), LastOf(begin, stamps))]
            && TrackAll(alive + LastWords(key, name, error, end)) == TrackAll(past)
  {
    var table, h := TrackAll(past), Hear(key, "started " + name, begin);
    StartedMeans(name);
    StartIsHeard(past, table, h);
    var c := Child(Word(name), begin);
    PulsesAreHeard(past + [h], table, key, name, c, stamps);
    ConcatOne(past, h, Pulses(key, name, stamps));
    LastWordsAreHeard(past + ([h] + Pulses(key, name, stamps)), table, key, c.(seen := LastOf(begin, stamps)),
                      name, error, end);
  }

  lemma StartIsHeard(past: seq<Heard>, table: map<string, Child>, h: Heard)
    requires TrackAll(past) == table && h.key !in table && h.kind == ChildStarted
    ensures TrackAll(past + [h]) == table[h.key := Child(h.name, h.now)]
  {
    HeardNext(past, h, table);
  }

  lemma ConcatOne(past: seq<Heard>, h: Heard, rest: seq<Heard>)
    ensures past + [h] + rest == past + ([h] + rest)
  {
  }

  /** What a child says during its life, whatever others say in between, has these effects on its parent's
      table: from its start on it is tracked under its name and as seen at its last pulse; when it has exited,
      with or without an error, it is not tracked any more. */
  lemma ChildLife(past: seq<Heard>, life: seq<Heard>, last: seq<Heard>, key: string, name: string, begin: int,
                  stamps: seq<int>, error: Option<string>, end: int)
    requires key !in TrackAll(past)
    requires FromKey(life, key) == [Hear(key, "started " + name, begin)] + Pulses(key, name, stamps)
    requires FromKey(last, key) == LastWords(key, name, error, end)
    ensures Entry(TrackAll(past + life), key) == Some(Child(Word(name), LastOf(begin, stamps)))
    ensures key !in TrackAll(past + life + last)
  {
    var own := FromKey(past, key);
    OnlyOwnMessages(past, key);
    LifeAlone(own, key, name, begin, stamps, error, end);
    FromKeyConcat(past, life, key);
    OnlyOwnMessages(past + life, key);
    FromKeyConcat(past + life, last, key);
    OnlyOwnMessages(past + life + last, key);
  }

  // ---------- what receivers see ----------

  /** A catch-all receiver sees the whole message; an exact one sees what follows its key, and for "started"
      the name on. */
  lemma ReceiverSees(w: string, rest: string)
    requires w != "" && NoSpaces(w) && (rest == "" || IsSpace(rest[0]))
    ensures Arguments(w + rest, false) == w + rest
    ensures Arguments(w + rest, true) == if w == "started" then SkipSpaces(rest) else rest
  {
    WordOfWord(w, rest);
  }
}
