/** The Turing sample's tape: a vector that grows at both ends, and the infinite tape it stands for. */
module Tapes {
  import opened Text

  /** `cells_`, the position of `pos_` in it, and `blank_`. */
  datatype Tape = Tape(cells: seq<char>, pos: nat, blank: char)

  /** The iterator points at a cell. */
  predicate Valid(t: Tape) {
    t.pos < |t.cells|
  }

  /** `is >> symbol` until the stream ends. */
  function Symbols(text: string): (r: string)
    ensures NoSpaces(r)
  {
    if text == "" then "" else (if IsSpace(text[0]) then "" else [text[0]]) + Symbols(text[1..])
  }

  function Assign(t: Tape, text: string): Tape {
    Tape(Symbols(text), 0, t.blank)
  }

  ghost predicate Found(text: string, cells: string, at: seq<nat>) {
    |at| == |cells| && forall k :: 0 <= k < |at| ==> at[k] < |text| && cells[k] == text[at[k]]
  }

  ghost predicate Rising(at: seq<nat>) {
    forall j, k :: 0 <= j < k < |at| ==> at[j] < at[k]
  }

  ghost predicate NoneElse(text: string, at: seq<nat>) {
    forall i :: 0 <= i < |text| ==> (IsSpace(text[i]) <==> i !in at)
  }

  /** The positions are increasing and exactly those of the characters that are no spaces; `cells` is what is
      found there. */
  ghost predicate Picks(text: string, cells: string, at: seq<nat>) {
    Found(text, cells, at) && Rising(at) && NoneElse(text, at)
  }

  function Later(at: seq<nat>): (r: seq<nat>)
    ensures forall i :: i in r <==> i > 0 && i - 1 in at
  {
    if at == [] then [] else [at[0] + 1] + Later(at[1..])
  }

  lemma {:induction false} LaterPicks(text: string, cells: string, at: seq<nat>, c: char)
    requires Found(text, cells, at) && Rising(at)
    ensures Found([c] + text, cells, Later(at)) && Rising(Later(at))
  {
    if at != [] {
      LaterPicks(text, cells[1..], at[1..], c);
      var l := Later(at[1..]);
      assert Later(at) == [at[0] + 1] + l;
      forall k | 0 <= k < |l| ensures at[0] + 1 < l[k] {
        assert l[k] in l;
        assert l[k] - 1 in at[1..];
      }
    }
  }

  lemma NoneElseMore(text: string, at: seq<nat>, c: char)
    requires NoneElse(text, at)
    ensures NoneElse([c] + text, if IsSpace(c) then Later(at) else [0] + Later(at))
  {
    var at' := if IsSpace(c) then Later(at) else [0] + Later(at);
    forall i | 0 <= i < |text| + 1 ensures IsSpace(([c] + text)[i]) <==> i !in at' {
      if i > 0 {
        assert ([c] + text)[i] == text[i - 1];
        assert i in at' <==> i in Later(at);
      }
    }
  }

  lemma FirstPicked(text: string, cells: string, l: seq<nat>)
    requires text != "" && Found(text, cells, l) && Rising(l) && forall i :: i in l ==> i > 0
    ensures Found(text, [text[0]] + cells, [0] + l) && Rising([0] + l)
  {
    forall k | 0 <= k < |l| ensures l[k] > 0 {
      assert l[k] in l;
    }
  }

  lemma PicksOneMore(text: string, cells: string, at: seq<nat>, c: char, text': string)
    requires Picks(text, cells, at) && text' == [c] + text
    ensures if IsSpace(c) then Picks(text', cells, Later(at)) else Picks(text', [c] + cells, [0] + Later(at))
  {
    NoneElseMore(text, at, c);
    LaterPicks(text, cells, at, c);
    FirstPicked(text', cells, Later(at));
  }

  /** The cells are, in order and each once, exactly the characters of the text that are no spaces, with the head on
      the first. */
  lemma {:induction false} AssignIs(t: Tape, text: string) returns (at: seq<nat>)
    ensures Picks(text, Assign(t, text).cells, at)
    ensures Assign(t, text).pos == 0 && Assign(t, text).blank == t.blank
  {
    at := [];
    if text != "" {
      var rest := AssignIs(t, text[1..]);
      PicksOneMore(text[1..], Symbols(text[1..]), rest, text[0], text);
      at := if IsSpace(text[0]) then Later(rest) else [0] + Later(rest);
      assert Symbols(text) == (if IsSpace(text[0]) then "" else [text[0]]) + Symbols(text[1..]);
    }
  }

  /** In particular a text without spaces is assigned as it is. */
  lemma {:induction false} AssignPlain(t: Tape, text: string)
    requires NoSpaces(text)
    ensures Assign(t, text) == Tape(text, 0, t.blank)
  {
    if text != "" {
      NoSpacesInTail(text);
      AssignPlain(t, text[1..]);
      assert text == [text[0]] + text[1..];
    }
  }

  /** And two texts one after the other are assigned one after the other, whatever spaces are between them. */
  lemma {:induction false} AssignConcat(t: Tape, a: string, space: string, b: string)
    requires forall i :: 0 <= i < |space| ==> IsSpace(space[i])
    ensures Assign(t, a + space + b).cells == Assign(t, a).cells + Assign(t, b).cells
    decreases |a| + |space|
  {
    if a != "" {
      AssignConcat(t, a[1..], space, b);
      assert (a + space + b)[1..] == a[1..] + space + b;
    } else if space != "" {
      AssignConcat(t, a, space[1..], b);
      assert (a + space + b)[1..] == a + space[1..] + b;
    } else {
      assert a + space + b == b;
    }
  }

  function Read(t: Tape): char
    requires Valid(t)
  {
    t.cells[t.pos]
  }

  function Write(t: Tape, symbol: char): (r: Tape)
    requires Valid(t)
    ensures Valid(r)
  {
    t.(cells := t.cells[t.pos := symbol])
  }

  predicate IsDirection(d: char) {
    d == 'L' || d == 'R' || d == 'N'
  }

  /** None is the exception for an unknown direction. */
  function Move(t: Tape, d: char): (r: Option<Tape>)
    requires Valid(t)
    ensures r.Some? <==> IsDirection(d)
    ensures r.Some? ==> Valid(r.value)
  {
    if d == 'L' then
      Some(if t.pos == 0 then t.(cells := [t.blank] + t.cells) else t.(pos := t.pos - 1))
    else if d == 'R' then
      Some(t.(pos := t.pos + 1, cells := if t.pos + 1 == |t.cells| then t.cells + [t.blank] else t.cells))
    else if d == 'N' then Some(t)
    else None
  }

  /** What the head is over after a move: the neighbour it moved to, a blank where the vector ended. Whatever was on
      the vector before is found in the same order behind at most one new cell at the end the head moved to. */
  lemma MoveReads(t: Tape, d: char)
    requires Valid(t) && IsDirection(d)
    ensures var r := Move(t, d).value;
            && Read(r) == (if d == 'N' then t.cells[t.pos]
                           else if d == 'L' then if t.pos == 0 then t.blank else t.cells[t.pos - 1]
                           else if t.pos + 1 == |t.cells| then t.blank else t.cells[t.pos + 1])
            && r.cells == (if d == 'L' && t.pos == 0 then [t.blank] else []) + t.cells +
                          (if d == 'R' && t.pos + 1 == |t.cells| then [t.blank] else [])
            && r.blank == t.blank
  {
  }

  /** A symbol that was written is read when the head comes back, by either side. */
  lemma WriteComesBack(t: Tape, symbol: char, away: char, back: char)
    requires Valid(t) && ((away == 'L' && back == 'R') || (away == 'R' && back == 'L'))
    ensures Read(Move(Move(Write(t, symbol), away).value, back).value) == symbol
    ensures forall i :: 0 <= i < |t.cells| && i != t.pos ==> Write(t, symbol).cells[i] == t.cells[i]
  {
    assert Read(Write(t, symbol)) == symbol;
  }

  // ---------- the infinite tape ----------

  /** A head over a two-way infinite tape; cells without a mark are blank. */
  datatype Infinite = Infinite(head: int, marks: map<int, char>, blank: char)

  function Cell(f: Infinite, i: int): char {
    if i in f.marks then f.marks[i] else f.blank
  }

  function Mark(f: Infinite, symbol: char): Infinite {
    f.(marks := f.marks[f.head := symbol])
  }

  function Shift(f: Infinite, d: char): Infinite {
    f.(head := f.head + if d == 'L' then -1 else if d == 'R' then 1 else 0)
  }

  /** The vector holds the cells from `origin` on, the head is where the iterator is, and every cell outside
      the vector is blank. */
  ghost predicate StandsFor(t: Tape, f: Infinite, origin: int) {
    && Valid(t) && t.blank == f.blank && f.head == origin + t.pos
    && forall i :: Cell(f, i) == if origin <= i < origin + |t.cells| then t.cells[i - origin] else t.blank
  }

  lemma WriteRefines(t: Tape, f: Infinite, origin: int, symbol: char)
    requires StandsFor(t, f, origin)
    ensures Read(t) == Cell(f, f.head)
    ensures StandsFor(Write(t, symbol), Mark(f, symbol), origin)
  {
    var f' := Mark(f, symbol);
    forall i ensures Cell(f', i) == if i == f.head then symbol else Cell(f, i) {
    }
  }

  lemma MoveRefines(t: Tape, f: Infinite, origin: int, d: char)
    requires StandsFor(t, f, origin) && IsDirection(d)
    ensures StandsFor(Move(t, d).value, Shift(f, d), if d == 'L' && t.pos == 0 then origin - 1 else origin)
  {
    var t', f' := Move(t, d).value, Shift(f, d);
    forall i ensures Cell(f', i) == Cell(f, i) {
    }
  }

  datatype Op = Put(symbol: char) | Go(direction: char)

  predicate ValidOp(op: Op) {
    op.Go? ==> IsDirection(op.direction)
  }

  predicate ValidOps(ops: seq<Op>) {
    forall i :: 0 <= i < |ops| ==> ValidOp(ops[i])
  }

  function Apply(t: Tape, op: Op): (r: Tape)
    requires Valid(t) && ValidOp(op)
    ensures Valid(r)
  {
    match op
    case Put(symbol) => Write(t, symbol)
    case Go(d) => Move(t, d).value
  }

  function ApplyAll(t: Tape, ops: seq<Op>): (r: Tape)
    requires Valid(t) && ValidOps(ops)
    ensures Valid(r)
    decreases |ops|
  {
    if ops == [] then t else ApplyAll(Apply(t, ops[0]), ops[1..])
  }

  function InfiniteAll(f: Infinite, ops: seq<Op>): Infinite
    decreases |ops|
  {
    if ops == [] then f else
      InfiniteAll(match ops[0]
                  case Put(symbol) => Mark(f, symbol)
                  case Go(d) => Shift(f, d), ops[1..])
  }

  /** Any sequence of writes and moves keeps the tape standing for the infinite one: the head stays inside
      the vector, reading agrees, and what the vector does not hold is blank. */
  lemma {:induction false} OpsRefine(t: Tape, f: Infinite, origin: int, ops: seq<Op>) returns (origin': int)
    requires StandsFor(t, f, origin) && ValidOps(ops)
    ensures StandsFor(ApplyAll(t, ops), InfiniteAll(f, ops), origin')
    ensures Read(ApplyAll(t, ops)) == Cell(InfiniteAll(f, ops), InfiniteAll(f, ops).head)
    decreases |ops|
  {
    if ops == [] {
      origin' := origin;
      WriteRefines(t, f, origin, t.blank);
    } else {
      match ops[0] {
        case Put(symbol) =>
          WriteRefines(t, f, origin, symbol);
          origin' := OpsRefine(Write(t, symbol), Mark(f, symbol), origin, ops[1..]);
        case Go(d) =>
          assert ValidOp(ops[0]);
          MoveRefines(t, f, origin, d);
          origin' := OpsRefine(Move(t, d).value, Shift(f, d), if d == 'L' && t.pos == 0 then origin - 1 else origin,
                               ops[1..]);
      }
    }
  }

  /** The infinite tape a text is written on, with the head on its first symbol. */
  function Inscribed(text: string, blank: char): Infinite {
    Infinite(0, map i: int | 0 <= i < |Symbols(text)| :: Symbols(text)[i], blank)
  }

  lemma AssignStandsFor(t: Tape, text: string)
    requires Symbols(text) != ""
    ensures StandsFor(Assign(t, text), Inscribed(text, t.blank), 0)
  {
  }

  /** A text without spaces is found on the infinite tape character by character from the head on, between blanks. */
  lemma InscribedIs(text: string, blank: char)
    requires NoSpaces(text)
    ensures var f := Inscribed(text, blank);
            f.head == 0 && forall i :: Cell(f, i) == if 0 <= i < |text| then text[i] else blank
  {
    AssignPlain(Tape([], 0, blank), text);
  }
}

/** The `Tape` class, which updates the vector and the iterator in place. */
module TapeObjects {
  import opened Text
  import Tapes

  class TapeObject {
    const blank: char
    var cells: seq<char>
    var pos: nat

    function View(): Tapes.Tape
      reads this
    {
      Tapes.Tape(cells, pos, blank)
    }

    constructor (blank: char)
      ensures View() == Tapes.Tape([], 0, blank)
    {
      this.blank, cells, pos := blank, [], 0;
    }

    method Assign(text: string)
      modifies this
      ensures View() == Tapes.Assign(old(View()), text)
    {
      cells := [];
      var i := 0;
      while i < |text|
        invariant 0 <= i <= |text| && cells + Tapes.Symbols(text[i..]) == Tapes.Symbols(text)
      {
        assert text[i..][1..] == text[i + 1..];
        if !IsSpace(text[i]) {
          cells := cells + [text[i]];
        }
        i := i + 1;
      }
      pos := 0;
    }

    method Read() returns (symbol: char)
      requires Tapes.Valid(View())
      ensures symbol == Tapes.Read(View())
    {
      symbol := cells[pos];
    }

    method Write(symbol: char)
      requires Tapes.Valid(View())
      modifies this`cells
      ensures View() == Tapes.Write(old(View()), symbol)
    {
      cells := cells[pos := symbol];
    }

    /** An unknown direction throws and changes nothing. */
    method Move(direction: char) returns (ok: bool)
      requires Tapes.Valid(View())
      modifies this
      ensures ok <==> Tapes.IsDirection(direction)
      ensures View() == if ok then Tapes.Move(old(View()), direction).value else old(View())
    {
      if direction == 'L' {
        if pos == 0 {
          cells := [blank] + cells;
        } else {
          pos := pos - 1;
        }
      } else if direction == 'R' {
        pos := pos + 1;
        if pos == |cells| {
          cells := cells + [blank];
        }
      } else if direction != 'N' {
        return false;
      }
      return true;
    }
  }
}
