/** State hierarchies: lineages, their common part, and what a transition exits and enters. */
module Lineages {
  import opened Text

  /** The parent of every registered state; "" stands above the roots. */
  type Forest = map<string, string>

  function Reverse(l: seq<string>): (r: seq<string>)
    ensures |r| == |l|
  {
    seq(|l|, i requires 0 <= i < |l| => l[|l| - 1 - i])
  }

  lemma ReverseTwice(l: seq<string>)
    ensures Reverse(Reverse(l)) == l
  {
  }

  /** l is the chain of registered states from s up to a root. */
  ghost predicate IsLineage(f: Forest, s: string, l: seq<string>)
    decreases l
  {
    if s == "" then l == []
    else l != [] && l[0] == s && s in f && IsLineage(f, f[s], l[1..])
  }

  lemma {:induction false} LineageUnique(f: Forest, s: string, l: seq<string>, l': seq<string>)
    requires IsLineage(f, s, l) && IsLineage(f, s, l')
    ensures l == l'
    decreases l
  {
    if s != "" {
      LineageUnique(f, f[s], l[1..], l'[1..]);
      assert l == [s] + l[1..] && l' == [s] + l'[1..];
    }
  }

  /** None when some ancestor is not registered, or when the parents form a cycle. */
  ghost function Lineage(f: Forest, s: string): (r: Option<seq<string>>)
    ensures r.Some? ==> IsLineage(f, s, r.value)
  {
    if l :| IsLineage(f, s, l) then Some(l) else None
  }

  lemma LineageIs(f: Forest, s: string, l: seq<string>)
    requires IsLineage(f, s, l)
    ensures Lineage(f, s) == Some(l)
  {
    LineageUnique(f, s, l, Lineage(f, s).value);
  }

  /** From any of its states upwards, a lineage is the lineage of that state. */
  lemma {:induction false} LineageSuffix(f: Forest, s: string, l: seq<string>, i: nat)
    requires IsLineage(f, s, l) && i < |l|
    ensures l[i] in f && l[i] != "" && IsLineage(f, l[i], l[i..])
    decreases l
  {
    if i > 0 {
      LineageSuffix(f, f[s], l[1..], i - 1);
      assert l[1..][i - 1..] == l[i..];
    } else {
      assert l[0..] == l;
    }
  }

  lemma LineageDistinct(f: Forest, s: string, l: seq<string>, i: nat, j: nat)
    requires IsLineage(f, s, l) && i < |l| && j < |l| && l[i] == l[j]
    ensures i == j
  {
    LineageSuffix(f, s, l, i);
    LineageSuffix(f, s, l, j);
    LineageUnique(f, l[i], l[i..], l[j..]);
  }

  // ---------- the common part ----------

  /** The number of leading elements two lists share. */
  function CommonLength(a: seq<string>, b: seq<string>): (k: nat)
    ensures k <= |a| && k <= |b| && a[..k] == b[..k]
    ensures k < |a| && k < |b| ==> a[k] != b[k]
  {
    if a != [] && b != [] && a[0] == b[0] then
      var k := 1 + CommonLength(a[1..], b[1..]);
      assert a[..k] == [a[0]] + a[1..][..k - 1] && b[..k] == [b[0]] + b[1..][..k - 1];
      k
    else 0
  }

  lemma {:induction false} CommonIsLongest(a: seq<string>, b: seq<string>, n: nat)
    requires n <= |a| && n <= |b| && a[..n] == b[..n]
    ensures n <= CommonLength(a, b)
  {
    if n > 0 {
      assert a[..n][0] == b[..n][0] && a[..n][1..] == b[..n][1..];
      assert a[..n][1..] == a[1..][..n - 1] && b[..n][1..] == b[1..][..n - 1];
      CommonIsLongest(a[1..], b[1..], n - 1);
    }
  }

  /** `PruneLineage`: the common ancestors are erased from the front of both. */
  method PruneLineage(a: seq<string>, b: seq<string>) returns (a': seq<string>, b': seq<string>)
    ensures a' == a[CommonLength(a, b)..] && b' == b[CommonLength(a, b)..]
  {
    a', b' := a, b;
    ghost var k := 0;
    while a' != [] && b' != []
      invariant k <= |a| && k <= |b| && a' == a[k..] && b' == b[k..]
      invariant CommonLength(a, b) == k + CommonLength(a', b')
      decreases |a'|
    {
      if a'[0] == b'[0] {
        a', b' := a'[1..], b'[1..];
        k := k + 1;
      } else {
        break;
      }
    }
  }

  /** The states from the root down to s. */
  ghost function RootPath(f: Forest, s: string): seq<string>
    requires Lineage(f, s).Some?
  {
    Reverse(Lineage(f, s).value)
  }

  /** The number of common ancestors of two states. */
  ghost function Shared(f: Forest, s: string, t: string): nat
    requires Lineage(f, s).Some? && Lineage(f, t).Some?
  {
    CommonLength(RootPath(f, s), RootPath(f, t))
  }

  /** What a transition from s to t exits, leaf first, and enters, root first. */
  ghost function Route(f: Forest, s: string, t: string): Option<(seq<string>, seq<string>)> {
    if s == t then Some(([s], [s]))
    else if Lineage(f, s).None? || Lineage(f, t).None? then None
    else
      var k := Shared(f, s, t);
      Some((Reverse(RootPath(f, s)[k..]), RootPath(f, t)[k..]))
  }

  // ---------- the route, in terms of ancestors ----------

  /** x is s or an ancestor of s. */
  ghost predicate OnLineage(f: Forest, s: string, x: string)
    requires Lineage(f, s).Some?
  {
    x in Lineage(f, s).value
  }

  /** The path above and including a state depends on the state only. */
  lemma PathPrefix(f: Forest, s: string, i: nat)
    requires Lineage(f, s).Some? && i < |RootPath(f, s)|
    ensures Lineage(f, RootPath(f, s)[i]) == Some(Reverse(RootPath(f, s)[..i + 1]))
  {
    var l := Lineage(f, s).value;
    var j := |l| - 1 - i;
    LineageSuffix(f, s, l, j);
    assert l[j..] == Reverse(RootPath(f, s)[..i + 1]);
    LineageIs(f, l[j], l[j..]);
  }

  /** A state on both paths is in their common part. */
  lemma SharedState(f: Forest, s: string, t: string, i: nat, j: nat)
    requires Lineage(f, s).Some? && Lineage(f, t).Some?
    requires i < |RootPath(f, s)| && j < |RootPath(f, t)| && RootPath(f, s)[i] == RootPath(f, t)[j]
    ensures i == j < Shared(f, s, t)
  {
    var a, b := RootPath(f, s), RootPath(f, t);
    PathPrefix(f, s, i);
    PathPrefix(f, t, j);
    assert Reverse(a[..i + 1]) == Reverse(b[..j + 1]);
    ReverseTwice(a[..i + 1]);
    ReverseTwice(b[..j + 1]);
    assert a[..i + 1] == b[..j + 1];
    assert |a[..i + 1]| == |b[..j + 1]|;
    CommonIsLongest(a, b, i + 1);
  }

  /** Between distinct states of a forest a transition exits exactly the ancestors-or-self of the one that
      are not ancestors-or-self of the other, and enters exactly the converse, each once. */
  lemma RouteIsSymmetricDifference(f: Forest, s: string, t: string, x: string)
    requires s != t && Lineage(f, s).Some? && Lineage(f, t).Some?
    ensures var (exits, entries) := Route(f, s, t).value;
            && (x in exits <==> OnLineage(f, s, x) && !OnLineage(f, t, x))
            && (x in entries <==> OnLineage(f, t, x) && !OnLineage(f, s, x))
            && NoRepeats(exits) && NoRepeats(entries)
  {
    RouteHalf(f, s, t, x);
    RouteHalf(f, t, s, x);
    CommonSymmetric(RootPath(f, s), RootPath(f, t));
    var k := Shared(f, s, t);
    ReverseMember(RootPath(f, s)[k..], x);
    PathHasNoRepeats(f, s);
    PathHasNoRepeats(f, t);
  }

  predicate NoRepeats(l: seq<string>) {
    forall i, j :: 0 <= i < j < |l| ==> l[i] != l[j]
  }

  lemma PathHasNoRepeats(f: Forest, s: string)
    requires Lineage(f, s).Some?
    ensures NoRepeats(RootPath(f, s))
  {
    var l := Lineage(f, s).value;
    forall i, j | 0 <= i < j < |l| ensures RootPath(f, s)[i] != RootPath(f, s)[j] {
      if l[|l| - 1 - i] == l[|l| - 1 - j] {
        LineageDistinct(f, s, l, |l| - 1 - i, |l| - 1 - j);
        assert false;
      }
    }
  }

  lemma RouteHalf(f: Forest, s: string, t: string, x: string)
    requires Lineage(f, s).Some? && Lineage(f, t).Some?
    ensures x in RootPath(f, s)[Shared(f, s, t)..] <==> OnLineage(f, s, x) && !OnLineage(f, t, x)
  {
    var a, b, k := RootPath(f, s), RootPath(f, t), Shared(f, s, t);
    ReverseMember(Lineage(f, s).value, x);
    ReverseMember(Lineage(f, t).value, x);
    if x in a[k..] {
      var i :| k <= i < |a| && a[i] == x;
      forall j | 0 <= j < |b| ensures b[j] != x {
        if b[j] == x {
          SharedState(f, s, t, i, j);
        }
      }
    } else {
      assert a == a[..k] + a[k..];
      assert x in a ==> x in b[..k];
    }
  }

  lemma ReverseMember(l: seq<string>, x: string)
    ensures x in Reverse(l) <==> x in l
  {
    if x in l {
      var i :| 0 <= i < |l| && l[i] == x;
      assert Reverse(l)[|l| - 1 - i] == x;
    }
  }

  lemma {:induction false} CommonSymmetric(a: seq<string>, b: seq<string>)
    ensures CommonLength(a, b) == CommonLength(b, a)
  {
    if a != [] && b != [] {
      CommonSymmetric(a[1..], b[1..]);
    }
  }

  /** The exits are a leading part of the lineage of s, from s upwards; the entries a trailing part of the
      path down to t. */
  lemma RouteIsOrdered(f: Forest, s: string, t: string)
    requires s != t && Lineage(f, s).Some? && Lineage(f, t).Some?
    ensures var (exits, entries) := Route(f, s, t).value;
            && exits <= Lineage(f, s).value
            && entries == RootPath(f, t)[|RootPath(f, t)| - |entries|..]
            && RootPath(f, s)[..|RootPath(f, s)| - |exits|] == RootPath(f, t)[..|RootPath(f, t)| - |entries|]
  {
    var a, k := RootPath(f, s), Shared(f, s, t);
    ReverseTwice(Lineage(f, s).value);
    assert Reverse(a[k..]) == Reverse(a)[..|a| - k];
  }

  // ---------- computing a lineage ----------

  /** A rank that falls from every state to its parent: there are no cycles. */
  ghost predicate Ranked(f: Forest, rank: map<string, nat>) {
    forall s :: s in f ==> s in rank && (f[s] in f ==> f[s] in rank && rank[f[s]] < rank[s])
  }

  ghost predicate Acyclic(f: Forest) {
    exists rank :: Ranked(f, rank)
  }

  /** `StateLineage`: None is the exception of `at` for a state that is not registered. */
  method StateLineage(f: Forest, state: string) returns (r: Option<seq<string>>)
    requires Acyclic(f)
    ensures r == Lineage(f, state)
  {
    ghost var rank :| Ranked(f, rank);
    var s := state;
    var lineage: seq<string> := [];
    while s != ""
      invariant forall l :: IsLineage(f, state, l) <==> lineage <= l && IsLineage(f, s, l[|lineage|..])
      decreases if s == "" then 0 else if s in f then 2 + rank[s] else 1
    {
      lineage := lineage + [s];
      if s !in f {
        return None;
      }
      LineageStep(f, state, s, lineage[..|lineage| - 1]);
      s := f[s];
    }
    assert IsLineage(f, "", lineage[|lineage|..]);
    LineageIs(f, state, lineage);
    r := Some(lineage);
  }

  lemma LineageStep(f: Forest, state: string, s: string, done: seq<string>)
    requires s != "" && s in f
    requires forall l :: IsLineage(f, state, l) <==> done <= l && IsLineage(f, s, l[|done|..])
    ensures forall l :: IsLineage(f, state, l) <==> done + [s] <= l && IsLineage(f, f[s], l[|done + [s]|..])
  {
    forall l ensures done <= l && IsLineage(f, s, l[|done|..])
        <==> done + [s] <= l && IsLineage(f, f[s], l[|done + [s]|..])
    {
      if done <= l && |l| > |done| {
        assert l[|done|..][1..] == l[|done| + 1..];
        assert l[|done|..][0] == l[|done|];
      }
    }
  }
}
