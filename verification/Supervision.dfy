/** The table of children, against the history of the messages handled. */
module Supervision {
  import opened Machines

  // ---------- the table of children against the history ----------

  function TrackAll(heard: seq<Heard>): map<string, Child> {
    if heard == [] then map[] else Track(TrackAll(heard[..|heard| - 1]), heard[|heard| - 1])
  }

  lemma TrackOneMore(heard: seq<Heard>, h: Heard)
    ensures TrackAll(heard + [h]) == Track(TrackAll(heard), h)
  {
    assert (heard + [h])[..|heard|] == heard;
  }

  predicate IsEvent(h: Heard, key: string, kind: Kind) {
    h.key == key && h.kind == kind
  }

  /** No "exited" from the key at or after position i. */
  ghost predicate NoExitFrom(heard: seq<Heard>, key: string, i: nat) {
    forall j :: i <= j < |heard| ==> !IsEvent(heard[j], key, ChildExited)
  }

  /** Position i is the earliest "started" from the key that no later "exited" ends. */
  ghost predicate Opening(heard: seq<Heard>, key: string, i: nat) {
    && i < |heard| && IsEvent(heard[i], key, ChildStarted) && NoExitFrom(heard, key, i)
    && forall j :: 0 <= j < i && IsEvent(heard[j], key, ChildStarted) ==> !NoExitFrom(heard, key, j)
  }

  /** Position j is the latest "pulsed" from the key since i, or i itself when there is none. */
  ghost predicate LatestSign(heard: seq<Heard>, key: string, i: nat, j: nat) {
    && i <= j < |heard| && (j == i || IsEvent(heard[j], key, ChildPulsed))
    && forall k :: j < k < |heard| ==> !IsEvent(heard[k], key, ChildPulsed)
  }

  lemma ExitStays(past: seq<Heard>, h: Heard, key: string, i: nat)
    ensures NoExitFrom(past + [h], key, i) ==> NoExitFrom(past, key, i)
    ensures i <= |past| && NoExitFrom(past, key, i) && !IsEvent(h, key, ChildExited) ==> NoExitFrom(past + [h], key, i)
    ensures i <= |past| && IsEvent(h, key, ChildExited) ==> !NoExitFrom(past + [h], key, i)
  {
    var heard := past + [h];
    assert heard[|past|] == h;
    if NoExitFrom(heard, key, i) {
      forall j | i <= j < |past| ensures !IsEvent(past[j], key, ChildExited) {
        assert heard[j] == past[j];
      }
    }
  }

  lemma OpeningExtends(past: seq<Heard>, h: Heard, key: string, i: nat)
    requires Opening(past, key, i) && !IsEvent(h, key, ChildExited)
    ensures Opening(past + [h], key, i)
  {
    var heard := past + [h];
    ExitStays(past, h, key, i);
    forall j | 0 <= j < i && IsEvent(heard[j], key, ChildStarted) ensures !NoExitFrom(heard, key, j) {
      assert heard[j] == past[j];
      ExitStays(past, h, key, j);
    }
  }

  lemma SignExtends(past: seq<Heard>, h: Heard, key: string, i: nat, j: nat)
    requires LatestSign(past, key, i, j)
    ensures LatestSign(past + [h], key, i, if IsEvent(h, key, ChildPulsed) then |past| else j)
  {
    var heard := past + [h];
    assert forall k :: 0 <= k < |past| ==> heard[k] == past[k];
  }

  lemma {:induction false} UntrackedHistory(heard: seq<Heard>, key: string, i: nat)
    requires key !in TrackAll(heard) && i < |heard| && IsEvent(heard[i], key, ChildStarted)
    ensures !NoExitFrom(heard, key, i)
  {
    var past, h := heard[..|heard| - 1], heard[|heard| - 1];
    assert heard == past + [h];
    ExitStays(past, h, key, i);
    if !IsEvent(h, key, ChildExited) {
      assert i < |past| && past[i] == heard[i];
      UntrackedHistory(past, key, i);
    }
  }

  lemma {:induction false} TrackedHistory(heard: seq<Heard>, key: string) returns (i: nat, j: nat)
    requires key in TrackAll(heard)
    ensures Opening(heard, key, i) && LatestSign(heard, key, i, j)
    ensures TrackAll(heard)[key] == Child(heard[i].name, heard[j].now)
  {
    var past, h := heard[..|heard| - 1], heard[|heard| - 1];
    assert heard == past + [h];
    if key in TrackAll(past) {
      i, j := TrackedHistory(past, key);
      OpeningExtends(past, h, key, i);
      SignExtends(past, h, key, i, j);
      if IsEvent(h, key, ChildPulsed) {
        j := |past|;
      }
    } else {
      i, j := |past|, |past|;
      assert IsEvent(h, key, ChildStarted);
      ExitStays(past, h, key, i);
      forall k | 0 <= k < i && IsEvent(heard[k], key, ChildStarted) ensures !NoExitFrom(heard, key, k) {
        assert heard[k] == past[k];
        UntrackedHistory(past, key, k);
        ExitStays(past, h, key, k);
      }
    }
  }

  lemma OpeningUnique(heard: seq<Heard>, key: string, i: nat, i': nat)
    requires Opening(heard, key, i) && Opening(heard, key, i')
    ensures i == i'
  {
  }

  /** A child is tracked exactly when some "started" from it has not been followed by an "exited". */
  lemma {:induction false} TrackedIffStarted(heard: seq<Heard>, key: string)
    ensures key in TrackAll(heard) <==>
            exists i :: 0 <= i < |heard| && IsEvent(heard[i], key, ChildStarted) && NoExitFrom(heard, key, i)
  {
    if key in TrackAll(heard) {
      var i, j := TrackedHistory(heard, key);
    } else {
      forall i | 0 <= i < |heard| && IsEvent(heard[i], key, ChildStarted) ensures !NoExitFrom(heard, key, i) {
        UntrackedHistory(heard, key, i);
      }
    }
  }

  /** Its name is the one of the earliest such "started", and it was last seen at its latest "pulsed" since
      then, or at that "started"; a repeated "started" changes nothing. */
  lemma TrackedSince(heard: seq<Heard>, key: string, i: nat, j: nat)
    requires Opening(heard, key, i) && LatestSign(heard, key, i, j)
    ensures key in TrackAll(heard)
    ensures TrackAll(heard)[key] == Child(heard[i].name, heard[j].now)
  {
    TrackedIffStarted(heard, key);
    var i', j' := TrackedHistory(heard, key);
    OpeningUnique(heard, key, i, i');
  }
}
