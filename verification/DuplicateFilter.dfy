/** The receiver's duplicate filter of DelegateMQ/extras/databus/Participant.h: a fixed ring of the
    sequence numbers accepted last, and what it guarantees over whole runs of arrivals. */
module DuplicateFilter {
  import opened Wrappers

  type SeqNum = n: int | 0 <= n < 0x1_0000

  // ---------- Specification: the numbers accepted so far, oldest first ----------

  /** The last n accepted numbers, or all of them while there are fewer. */
  function Recent(accepted: seq<SeqNum>, n: nat): seq<SeqNum> {
    if |accepted| <= n then accepted else accepted[|accepted| - n..]
  }

  function Accept(accepted: seq<SeqNum>, n: nat, s: SeqNum): seq<SeqNum> {
    if s in Recent(accepted, n) then accepted else accepted + [s]
  }

  /** No number occurs twice among any n + 1 consecutive accepted ones. */
  ghost predicate Spaced(accepted: seq<SeqNum>, n: nat) {
    forall i, j | 0 <= i < j < |accepted| && j - i <= n :: accepted[i] != accepted[j]
  }

  lemma AcceptKeepsSpaced(accepted: seq<SeqNum>, n: nat, s: SeqNum)
    requires Spaced(accepted, n)
    ensures Spaced(Accept(accepted, n, s), n)
  {
    var a := Accept(accepted, n, s);
    forall i, j | 0 <= i < j < |a| && j - i <= n
      ensures a[i] != a[j]
    {
      if j == |accepted| {
        var r := Recent(accepted, n);
        assert a[i] == r[i - (|accepted| - |r|)];
      }
    }
  }

  // ---------- The ring ----------

  class SeqHistory {
    const size: nat
    const buffer: array<SeqNum>
    const valid: array<bool>
    var head: nat
    /** Every number ever accepted, in order. */
    ghost var accepted: seq<SeqNum>

    /** The slots below the head hold the newest numbers, the others the ones before them; slots not
        yet used are invalid. */
    ghost predicate Valid()
      reads this, buffer, valid
    {
      && 0 < size == buffer.Length == valid.Length
      && head < size
      && head <= |accepted|
      && (forall i | 0 <= i < head :: valid[i] && buffer[i] == accepted[|accepted| - head + i])
      && (|accepted| < size ==> head == |accepted| && forall i | head <= i < size :: !valid[i])
      && (|accepted| >= size ==>
            forall i | head <= i < size :: valid[i] && buffer[i] == accepted[|accepted| - head - size + i])
      && Spaced(accepted, size)
    }

    constructor (size: nat)
      requires size > 0
      ensures Valid() && fresh(this) && fresh(buffer) && fresh(valid) && this.size == size && accepted == []
    {
      this.size := size;
      buffer := new SeqNum[size](_ => 0);
      valid := new bool[size](_ => false);
      head := 0;
      accepted := [];
    }

    method IsDuplicate(s: SeqNum) returns (duplicate: bool)
      requires Valid()
      modifies this, buffer, valid
      ensures Valid()
      ensures duplicate <==> s in Recent(old(accepted), size)
      ensures accepted == Accept(old(accepted), size, s)
    {
      hide Recent, Spaced;
      var i := 0;
      while i < size
        invariant 0 <= i <= size
        invariant forall k | 0 <= k < i :: !(valid[k] && buffer[k] == s)
      {
        if valid[i] && buffer[i] == s {
          RingHoldsRecent(i);
          return true;
        }
        i := i + 1;
      }
      NotInRing(s);
      AcceptKeepsSpaced(accepted, size, s);
      Record(s);
      return false;
    }

    method Record(s: SeqNum)
      requires Valid() && Spaced(accepted + [s], size)
      modifies this, buffer, valid
      ensures Valid() && accepted == old(accepted) + [s]
    {
      hide Spaced;
      buffer[head] := s;
      valid[head] := true;
      head := if head + 1 == size then 0 else head + 1;
      accepted := accepted + [s];
    }

    lemma RingHoldsRecent(i: nat)
      requires Valid() && i < size && valid[i]
      ensures buffer[i] in Recent(accepted, size)
    {
      var r := Recent(accepted, size);
      var k := if i < head then |r| - head + i else |r| - head - size + i;
      assert r[k] == buffer[i];
    }

    lemma NotInRing(s: SeqNum)
      requires Valid()
      requires forall i | 0 <= i < size :: !(valid[i] && buffer[i] == s)
      ensures s !in Recent(accepted, size)
    {
      hide Spaced;
      var r := Recent(accepted, size);
      forall k | 0 <= k < |r|
        ensures r[k] != s
      {
        var i := if k >= |r| - head then k - (|r| - head) else k - (|r| - head) + size;
        assert valid[i] && buffer[i] == r[k];
      }
    }
  }

  // ---------- Whole runs of arrivals on one remote id ----------

  /** The numbers accepted when these arrive one after the other. */
  function Run(arrivals: seq<SeqNum>, n: nat): seq<SeqNum> {
    if arrivals == [] then [] else Accept(Run(arrivals[..|arrivals| - 1], n), n, arrivals[|arrivals| - 1])
  }

  /** Arrival k passes the filter, so its handler runs. */
  predicate Passes(arrivals: seq<SeqNum>, n: nat, k: nat)
    requires k < |arrivals|
  {
    arrivals[k] !in Recent(Run(arrivals[..k], n), n)
  }

  /** How many arrivals strictly between i and k pass. */
  function PassedBetween(arrivals: seq<SeqNum>, n: nat, i: nat, k: nat): int
    requires i < k <= |arrivals|
  {
    |Run(arrivals[..k], n)| - |Run(arrivals[..i + 1], n)|
  }

  lemma RunStep(arrivals: seq<SeqNum>, n: nat, k: nat)
    requires k < |arrivals|
    ensures Run(arrivals[..k + 1], n)
         == if Passes(arrivals, n, k) then Run(arrivals[..k], n) + [arrivals[k]] else Run(arrivals[..k], n)
  {
    assert arrivals[..k + 1][..k] == arrivals[..k];
  }

  lemma EmptyRun(arrivals: seq<SeqNum>, n: nat)
    ensures Run(arrivals[..0], n) == []
  {}

  lemma {:induction false} RunGrows(arrivals: seq<SeqNum>, n: nat, i: nat, k: nat)
    requires i <= k <= |arrivals|
    ensures Run(arrivals[..i], n) <= Run(arrivals[..k], n)
  {
    hide Run, Recent, Passes;
    if i < k {
      RunGrows(arrivals, n, i, k - 1);
      RunStep(arrivals, n, k - 1);
    }
  }

  lemma {:induction false} RunSpaced(arrivals: seq<SeqNum>, n: nat)
    ensures Spaced(Run(arrivals, n), n)
  {
    if arrivals != [] {
      RunSpaced(arrivals[..|arrivals| - 1], n);
      AcceptKeepsSpaced(Run(arrivals[..|arrivals| - 1], n), n, arrivals[|arrivals| - 1]);
    }
  }

  /** The arrival that put entry p into the accepted list. */
  lemma {:induction false} AcceptedBy(arrivals: seq<SeqNum>, n: nat, k: nat, p: nat) returns (i: nat)
    requires k <= |arrivals| && p < |Run(arrivals[..k], n)|
    ensures i < k && Passes(arrivals, n, i) && arrivals[i] == Run(arrivals[..k], n)[p]
    ensures |Run(arrivals[..i], n)| == p
  {
    hide Run, Recent, Passes;
    assert k > 0 by { EmptyRun(arrivals, n); }
    RunStep(arrivals, n, k - 1);
    if p < |Run(arrivals[..k - 1], n)| {
      i := AcceptedBy(arrivals, n, k - 1, p);
    } else {
      i := k - 1;
    }
  }

  /** An arrival is dropped exactly when an earlier copy passed and fewer than n other arrivals
      passed since: nothing else is ever dropped, and nothing nearer is ever let through. */
  lemma DroppedIff(arrivals: seq<SeqNum>, n: nat, k: nat)
    requires k < |arrivals|
    ensures !Passes(arrivals, n, k)
       <==> exists i: nat :: i < k && Passes(arrivals, n, i) && arrivals[i] == arrivals[k]
                             && PassedBetween(arrivals, n, i, k) < n
  {
    if !Passes(arrivals, n, k) {
      var i := EarlierCopy(arrivals, n, k);
    }
    forall i: nat | i < k && Passes(arrivals, n, i) && arrivals[i] == arrivals[k]
                    && PassedBetween(arrivals, n, i, k) < n
      ensures !Passes(arrivals, n, k)
    {
      NearCopyDropped(arrivals, n, i, k);
    }
  }

  lemma EarlierCopy(arrivals: seq<SeqNum>, n: nat, k: nat) returns (i: nat)
    requires k < |arrivals| && !Passes(arrivals, n, k)
    ensures i < k && Passes(arrivals, n, i) && arrivals[i] == arrivals[k]
    ensures PassedBetween(arrivals, n, i, k) < n
  {
    hide Run;
    var acc := Run(arrivals[..k], n);
    var r := Recent(acc, n);
    var q :| 0 <= q < |r| && r[q] == arrivals[k];
    var p := |acc| - |r| + q;
    i := AcceptedBy(arrivals, n, k, p);
    RunStep(arrivals, n, i);
  }

  lemma NearCopyDropped(arrivals: seq<SeqNum>, n: nat, i: nat, k: nat)
    requires i < k < |arrivals| && Passes(arrivals, n, i) && arrivals[i] == arrivals[k]
    requires PassedBetween(arrivals, n, i, k) < n
    ensures !Passes(arrivals, n, k)
  {
    hide Run;
    var acc := Run(arrivals[..k], n);
    var r := Recent(acc, n);
    RunStep(arrivals, n, i);
    RunGrows(arrivals, n, i + 1, k);
    var p := |Run(arrivals[..i], n)|;
    assert acc[p] == arrivals[k];
    assert r[p - (|acc| - |r|)] == arrivals[k];
  }

  /** Two copies of one number both run the handler only when n other arrivals ran it in between. */
  lemma AtMostOnce(arrivals: seq<SeqNum>, n: nat, i: nat, k: nat)
    requires i < k < |arrivals| && arrivals[i] == arrivals[k]
    requires Passes(arrivals, n, i) && Passes(arrivals, n, k)
    ensures PassedBetween(arrivals, n, i, k) >= n
  {
    DroppedIff(arrivals, n, k);
  }

  /** With at most n different numbers in flight the filter is exact: every number runs the handler
      once, however often and in whatever order its copies arrive. */
  lemma ExactlyOnceWithinWindow(arrivals: seq<SeqNum>, n: nat, numbers: set<SeqNum>)
    requires |numbers| <= n && forall s | s in arrivals :: s in numbers
    ensures forall i, j | 0 <= i < j < |Run(arrivals, n)| :: Run(arrivals, n)[i] != Run(arrivals, n)[j]
    ensures forall s | s in arrivals :: s in Run(arrivals, n)
    decreases |arrivals|
  {
    if arrivals != [] {
      var front := arrivals[..|arrivals| - 1];
      ExactlyOnceWithinWindow(front, n, numbers);
      RunFrom(front, n);
      DistinctWithin(Run(front, n), numbers);
    }
  }

  lemma {:induction false} RunFrom(arrivals: seq<SeqNum>, n: nat)
    ensures forall s | s in Run(arrivals, n) :: s in arrivals
  {
    if arrivals != [] {
      RunFrom(arrivals[..|arrivals| - 1], n);
    }
  }
}
