/** DelegateMQ/delegate/MulticastDelegate.h: a list of delegates that the callbacks of a broadcast may
    change while the broadcast walks over it. */
module Multicast {
  import opened Wrappers

  /** A delegate is known by what it is equal to. */
  type Delegate = nat

  /** A change of the list; the right-hand side of an assignment is given by its delegates. */
  datatype Edit = Add(d: Delegate) | Remove(d: Delegate) | Clear | Copy(ds: seq<Delegate>) | Move(ds: seq<Delegate>)

  /** What a callback does to the container that is calling it: edits and nested broadcasts.
      reactions[k] is what the k-th delegate called by the broadcast does; later ones do nothing. */
  datatype Op = Perform(edit: Edit) | Broadcast(reactions: seq<Script>)
  datatype Script = Script(ops: seq<Op>)

  // ---------- Specification: a plain list ----------

  function RemoveFirst(list: seq<Delegate>, d: Delegate): seq<Delegate> {
    if list == [] then []
    else if list[0] == d then list[1..]
    else [list[0]] + RemoveFirst(list[1..], d)
  }

  function Change(list: seq<Delegate>, e: Edit): seq<Delegate> {
    match e
    case Add(d) => list + [d]
    case Remove(d) => RemoveFirst(list, d)
    case Clear => []
    case Copy(ds) => ds
    case Move(ds) => ds
  }

  function Replay(list: seq<Delegate>, edits: seq<Edit>): seq<Delegate>
    decreases |edits|
  {
    if edits == [] then list else Replay(Change(list, edits[0]), edits[1..])
  }

  lemma {:induction false} ReplayBoth(list: seq<Delegate>, a: seq<Edit>, b: seq<Edit>)
    ensures Replay(list, a + b) == Replay(Replay(list, a), b)
    decreases |a|
  {
    if a == [] {
      assert a + b == b;
    } else {
      ReplayBoth(Change(list, a[0]), a[1..], b);
      assert (a + b)[1..] == a[1..] + b;
    }
  }

  // ---------- Specification: a place in the plain list ----------

  /** Where a pass is in the plain list: what it has left behind and what is still ahead of it. */
  datatype Place = Place(behind: seq<Delegate>, ahead: seq<Delegate>)

  function Shift(p: Place, e: Edit): Place {
    match e
    case Add(d) => Place(p.behind, p.ahead + [d])
    case Remove(d) =>
      if d in p.behind then Place(RemoveFirst(p.behind, d), p.ahead) else Place(p.behind, RemoveFirst(p.ahead, d))
    case Clear => Place([], [])
    case Copy(ds) => Place([], ds)
    case Move(ds) => Place([], ds)
  }

  function ShiftAll(p: Place, edits: seq<Edit>): Place
    decreases |edits|
  {
    if edits == [] then p else ShiftAll(Shift(p, edits[0]), edits[1..])
  }

  /** The pass takes the next delegate. */
  function Advance(p: Place): Place {
    if p.ahead == [] then p else Place(p.behind + [p.ahead[0]], p.ahead[1..])
  }

  lemma {:induction false} ShiftBoth(p: Place, a: seq<Edit>, b: seq<Edit>)
    ensures ShiftAll(p, a + b) == ShiftAll(ShiftAll(p, a), b)
    decreases |a|
  {
    if a == [] {
      assert a + b == b;
    } else {
      ShiftBoth(Shift(p, a[0]), a[1..], b);
      assert (a + b)[1..] == a[1..] + b;
    }
  }

  lemma {:induction false} RemoveFirstHead(a: seq<Delegate>, b: seq<Delegate>, d: Delegate)
    requires d in a
    ensures RemoveFirst(a + b, d) == RemoveFirst(a, d) + b
  {
    assert (a + b)[1..] == a[1..] + b;
    if a[0] != d {
      RemoveFirstHead(a[1..], b, d);
      Rebracket([a[0]], RemoveFirst(a[1..], d), b);
    }
  }

  /** A place is a cut through the plain list, before and after every edit. */
  lemma {:induction false} ShiftIsChange(p: Place, edits: seq<Edit>)
    ensures ShiftAll(p, edits).behind + ShiftAll(p, edits).ahead == Replay(p.behind + p.ahead, edits)
    decreases |edits|
  {
    if edits != [] {
      var e := edits[0];
      if e.Remove? {
        if e.d in p.behind {
          RemoveFirstHead(p.behind, p.ahead, e.d);
        } else {
          RemoveFirstSplit(p.behind, p.ahead, e.d);
        }
      }
      assert Shift(p, e).behind + Shift(p, e).ahead == Change(p.behind + p.ahead, e);
      ShiftIsChange(Shift(p, e), edits[1..]);
    }
  }

  // ---------- Specification: what a script did ----------

  /** An executed operation; a broadcast with the delegates it called and what each of them did. */
  datatype Done = Edited(edit: Edit) | Passed(calls: seq<Called>)
  datatype Called = Called(d: Delegate, did: seq<Done>)

  /** The execution follows the script. */
  ghost predicate Follows(ops: seq<Op>, did: seq<Done>)
    decreases did
  {
    |ops| == |did| && forall i | 0 <= i < |ops| :: FollowsOp(ops[i], did[i])
  }

  ghost predicate FollowsOp(op: Op, done: Done)
    decreases done
  {
    match done
    case Edited(e) => op == Perform(e)
    case Passed(calls) =>
      op.Broadcast? && forall k | 0 <= k < |calls| :: Follows(Reaction(op.reactions, k), calls[k].did)
  }

  function Reaction(reactions: seq<Script>, k: nat): seq<Op> {
    if k < |reactions| then reactions[k].ops else []
  }

  /** All edits of an execution, in order. */
  ghost function Edits(did: seq<Done>): seq<Edit>
    decreases did
  {
    if did == [] then []
    else
      Edits(did[..|did| - 1])
        + match did[|did| - 1]
          case Edited(e) => [e]
          case Passed(calls) => CallEdits(calls)
  }

  ghost function CallEdits(calls: seq<Called>): seq<Edit>
    decreases calls
  {
    if calls == [] then [] else CallEdits(calls[..|calls| - 1]) + Edits(calls[|calls| - 1].did)
  }

  ghost function Delegates(calls: seq<Called>): (ds: seq<Delegate>)
    ensures |ds| == |calls| && forall k | 0 <= k < |calls| :: ds[k] == calls[k].d
  {
    if calls == [] then [] else Delegates(calls[..|calls| - 1]) + [calls[|calls| - 1].d]
  }

  /** The place of a pass over list after these calls and what they did. */
  ghost function Reached(list: seq<Delegate>, calls: seq<Called>): Place {
    if calls == [] then Place([], list)
    else ShiftAll(Advance(Reached(list, calls[..|calls| - 1])), Edits(calls[|calls| - 1].did))
  }

  /** Each call is of the first delegate then ahead of the pass. */
  ghost predicate InTurn(list: seq<Delegate>, calls: seq<Called>) {
    forall k | 0 <= k < |calls| ::
      Reached(list, calls[..k]).ahead != [] && calls[k].d == Reached(list, calls[..k]).ahead[0]
  }

  /** The calls of a whole pass over list. */
  ghost predicate PassOver(list: seq<Delegate>, calls: seq<Called>) {
    InTurn(list, calls) && Reached(list, calls).ahead == []
  }

  // ---------- Lists with nulled entries ----------

  function NonNull(entries: seq<Option<Delegate>>): seq<Delegate> {
    if entries == [] then []
    else NonNull(entries[..|entries| - 1])
           + if entries[|entries| - 1].Some? then [entries[|entries| - 1].value] else []
  }

  predicate HasNull(entries: seq<Option<Delegate>>) {
    None in entries
  }

  /** No position has disappeared, and each holds what it held or null. */
  ghost predicate Persists(was: seq<Option<Delegate>>, entries: seq<Option<Delegate>>) {
    |was| <= |entries| && forall i | 0 <= i < |was| :: entries[i] == was[i] || entries[i] == None
  }

  function PlaceOf(entries: seq<Option<Delegate>>, i: nat): Place
    requires i <= |entries|
  {
    Place(NonNull(entries[..i]), NonNull(entries[i..]))
  }

  /** Seen from every position the entries changed as these edits change a place. */
  ghost predicate Tracks(was: seq<Option<Delegate>>, entries: seq<Option<Delegate>>, edits: seq<Edit>) {
    |was| <= |entries| && forall i | 0 <= i <= |was| :: PlaceOf(entries, i) == ShiftAll(PlaceOf(was, i), edits)
  }

  /** Every position that was there is null. */
  ghost predicate Nulled(was: seq<Option<Delegate>>, entries: seq<Option<Delegate>>) {
    |was| <= |entries| && forall j | 0 <= j < |was| :: entries[j] == None
  }

  lemma {:induction false} NonNullBoth(a: seq<Option<Delegate>>, b: seq<Option<Delegate>>)
    ensures NonNull(a + b) == NonNull(a) + NonNull(b)
  {
    if b == [] {
      assert a + b == a;
    } else {
      NonNullBoth(a, b[..|b| - 1]);
      assert (a + b)[..|a + b| - 1] == a + b[..|b| - 1];
    }
  }

  lemma NonNullOne(e: Option<Delegate>)
    ensures NonNull([e]) == if e.Some? then [e.value] else []
  {
    assert [e][..0] == [];
  }

  lemma {:induction false} RemoveFirstSplit(a: seq<Delegate>, b: seq<Delegate>, d: Delegate)
    requires d !in a
    ensures RemoveFirst(a + b, d) == a + RemoveFirst(b, d)
  {
    if a == [] {
      assert a + b == b;
    } else {
      assert (a + b)[1..] == a[1..] + b;
      RemoveFirstSplit(a[1..], b, d);
    }
  }

  /** Nulling or erasing the first entry equal to d removes the first d of the plain list. */
  lemma RemoveAt(entries: seq<Option<Delegate>>, i: nat, d: Delegate)
    requires i <= |entries| && forall j | 0 <= j < i :: entries[j] != Some(d)
    requires i < |entries| ==> entries[i] == Some(d)
    ensures i == |entries| ==> RemoveFirst(NonNull(entries), d) == NonNull(entries)
    ensures i < |entries| ==>
              && NonNull(entries[i := None]) == RemoveFirst(NonNull(entries), d)
              && NonNull(entries[..i] + entries[i + 1..]) == RemoveFirst(NonNull(entries), d)
  {
    var a := entries[..i];
    NotIn(a, d);
    if i == |entries| {
      assert a == entries;
      RemoveFirstSplit(NonNull(a), [], d);
      assert NonNull(a) + [] == NonNull(a);
    } else {
      hide NonNull, RemoveFirst;
      var b := entries[i + 1..];
      assert entries == a + ([Some(d)] + b) && entries[i := None] == a + ([None] + b);
      NonNullAround(a, Some(d), b);
      NonNullAround(a, None, b);
      NonNullBoth(a, b);
      RemoveHere(NonNull(a), NonNull(b), d);
    }
  }

  lemma NonNullAround(a: seq<Option<Delegate>>, e: Option<Delegate>, b: seq<Option<Delegate>>)
    ensures NonNull(a + ([e] + b)) == NonNull(a) + ((if e.Some? then [e.value] else []) + NonNull(b))
  {
    hide NonNull;
    NonNullOne(e);
    NonNullBoth([e], b);
    NonNullBoth(a, [e] + b);
  }

  lemma RemoveHere(a: seq<Delegate>, b: seq<Delegate>, d: Delegate)
    requires d !in a
    ensures RemoveFirst(a + ([d] + b), d) == a + b && a + ([] + b) == a + b
  {
    RemoveFirstSplit(a, [d] + b, d);
    assert ([d] + b)[1..] == b && [] + b == b;
  }

  lemma {:induction false} NotIn(entries: seq<Option<Delegate>>, d: Delegate)
    requires forall j | 0 <= j < |entries| :: entries[j] != Some(d)
    ensures d !in NonNull(entries)
  {
    if entries != [] {
      NotIn(entries[..|entries| - 1], d);
    }
  }

  lemma {:induction false} AllNull(entries: seq<Option<Delegate>>)
    requires forall j | 0 <= j < |entries| :: entries[j] == None
    ensures NonNull(entries) == []
  {
    if entries != [] {
      AllNull(entries[..|entries| - 1]);
    }
  }

  lemma TracksAdd(was: seq<Option<Delegate>>, d: Delegate)
    ensures Tracks(was, was + [Some(d)], [Add(d)])
  {
    hide NonNull;
    forall i | 0 <= i <= |was| ensures PlaceOf(was + [Some(d)], i) == ShiftAll(PlaceOf(was, i), [Add(d)]) {
      assert (was + [Some(d)])[..i] == was[..i] && (was + [Some(d)])[i..] == was[i..] + [Some(d)];
      NonNullBoth(was[i..], [Some(d)]);
      NonNullOne(Some(d));
    }
  }

  lemma TracksRemove(was: seq<Option<Delegate>>, j: nat, d: Delegate)
    requires j <= |was| && forall k | 0 <= k < j :: was[k] != Some(d)
    requires j < |was| ==> was[j] == Some(d)
    ensures Tracks(was, if j < |was| then was[j := None] else was, [Remove(d)])
  {
    hide NonNull, RemoveFirst;
    var entries := if j < |was| then was[j := None] else was;
    forall i | 0 <= i <= |was| ensures PlaceOf(entries, i) == ShiftAll(PlaceOf(was, i), [Remove(d)]) {
      if j < i {
        RemoveAt(was[..i], j, d);
        IsIn(was[..i], j, d);
        assert entries[..i] == was[..i][j := None] && entries[i..] == was[i..];
      } else {
        NotIn(was[..i], d);
        RemoveAt(was[i..], j - i, d);
        assert entries[..i] == was[..i] && (j < |was| ==> entries[i..] == was[i..][j - i := None]);
      }
    }
  }

  lemma {:induction false} IsIn(entries: seq<Option<Delegate>>, j: nat, d: Delegate)
    requires j < |entries| && entries[j] == Some(d)
    ensures d in NonNull(entries)
  {
    SplitAt(entries, j);
  }

  /** Nulling everything and appending ds is what an assignment does, and a clear if ds is empty. */
  lemma TracksReplace(was: seq<Option<Delegate>>, entries: seq<Option<Delegate>>, e: Edit)
    requires Nulled(was, entries)
    requires !e.Add? && !e.Remove? && NonNull(entries) == Change([], e)
    ensures Tracks(was, entries, [e])
  {
    hide NonNull;
    forall i | 0 <= i <= |was| ensures PlaceOf(entries, i) == ShiftAll(PlaceOf(was, i), [e]) {
      AllNull(entries[..i]);
      NonNullBoth(entries[..i], entries[i..]);
      assert entries == entries[..i] + entries[i..] && [] + NonNull(entries[i..]) == NonNull(entries[i..]);
    }
  }

  lemma TracksBoth(a: seq<Option<Delegate>>, b: seq<Option<Delegate>>, c: seq<Option<Delegate>>,
                   es: seq<Edit>, fs: seq<Edit>)
    requires Tracks(a, b, es) && Tracks(b, c, fs)
    ensures Tracks(a, c, es + fs)
  {
    hide PlaceOf, ShiftAll;
    forall i | 0 <= i <= |a| ensures PlaceOf(c, i) == ShiftAll(PlaceOf(a, i), es + fs) {
      ShiftBoth(PlaceOf(a, i), es, fs);
    }
  }

  function AsEntries(ds: seq<Delegate>): (entries: seq<Option<Delegate>>)
    ensures |entries| == |ds| && forall i | 0 <= i < |ds| :: entries[i] == Some(ds[i])
  {
    seq(|ds|, i requires 0 <= i < |ds| => Some(ds[i]))
  }

  lemma {:induction false} NonNullAsEntries(ds: seq<Delegate>)
    ensures NonNull(AsEntries(ds)) == ds && !HasNull(AsEntries(ds))
  {
    if ds != [] {
      var front := ds[..|ds| - 1];
      NonNullAsEntries(front);
      assert AsEntries(ds)[..|ds| - 1] == AsEntries(front);
    }
  }

  // ---------- The container ----------

  class MulticastDelegate {
    var delegates: seq<Option<Delegate>>
    var broadcastCount: nat
    var cleanup: bool

    /** The delegates a caller can see. */
    ghost function Contents(): seq<Delegate>
      reads this`delegates
    {
      NonNull(delegates)
    }

    /** Nulled entries exist only during a broadcast, and then they are going to be purged. */
    ghost predicate Tidy()
      reads this
    {
      && (HasNull(delegates) ==> cleanup)
      && (cleanup ==> broadcastCount > 0)
    }

    constructor (ds: seq<Delegate>)
      ensures Tidy() && Contents() == ds && broadcastCount == 0 && !HasNull(delegates)
    {
      delegates, broadcastCount, cleanup := AsEntries(ds), 0, false;
      NonNullAsEntries(ds);
    }

    method PushBack(d: Delegate)
      modifies this`delegates
      ensures Contents() == Change(old(Contents()), Add(d)) && (old(Tidy()) ==> Tidy())
      ensures Persists(old(delegates), delegates) && Tracks(old(delegates), delegates, [Add(d)])
    {
      TracksAdd(delegates, d);
      NonNullBoth(delegates, [Some(d)]);
      NonNullOne(Some(d));
      delegates := delegates + [Some(d)];
    }

    method RemoveDelegate(d: Delegate)
      modifies this`delegates, this`cleanup
      ensures Contents() == Change(old(Contents()), Remove(d)) && (old(Tidy()) ==> Tidy())
      ensures broadcastCount > 0 ==>
              Persists(old(delegates), delegates) && Tracks(old(delegates), delegates, [Remove(d)])
    {
      hide NonNull, Tracks;
      var i := 0;
      while i < |delegates| && delegates[i] != Some(d)
        invariant 0 <= i <= |delegates| && forall j | 0 <= j < i :: delegates[j] != Some(d)
      {
        i := i + 1;
      }
      RemoveAt(delegates, i, d);
      TracksRemove(delegates, i, d);
      if i < |delegates| {
        if broadcastCount > 0 {
          delegates, cleanup := delegates[i := None], true;
        } else {
          delegates := delegates[..i] + delegates[i + 1..];
        }
      }
    }

    method ClearAll()
      modifies this`delegates, this`cleanup
      ensures Contents() == [] && (old(Tidy()) ==> Tidy())
      ensures broadcastCount > 0 ==> Persists(old(delegates), delegates)
      ensures broadcastCount == 0 ==> delegates == []
      ensures broadcastCount > 0 ==> cleanup && Nulled(old(delegates), delegates) && |delegates| == |old(delegates)|
    {
      if broadcastCount > 0 {
        var i := 0;
        while i < |delegates|
          invariant 0 <= i <= |delegates| == |old(delegates)|
          invariant forall j | 0 <= j < |delegates| :: delegates[j] == if j < i then None else old(delegates)[j]
        {
          delegates := delegates[i := None];
          i := i + 1;
        }
        AllNull(delegates);
        cleanup := true;
      } else {
        delegates := [];
      }
    }

    /** Copies the delegates of another container, which may be broadcasting, leaving out its nulls. */
    method CopyAssign(rhs: MulticastDelegate)
      modifies this`delegates, this`cleanup
      ensures Contents() == old(rhs.Contents()) && (old(Tidy()) ==> Tidy())
      ensures rhs != this ==> rhs.delegates == old(rhs.delegates)
      ensures broadcastCount > 0 ==> Persists(old(delegates), delegates)
      ensures broadcastCount > 0 && rhs != this ==> Nulled(old(delegates), delegates)
    {
      hide NonNull;
      if rhs != this {
        ClearAll();
        ghost var cleared, purges := delegates, cleanup;
        AllNull([]);
        var i := 0;
        assert rhs.delegates[..0] == [];
        while i < |rhs.delegates|
          invariant 0 <= i <= |rhs.delegates| && rhs.delegates == old(rhs.delegates)
          invariant Contents() == NonNull(rhs.delegates[..i])
          invariant cleanup == purges && cleared <= delegates
                    && forall j | |cleared| <= j < |delegates| :: delegates[j] != None
        {
          assert rhs.delegates[..i + 1] == rhs.delegates[..i] + [rhs.delegates[i]];
          NonNullBoth(rhs.delegates[..i], [rhs.delegates[i]]);
          NonNullOne(rhs.delegates[i]);
          if rhs.delegates[i].Some? {
            NonNullBoth(delegates, [rhs.delegates[i]]);
            delegates := delegates + [rhs.delegates[i]];
          }
          i := i + 1;
        }
        assert rhs.delegates[..i] == rhs.delegates;
      }
    }

    /** Takes over the entries of another container, nulls and all: outside a broadcast these nulls stay,
        so that the container is tidy afterwards exactly if there were none. */
    method MoveAssign(rhs: MulticastDelegate)
      modifies this`delegates, this`cleanup, rhs`delegates
      ensures Contents() == old(rhs.Contents())
      ensures rhs != this ==> rhs.delegates == []
      ensures old(Tidy()) ==> (Tidy() <==> rhs == this || broadcastCount > 0 || !HasNull(old(rhs.delegates)))
      ensures broadcastCount > 0 ==> Persists(old(delegates), delegates)
      ensures broadcastCount > 0 && rhs != this ==> Nulled(old(delegates), delegates)
    {
      if rhs != this {
        if broadcastCount > 0 {
          ClearAll();
          NonNullBoth(delegates, rhs.delegates);
          AppendAndClear(rhs);
        } else {
          ClearAll();
          delegates, rhs.delegates := rhs.delegates, [];
        }
      }
    }

    method AppendAndClear(rhs: MulticastDelegate)
      requires rhs != this
      modifies this`delegates, rhs`delegates
      ensures delegates == old(delegates) + old(rhs.delegates) && rhs.delegates == []
    {
      var i := 0;
      while i < |rhs.delegates|
        invariant 0 <= i <= |rhs.delegates| && rhs.delegates == old(rhs.delegates)
        invariant delegates == old(delegates) + rhs.delegates[..i]
      {
        delegates := delegates + [rhs.delegates[i]];
        i := i + 1;
      }
      rhs.delegates := [];
    }

    method PurgeNulls()
      modifies this`delegates
      ensures delegates == AsEntries(old(Contents())) && Contents() == old(Contents()) && !HasNull(delegates)
    {
      var kept: seq<Option<Delegate>> := [];
      var i := 0;
      while i < |delegates|
        invariant 0 <= i <= |delegates| && delegates == old(delegates)
        invariant kept == AsEntries(NonNull(delegates[..i]))
      {
        assert delegates[..i + 1][..i] == delegates[..i];
        if delegates[i].Some? {
          kept := kept + [delegates[i]];
        }
        i := i + 1;
      }
      assert delegates[..i] == delegates;
      delegates := kept;
      NonNullAsEntries(old(Contents()));
    }

    /** Performs a script of edits and broadcasts, as one callback would. */
    method Run(script: Script) returns (ghost did: seq<Done>)
      requires Tidy()
      modifies this
      ensures Tidy() && broadcastCount == old(broadcastCount)
      ensures Follows(script.ops, did) && Contents() == Replay(old(Contents()), Edits(did))
      ensures broadcastCount > 0 ==>
              Persists(old(delegates), delegates) && Tracks(old(delegates), delegates, Edits(did))
      decreases script
    {
      hide NonNull, Edits, Replay, Follows, FollowsOp, Persists, Tracks;
      var ops := script.ops;
      did := [];
      NothingDone(Contents(), delegates);
      var i := 0;
      while i < |ops|
        invariant 0 <= i <= |ops| && Tidy() && broadcastCount == old(broadcastCount)
        invariant Follows(ops[..i], did) && Contents() == Replay(old(Contents()), Edits(did))
        invariant broadcastCount > 0 ==>
                  Persists(old(delegates), delegates) && Tracks(old(delegates), delegates, Edits(did))
      {
        ghost var before := delegates;
        ghost var done := RunOne(ops[i]);
        OneMore(ops, i, did, done, old(Contents()));
        if broadcastCount > 0 {
          PersistsTwice(old(delegates), before, delegates);
          TracksBoth(old(delegates), before, delegates, Edits(did), DoneEdits(done));
        }
        did := did + [done];
        i := i + 1;
      }
      assert ops[..i] == ops;
    }

    method RunOne(op: Op) returns (ghost done: Done)
      requires Tidy()
      modifies this
      ensures Tidy() && broadcastCount == old(broadcastCount)
      ensures FollowsOp(op, done) && Contents() == Replay(old(Contents()), DoneEdits(done))
      ensures broadcastCount > 0 ==>
                Persists(old(delegates), delegates) && Tracks(old(delegates), delegates, DoneEdits(done))
      decreases op
    {
      hide Tracks, Persists, NonNull, PassOver, CallEdits;
      match op
      case Perform(e) =>
        RunEdit(e);
        done := Edited(e);
      case Broadcast(_) =>
        var called;
        ghost var calls;
        called, calls := BroadcastTo(op);
        done := Passed(calls);
    }

    method RunEdit(e: Edit)
      requires Tidy()
      modifies this`delegates, this`cleanup
      ensures Tidy() && Contents() == Change(old(Contents()), e)
      ensures broadcastCount > 0 ==> Persists(old(delegates), delegates) && Tracks(old(delegates), delegates, [e])
    {
      hide Tracks, Persists, NonNull, Nulled;
      match e
      case Add(d) => PushBack(d);
      case Remove(d) => RemoveDelegate(d);
      case Clear =>
        ClearAll();
        if broadcastCount > 0 {
          TracksReplace(old(delegates), delegates, e);
        }
      case Copy(ds) =>
        var rhs := new MulticastDelegate(ds);
        CopyAssign(rhs);
        if broadcastCount > 0 {
          TracksReplace(old(delegates), delegates, e);
        }
      case Move(ds) =>
        var rhs := new MulticastDelegate(ds);
        MoveAssign(rhs);
        if broadcastCount > 0 {
          TracksReplace(old(delegates), delegates, e);
        }
    }

    /** operator(): calls the delegates in list order while they change the list. */
    method BroadcastTo(op: Op) returns (called: seq<Delegate>, ghost calls: seq<Called>)
      requires Tidy() && op.Broadcast?
      modifies this
      ensures Tidy() && broadcastCount == old(broadcastCount)
      ensures FollowsOp(op, Passed(calls)) && called == Delegates(calls)
      ensures PassOver(old(Contents()), calls)
      ensures forall k | 0 <= k < |calls| :: called[k] in Replay(old(Contents()), CallEdits(calls[..k]))
      ensures Contents() == Replay(old(Contents()), CallEdits(calls))
      ensures broadcastCount > 0 ==>
                Persists(old(delegates), delegates) && Tracks(old(delegates), delegates, CallEdits(calls))
      ensures op.reactions == [] ==> called == old(Contents())
      decreases op, 0
    {
      hide Passing, NonNull, Persists, Tracks;
      var reactions := op.reactions;
      called, calls := [], [];
      PassStart(op, delegates);
      broadcastCount := broadcastCount + 1;
      var i := 0;
      while i < |delegates|
        invariant Tidy() && broadcastCount == old(broadcastCount) + 1 && i <= |delegates|
        invariant Passing(op, old(delegates), delegates, calls, called, i)
        invariant reactions == [] ==> delegates == old(delegates) && called == NonNull(delegates[..i])
        decreases if |called| < |reactions| then |reactions| - |called| else 0, |delegates| - i
      {
        var delegate := delegates[i];
        ghost var before := delegates;
        NonNullNext(delegates, i);
        if delegate.Some? {
          ghost var did := [];
          NothingDone(Contents(), delegates);
          if |called| < |reactions| {
            did := Run(reactions[|called|]);
          }
          PassCall(op, old(delegates), before, delegates, calls, called, i, did);
          called := called + [delegate.value];
          calls := calls + [Called(delegate.value, did)];
        } else {
          PassSkip(op, old(delegates), delegates, calls, called, i);
        }
        i := i + 1;
      }
      PassEnd(op, old(delegates), delegates, calls, called, i);
      CalledAreListed(old(Contents()), calls);
      assert delegates[..i] == delegates;
      broadcastCount := broadcastCount - 1;
      if broadcastCount == 0 && cleanup {
        PurgeNulls();
        cleanup := false;
      }
    }
  }

  /** Where a pass stands that began on start and has reached position i of entries. */
  ghost predicate Passing(op: Op, start: seq<Option<Delegate>>, entries: seq<Option<Delegate>>, calls: seq<Called>,
                          called: seq<Delegate>, i: nat) {
    && FollowsOp(op, Passed(calls)) && called == Delegates(calls)
    && i <= |entries| && Persists(start, entries) && Tracks(start, entries, CallEdits(calls))
    && InTurn(NonNull(start), calls) && PlaceOf(entries, i) == Reached(NonNull(start), calls)
  }

  lemma PassStart(op: Op, start: seq<Option<Delegate>>)
    requires op.Broadcast?
    ensures Passing(op, start, start, [], [], 0) && NonNull(start[..0]) == []
  {
    assert start[0..] == start;
  }

  lemma NonNullNext(entries: seq<Option<Delegate>>, i: nat)
    requires i < |entries|
    ensures NonNull(entries[..i + 1]) == NonNull(entries[..i]) + if entries[i].Some? then [entries[i].value] else []
    ensures NonNull(entries[i..]) == (if entries[i].Some? then [entries[i].value] else []) + NonNull(entries[i + 1..])
  {
    hide NonNull;
    assert entries[..i + 1] == entries[..i] + [entries[i]] && entries[i..] == [entries[i]] + entries[i + 1..];
    NonNullBoth(entries[..i], [entries[i]]);
    NonNullBoth([entries[i]], entries[i + 1..]);
    NonNullOne(entries[i]);
  }

  lemma PassSkip(op: Op, start: seq<Option<Delegate>>, entries: seq<Option<Delegate>>, calls: seq<Called>,
                 called: seq<Delegate>, i: nat)
    requires Passing(op, start, entries, calls, called, i) && i < |entries| && entries[i] == None
    ensures Passing(op, start, entries, calls, called, i + 1)
  {
    hide FollowsOp, Delegates, CallEdits, NonNull, Persists, Tracks, InTurn, Reached;
    NonNullNext(entries, i);
    assert NonNull(entries[..i]) + [] == NonNull(entries[..i])
           && [] + NonNull(entries[i + 1..]) == NonNull(entries[i + 1..]);
  }

  lemma PassCall(op: Op, start: seq<Option<Delegate>>, before: seq<Option<Delegate>>, entries: seq<Option<Delegate>>,
                 calls: seq<Called>, called: seq<Delegate>, i: nat, did: seq<Done>)
    requires op.Broadcast? && Passing(op, start, before, calls, called, i) && i < |before| && before[i].Some?
    requires Follows(Reaction(op.reactions, |called|), did)
    requires Persists(before, entries) && Tracks(before, entries, Edits(did))
    ensures i < |entries|
    ensures Passing(op, start, entries, calls + [Called(before[i].value, did)], called + [before[i].value], i + 1)
  {
    hide Follows, Edits, NonNull, Persists, ShiftAll, InTurn, Reached, Delegates, CallEdits, PlaceOf;
    var call := Called(before[i].value, did);
    PersistsTwice(start, before, entries);
    TracksBoth(start, before, entries, CallEdits(calls), Edits(did));
    CallAppend(NonNull(start), calls, call);
    PlaceNext(before, i);
    InTurnNext(NonNull(start), calls, call);
    assert PlaceOf(entries, i + 1) == ShiftAll(PlaceOf(before, i + 1), Edits(did));
  }

  lemma CallAppend(list: seq<Delegate>, calls: seq<Called>, call: Called)
    ensures CallEdits(calls + [call]) == CallEdits(calls) + Edits(call.did)
    ensures Delegates(calls + [call]) == Delegates(calls) + [call.d]
    ensures Reached(list, calls + [call]) == ShiftAll(Advance(Reached(list, calls)), Edits(call.did))
  {
    hide Edits, ShiftAll, Advance;
    assert (calls + [call])[..|calls|] == calls;
  }

  lemma NoCalls(list: seq<Delegate>)
    ensures CallEdits([]) == [] && Delegates([]) == [] && Reached(list, []) == Place([], list)
  {}

  lemma PlaceNext(entries: seq<Option<Delegate>>, i: nat)
    requires i < |entries| && entries[i].Some?
    ensures PlaceOf(entries, i).ahead != [] && PlaceOf(entries, i).ahead[0] == entries[i].value
    ensures PlaceOf(entries, i + 1) == Advance(PlaceOf(entries, i))
  {
    hide NonNull;
    NonNullNext(entries, i);
    assert ([entries[i].value] + NonNull(entries[i + 1..]))[1..] == NonNull(entries[i + 1..]);
  }

  lemma InTurnNext(list: seq<Delegate>, calls: seq<Called>, call: Called)
    requires InTurn(list, calls) && Reached(list, calls).ahead != [] && call.d == Reached(list, calls).ahead[0]
    ensures InTurn(list, calls + [call])
  {
    hide Reached;
    var calls' := calls + [call];
    forall k | 0 <= k < |calls'|
      ensures Reached(list, calls'[..k]).ahead != [] && calls'[k].d == Reached(list, calls'[..k]).ahead[0]
    {
      assert calls'[..k] == calls[..k] && calls[..|calls|] == calls;
    }
  }

  lemma PassEnd(op: Op, start: seq<Option<Delegate>>, entries: seq<Option<Delegate>>, calls: seq<Called>,
                called: seq<Delegate>, i: nat)
    requires Passing(op, start, entries, calls, called, i) && i == |entries|
    ensures FollowsOp(op, Passed(calls)) && called == Delegates(calls) && PassOver(NonNull(start), calls)
    ensures Persists(start, entries) && Tracks(start, entries, CallEdits(calls))
    ensures NonNull(entries) == Replay(NonNull(start), CallEdits(calls))
  {
    hide FollowsOp, Replay, Delegates, CallEdits, NonNull, InTurn, Reached, Persists, ShiftAll;
    AllNull(entries[i..]);
    ShiftIsChange(PlaceOf(start, 0), CallEdits(calls));
    AllNull([]);
    assert PlaceOf(entries, 0) == ShiftAll(PlaceOf(start, 0), CallEdits(calls));
    assert start[0..] == start && entries[0..] == entries && start[..0] == [] && entries[..0] == [];
    assert [] + NonNull(start) == NonNull(start) && [] + NonNull(entries) == NonNull(entries);
  }

  ghost function DoneEdits(done: Done): seq<Edit> {
    match done
    case Edited(e) => [e]
    case Passed(calls) => CallEdits(calls)
  }

  lemma EditsAppend(did: seq<Done>, done: Done)
    ensures Edits(did + [done]) == Edits(did) + DoneEdits(done)
  {
    assert (did + [done])[..|did|] == did;
  }

  lemma NothingDone(list: seq<Delegate>, entries: seq<Option<Delegate>>)
    ensures Follows([], []) && Edits([]) == [] && Replay(list, []) == list
    ensures Persists(entries, entries) && Tracks(entries, entries, [])
  {}

  lemma OneMore(ops: seq<Op>, i: nat, did: seq<Done>, done: Done, list: seq<Delegate>)
    requires i < |ops| && Follows(ops[..i], did) && FollowsOp(ops[i], done)
    ensures Follows(ops[..i + 1], did + [done]) && Edits(did + [done]) == Edits(did) + DoneEdits(done)
    ensures Replay(list, Edits(did + [done])) == Replay(Replay(list, Edits(did)), DoneEdits(done))
  {
    hide FollowsOp, DoneEdits, Edits;
    EditsAppend(did, done);
    ReplayBoth(list, Edits(did), DoneEdits(done));
  }

  lemma PersistsTwice(a: seq<Option<Delegate>>, b: seq<Option<Delegate>>, c: seq<Option<Delegate>>)
    ensures Persists(a, a) && (Persists(a, b) && Persists(b, c) ==> Persists(a, c))
  {}

  lemma Split<T>(s: seq<T>, i: nat)
    requires i < |s|
    ensures s == s[..i] + ([s[i]] + s[i + 1..])
  {}

  lemma SplitAt(entries: seq<Option<Delegate>>, i: nat)
    requires i < |entries|
    ensures NonNull(entries)
         == NonNull(entries[..i]) + ((if entries[i].Some? then [entries[i].value] else []) + NonNull(entries[i + 1..]))
  {
    hide NonNull;
    Split(entries, i);
    NonNullAround(entries[..i], entries[i], entries[i + 1..]);
  }

  // ---------- Who is called in a pass ----------

  /** The plain list after some of the calls is cut at the place of the pass. */
  lemma {:induction false} ReachedIsList(list: seq<Delegate>, calls: seq<Called>)
    requires InTurn(list, calls)
    ensures Reached(list, calls).behind + Reached(list, calls).ahead == Replay(list, CallEdits(calls))
  {
    hide Edits, ShiftAll, InTurn, Reached, CallEdits, Delegates, RemoveFirst;
    if calls == [] {
      NoCalls(list);
      assert [] + list == list;
    } else {
      hide Replay;
      var front, last := calls[..|calls| - 1], calls[|calls| - 1];
      assert calls == front + [last];
      CallAppend(list, front, last);
      InTurnPrefix(list, calls, |front|);
      ReachedIsList(list, front);
      LastInTurn(list, calls);
      var p := Reached(list, front);
      assert Advance(p).behind + Advance(p).ahead == p.behind + p.ahead;
      ShiftIsChange(Advance(p), Edits(last.did));
      ReplayBoth(list, CallEdits(front), Edits(last.did));
    }
  }

  lemma InTurnPrefix(list: seq<Delegate>, calls: seq<Called>, k: nat)
    requires InTurn(list, calls) && k <= |calls|
    ensures InTurn(list, calls[..k])
  {
    hide Reached;
    forall j | 0 <= j < k
      ensures Reached(list, calls[..k][..j]).ahead != [] && calls[..k][j].d == Reached(list, calls[..k][..j]).ahead[0]
    {
      assert calls[..k][..j] == calls[..j];
    }
  }

  /** A delegate is in the list at the moment of its call. */
  lemma CalledIsListed(list: seq<Delegate>, calls: seq<Called>, k: nat)
    requires PassOver(list, calls) && k < |calls|
    ensures calls[k].d in Replay(list, CallEdits(calls[..k]))
  {
    hide Reached;
    InTurnPrefix(list, calls, k);
    ReachedIsList(list, calls[..k]);
  }

  lemma CalledAreListed(list: seq<Delegate>, calls: seq<Called>)
    requires PassOver(list, calls)
    ensures forall k | 0 <= k < |calls| :: calls[k].d in Replay(list, CallEdits(calls[..k]))
  {
    hide PassOver, Replay;
    forall k | 0 <= k < |calls| ensures calls[k].d in Replay(list, CallEdits(calls[..k])) {
      CalledIsListed(list, calls, k);
    }
  }

  /** The edit puts the delegate into the list. */
  predicate Brings(e: Edit, d: Delegate) {
    match e
    case Add(x) => x == d
    case Remove(_) => false
    case Clear => false
    case Copy(ds) => d in ds
    case Move(ds) => d in ds
  }

  lemma {:induction false} StaysOut(list: seq<Delegate>, edits: seq<Edit>, d: Delegate)
    requires d !in list && forall e | e in edits :: !Brings(e, d)
    ensures d !in Replay(list, edits)
    decreases |edits|
  {
    if edits != [] {
      var e := edits[0];
      assert e in edits;
      if e.Remove? {
        OnlyFewer(list, e.d);
      }
      StaysOut(Change(list, e), edits[1..], d);
    }
  }

  lemma {:induction false} OnlyFewer(list: seq<Delegate>, d: Delegate)
    ensures forall x | x in RemoveFirst(list, d) :: x in list
  {
    if list != [] && list[0] != d {
      OnlyFewer(list[1..], d);
    }
  }

  /** A delegate that is not in the list after some calls, and that nothing later puts back, is not
      called any more. */
  lemma {:induction false} RemovedNotCalled(list: seq<Delegate>, calls: seq<Called>, k: nat, d: Delegate)
    requires PassOver(list, calls) && k <= |calls|
    requires d !in Replay(list, CallEdits(calls[..k]))
    requires forall j, e | k <= j < |calls| && e in Edits(calls[j].did) :: !Brings(e, d)
    ensures d !in Delegates(calls)[k..]
    decreases |calls| - k
  {
    hide PassOver, Replay, Edits;
    if k < |calls| {
      CalledIsListed(list, calls, k);
      assert calls[..k + 1][..k] == calls[..k];
      ReplayBoth(list, CallEdits(calls[..k]), Edits(calls[k].did));
      StaysOut(Replay(list, CallEdits(calls[..k])), Edits(calls[k].did), d);
      RemovedNotCalled(list, calls, k + 1, d);
      assert Delegates(calls)[k..] == [calls[k].d] + Delegates(calls)[k + 1..];
    }
  }

  function Restrict(list: seq<Delegate>, who: set<Delegate>): seq<Delegate> {
    if list == [] then []
    else Restrict(list[..|list| - 1], who) + if list[|list| - 1] in who then [list[|list| - 1]] else []
  }

  lemma {:induction false} RestrictBoth(a: seq<Delegate>, b: seq<Delegate>, who: set<Delegate>)
    ensures Restrict(a + b, who) == Restrict(a, who) + Restrict(b, who)
  {
    if b == [] {
      assert a + b == a;
    } else {
      RestrictBoth(a, b[..|b| - 1], who);
      assert (a + b)[..|a + b| - 1] == a + b[..|b| - 1];
    }
  }

  lemma {:induction false} RestrictRemove(list: seq<Delegate>, d: Delegate, who: set<Delegate>)
    requires d !in who
    ensures Restrict(RemoveFirst(list, d), who) == Restrict(list, who)
  {
    if list != [] {
      assert list == [list[0]] + list[1..] && [list[0]][..0] == [];
      RestrictBoth([list[0]], list[1..], who);
      if list[0] != d {
        RestrictRemove(list[1..], d, who);
        RestrictBoth([list[0]], RemoveFirst(list[1..], d), who);
      } else {
        assert Restrict([d], who) == [];
        assert [] + Restrict(list[1..], who) == Restrict(list[1..], who);
      }
    }
  }

  function Added(edits: seq<Edit>): seq<Delegate>
    decreases |edits|
  {
    if edits == [] then [] else (if edits[0].Add? then [edits[0].d] else []) + Added(edits[1..])
  }

  lemma {:induction false} AddedBoth(a: seq<Edit>, b: seq<Edit>)
    ensures Added(a + b) == Added(a) + Added(b)
    decreases |a|
  {
    if a == [] {
      assert a + b == b;
    } else {
      assert a + b == [a[0]] + (a[1..] + b);
      AddedBoth(a[1..], b);
      var x := if a[0].Add? then [a[0].d] else [];
      Rebracket(x, Added(a[1..]), Added(b));
    }
  }

  /** The edits remove none of these delegates, by name or with the whole list. */
  ghost predicate Spare(edits: seq<Edit>, who: set<Delegate>) {
    forall e | e in edits :: e.Add? || (e.Remove? && e.d !in who)
  }

  lemma {:induction false} ShiftSpared(p: Place, edits: seq<Edit>, who: set<Delegate>)
    requires Spare(edits, who)
    ensures Restrict(ShiftAll(p, edits).ahead, who) == Restrict(p.ahead, who) + Restrict(Added(edits), who)
    decreases |edits|
  {
    if edits == [] {
    } else {
      hide Restrict, RemoveFirst;
      var e := edits[0];
      assert e in edits;
      ShiftSpared(Shift(p, e), edits[1..], who);
      if e.Add? {
        RestrictBoth(p.ahead, [e.d], who);
        RestrictBoth([e.d], Added(edits[1..]), who);
      } else {
        RestrictRemove(p.ahead, e.d, who);
        assert Added(edits) == Added(edits[1..]);
      }
    }
  }

  lemma {:induction false} SoFar(list: seq<Delegate>, calls: seq<Called>, who: set<Delegate>)
    requires InTurn(list, calls) && Spare(CallEdits(calls), who)
    ensures Restrict(Delegates(calls), who) + Restrict(Reached(list, calls).ahead, who)
         == Restrict(list, who) + Restrict(Added(CallEdits(calls)), who)
  {
    hide Edits, ShiftAll, InTurn, Reached, CallEdits, Delegates;
    if calls == [] {
      NoCalls(list);
      assert [] + Restrict(list, who) == Restrict(list, who) + [];
    } else {
      hide Restrict, Added;
      var front, last := calls[..|calls| - 1], calls[|calls| - 1];
      assert calls == front + [last];
      CallAppend(list, front, last);
      InTurnPrefix(list, calls, |front|);
      SoFar(list, front, who);
      LastInTurn(list, calls);
      OneCall(Reached(list, front), last, who);
      AddedBoth(CallEdits(front), Edits(last.did));
      RestrictBoth(Added(CallEdits(front)), Added(Edits(last.did)), who);
      RestrictBoth(Delegates(front), [last.d], who);
      Together(Restrict(Delegates(front), who), Restrict([last.d], who), Restrict(Reached(list, calls).ahead, who),
               Restrict(Reached(list, front).ahead, who), Restrict(Added(Edits(last.did)), who),
               Restrict(list, who), Restrict(Added(CallEdits(front)), who));
    }
  }

  lemma Together<T>(a: seq<T>, b: seq<T>, c: seq<T>, d: seq<T>, e: seq<T>, f: seq<T>, g: seq<T>)
    requires a + d == f + g && b + c == d + e
    ensures (a + b) + c == f + (g + e)
  {
    Rebracket(a, b, c);
    Rebracket(a, d, e);
    Rebracket(f, g, e);
  }

  lemma OneCall(p: Place, call: Called, who: set<Delegate>)
    requires p.ahead != [] && p.ahead[0] == call.d && Spare(Edits(call.did), who)
    ensures Restrict([call.d], who) + Restrict(ShiftAll(Advance(p), Edits(call.did)).ahead, who)
         == Restrict(p.ahead, who) + Restrict(Added(Edits(call.did)), who)
  {
    hide Restrict, Edits, ShiftAll, Added;
    ShiftSpared(Advance(p), Edits(call.did), who);
    assert p.ahead == [call.d] + p.ahead[1..];
    RestrictBoth([call.d], p.ahead[1..], who);
  }

  lemma LastInTurn(list: seq<Delegate>, calls: seq<Called>)
    requires InTurn(list, calls) && calls != []
    ensures var p := Reached(list, calls[..|calls| - 1]); p.ahead != [] && p.ahead[0] == calls[|calls| - 1].d
  {}

  /** Delegates that nothing removes during a pass are each called once for every time that they are in
      the list and every time that they are added, in this order. */
  lemma SparedAreCalled(list: seq<Delegate>, calls: seq<Called>, who: set<Delegate>)
    requires PassOver(list, calls) && Spare(CallEdits(calls), who)
    ensures Restrict(Delegates(calls), who) == Restrict(list, who) + Restrict(Added(CallEdits(calls)), who)
  {
    hide Reached;
    SoFar(list, calls, who);
    assert Restrict(Delegates(calls), who) + [] == Restrict(Delegates(calls), who);
  }

  /** a is b with some elements left out. */
  ghost predicate Within(a: seq<Delegate>, b: seq<Delegate>) {
    a == [] || (b != [] && (Within(a, b[1..]) || (a[0] == b[0] && Within(a[1..], b[1..]))))
  }

  lemma {:induction false} WithinItself(a: seq<Delegate>)
    ensures Within(a, a)
  {
    if a != [] {
      WithinItself(a[1..]);
    }
  }

  /** Leaving out one element more. */
  lemma {:induction false} WithinLess(a: seq<Delegate>, i: nat, b: seq<Delegate>)
    requires i < |a| && Within(a, b)
    ensures Within(a[..i] + a[i + 1..], b)
    decreases |b|
  {
    var c := a[..i] + a[i + 1..];
    if Within(a, b[1..]) {
      WithinLess(a, i, b[1..]);
    } else if i == 0 {
      assert c == a[1..];
    } else {
      WithinLess(a[1..], i - 1, b[1..]);
      assert c[0] == a[0] && c[1..] == a[1..][..i - 1] + a[1..][i..];
    }
  }

  lemma {:induction false} RemovedIs(list: seq<Delegate>, d: Delegate) returns (i: nat)
    ensures i <= |list| && RemoveFirst(list, d) == if i < |list| then list[..i] + list[i + 1..] else list
  {
    i := 0;
    if list != [] && list[0] != d {
      var j := RemovedIs(list[1..], d);
      i := j + 1;
      assert [list[0]] + list[1..] == list;
      assert j < |list| - 1 ==> list[..i] + list[i + 1..] == [list[0]] + (list[1..][..j] + list[1..][j + 1..]);
    }
  }

  lemma ShiftWithinOne(x: seq<Delegate>, p: Place, e: Edit, list: seq<Delegate>)
    requires Within(x + p.ahead, list) && (e.Remove? || e.Clear?)
    ensures Within(x + Shift(p, e).ahead, list)
  {
    hide Within, RemoveFirst;
    if e.Clear? {
      WithinPrefix(x, p.ahead, list);
      assert x + [] == x;
    } else if e.d !in p.behind {
      var i := RemovedIs(p.ahead, e.d);
      if i < |p.ahead| {
        WithinLess(x + p.ahead, |x| + i, list);
        assert (x + p.ahead)[..|x| + i] + (x + p.ahead)[|x| + i + 1..] == x + (p.ahead[..i] + p.ahead[i + 1..]);
      }
    }
  }

  lemma {:induction false} ShiftWithin(x: seq<Delegate>, p: Place, edits: seq<Edit>, list: seq<Delegate>)
    requires Within(x + p.ahead, list) && forall e | e in edits :: e.Remove? || e.Clear?
    ensures Within(x + ShiftAll(p, edits).ahead, list)
    decreases |edits|
  {
    hide Within, Shift;
    if edits != [] {
      assert edits[0] in edits;
      ShiftWithinOne(x, p, edits[0], list);
      ShiftWithin(x, Shift(p, edits[0]), edits[1..], list);
    }
  }

  lemma {:induction false} WithinPrefix(x: seq<Delegate>, y: seq<Delegate>, b: seq<Delegate>)
    requires Within(x + y, b)
    ensures Within(x, b)
    decreases |b|
  {
    if x != [] {
      if Within(x + y, b[1..]) {
        WithinPrefix(x, y, b[1..]);
      } else {
        assert (x + y)[1..] == x[1..] + y;
        WithinPrefix(x[1..], y, b[1..]);
      }
    }
  }

  lemma {:induction false} WithinSoFar(list: seq<Delegate>, calls: seq<Called>)
    requires InTurn(list, calls) && forall e | e in CallEdits(calls) :: e.Remove? || e.Clear?
    ensures Within(Delegates(calls) + Reached(list, calls).ahead, list)
  {
    hide Edits, ShiftAll, InTurn, Within, Reached, CallEdits, Delegates;
    if calls == [] {
      NoCalls(list);
      WithinItself(list);
      assert [] + list == list;
    } else {
      var front, last := calls[..|calls| - 1], calls[|calls| - 1];
      assert calls == front + [last];
      CallAppend(list, front, last);
      InTurnPrefix(list, calls, |front|);
      WithinSoFar(list, front);
      LastInTurn(list, calls);
      var p := Reached(list, front);
      assert Delegates(front) + p.ahead == Delegates(calls) + Advance(p).ahead;
      ShiftWithin(Delegates(calls), Advance(p), Edits(last.did), list);
    }
  }

  /** If callbacks only remove, the called delegates are the list with some left out. */
  lemma CalledAreSubsequence(list: seq<Delegate>, calls: seq<Called>)
    requires PassOver(list, calls) && forall e | e in CallEdits(calls) :: e.Remove? || e.Clear?
    ensures Within(Delegates(calls), list)
  {
    hide Within, Reached;
    WithinSoFar(list, calls);
    assert Delegates(calls) + [] == Delegates(calls);
  }
}
