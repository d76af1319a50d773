/** xmalloc and xfree of DelegateMQ/extras/allocator/xallocator.cpp on several threads, with the bucket
    already chosen: each step is one lock region, or one access outside of the lock to a block that the
    thread holds. */
module HeapRace {
  import Heap = XAllocator
  import opened Wrappers

  datatype Header = Raw | Link(next: int) | Owner(bucket: nat)

  const NULL := -1

  /** Who has a block: a free list, a call under way, or a client. */
  datatype Place = Listed | InHand(call: nat) | Live

  /** place, like list below, only records what happened. */
  datatype Cell = Cell(home: nat, header: Header, place: Place)

  datatype Bucket = Bucket(
    head: int, list: seq<nat>, blockCnt: Heap.Count, blocksInUse: Heap.Count,
    allocations: Heap.Count, deallocations: Heap.Count)

  /** Where a thread is in its call. */
  datatype Call =
    | Asking(a: nat)            // xmalloc, before Pop
    | Growing(a: nat)           // free list empty, lock released
    | Grown(a: nat, b: nat)     // block from the heap, still to be counted
    | Marking(a: nat, b: nat)   // header still to be set
    | Freeing(b: nat)           // xfree, header still to be read
    | Releasing(a: nat, b: nat) // before Deallocate
    | Done
    | Faulted                   // a header was not what the code takes it for

  datatype State = State(cells: seq<Cell>, buckets: seq<Bucket>, calls: seq<Call>)

  datatype Step = Malloc(a: nat) | Free(b: nat) | Advance(call: nat, exhausted: bool)

  function Start(n: nat): State {
    State([], seq(n, _ => Bucket(NULL, [], 0, 0, 0, 0)), [])
  }

  /** A client frees only what it was given and has not freed yet. */
  predicate Enabled(s: State, step: Step) {
    match step
    case Malloc(a) => a < |s.buckets|
    case Free(b) => b < |s.cells| && s.cells[b].place == Live
    case Advance(i, _) => i < |s.calls| && s.calls[i] != Done && s.calls[i] != Faulted
  }

  function Apply(s: State, step: Step): State
    requires Enabled(s, step)
  {
    match step
    case Malloc(a) => s.(calls := s.calls + [Asking(a)])
    case Free(b) =>
      s.(cells := s.cells[b := s.cells[b].(place := InHand(|s.calls|))], calls := s.calls + [Freeing(b)])
    case Advance(i, exhausted) =>
      match s.calls[i]
      case Asking(a) => Take(s, i, a)
      case Growing(a) =>
        if exhausted then Next(s, i, Done)
        else Next(s, i, Grown(a, |s.cells|)).(cells := s.cells + [Cell(a, Raw, InHand(i))])
      case Grown(a, b) => if a < |s.buckets| then Account(s, i, a, b) else Next(s, i, Faulted)
      case Marking(a, b) =>
        if b < |s.cells|
        then Next(s, i, Done).(cells := s.cells[b := s.cells[b].(header := Owner(a), place := Live)])
        else Next(s, i, Faulted)
      case Freeing(b) =>
        if b < |s.cells| && s.cells[b].header.Owner? then Next(s, i, Releasing(s.cells[b].header.bucket, b))
        else Next(s, i, Faulted)
      case Releasing(a, b) =>
        if a < |s.buckets| && b < |s.cells| then Release(s, i, a, b) else Next(s, i, Faulted)
      case _ => s
  }

  function Next(s: State, i: nat, call: Call): State
    requires i < |s.calls|
  {
    s.(calls := s.calls[i := call])
  }

  /** Pop and AccountAlloc(false). */
  function Take(s: State, i: nat, a: nat): State
    requires i < |s.calls|
  {
    if a >= |s.buckets| then Next(s, i, Faulted)
    else
      var u := s.buckets[a];
      if u.head == NULL then Next(s, i, Growing(a))
      else if !(0 <= u.head < |s.cells| && s.cells[u.head].header.Link?) then Next(s, i, Faulted)
      else
        var u' := u.(head := s.cells[u.head].header.next, list := if u.list == [] then [] else u.list[1..],
                     blocksInUse := Heap.Plus(u.blocksInUse, 1), allocations := Heap.Plus(u.allocations, 1));
        Next(s, i, Marking(a, u.head)).(
          buckets := s.buckets[a := u'], cells := s.cells[u.head := s.cells[u.head].(place := InHand(i))])
  }

  /** AccountAlloc(true). */
  function Account(s: State, i: nat, a: nat, b: nat): State
    requires i < |s.calls| && a < |s.buckets|
  {
    var u := s.buckets[a];
    Next(s, i, Marking(a, b)).(
      buckets := s.buckets[a := u.(blockCnt := Heap.Plus(u.blockCnt, 1), blocksInUse := Heap.Plus(u.blocksInUse, 1),
                                   allocations := Heap.Plus(u.allocations, 1))])
  }

  /** Deallocate. */
  function Release(s: State, i: nat, a: nat, b: nat): State
    requires i < |s.calls| && a < |s.buckets| && b < |s.cells|
  {
    var u := s.buckets[a];
    var u' := u.(head := b, list := [b] + u.list, blocksInUse := Heap.Plus(u.blocksInUse, -1),
                 deallocations := Heap.Plus(u.deallocations, 1));
    Next(s, i, Done).(
      buckets := s.buckets[a := u'], cells := s.cells[b := s.cells[b].(header := Link(u.head), place := Listed)])
  }

  // ---------- Invariants of every interleaving ----------

  predicate Holds(c: Call, b: nat) {
    (c.Grown? || c.Marking? || c.Freeing? || c.Releasing?) && c.b == b
  }

  /** A block is where it is said to be, and the header of a live one names its bucket. */
  ghost predicate CellOk(s: State, b: nat)
    requires b < |s.cells|
  {
    var c := s.cells[b];
    && c.home < |s.buckets|
    && (c.place.Listed? ==> b in s.buckets[c.home].list)
    && (c.place.InHand? ==> c.place.call < |s.calls| && Holds(s.calls[c.place.call], b))
    && (c.place.Live? ==> c.header == Owner(c.home))
  }

  ghost predicate CallOk(s: State, i: nat)
    requires i < |s.calls|
  {
    var c := s.calls[i];
    && c != Faulted && (c.Asking? || c.Growing? ==> c.a < |s.buckets|)
    && (c.Grown? || c.Marking? || c.Freeing? || c.Releasing? ==>
          c.b < |s.cells| && s.cells[c.b].place == InHand(i))
    && (c.Grown? || c.Marking? || c.Releasing? ==> c.a < |s.buckets| && c.b < |s.cells| && s.cells[c.b].home == c.a)
    && (c.Freeing? ==> c.b < |s.cells| && s.cells[c.b].header == Owner(s.cells[c.b].home))
  }

  function At(list: seq<nat>, k: int): int { if 0 <= k < |list| then list[k] else NULL }

  /** Following the links from the head visits exactly the listed blocks. */
  ghost predicate BucketOk(s: State, a: nat)
    requires a < |s.buckets|
  {
    var u := s.buckets[a];
    && u.head == At(u.list, 0)
    && (forall j, k | 0 <= j < k < |u.list| :: u.list[j] != u.list[k])
    && forall k | 0 <= k < |u.list| ::
         u.list[k] < |s.cells| && s.cells[u.list[k]] == Cell(a, Link(At(u.list, k + 1)), Listed)
  }

  ghost predicate Shape(s: State) {
    && (forall b | 0 <= b < |s.cells| :: CellOk(s, b))
    && (forall i | 0 <= i < |s.calls| :: CallOk(s, i))
    && (forall a | 0 <= a < |s.buckets| :: BucketOk(s, a))
  }

  /** The block that a step takes up, puts down or marks. */
  function Touched(s: State, step: Step): int
    requires Enabled(s, step)
  {
    match step
    case Malloc(_) => NULL
    case Free(b) => b
    case Advance(i, _) =>
      match s.calls[i]
      case Asking(a) => if a < |s.buckets| then s.buckets[a].head else NULL
      case Marking(_, b) => b
      case Releasing(_, b) => b
      case _ => NULL
  }

  /** Where the touched block is before the step. */
  lemma TouchedIs(s: State, step: Step)
    requires Shape(s) && Enabled(s, step)
    ensures var b := Touched(s, step);
            b == NULL || (0 <= b < |s.cells|
                          && match step
                             case Malloc(_) => false
                             case Free(_) => s.cells[b].place.Live?
                             case Advance(i, _) =>
                               if s.calls[i].Asking? then
                                 && s.cells[b].place.Listed? && s.cells[b].home == s.calls[i].a
                                 && s.cells[b].header.Link? && s.buckets[s.calls[i].a].list != []
                                 && s.buckets[s.calls[i].a].list[0] == b
                               else s.cells[b].place == InHand(i))
  {
    if step.Advance? {
      assert CallOk(s, step.call);
      if s.calls[step.call].Asking? {
        assert BucketOk(s, s.calls[step.call].a);
      }
    }
  }

  /** Every other block stays as it is. */
  lemma OthersStay(s: State, step: Step, b: nat)
    requires Enabled(s, step) && b < |s.cells| && b != Touched(s, step)
    ensures b < |Apply(s, step).cells| && Apply(s, step).cells[b] == s.cells[b]
  {}

  lemma StepCells(s: State, step: Step, b: nat)
    requires Shape(s) && Enabled(s, step) && b < |Apply(s, step).cells|
    ensures CellOk(Apply(s, step), b)
  {
    if b < |s.cells| {
      assert CellOk(s, b);
    }
    if step.Advance? {
      assert CallOk(s, step.call);
      if s.calls[step.call].Asking? {
        assert BucketOk(s, s.calls[step.call].a);
      }
    }
  }

  lemma OtherCall(s: State, step: Step, i: nat)
    requires Shape(s) && Enabled(s, step) && i < |s.calls| && !(step.Advance? && step.call == i)
    ensures i < |Apply(s, step).calls| && CallOk(Apply(s, step), i)
  {
    hide CellOk, BucketOk;
    assert CallOk(s, i);
    TouchedIs(s, step);
    var c := s.calls[i];
    SameSize(s, step, i);
    if c.Grown? || c.Marking? || c.Freeing? || c.Releasing? {
      hide Apply, Touched;
      OthersStay(s, step, c.b);
    }
  }

  lemma SameSize(s: State, step: Step, i: nat)
    requires Enabled(s, step) && i < |s.calls|
    ensures var s' := Apply(s, step);
            && |s'.buckets| == |s.buckets| && |s'.calls| >= |s.calls|
            && (!(step.Advance? && step.call == i) ==> s'.calls[i] == s.calls[i])
  {}

  lemma MovedCall(s: State, i: nat, exhausted: bool)
    requires Shape(s) && Enabled(s, Advance(i, exhausted))
    ensures i < |Apply(s, Advance(i, exhausted)).calls| && CallOk(Apply(s, Advance(i, exhausted)), i)
  {
    assert CallOk(s, i);
    match s.calls[i]
    case Asking(a) => assert BucketOk(s, a);
    case Freeing(b) => assert CellOk(s, b);
    case _ =>
  }

  lemma StepCalls(s: State, step: Step, i: nat)
    requires Shape(s) && Enabled(s, step) && i < |Apply(s, step).calls|
    ensures CallOk(Apply(s, step), i)
  {
    hide BucketOk;
    if i == |s.calls| {
      if step.Free? {
        assert CellOk(s, step.b);
      }
    } else if step.Advance? && step.call == i {
      MovedCall(s, i, step.exhausted);
    } else {
      OtherCall(s, step, i);
    }
  }

  /** A list none of whose blocks is touched. */
  lemma OtherBucket(s: State, step: Step, a: nat)
    requires Shape(s) && Enabled(s, step) && a < |s.buckets| && a < |Apply(s, step).buckets|
    requires Apply(s, step).buckets[a].head == s.buckets[a].head && Apply(s, step).buckets[a].list == s.buckets[a].list
    requires forall k | 0 <= k < |s.buckets[a].list| :: s.buckets[a].list[k] != Touched(s, step)
    ensures BucketOk(Apply(s, step), a)
  {
    hide Apply, Touched, CellOk, CallOk;
    assert BucketOk(s, a);
    forall k | 0 <= k < |s.buckets[a].list|
      ensures s.buckets[a].list[k] < |Apply(s, step).cells|
              && Apply(s, step).cells[s.buckets[a].list[k]] == s.cells[s.buckets[a].list[k]]
    {
      OthersStay(s, step, s.buckets[a].list[k]);
    }
  }

  lemma TakenFrom(s: State, i: nat, exhausted: bool)
    requires Shape(s) && Enabled(s, Advance(i, exhausted)) && s.calls[i].Asking?
    ensures s.calls[i].a < |s.buckets| && BucketOk(Apply(s, Advance(i, exhausted)), s.calls[i].a)
  {
    hide CellOk;
    assert CallOk(s, i);
    assert BucketOk(s, s.calls[i].a);
  }

  lemma ReleasedTo(s: State, i: nat, exhausted: bool)
    requires Shape(s) && Enabled(s, Advance(i, exhausted)) && s.calls[i].Releasing?
    ensures s.calls[i].a < |s.buckets| && BucketOk(Apply(s, Advance(i, exhausted)), s.calls[i].a)
  {
    hide CellOk;
    assert CallOk(s, i);
    assert BucketOk(s, s.calls[i].a);
  }

  lemma StepBuckets(s: State, step: Step, a: nat)
    requires Shape(s) && Enabled(s, step) && a < |Apply(s, step).buckets|
    ensures BucketOk(Apply(s, step), a)
  {
    hide CellOk;
    if step.Advance? && s.calls[step.call] == Asking(a) {
      TakenFrom(s, step.call, step.exhausted);
    } else if step.Advance? && s.calls[step.call].Releasing? && s.calls[step.call].a == a {
      ReleasedTo(s, step.call, step.exhausted);
    } else {
      TouchedIs(s, step);
      assert BucketOk(s, a);
      ListsStay(s, step, a);
      hide Apply;
      OtherBucket(s, step, a);
    }
  }

  lemma ListsStay(s: State, step: Step, a: nat)
    requires Enabled(s, step) && a < |s.buckets|
    requires !(step.Advance? && (s.calls[step.call] == Asking(a)
                                 || (s.calls[step.call].Releasing? && s.calls[step.call].a == a)))
    ensures var s' := Apply(s, step);
            a < |s'.buckets| && s'.buckets[a].head == s.buckets[a].head && s'.buckets[a].list == s.buckets[a].list
  {}

  lemma StepShape(s: State, step: Step)
    requires Shape(s) && Enabled(s, step)
    ensures Shape(Apply(s, step))
  {
    hide Apply, Enabled, CellOk, CallOk, BucketOk;
    var s' := Apply(s, step);
    forall b | 0 <= b < |s'.cells| ensures CellOk(s', b) {
      StepCells(s, step, b);
    }
    forall i | 0 <= i < |s'.calls| ensures CallOk(s', i) {
      StepCalls(s, step, i);
    }
    forall a | 0 <= a < |s'.buckets| ensures BucketOk(s', a) {
      StepBuckets(s, step, a);
    }
  }

  // ---------- The counters ----------

  ghost function Number<T>(q: seq<T>, p: T -> bool): nat {
    if q == [] then 0 else Number(q[..|q| - 1], p) + if p(q[|q| - 1]) then 1 else 0
  }

  lemma NumberAppend<T>(q: seq<T>, x: T, p: T -> bool)
    ensures Number(q + [x], p) == Number(q, p) + if p(x) then 1 else 0
  {
    assert (q + [x])[..|q|] == q;
  }

  lemma {:induction false} NumberUpdate<T>(q: seq<T>, i: nat, x: T, p: T -> bool)
    requires i < |q|
    ensures Number(q[i := x], p) == Number(q, p) - (if p(q[i]) then 1 else 0) + if p(x) then 1 else 0
  {
    var last := |q| - 1;
    if i < last {
      NumberUpdate(q[..last], i, x, p);
      assert q[i := x][..last] == q[..last][i := x];
    } else {
      assert q[i := x][..last] == q[..last];
    }
  }

  ghost function MadeFor(a: nat): Cell -> bool { (c: Cell) => c.home == a }

  ghost function OutOf(a: nat): Cell -> bool { (c: Cell) => c.home == a && c.place != Listed }

  ghost function LiveOf(a: nat): Cell -> bool { (c: Cell) => c.home == a && c.place == Live }

  /** Made, but not counted yet. */
  ghost function GrownFor(a: nat): Call -> bool { (c: Call) => c.Grown? && c.a == a }

  /** The counters, which wrap around, agree with the blocks up to those that are not counted yet. */
  ghost predicate Agrees(u: Bucket, made: int, out: int) {
    && u.blockCnt == made % 0x1_0000_0000
    && u.blocksInUse == out % 0x1_0000_0000
    && u.blocksInUse == (u.allocations - u.deallocations) % 0x1_0000_0000
  }

  ghost predicate Counted(s: State, a: nat)
    requires a < |s.buckets|
  {
    var uncounted := Number(s.calls, GrownFor(a));
    Agrees(s.buckets[a], Number(s.cells, MadeFor(a)) - uncounted, Number(s.cells, OutOf(a)) - uncounted)
  }

  lemma Taken(u: Bucket, u': Bucket, made: int, out: int, newBlock: bool)
    requires Agrees(u, made, out)
    requires u'.blockCnt == if newBlock then Heap.Plus(u.blockCnt, 1) else u.blockCnt
    requires u'.blocksInUse == Heap.Plus(u.blocksInUse, 1) && u'.allocations == Heap.Plus(u.allocations, 1)
    requires u'.deallocations == u.deallocations
    ensures Agrees(u', if newBlock then made + 1 else made, out + 1)
  {
    Heap.PlusMod(made, 1);
    Heap.PlusMod(out, 1);
    Heap.PlusMod(u.allocations - u.deallocations, 1);
    Heap.Difference(u.allocations + 1, u.deallocations);
  }

  lemma GivenBack(u: Bucket, u': Bucket, made: int, out: int)
    requires Agrees(u, made, out) && u'.blockCnt == u.blockCnt && u'.allocations == u.allocations
    requires u'.blocksInUse == Heap.Plus(u.blocksInUse, -1) && u'.deallocations == Heap.Plus(u.deallocations, 1)
    ensures Agrees(u', made, out - 1)
  {
    Heap.PlusMod(out, -1);
    Heap.PlusMod(u.allocations - u.deallocations, -1);
    Heap.Difference(u.allocations, u.deallocations + 1);
  }

  /** What a step does to the numbers of one bucket. */
  lemma StepNumbers(s: State, step: Step, a: nat)
    requires Shape(s) && Enabled(s, step) && a < |s.buckets|
    ensures var s' := Apply(s, step);
            var call := if step.Advance? then s.calls[step.call] else Done;
            var grows := call == Growing(a) && !step.exhausted;
            var takes := call == Asking(a) && s.buckets[a].head != NULL;
            var counts := call.Grown? && call.a == a;
            var gives := call.Releasing? && call.a == a;
            && Number(s'.cells, MadeFor(a)) == Number(s.cells, MadeFor(a)) + (if grows then 1 else 0)
            && Number(s'.cells, OutOf(a))
                 == Number(s.cells, OutOf(a)) + (if grows || takes then 1 else 0) - (if gives then 1 else 0)
            && Number(s'.calls, GrownFor(a))
                 == Number(s.calls, GrownFor(a)) + (if grows then 1 else 0) - (if counts then 1 else 0)
  {
    hide Number, BucketOk;
    match step
    case Malloc(x) => NumberAppend(s.calls, Asking(x), GrownFor(a));
    case Free(b) =>
      NumberAppend(s.calls, Freeing(b), GrownFor(a));
      NumberUpdate(s.cells, b, s.cells[b].(place := InHand(|s.calls|)), MadeFor(a));
      NumberUpdate(s.cells, b, s.cells[b].(place := InHand(|s.calls|)), OutOf(a));
    case Advance(i, exhausted) =>
      assert CallOk(s, i);
      TouchedIs(s, step);
      var s', b := Apply(s, step), Touched(s, step);
      NumberUpdate(s.calls, i, s'.calls[i], GrownFor(a));
      if b != NULL {
        NumberUpdate(s.cells, b, s'.cells[b], MadeFor(a));
        NumberUpdate(s.cells, b, s'.cells[b], OutOf(a));
      } else if s.calls[i].Growing? && !exhausted {
        NumberAppend(s.cells, s'.cells[|s.cells|], MadeFor(a));
        NumberAppend(s.cells, s'.cells[|s.cells|], OutOf(a));
      }
  }

  lemma StepCounted(s: State, step: Step, a: nat)
    requires Shape(s) && Enabled(s, step) && a < |s.buckets| && Counted(s, a)
    ensures a < |Apply(s, step).buckets| && Counted(Apply(s, step), a)
  {
    hide Number, CellOk, BucketOk, Agrees;
    StepNumbers(s, step, a);
    if step.Advance? {
      assert CallOk(s, step.call);
      TouchedIs(s, step);
      var call, uncounted := s.calls[step.call], Number(s.calls, GrownFor(a));
      var made, out := Number(s.cells, MadeFor(a)) - uncounted, Number(s.cells, OutOf(a)) - uncounted;
      var u, u' := s.buckets[a], Apply(s, step).buckets[a];
      if call == Asking(a) && u.head != NULL {
        Taken(u, u', made, out, false);
      } else if call.Grown? && call.a == a {
        Taken(u, u', made, out, true);
      } else if call.Releasing? && call.a == a {
        GivenBack(u, u', made, out);
      } else {
        assert u' == u;
      }
    }
  }

  // ---------- Whole runs ----------

  ghost predicate Sound(s: State) {
    Shape(s) && forall a | 0 <= a < |s.buckets| :: Counted(s, a)
  }

  lemma StepSound(s: State, step: Step)
    requires Sound(s) && Enabled(s, step)
    ensures Sound(Apply(s, step)) && |Apply(s, step).buckets| == |s.buckets|
  {
    StepShape(s, step);
    BucketsStay(s, step);
    hide Shape, Apply, Enabled, Counted;
    forall a | 0 <= a < |s.buckets| ensures Counted(Apply(s, step), a) {
      StepCounted(s, step, a);
    }
  }

  lemma BucketsStay(s: State, step: Step)
    requires Enabled(s, step)
    ensures |Apply(s, step).buckets| == |s.buckets|
  {}

  ghost predicate CanRun(s: State, steps: seq<Step>)
    decreases |steps|
  {
    steps == [] || (Enabled(s, steps[0]) && CanRun(Apply(s, steps[0]), steps[1..]))
  }

  ghost function After(s: State, steps: seq<Step>): State
    requires CanRun(s, steps)
    decreases |steps|
  {
    if steps == [] then s else After(Apply(s, steps[0]), steps[1..])
  }

  lemma {:induction false} RunSound(s: State, steps: seq<Step>)
    requires Sound(s) && CanRun(s, steps)
    ensures Sound(After(s, steps))
    decreases |steps|
  {
    hide Sound, Apply, Enabled;
    if steps != [] {
      StepSound(s, steps[0]);
      RunSound(Apply(s, steps[0]), steps[1..]);
    }
  }

  lemma StartSound(n: nat)
    ensures Sound(Start(n))
  {
    var s := Start(n);
    forall a | 0 <= a < n ensures BucketOk(s, a) && Counted(s, a) {}
  }

  /** In every interleaving each block is in one place: on its own bucket's list and on no other, or in the
      hands of one call, or with a client, and then its header names the bucket that made it. No call ever
      takes a header for what it is not. */
  lemma OnePlace(n: nat, steps: seq<Step>, b: nat)
    requires CanRun(Start(n), steps) && b < |After(Start(n), steps).cells|
    ensures var s := After(Start(n), steps);
            && s.cells[b].home < |s.buckets|
            && (forall a | 0 <= a < |s.buckets| ::
                  b in s.buckets[a].list <==> s.cells[b].place == Listed && s.cells[b].home == a)
            && (forall i | 0 <= i < |s.calls| :: Holds(s.calls[i], b) <==> s.cells[b].place == InHand(i))
            && (s.cells[b].place == Live ==> s.cells[b].header == Owner(s.cells[b].home))
            && Faulted !in s.calls
  {
    hide CanRun, After, Apply, Enabled, Counted;
    StartSound(n);
    RunSound(Start(n), steps);
    var s := After(Start(n), steps);
    assert CellOk(s, b);
    forall a | 0 <= a < |s.buckets|
      ensures b in s.buckets[a].list <==> s.cells[b].place == Listed && s.cells[b].home == a
    {
      assert BucketOk(s, a);
    }
    forall i | 0 <= i < |s.calls|
      ensures (Holds(s.calls[i], b) <==> s.cells[b].place == InHand(i)) && s.calls[i] != Faulted
    {
      assert CallOk(s, i);
    }
  }

  /** xmalloc, whatever other calls do meanwhile, ends by giving its client a block of the bucket that was
      with no client before; all other live blocks stay so. */
  lemma MallocGives(n: nat, steps: seq<Step>, i: nat, exhausted: bool)
    requires CanRun(Start(n), steps) && Enabled(After(Start(n), steps), Advance(i, exhausted))
    requires After(Start(n), steps).calls[i].Marking?
    ensures var s := After(Start(n), steps);
            var s', c := Apply(s, Advance(i, exhausted)), s.calls[i];
            && c.b < |s.cells| && s.cells[c.b].place != Live && s'.calls[i] == Done && |s'.cells| == |s.cells|
            && s'.cells[c.b] == Cell(c.a, Owner(c.a), Live)
            && forall b | 0 <= b < |s.cells| && b != c.b :: s'.cells[b] == s.cells[b]
  {
    hide CanRun, After, Counted, CellOk, BucketOk;
    StartSound(n);
    RunSound(Start(n), steps);
    assert CallOk(After(Start(n), steps), i);
  }

  /** With no call under way every block is with a client or on its list, and the counters say, modulo
      2^32, how many there are and how many of them are with clients. */
  lemma CountersAtRest(n: nat, steps: seq<Step>, a: nat)
    requires CanRun(Start(n), steps) && a < |After(Start(n), steps).buckets|
    requires var calls := After(Start(n), steps).calls; forall i | 0 <= i < |calls| :: calls[i] == Done
    ensures var s := After(Start(n), steps);
            && (forall b | 0 <= b < |s.cells| :: s.cells[b].place == Live || s.cells[b].place == Listed)
            && Agrees(s.buckets[a], Number(s.cells, MadeFor(a)), Number(s.cells, LiveOf(a)))
  {
    hide CanRun, After, Apply, Enabled, Agrees;
    StartSound(n);
    RunSound(Start(n), steps);
    var s := After(Start(n), steps);
    forall b | 0 <= b < |s.cells| ensures !s.cells[b].place.InHand? {
      assert CellOk(s, b);
    }
    NoneNumbered(s.calls, GrownFor(a));
    SameNumber(s.cells, OutOf(a), LiveOf(a));
    assert Counted(s, a);
  }

  lemma {:induction false} NoneNumbered<T>(q: seq<T>, p: T -> bool)
    requires forall x | x in q :: !p(x)
    ensures Number(q, p) == 0
  {
    if q != [] {
      NoneNumbered(q[..|q| - 1], p);
    }
  }

  lemma {:induction false} SameNumber<T>(q: seq<T>, p: T -> bool, r: T -> bool)
    requires forall x | x in q :: p(x) == r(x)
    ensures Number(q, p) == Number(q, r)
  {
    if q != [] {
      SameNumber(q[..|q| - 1], p, r);
    }
  }

  // ---------- Which call gets what ----------

  /** The calls that the steps begin, in order. */
  function Begun(steps: seq<Step>): seq<Step> {
    if steps == [] then [] else (if steps[0].Advance? then [] else [steps[0]]) + Begun(steps[1..])
  }

  /** Where a call that was begun like this can be. */
  predicate Serves(begun: Step, c: Call) {
    match begun
    case Malloc(a) =>
      c == Asking(a) || c == Growing(a) || (c.Grown? && c.a == a) || (c.Marking? && c.a == a) || c == Done
    case Free(b) => c == Freeing(b) || (c.Releasing? && c.b == b) || c == Done
    case Advance(_, _) => false
  }

  ghost predicate Serving(begun: seq<Step>, calls: seq<Call>) {
    |begun| == |calls| && forall i | 0 <= i < |calls| :: Serves(begun[i], calls[i])
  }

  lemma StepServes(s: State, step: Step, begun: seq<Step>)
    requires Shape(s) && Enabled(s, step) && Serving(begun, s.calls)
    ensures Serving(begun + (if step.Advance? then [] else [step]), Apply(s, step).calls)
  {
    hide CellOk, BucketOk;
    var begun' := begun + if step.Advance? then [] else [step];
    forall i | 0 <= i < |Apply(s, step).calls|
      ensures Serves(begun'[i], Apply(s, step).calls[i])
    {
      StepCalls(s, step, i);
      if i < |s.calls| {
        assert CallOk(s, i) && Serves(begun[i], s.calls[i]);
      }
    }
  }

  lemma {:induction false} RunServes(s: State, steps: seq<Step>, begun: seq<Step>)
    requires Sound(s) && CanRun(s, steps) && Serving(begun, s.calls)
    ensures Serving(begun + Begun(steps), After(s, steps).calls)
    decreases |steps|
  {
    hide Shape, Counted, Apply, Enabled, Serving;
    if steps == [] {
      assert begun + [] == begun;
    } else {
      StepSound(s, steps[0]);
      StepServes(s, steps[0], begun);
      var more := if steps[0].Advance? then [] else [steps[0]];
      RunServes(Apply(s, steps[0]), steps[1..], begun + more);
      Rebracket(begun, more, Begun(steps[1..]));
    }
  }

  /** In every interleaving: an allocation works on the bucket that it named, and a release on the block that
      it was given, which goes to the bucket that made it. */
  lemma OwnBusiness(n: nat, steps: seq<Step>, i: nat)
    requires CanRun(Start(n), steps) && i < |After(Start(n), steps).calls|
    ensures var s, begun := After(Start(n), steps), Begun(steps);
            && |begun| == |s.calls|
            && (s.calls[i].Marking? ==> begun[i] == Malloc(s.calls[i].a))
            && (s.calls[i].Releasing? ==>
                  && begun[i] == Free(s.calls[i].b)
                  && s.calls[i].b < |s.cells| && s.cells[s.calls[i].b].home == s.calls[i].a)
  {
    hide CanRun, After, Counted, CellOk, BucketOk;
    StartSound(n);
    RunSound(Start(n), steps);
    RunServes(Start(n), steps, []);
    var s := After(Start(n), steps);
    assert [] + Begun(steps) == Begun(steps);
    assert CallOk(s, i) && Serves(Begun(steps)[i], s.calls[i]);
  }

  // ---------- A call left alone ----------

  /** The allocation goes on by itself. */
  function Alone(i: nat, exhausted: bool, n: nat): seq<Step> {
    if n == 0 then [] else [Advance(i, exhausted)] + Alone(i, exhausted, n - 1)
  }

  lemma AloneStep(s: State, i: nat, exhausted: bool, n: nat)
    requires n > 0 && Enabled(s, Advance(i, exhausted))
    requires CanRun(Apply(s, Advance(i, exhausted)), Alone(i, exhausted, n - 1))
    ensures CanRun(s, Alone(i, exhausted, n))
    ensures After(s, Alone(i, exhausted, n)) == After(Apply(s, Advance(i, exhausted)), Alone(i, exhausted, n - 1))
  {
    hide Apply, Enabled;
    assert Alone(i, exhausted, n)[1..] == Alone(i, exhausted, n - 1);
  }

  lemma AloneEnd(s: State, i: nat, exhausted: bool)
    ensures CanRun(s, Alone(i, exhausted, 0)) && After(s, Alone(i, exhausted, 0)) == s
  {}

  lemma MarkingEnds(s: State, i: nat, exhausted: bool)
    requires Sound(s) && i < |s.calls| && s.calls[i].Marking?
    ensures s.calls[i].b < |s.cells| && CanRun(s, Alone(i, exhausted, 1))
    ensures var c := s.calls[i];
            After(s, Alone(i, exhausted, 1)) ==
              s.(calls := s.calls[i := Done],
                 cells := s.cells[c.b := s.cells[c.b].(header := Owner(c.a), place := Live)])
  {
    hide Counted, CellOk, BucketOk;
    assert CallOk(s, i);
    AloneEnd(Apply(s, Advance(i, exhausted)), i, exhausted);
    AloneStep(s, i, exhausted, 1);
  }

  /** With a free block on the list, an allocation gives the first one. */
  lemma MallocReuses(s: State, i: nat, exhausted: bool)
    requires Sound(s) && i < |s.calls| && s.calls[i].Asking?
    requires s.calls[i].a < |s.buckets| && s.buckets[s.calls[i].a].list != []
    ensures CanRun(s, Alone(i, exhausted, 2))
    ensures var a, s' := s.calls[i].a, After(s, Alone(i, exhausted, 2));
            var b := s.buckets[a].list[0];
            && s'.calls == s.calls[i := Done] && a < |s'.buckets| && s'.buckets[a].list == s.buckets[a].list[1..]
            && b < |s.cells| && s'.cells == s.cells[b := Cell(a, Owner(a), Live)]
  {
    var step := Advance(i, exhausted);
    hide Counted, CellOk, BucketOk, Apply, Enabled, Shape;
    FirstTaken(s, i, exhausted);
    StepSound(s, step);
    MarkingEnds(Apply(s, step), i, exhausted);
    AloneStep(s, i, exhausted, 2);
  }

  lemma FirstTaken(s: State, i: nat, exhausted: bool)
    requires Shape(s) && i < |s.calls| && s.calls[i].Asking?
    requires s.calls[i].a < |s.buckets| && s.buckets[s.calls[i].a].list != []
    ensures Enabled(s, Advance(i, exhausted))
    ensures var a, s1 := s.calls[i].a, Apply(s, Advance(i, exhausted));
            var b := s.buckets[a].list[0];
            && s1.calls == s.calls[i := Marking(a, b)] && a < |s1.buckets|
            && s1.buckets[a].list == s.buckets[a].list[1..]
            && b < |s.cells| && s.cells[b].home == a && s1.cells == s.cells[b := s.cells[b].(place := InHand(i))]
  {
    hide CellOk;
    assert CallOk(s, i) && BucketOk(s, s.calls[i].a);
  }

  /** With an empty list it gives a new block, or none if the heap is exhausted. */
  lemma MallocGrows(s: State, i: nat)
    requires Sound(s) && i < |s.calls| && s.calls[i].Asking?
    requires s.calls[i].a < |s.buckets| && s.buckets[s.calls[i].a].list == []
    ensures CanRun(s, Alone(i, false, 4)) && CanRun(s, Alone(i, true, 2))
    ensures var a, s' := s.calls[i].a, After(s, Alone(i, false, 4));
            s'.calls == s.calls[i := Done] && s'.cells == s.cells + [Cell(a, Owner(a), Live)]
    ensures After(s, Alone(i, true, 2)) == s.(calls := s.calls[i := Done])
  {
    assert CallOk(s, i) && BucketOk(s, s.calls[i].a);
    var s1 := Apply(s, Advance(i, false));
    assert s1 == Apply(s, Advance(i, true)) == s.(calls := s.calls[i := Growing(s.calls[i].a)]);
    StepSound(s, Advance(i, false));
    hide Counted, CellOk, BucketOk;
    AloneEnd(Apply(s1, Advance(i, true)), i, true);
    AloneStep(s1, i, true, 1);
    AloneStep(s, i, true, 2);
    GrowingEnds(s1, i);
    AloneStep(s, i, false, 4);
  }

  lemma GrowingEnds(s: State, i: nat)
    requires Sound(s) && i < |s.calls| && s.calls[i].Growing?
    ensures CanRun(s, Alone(i, false, 3))
    ensures var a, s' := s.calls[i].a, After(s, Alone(i, false, 3));
            s'.calls == s.calls[i := Done] && s'.cells == s.cells + [Cell(a, Owner(a), Live)]
  {
    hide CellOk, BucketOk, Counted;
    var step := Advance(i, false);
    var s1 := Apply(s, step);
    var s2 := Apply(s1, step);
    StepSound(s, step);
    assert CallOk(s1, i);
    StepSound(s1, step);
    MarkingEnds(s2, i, false);
    AloneStep(s1, i, false, 2);
    AloneStep(s, i, false, 3);
  }

  /** A release puts the block in front of the list of its own bucket. */
  lemma FreeReturns(s: State, b: nat)
    requires Sound(s) && Enabled(s, Free(b))
    ensures var s1, i := Apply(s, Free(b)), |s.calls|;
            && CanRun(s1, Alone(i, false, 2)) && s.cells[b].home < |s.buckets|
            && var s', a := After(s1, Alone(i, false, 2)), s.cells[b].home;
               && s'.calls == s.calls + [Done] && a < |s'.buckets| && s'.buckets[a].list == [b] + s.buckets[a].list
               && |s'.cells| == |s.cells| && s'.cells[b].place == Listed
               && forall x | 0 <= x < |s.cells| && x != b :: s'.cells[x] == s.cells[x]
  {
    hide BucketOk, Counted;
    var i, step := |s.calls|, Advance(|s.calls|, false);
    assert CellOk(s, b);
    var s1 := Apply(s, Free(b));
    var s2 := Apply(s1, step);
    var s3 := Apply(s2, step);
    assert s2 == s1.(calls := s1.calls[i := Releasing(s.cells[b].home, b)]);
    AloneEnd(s3, i, false);
    AloneStep(s2, i, false, 1);
    AloneStep(s1, i, false, 2);
  }
}
