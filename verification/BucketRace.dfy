/** Threads racing for buckets in DelegateMQ/extras/allocator/xallocator.cpp: xallocator_get_allocator
    looks a block size up under the lock, creates an allocator outside of it, and looks again before it
    inserts. Each step is one lock region, or one creation or deletion of an allocator. */
module BucketRace {
  import opened BlockSize
  import opened Wrappers

  /** The least size of a block, that of a pointer: the constructor of Allocator raises smaller ones. */
  const LEAST_SIZE: Size := 8

  /** An allocator object. */
  datatype Bucket = Bucket(id: nat, size: Size)

  /** Where a thread is in its call; size is the block size that it asks for, which is below LEAST_SIZE
      only if the rounding has overflowed. */
  datatype Thread =
    | Wanting(size: Size)                                        // before the first look
    | Creating(size: Size)                                       // nothing found, lock released
    | Created(size: Size, bucket: Bucket)                        // before the second look
    | Discarding(size: Size, bucket: Bucket, existing: Bucket)   // another was faster, its own still to be deleted
    | Failing(size: Size, bucket: Bucket)                        // no slot left, its own still to be deleted
    | Got(size: Size, bucket: Bucket)                            // returned
    | Faulted(size: Size)                                        // assertion failed

  datatype State = State(
    slots: nat,                // MAX_ALLOCATORS
    table: seq<Bucket>,        // the occupied slots
    threads: seq<Thread>,
    made: nat,                 // allocator objects created so far
    deleted: set<nat>)

  datatype Step = Request(size: Size) | Advance(thread: nat)

  function Start(slots: nat): State { State(slots, [], [], 0, {}) }

  function Find(table: seq<Bucket>, size: Size): (found: Option<Bucket>)
    ensures found.Some? ==> found.value in table && found.value.size == size
    ensures found.None? ==> forall b | b in table :: b.size != size
  {
    if table == [] then None
    else if table[0].size == size then Some(table[0])
    else Find(table[1..], size)
  }

  function Raised(size: Size): Size { if size < LEAST_SIZE then LEAST_SIZE else size }

  predicate Over(t: Thread) {
    t.Got? || t.Faulted?
  }

  predicate Enabled(s: State, step: Step) {
    step.Advance? ==> step.thread < |s.threads| && !Over(s.threads[step.thread])
  }

  function Apply(s: State, step: Step): State
    requires Enabled(s, step)
  {
    match step
    case Request(size) => s.(threads := s.threads + [Wanting(SizeOfBlock(size))])
    case Advance(i) =>
      match s.threads[i]
      case Wanting(size) =>
        var found := Find(s.table, size);
        s.(threads := s.threads[i := if found.Some? then Got(size, found.value) else Creating(size)])
      case Creating(size) =>
        s.(threads := s.threads[i := Created(size, Bucket(s.made, Raised(size)))], made := s.made + 1)
      case Created(size, b) =>
        var existing := Find(s.table, size);
        if existing.Some? then s.(threads := s.threads[i := Discarding(size, b, existing.value)])
        else if |s.table| < s.slots then s.(table := s.table + [b], threads := s.threads[i := Got(size, b)])
        else s.(threads := s.threads[i := Failing(size, b)])
      case Discarding(size, b, existing) =>
        s.(threads := s.threads[i := Got(size, existing)], deleted := s.deleted + {b.id})
      case Failing(size, b) => s.(threads := s.threads[i := Faulted(size)], deleted := s.deleted + {b.id})
      case _ => s
  }

  /** Only requests whose size computation overflows ask for less than LEAST_SIZE. */
  lemma SmallIff(size: Size)
    ensures SizeOfBlock(size) < LEAST_SIZE <==> HALF < size + BLOCK_HEADER_SIZE <= WORD + 4
  {
    var request := (size + BLOCK_HEADER_SIZE) % WORD;
    assert Pow2(2) == 4;
    hide Pow2, RoundUp;
    if 0 < request <= HALF {
      RoundUpFits(request);
      RoundUpIsLeast(request);
    }
  }

  // ---------- Invariants of every interleaving ----------

  /** The allocator object that a thread has made and not yet given away. */
  predicate Holds(t: Thread, id: nat) {
    (t.Created? || t.Discarding? || t.Failing?) && t.bucket.id == id
  }

  /** The thread has made this object itself, and still has it or got it. */
  predicate MadeBy(t: Thread, id: nat) {
    Holds(t, id) || (t.Got? && t.size < LEAST_SIZE && t.bucket.id == id)
  }

  /** Some call asks for a size so small that the constructor raises it. */
  ghost predicate SmallAsked(s: State) {
    exists t :: t in s.threads && t.size < LEAST_SIZE
  }

  ghost predicate TableOk(s: State) {
    && |s.table| <= s.slots && (forall id | id in s.deleted :: id < s.made)
    && (forall i, j | 0 <= i < j < |s.table| :: s.table[i].id != s.table[j].id)
    && (forall i | 0 <= i < |s.table| ::
          s.table[i].id < s.made && s.table[i].id !in s.deleted && s.table[i].size >= LEAST_SIZE)
    && (!SmallAsked(s) ==> forall i, j | 0 <= i < j < |s.table| :: s.table[i].size != s.table[j].size)
  }

  ghost predicate ThreadOk(s: State, t: Thread) {
    && (t.Created? || t.Discarding? || t.Failing? ==>
          && t.bucket.id < s.made && t.bucket.id !in s.deleted && t.bucket.size == Raised(t.size)
          && forall i | 0 <= i < |s.table| :: s.table[i].id != t.bucket.id)
    && (t.Got? && t.size >= LEAST_SIZE ==> Find(s.table, t.size) == Some(t.bucket))
    && (t.Got? && t.size < LEAST_SIZE ==> t.bucket in s.table && t.bucket.size == LEAST_SIZE)
    && (t.Discarding? ==> Find(s.table, t.size) == Some(t.existing))
    && (t.Failing? || t.Faulted? ==> |s.table| == s.slots && Find(s.table, t.size) == None)
  }

  ghost predicate Sound(s: State) {
    && TableOk(s)
    && (forall i | 0 <= i < |s.threads| :: ThreadOk(s, s.threads[i]))
    && (forall i, j | 0 <= i < j < |s.threads| ::
          forall id | MadeBy(s.threads[i], id) :: !MadeBy(s.threads[j], id))
    && (forall id: nat | id < s.made :: Kept(s, id))
    && (forall i | 0 <= i < |s.table| :: Wanted(s, s.table[i].size))
  }

  predicate InTable(table: seq<Bucket>, id: nat) {
    exists i :: 0 <= i < |table| && table[i].id == id
  }

  /** An object that was made is in the table, or in a hand, or deleted. */
  ghost predicate Kept(s: State, id: nat) {
    id in s.deleted || InTable(s.table, id) || exists i :: 0 <= i < |s.threads| && Holds(s.threads[i], id)
  }

  /** Some call asks for this size. */
  ghost predicate Wanted(s: State, size: Size) {
    exists t :: t in s.threads && Raised(t.size) == size
  }

  /** What has been found is found again: the table only grows at its end. */
  lemma {:induction false} FindMore(table: seq<Bucket>, b: Bucket, size: Size)
    ensures Find(table + [b], size)
         == if Find(table, size).Some? then Find(table, size) else if b.size == size then Some(b) else None
  {
    if table == [] {
      assert [b][1..] == [];
    } else {
      assert (table + [b])[1..] == table[1..] + [b];
      FindMore(table[1..], b, size);
    }
  }

  lemma StepKept(s: State, step: Step, id: nat)
    requires Sound(s) && Enabled(s, step) && id < Apply(s, step).made
    ensures Kept(Apply(s, step), id)
  {
    hide TableOk, ThreadOk, Find, Wanted, SizeOfBlock;
    var s' := Apply(s, step);
    if id < s.made {
      assert Kept(s, id);
      if id in s.deleted {
      } else if InTable(s.table, id) {
        var i :| 0 <= i < |s.table| && s.table[i].id == id;
        assert s'.table[i].id == id;
      } else {
        var i :| 0 <= i < |s.threads| && Holds(s.threads[i], id);
        if step == Advance(i) {
          assert Holds(s'.threads[i], id) || id in s'.deleted || s'.table[|s.table|].id == id;
        } else {
          assert Holds(s'.threads[i], id);
        }
      }
    } else {
      assert Holds(s'.threads[step.thread], id);
    }
  }

  /** The sizes that calls ask for do not change. */
  lemma SizesStay(s: State, step: Step)
    requires Enabled(s, step)
    ensures var s' := Apply(s, step);
            && |s.threads| <= |s'.threads| && forall i | 0 <= i < |s.threads| :: s'.threads[i].size == s.threads[i].size
  {
    hide Find, SizeOfBlock;
  }

  lemma StepWanted(s: State, step: Step, size: Size)
    requires Enabled(s, step) && Wanted(s, size)
    ensures Wanted(Apply(s, step), size)
  {
    hide Apply, Enabled, Raised;
    SizesStay(s, step);
    var t :| t in s.threads && Raised(t.size) == size;
    var i :| 0 <= i < |s.threads| && s.threads[i] == t;
    assert Apply(s, step).threads[i] in Apply(s, step).threads;
  }

  lemma SmallStays(s: State, step: Step)
    requires Enabled(s, step) && SmallAsked(s)
    ensures SmallAsked(Apply(s, step))
  {
    hide Apply, Enabled;
    SizesStay(s, step);
    var t :| t in s.threads && t.size < LEAST_SIZE;
    var i :| 0 <= i < |s.threads| && s.threads[i] == t;
    assert Apply(s, step).threads[i] in Apply(s, step).threads;
  }

  lemma StepTable(s: State, step: Step)
    requires Sound(s) && Enabled(s, step)
    ensures TableOk(Apply(s, step)) && s.table <= Apply(s, step).table && s.made <= Apply(s, step).made
    ensures |Apply(s, step).table| <= |s.table| + 1
  {
    hide Kept, MadeBy, Wanted, SmallAsked, SizeOfBlock;
    if SmallAsked(s) {
      SmallStays(s, step);
    }
    if step.Advance? {
      var t := s.threads[step.thread];
      assert ThreadOk(s, t);
      if t.Created? && t.size < LEAST_SIZE {
        SmallOne(s, t);
      }
    }
  }

  lemma SmallOne(s: State, t: Thread)
    requires t in s.threads && t.size < LEAST_SIZE
    ensures SmallAsked(s)
  {}

  lemma FindAfter(s: State, step: Step, size: Size)
    requires Enabled(s, step)
    ensures Find(s.table, size).Some? ==> Find(Apply(s, step).table, size) == Find(s.table, size)
    ensures |s.table| == s.slots ==> Find(Apply(s, step).table, size) == Find(s.table, size)
  {
    hide Find, SizeOfBlock;
    if step.Advance? && s.threads[step.thread].Created? {
      FindMore(s.table, s.threads[step.thread].bucket, size);
    }
  }

  lemma OtherThread(s: State, step: Step, j: nat)
    requires Sound(s) && Enabled(s, step) && j < |s.threads| && step != Advance(j)
    ensures Apply(s, step).threads[j] == s.threads[j] && ThreadOk(Apply(s, step), s.threads[j])
  {
    hide Find, Kept, Wanted, SmallAsked, SizeOfBlock;
    var t := s.threads[j];
    assert ThreadOk(s, t);
    FindAfter(s, step, t.size);
    if step.Advance? {
      var u := s.threads[step.thread];
      assert ThreadOk(s, u);
      if u.Created? || u.Discarding? || u.Failing? {
        assert MadeBy(u, u.bucket.id);
        assert !MadeBy(t, u.bucket.id);
      }
    }
  }

  lemma MovedThread(s: State, i: nat)
    requires Sound(s) && Enabled(s, Advance(i))
    ensures ThreadOk(Apply(s, Advance(i)), Apply(s, Advance(i)).threads[i])
  {
    hide Find, Kept, Wanted, SmallAsked, SizeOfBlock, MadeBy;
    var t := s.threads[i];
    assert ThreadOk(s, t);
    FindAfter(s, Advance(i), t.size);
    if t.Created? {
      FindMore(s.table, t.bucket, t.size);
    }
  }

  lemma StepMadeBy(s: State, step: Step, i: nat, j: nat, id: nat)
    requires Sound(s) && Enabled(s, step) && i < j < |Apply(s, step).threads|
    ensures !(MadeBy(Apply(s, step).threads[i], id) && MadeBy(Apply(s, step).threads[j], id))
  {
    hide Apply, ThreadOk, TableOk;
    MakerStays(s, step, i, id);
    MakerStays(s, step, j, id);
  }

  /** The maker of an object was its maker before, or has just made it. */
  lemma MakerStays(s: State, step: Step, i: nat, id: nat)
    requires Sound(s) && Enabled(s, step) && i < |Apply(s, step).threads|
    ensures MadeBy(Apply(s, step).threads[i], id) ==>
              i < |s.threads| && (if step == Advance(i) && s.threads[i].Creating? then id == s.made
                                  else MadeBy(s.threads[i], id) && id < s.made)
  {
    hide Kept, Wanted, SmallAsked, SizeOfBlock;
    if i < |s.threads| {
      assert ThreadOk(s, s.threads[i]);
    }
  }

  lemma StepSound(s: State, step: Step)
    requires Sound(s) && Enabled(s, step)
    ensures Sound(Apply(s, step)) && s.table <= Apply(s, step).table
  {
    hide Apply, Enabled, MadeBy, ThreadOk, TableOk, Kept, Wanted;
    StepTable(s, step);
    var s' := Apply(s, step);
    forall i | 0 <= i < |s'.threads|
      ensures ThreadOk(s', s'.threads[i])
    {
      StepThread(s, step, i);
    }
    forall i, j | 0 <= i < j < |s'.threads|
      ensures forall id | MadeBy(s'.threads[i], id) :: !MadeBy(s'.threads[j], id)
    {
      forall id | MadeBy(s'.threads[i], id)
        ensures !MadeBy(s'.threads[j], id)
      {
        StepMadeBy(s, step, i, j, id);
      }
    }
    forall id: nat | id < s'.made
      ensures Kept(s', id)
    {
      StepKept(s, step, id);
    }
    forall i | 0 <= i < |s'.table|
      ensures Wanted(s', s'.table[i].size)
    {
      if i < |s.table| {
        StepWanted(s, step, s.table[i].size);
      } else {
        AddedWanted(s, step);
      }
    }
  }

  lemma AddedWanted(s: State, step: Step)
    requires Sound(s) && Enabled(s, step) && |Apply(s, step).table| == |s.table| + 1
    ensures Wanted(Apply(s, step), Apply(s, step).table[|s.table|].size)
  {
    hide TableOk, Find, Kept, SmallAsked, SizeOfBlock, MadeBy;
    var t := s.threads[step.thread];
    assert ThreadOk(s, t) && t in s.threads && Raised(t.size) == t.bucket.size;
    StepWanted(s, step, t.bucket.size);
  }

  lemma StepThread(s: State, step: Step, i: nat)
    requires Sound(s) && Enabled(s, step) && i < |Apply(s, step).threads|
    ensures ThreadOk(Apply(s, step), Apply(s, step).threads[i])
  {
    hide TableOk, MadeBy, Kept, Wanted, Find;
    if step == Advance(i) {
      MovedThread(s, i);
    } else if i < |s.threads| {
      OtherThread(s, step, i);
    }
  }

  // ---------- Whole runs ----------

  predicate CanRun(s: State, steps: seq<Step>)
    decreases |steps|
  {
    steps == [] || (Enabled(s, steps[0]) && CanRun(Apply(s, steps[0]), steps[1..]))
  }

  function After(s: State, steps: seq<Step>): State
    requires CanRun(s, steps)
    decreases |steps|
  {
    if steps == [] then s else After(Apply(s, steps[0]), steps[1..])
  }

  lemma StartSound(slots: nat)
    ensures Sound(Start(slots))
  {}

  lemma {:induction false} RunSound(s: State, steps: seq<Step>)
    requires Sound(s) && CanRun(s, steps)
    ensures Sound(After(s, steps)) && s.table <= After(s, steps).table
    decreases |steps|
  {
    hide Sound, Apply, Enabled;
    if steps != [] {
      StepSound(s, steps[0]);
      RunSound(Apply(s, steps[0]), steps[1..]);
    }
  }

  /** In every interleaving: two calls for the same block size return the same allocator exactly if that
      size is not below LEAST_SIZE; calls for different such sizes return different ones; and each is in
      the table, has the size and has not been deleted. */
  lemma SameSizeSameAllocator(slots: nat, steps: seq<Step>, i: nat, j: nat)
    requires CanRun(Start(slots), steps)
    requires var s := After(Start(slots), steps);
             i < j < |s.threads| && s.threads[i].Got? && s.threads[j].Got?
    ensures var s := After(Start(slots), steps);
            var a, b := s.threads[i], s.threads[j];
            && (a.size == b.size ==> (a.bucket == b.bucket <==> a.size >= LEAST_SIZE))
            && (a.size != b.size && a.size >= LEAST_SIZE && b.size >= LEAST_SIZE ==> a.bucket != b.bucket)
            && a.bucket in s.table && a.bucket.size == Raised(a.size) && a.bucket.id !in s.deleted
            && b.bucket in s.table && b.bucket.size == Raised(b.size) && b.bucket.id !in s.deleted
  {
    hide CanRun, After, Enabled, Apply, Find;
    RunSound(Start(slots), steps);
    var s := After(Start(slots), steps);
    assert ThreadOk(s, s.threads[i]) && ThreadOk(s, s.threads[j]);
    if s.threads[i].size < LEAST_SIZE {
      assert MadeBy(s.threads[i], s.threads[i].bucket.id);
    }
  }

  /** When all calls are over, every allocator object made is in the table or has been deleted, and not
      both: the losers of a race leave nothing behind. */
  lemma NothingLost(slots: nat, steps: seq<Step>)
    requires CanRun(Start(slots), steps) && forall t | t in After(Start(slots), steps).threads :: Over(t)
    ensures var s := After(Start(slots), steps);
            forall id: nat ::
              (id < s.made <==> id in s.deleted || InTable(s.table, id)) && !(id in s.deleted && InTable(s.table, id))
  {
    hide CanRun, After, Enabled, Apply, Wanted, SmallAsked;
    RunSound(Start(slots), steps);
    var s := After(Start(slots), steps);
    forall id: nat
      ensures (id < s.made <==> id in s.deleted || InTable(s.table, id)) && !(id in s.deleted && InTable(s.table, id))
    {
      if id < s.made {
        assert Kept(s, id);
        NoneHeld(s, id);
      }
    }
  }

  lemma NoneHeld(s: State, id: nat)
    requires forall t | t in s.threads :: Over(t)
    ensures forall i | 0 <= i < |s.threads| :: !Holds(s.threads[i], id)
  {
    forall i | 0 <= i < |s.threads| ensures !Holds(s.threads[i], id) {
      assert s.threads[i] in s.threads;
    }
  }

  /** A call fails only for want of a slot: the table is full and has no bucket of its size. */
  lemma FaultMeansFull(slots: nat, steps: seq<Step>, i: nat)
    requires CanRun(Start(slots), steps)
    requires i < |After(Start(slots), steps).threads| && After(Start(slots), steps).threads[i].Faulted?
    ensures var s := After(Start(slots), steps);
            |s.table| == slots && forall b | b in s.table :: b.size != s.threads[i].size
  {
    hide CanRun, After, Enabled, Apply;
    RunSound(Start(slots), steps);
    SlotsStay(Start(slots), steps);
    var s := After(Start(slots), steps);
    assert ThreadOk(s, s.threads[i]);
  }

  lemma {:induction false} SlotsStay(s: State, steps: seq<Step>)
    requires CanRun(s, steps)
    ensures After(s, steps).slots == s.slots
    decreases |steps|
  {
    hide Find, SizeOfBlock;
    if steps != [] {
      SlotsStay(Apply(s, steps[0]), steps[1..]);
    }
  }

  /** The sizes that the calls ask for. */
  ghost function Asked(s: State): set<Size> {
    set t | t in s.threads :: t.size
  }

  function Sizes(table: seq<Bucket>): (sizes: seq<Size>)
    ensures |sizes| == |table| && forall i | 0 <= i < |table| :: sizes[i] == table[i].size
  {
    seq(|table|, i requires 0 <= i < |table| => table[i].size)
  }

  /** When all calls are over, and none asked for a size below LEAST_SIZE: some call has failed exactly if
      the calls asked for more different sizes than there are slots, whatever the interleaving. */
  lemma FaultIff(slots: nat, steps: seq<Step>)
    requires CanRun(Start(slots), steps) && !SmallAsked(After(Start(slots), steps))
    requires forall t | t in After(Start(slots), steps).threads :: Over(t)
    ensures var s := After(Start(slots), steps);
            (exists t :: t in s.threads && t.Faulted?) <==> |Asked(s)| > slots
  {
    hide CanRun, After, Enabled, Apply, Find, Sound, SmallAsked, Asked;
    StartSound(slots);
    RunSound(Start(slots), steps);
    SlotsStay(Start(slots), steps);
    var s := After(Start(slots), steps);
    if t :| t in s.threads && t.Faulted? {
      var i :| 0 <= i < |s.threads| && s.threads[i] == t;
      TooMany(s, i);
    } else {
      Enough(s);
    }
  }

  lemma TooMany(s: State, i: nat)
    requires Sound(s) && !SmallAsked(s) && i < |s.threads| && s.threads[i].Faulted?
    ensures |Asked(s)| > s.slots
  {
    hide MadeBy, Kept, SmallAsked;
    var t, sizes := s.threads[i], Sizes(s.table);
    assert ThreadOk(s, t) && t in s.threads && t.size in Asked(s);
    forall size | size in sizes ensures size in Asked(s) - {t.size} {
      var j :| 0 <= j < |s.table| && s.table[j].size == size;
      TableAsked(s, j);
      assert s.table[j] in s.table;
    }
    DistinctWithin(sizes, Asked(s) - {t.size});
  }

  lemma Enough(s: State)
    requires Sound(s) && !SmallAsked(s) && forall t | t in s.threads :: t.Got?
    ensures |Asked(s)| <= s.slots
  {
    hide MadeBy, Kept, SmallAsked, ThreadOk;
    var sizes := Sizes(s.table);
    forall size | size in Asked(s) ensures size in sizes {
      var t :| t in s.threads && t.size == size;
      var i :| 0 <= i < |s.threads| && s.threads[i] == t;
      GotInTable(s, i);
    }
    SubsetSize(Asked(s), set x | x in sizes);
    FewOf(sizes);
  }

  lemma TableAsked(s: State, j: nat)
    requires Sound(s) && !SmallAsked(s) && j < |s.table|
    ensures s.table[j].size in Asked(s)
  {
    assert Wanted(s, s.table[j].size);
    var t :| t in s.threads && Raised(t.size) == s.table[j].size;
    assert t.size >= LEAST_SIZE;
  }

  lemma GotInTable(s: State, i: nat)
    requires Sound(s) && !SmallAsked(s) && i < |s.threads| && s.threads[i].Got?
    ensures s.threads[i].size in Sizes(s.table)
  {
    var t := s.threads[i];
    assert t in s.threads && ThreadOk(s, t);
    var j :| 0 <= j < |s.table| && s.table[j] == t.bucket;
    assert Sizes(s.table)[j] == t.size;
  }

  lemma {:induction false} FewOf<T>(q: seq<T>)
    ensures |set x | x in q| <= |q|
  {
    if q != [] {
      var front, last := q[..|q| - 1], q[|q| - 1];
      FewOf(front);
      assert (set x | x in q) == (set x | x in front) + {last};
    }
  }

  // ---------- Which call gets what ----------

  /** The requested sizes, in the order in which the calls begin. */
  function Requests(steps: seq<Step>): seq<Size> {
    if steps == [] then [] else (if steps[0].Request? then [steps[0].size] else []) + Requests(steps[1..])
  }

  /** The calls are after the sizes of these requests. */
  ghost predicate Serving(requests: seq<Size>, threads: seq<Thread>) {
    |requests| == |threads| && forall i | 0 <= i < |threads| :: threads[i].size == SizeOfBlock(requests[i])
  }

  lemma StepServes(s: State, step: Step, requests: seq<Size>)
    requires Enabled(s, step) && Serving(requests, s.threads)
    ensures Serving(requests + (if step.Request? then [step.size] else []), Apply(s, step).threads)
  {
    hide Find, SizeOfBlock;
    SizesStay(s, step);
  }

  lemma {:induction false} RunServes(s: State, steps: seq<Step>, requests: seq<Size>)
    requires CanRun(s, steps) && Serving(requests, s.threads)
    ensures Serving(requests + Requests(steps), After(s, steps).threads)
    decreases |steps|
  {
    hide Apply, Enabled, Serving;
    if steps == [] {
      assert requests + [] == requests;
    } else {
      StepServes(s, steps[0], requests);
      var more := if steps[0].Request? then [steps[0].size] else [];
      RunServes(Apply(s, steps[0]), steps[1..], requests + more);
      Rebracket(requests, more, Requests(steps[1..]));
    }
  }

  /** Each call that returns has a bucket whose blocks hold its own request and the header, unless the size
      computation overflows. */
  lemma OwnBucket(slots: nat, steps: seq<Step>, i: nat)
    requires CanRun(Start(slots), steps)
    requires i < |After(Start(slots), steps).threads| && After(Start(slots), steps).threads[i].Got?
    ensures var s, requests := After(Start(slots), steps), Requests(steps);
            && |requests| == |s.threads|
            && s.threads[i].bucket in s.table && s.threads[i].bucket.size == Raised(SizeOfBlock(requests[i]))
            && (requests[i] + BLOCK_HEADER_SIZE <= HALF ==>
                  s.threads[i].bucket.size >= requests[i] + BLOCK_HEADER_SIZE)
  {
    hide CanRun, After, Enabled, Apply, Find, SizeOfBlock;
    StartSound(slots);
    RunSound(Start(slots), steps);
    RunServes(Start(slots), steps, []);
    assert [] + Requests(steps) == Requests(steps);
    var s := After(Start(slots), steps);
    assert ThreadOk(s, s.threads[i]);
    HoldsRequestIff(Requests(steps)[i]);
  }

  // ---------- A call left alone ----------

  function Alone(i: nat, n: nat): seq<Step> {
    if n == 0 then [] else [Advance(i)] + Alone(i, n - 1)
  }

  lemma AloneStep(s: State, i: nat, n: nat)
    requires n > 0 && Enabled(s, Advance(i)) && CanRun(Apply(s, Advance(i)), Alone(i, n - 1))
    ensures CanRun(s, Alone(i, n)) && After(s, Alone(i, n)) == After(Apply(s, Advance(i)), Alone(i, n - 1))
  {
    hide Apply, Enabled;
    assert Alone(i, n)[1..] == Alone(i, n - 1);
  }

  lemma AloneEnd(s: State, i: nat)
    ensures CanRun(s, Alone(i, 0)) && After(s, Alone(i, 0)) == s
  {}

  /** A call that nothing disturbs returns the bucket of its size if there is one; otherwise it makes one and
      puts it into the next slot, or fails for want of a slot and leaves nothing behind. */
  lemma CallEnds(s: State, i: nat)
    requires i < |s.threads| && s.threads[i].Wanting? && |s.table| <= s.slots
    ensures var size, found := s.threads[i].size, Find(s.table, s.threads[i].size);
            var made := Bucket(s.made, Raised(size));
            if found.Some? then
              CanRun(s, Alone(i, 1)) && After(s, Alone(i, 1)) == s.(threads := s.threads[i := Got(size, found.value)])
            else if |s.table| < s.slots then
              && CanRun(s, Alone(i, 3))
              && After(s, Alone(i, 3))
                   == s.(threads := s.threads[i := Got(size, made)], table := s.table + [made], made := s.made + 1)
            else
              && CanRun(s, Alone(i, 4))
              && After(s, Alone(i, 4))
                   == s.(threads := s.threads[i := Faulted(size)], deleted := s.deleted + {s.made}, made := s.made + 1)
  {
    hide Find, Raised, SizeOfBlock;
    var step := Advance(i);
    var s1 := Apply(s, step);
    if Find(s.table, s.threads[i].size).Some? {
      AloneEnd(s1, i);
      AloneStep(s, i, 1);
    } else {
      var s2 := Apply(s1, step);
      var s3 := Apply(s2, step);
      if |s.table| < s.slots {
        AloneEnd(s3, i);
      } else {
        AloneEnd(Apply(s3, step), i);
        AloneStep(s3, i, 1);
      }
      AloneStep(s2, i, if |s.table| < s.slots then 1 else 2);
      AloneStep(s1, i, if |s.table| < s.slots then 2 else 3);
      AloneStep(s, i, if |s.table| < s.slots then 3 else 4);
    }
  }
}
