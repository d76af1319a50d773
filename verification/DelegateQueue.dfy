/** DelegateMQ/port/os/freertos/FreeRTOSDelegateQueue.h: two lanes, one for each priority, and one counting
    semaphore rung for every message. First the specification, two lanes taken from in one step; then the
    queue used by one thread at a time; then many senders and one receiver step by step. */
module DelegateQueue {
  import opened Wrappers

  // ---------- Specification: the priority contract of DelegateMQ/delegate/DelegateMsg.h ----------

  datatype Lanes<T> = Lanes(high: seq<T>, normal: seq<T>)

  datatype Op<T> = Put(msg: T, highPriority: bool) | Get

  function Enqueue<T>(l: Lanes<T>, msg: T, highPriority: bool): Lanes<T> {
    if highPriority then l.(high := l.high + [msg]) else l.(normal := l.normal + [msg])
  }

  function Front<T>(l: Lanes<T>): Option<T> {
    if l.high != [] then Some(l.high[0]) else if l.normal != [] then Some(l.normal[0]) else None
  }

  function Dequeue<T>(l: Lanes<T>): Lanes<T> {
    if l.high != [] then l.(high := l.high[1..]) else if l.normal != [] then l.(normal := l.normal[1..]) else l
  }

  /** A message that came out, and from which lane. */
  datatype Out<T> = Out(msg: T, highPriority: bool)

  function Do<T>(l: Lanes<T>, op: Op<T>): Lanes<T> {
    match op
    case Put(m, h) => Enqueue(l, m, h)
    case Get => Dequeue(l)
  }

  function OutOf<T>(l: Lanes<T>, op: Op<T>): seq<Out<T>> {
    if op.Put? || (l.high == [] && l.normal == []) then []
    else [Out(Front(l).value, l.high != [])]
  }

  function DoAll<T>(l: Lanes<T>, ops: seq<Op<T>>): Lanes<T> {
    if ops == [] then l else Do(DoAll(l, ops[..|ops| - 1]), ops[|ops| - 1])
  }

  function OutAll<T>(l: Lanes<T>, ops: seq<Op<T>>): seq<Out<T>> {
    if ops == [] then []
    else OutAll(l, ops[..|ops| - 1]) + OutOf(DoAll(l, ops[..|ops| - 1]), ops[|ops| - 1])
  }

  /** The messages put in with this priority, in order. */
  function PutIn<T>(ops: seq<Op<T>>, highPriority: bool): seq<T> {
    if ops == [] then []
    else
      var op := ops[|ops| - 1];
      PutIn(ops[..|ops| - 1], highPriority) + if op.Put? && op.highPriority == highPriority then [op.msg] else []
  }

  /** The messages of this priority that came out, in order. */
  function OfPriority<T>(outs: seq<Out<T>>, highPriority: bool): seq<T> {
    if outs == [] then []
    else
      var out := outs[|outs| - 1];
      OfPriority(outs[..|outs| - 1], highPriority) + if out.highPriority == highPriority then [out.msg] else []
  }

  lemma OfPriorityAppend<T>(outs: seq<Out<T>>, more: seq<Out<T>>, highPriority: bool)
    requires |more| <= 1
    ensures OfPriority(outs + more, highPriority)
         == OfPriority(outs, highPriority)
            + if more != [] && more[0].highPriority == highPriority then [more[0].msg] else []
  {
    if more == [] {
      assert outs + more == outs;
    } else {
      assert (outs + more)[..|outs + more| - 1] == outs;
    }
  }

  /** Within each priority, what came out and what is still there is what was put in, in that order. */
  lemma {:induction false} EachLaneIsFifo<T>(ops: seq<Op<T>>, h: bool)
    ensures var l := DoAll(Lanes([], []), ops);
            PutIn(ops, h) == OfPriority(OutAll(Lanes([], []), ops), h) + (if h then l.high else l.normal)
  {
    if ops != [] {
      var front, op := ops[..|ops| - 1], ops[|ops| - 1];
      var l := DoAll(Lanes([], []), front);
      EachLaneIsFifo(front, h);
      OpIsFifo(l, op, PutIn(front, h), OutAll(Lanes([], []), front), h);
    }
  }

  lemma OpIsFifo<T>(l: Lanes<T>, op: Op<T>, puts: seq<T>, outs: seq<Out<T>>, h: bool)
    requires puts == OfPriority(outs, h) + (if h then l.high else l.normal)
    ensures var l' := Do(l, op);
            puts + (if op.Put? && op.highPriority == h then [op.msg] else [])
              == OfPriority(outs + OutOf(l, op), h) + (if h then l'.high else l'.normal)
  {
    hide OfPriority;
    OfPriorityAppend(outs, OutOf(l, op), h);
  }

  /** A NORMAL message comes out only when every HIGH message put in before has come out. */
  lemma HighFirst<T>(ops: seq<Op<T>>)
    requires ops != [] && ops[|ops| - 1].Get?
    ensures var before := OutAll(Lanes([], []), ops[..|ops| - 1]);
            var outs := OutAll(Lanes([], []), ops);
            && (outs == before || (|outs| == |before| + 1 && outs[..|before|] == before))
            && (|outs| > |before| && !outs[|before|].highPriority ==> OfPriority(before, true) == PutIn(ops, true))
  {
    EachLaneIsFifo(ops[..|ops| - 1], true);
  }

  // ---------- The queue, one call at a time ----------

  class FreeRTOSDelegateQueue<T> {
    const capacity: nat
    var high: seq<T>
    var normal: seq<T>
    var count: nat
    ghost var deleted: seq<T>

    ghost predicate Valid()
      reads this
    {
      |high| <= capacity && |normal| <= capacity && count <= 2 * capacity
    }

    /** The doorbell has been rung once for each waiting message. */
    ghost predicate Rings()
      reads this
    {
      count == |high| + |normal|
    }

    ghost function Waiting(): Lanes<T>
      reads this
    {
      Lanes(high, normal)
    }

    constructor (capacity: nat)
      ensures Valid() && Rings() && Waiting() == Lanes([], []) && deleted == [] && this.capacity == capacity
    {
      this.capacity := capacity;
      high, normal, count, deleted := [], [], 0, [];
    }

    method Send(msg: T, highPriority: bool) returns (sent: bool)
      requires Valid()
      modifies this`high, this`normal, this`count
      ensures Valid() && (old(Rings()) ==> Rings())
      ensures sent <==> (if highPriority then |old(high)| else |old(normal)|) < capacity
      ensures Waiting() == if sent then Enqueue(old(Waiting()), msg, highPriority) else old(Waiting())
      ensures count == if sent && old(count) < 2 * capacity then old(count) + 1 else old(count)
      ensures old(Rings()) && sent ==> count == old(count) + 1
    {
      if highPriority {
        if |high| >= capacity {
          return false;
        }
        high := high + [msg];
      } else {
        if |normal| >= capacity {
          return false;
        }
        normal := normal + [msg];
      }
      if count < 2 * capacity {
        count := count + 1;
      }
      return true;
    }

    /** A take from the doorbell promises a message; the promise holds as long as the doorbell rings. */
    method Receive() returns (msg: Option<T>)
      requires Valid()
      modifies this`high, this`normal, this`count
      ensures Valid() && (old(Rings()) ==> Rings())
      ensures msg == (if old(count) == 0 then None else Front(old(Waiting())))
      ensures Waiting() == (if old(count) == 0 then old(Waiting()) else Dequeue(old(Waiting())))
      ensures count == (if old(count) == 0 then 0 else old(count) - 1)
      ensures old(Rings()) ==> msg == Front(old(Waiting())) && Waiting() == Dequeue(old(Waiting()))
    {
      if count == 0 {
        return None;
      }
      count := count - 1;
      if high != [] {
        msg, high := Some(high[0]), high[1..];
        return;
      }
      if normal != [] {
        msg, normal := Some(normal[0]), normal[1..];
        return;
      }
      return None;
    }

    method Size() returns (size: nat)
      requires Valid()
      ensures Rings() <==> size == count
      ensures size == 0 <==> Front(Waiting()) == None
    {
      size := |high| + |normal|;
    }

    /** Deletes every waiting message once, HIGH first, and leaves the doorbell as it was: if it agreed
        with the lanes before, then it rings for nothing afterwards unless nothing was waiting. */
    method DrainAndDelete()
      requires Valid()
      modifies this`high, this`normal, this`deleted
      ensures Valid() && Waiting() == Lanes([], [])
      ensures deleted == old(deleted) + old(high) + old(normal)
      ensures count == old(count) && (Rings() <==> count == 0)
      ensures old(Rings()) ==> (Rings() <==> old(Waiting()) == Lanes([], []))
    {
      while high != []
        invariant Valid() && count == old(count) && normal == old(normal)
        invariant deleted + high == old(deleted) + old(high)
        decreases |high|
      {
        deleted, high := deleted + [high[0]], high[1..];
      }
      while normal != []
        invariant Valid() && count == old(count) && high == []
        invariant deleted + normal == old(deleted) + old(high) + old(normal)
        decreases |normal|
      {
        deleted, normal := deleted + [normal[0]], normal[1..];
      }
    }
  }

  // ---------- Many senders, one receiver ----------

  datatype Receiver = Idle | Taken | HighEmpty

  /** The senders between their push and their give are told apart by nothing but their number. */
  datatype System<T> = System(
    capacity: nat,
    high: seq<T>, normal: seq<T>,
    count: nat,                   // the semaphore
    giving: nat,                  // senders between push and give
    receiver: Receiver,
    received: seq<Out<T>>,        // messages that Receive returned
    empty: nat)                   // Receive calls that took the doorbell and found no message

  datatype Step<T> =
    | Push(msg: T, highPriority: bool)   // xQueueSendToBack succeeds
    | Give
    | Take
    | CheckHigh
    | PopNormal

  function Start<T>(capacity: nat): System<T> { System(capacity, [], [], 0, 0, Idle, [], 0) }

  predicate Enabled<T>(s: System<T>, step: Step<T>) {
    match step
    case Push(_, h) => (if h then |s.high| else |s.normal|) < s.capacity
    case Give => s.giving > 0
    case Take => s.receiver.Idle? && s.count > 0
    case CheckHigh => s.receiver.Taken?
    case PopNormal => s.receiver.HighEmpty?
  }

  function Apply<T>(s: System<T>, step: Step<T>): System<T>
    requires Enabled(s, step)
  {
    match step
    case Push(m, h) =>
      if h then s.(high := s.high + [m], giving := s.giving + 1)
      else s.(normal := s.normal + [m], giving := s.giving + 1)
    case Give => s.(giving := s.giving - 1, count := if s.count < 2 * s.capacity then s.count + 1 else s.count)
    case Take => s.(count := s.count - 1, receiver := Taken)
    case CheckHigh =>
      if s.high != [] then s.(received := s.received + [Out(s.high[0], true)], high := s.high[1..], receiver := Idle)
      else s.(receiver := HighEmpty)
    case PopNormal =>
      if s.normal != []
      then s.(received := s.received + [Out(s.normal[0], false)], normal := s.normal[1..], receiver := Idle)
      else s.(empty := s.empty + 1, receiver := Idle)
  }

  predicate CanRun<T>(s: System<T>, steps: seq<Step<T>>)
    decreases |steps|, 0
  {
    steps == [] || (CanRun(s, steps[..|steps| - 1]) && Enabled(After(s, steps[..|steps| - 1]), steps[|steps| - 1]))
  }

  function After<T>(s: System<T>, steps: seq<Step<T>>): System<T>
    requires CanRun(s, steps)
    decreases |steps|, 1
  {
    if steps == [] then s else Apply(After(s, steps[..|steps| - 1]), steps[|steps| - 1])
  }

  /** Messages waiting = rings not yet taken + rings to come + the one the receiver has taken. */
  predicate Doorbell<T>(s: System<T>) {
    && |s.high| + |s.normal| == s.count + s.giving + (if s.receiver.Idle? then 0 else 1)
    && |s.high| <= s.capacity && |s.normal| <= s.capacity
    && (s.receiver.HighEmpty? ==> s.normal != [])
    && s.empty == 0
  }

  lemma DoorbellStep<T>(s: System<T>, step: Step<T>)
    requires Doorbell(s) && Enabled(s, step)
    ensures Doorbell(Apply(s, step))
    ensures step.Give? ==> Apply(s, step).count == s.count + 1 <= 2 * s.capacity
  {}

  /** In every run: giving never finds the semaphore full, and a take is always answered by a message. */
  lemma {:induction false} DoorbellHolds<T>(capacity: nat, steps: seq<Step<T>>)
    requires CanRun(Start(capacity), steps)
    ensures Doorbell(After(Start(capacity), steps))
    ensures forall step :: Enabled(After(Start(capacity), steps), step) && step.Give? ==>
              Apply(After(Start(capacity), steps), step).count == After(Start(capacity), steps).count + 1
  {
    if steps != [] {
      DoorbellHolds(capacity, steps[..|steps| - 1]);
      DoorbellStep(After(Start(capacity), steps[..|steps| - 1]), steps[|steps| - 1]);
    }
  }

  // ---------- The steps do what the specification does in one ----------

  /** A receiver that has found the HIGH lane empty has in effect taken the first NORMAL message. */
  function Seen<T>(s: System<T>): Lanes<T>
    requires Doorbell(s)
  {
    Lanes(s.high, if s.receiver.HighEmpty? then s.normal[1..] else s.normal)
  }

  function Returned<T>(s: System<T>): seq<Out<T>>
    requires Doorbell(s)
  {
    s.received + if s.receiver.HighEmpty? then [Out(s.normal[0], false)] else []
  }

  /** The operation of the specification that a step stands for, if any: a push puts, the look into the
      HIGH lane gets. */
  function Meaning<T>(step: Step<T>): seq<Op<T>> {
    match step
    case Push(m, h) => [Put(m, h)]
    case CheckHigh => [Get]
    case _ => []
  }

  lemma StepRefines<T>(s: System<T>, step: Step<T>)
    requires Doorbell(s) && Enabled(s, step)
    ensures Doorbell(Apply(s, step))
    ensures var s', ops := Apply(s, step), Meaning(step);
            && Seen(s') == (if ops == [] then Seen(s) else Do(Seen(s), ops[0]))
            && Returned(s') == Returned(s) + (if ops == [] then [] else OutOf(Seen(s), ops[0]))
  {
    DoorbellStep(s, step);
  }

  function Meanings<T>(steps: seq<Step<T>>): seq<Op<T>> {
    if steps == [] then [] else Meanings(steps[..|steps| - 1]) + Meaning(steps[|steps| - 1])
  }

  /** Every run of senders and receiver is a run of the two-lane specification with the same pushes in the
      same order, each Receive taking effect when it looks into the HIGH lane. */
  lemma {:induction false} RunRefines<T>(capacity: nat, steps: seq<Step<T>>)
    requires CanRun(Start(capacity), steps)
    ensures var s := After(Start(capacity), steps);
            && Doorbell(s)
            && Seen(s) == DoAll(Lanes([], []), Meanings(steps))
            && Returned(s) == OutAll(Lanes([], []), Meanings(steps))
  {
    if steps != [] {
      var front, step := steps[..|steps| - 1], steps[|steps| - 1];
      RunRefines(capacity, front);
      StepRefines(After(Start(capacity), front), step);
      var ops := Meanings(front);
      if Meaning(step) == [] {
        assert Meanings(steps) == ops;
      } else {
        assert (ops + Meaning(step))[..|ops + Meaning(step)| - 1] == ops;
      }
    }
  }

  /** The messages of one priority that were pushed, in order. */
  function Pushed<T>(steps: seq<Step<T>>, h: bool): seq<T> {
    if steps == [] then []
    else
      var step := steps[|steps| - 1];
      Pushed(steps[..|steps| - 1], h) + if step.Push? && step.highPriority == h then [step.msg] else []
  }

  /** Receive returns the messages of each priority exactly in the order in which they were queued. */
  lemma ReceivedInOrder<T>(capacity: nat, steps: seq<Step<T>>, h: bool)
    requires CanRun(Start(capacity), steps)
    ensures var s := After(Start(capacity), steps);
            Pushed(steps, h) == OfPriority(s.received, h) + (if h then s.high else s.normal)
  {
    RunRefines(capacity, steps);
    EachLaneIsFifo(Meanings(steps), h);
    PushedMeaning(steps, h);
    var s := After(Start(capacity), steps);
    OfPriorityAppend(s.received, Returned(s)[|s.received|..], h);
    assert Returned(s) == s.received + Returned(s)[|s.received|..];
  }

  lemma StepReturns<T>(s: System<T>, step: Step<T>)
    requires Doorbell(s) && Enabled(s, step)
    ensures var s' := Apply(s, step);
            && Doorbell(s') && Returned(s) <= Returned(s')
            && (Returned(s') == Returned(s) || |Returned(s')| == |Returned(s)| + 1)
            && (Returned(s') != Returned(s) && !Returned(s')[|Returned(s)|].highPriority ==>
                  step.CheckHigh? && s.high == [] && s.received == Returned(s))
  {}

  /** Whenever Receive returns a NORMAL message, every HIGH message that was queued when it looked into
      the HIGH lane had been returned before. */
  lemma {:induction false} NormalYields<T>(capacity: nat, steps: seq<Step<T>>, r: nat) returns (k: nat)
    requires CanRun(Start(capacity), steps)
    requires Doorbell(After(Start(capacity), steps)) && r < |Returned(After(Start(capacity), steps))|
    requires !Returned(After(Start(capacity), steps))[r].highPriority
    ensures k < |steps| && steps[k].CheckHigh? && CanRun(Start(capacity), steps[..k])
    ensures var s := After(Start(capacity), steps[..k]);
            && s.received == Returned(After(Start(capacity), steps))[..r]
            && Pushed(steps[..k], true) == OfPriority(s.received, true)
  {
    var front, step := steps[..|steps| - 1], steps[|steps| - 1];
    hide Apply, Enabled, Doorbell, Returned, OutAll, DoAll, Meanings, OfPriority, Pushed;
    DoorbellHolds(capacity, front);
    var s := After(Start(capacity), front);
    StepReturns(s, step);
    if r < |Returned(s)| {
      k := NormalYields(capacity, front, r);
      assert front[..k] == steps[..k];
    } else {
      k := |front|;
      assert steps[..k] == front;
      ReceivedInOrder(capacity, front, true);
    }
  }

  lemma {:induction false} PushedMeaning<T>(steps: seq<Step<T>>, h: bool)
    ensures PutIn(Meanings(steps), h) == Pushed(steps, h)
  {
    if steps != [] {
      var front, step := steps[..|steps| - 1], steps[|steps| - 1];
      PushedMeaning(front, h);
      var ops := Meanings(front);
      if Meaning(step) == [] {
        assert Meanings(steps) == ops;
      } else {
        assert (ops + Meaning(step))[..|ops + Meaning(step)| - 1] == ops;
      }
    }
  }

  // ---------- Nothing gets stuck ----------

  lemma OneMore<T>(s: System<T>, steps: seq<Step<T>>, step: Step<T>)
    requires CanRun(s, steps) && Enabled(After(s, steps), step)
    ensures CanRun(s, steps + [step]) && After(s, steps + [step]) == Apply(After(s, steps), step)
    ensures forall h :: !step.Push? ==> Pushed(steps + [step], h) == Pushed(steps, h)
  {
    assert (steps + [step])[..|steps|] == steps;
  }

  function Work<T>(s: System<T>): nat {
    3 * s.count + 4 * s.giving + match s.receiver case Idle => 0 case Taken => 2 case HighEmpty => 1
  }

  /** What senders that have pushed and the receiver can still do. */
  function Onward<T>(s: System<T>): Step<T> {
    match s.receiver
    case Taken => CheckHigh
    case HighEmpty => PopNormal
    case Idle => if s.giving > 0 then Give else Take
  }

  lemma OnwardStep<T>(s: System<T>)
    requires Doorbell(s) && !(s.receiver.Idle? && s.high == [] && s.normal == [])
    ensures Enabled(s, Onward(s)) && !Onward(s).Push? && Work(Apply(s, Onward(s))) < Work(s)
  {}

  /** After every run the gives still to come and the receiver alone bring out every message that was queued,
      each priority in its order, and leave the doorbell silent. */
  lemma {:induction false} EverythingComesOut<T>(capacity: nat, steps: seq<Step<T>>) returns (all: seq<Step<T>>)
    requires CanRun(Start(capacity), steps)
    ensures steps <= all && CanRun(Start(capacity), all) && forall h :: Pushed(all, h) == Pushed(steps, h)
    ensures var s := After(Start(capacity), all);
            && s.high == [] && s.normal == [] && s.count == 0 && s.giving == 0 && s.receiver.Idle?
            && forall h :: OfPriority(s.received, h) == Pushed(steps, h)
    decreases Work(After(Start<T>(capacity), steps))
  {
    hide Apply, Enabled, OfPriority, Pushed, CanRun, After, Work;
    DoorbellHolds(capacity, steps);
    var s := After(Start(capacity), steps);
    if s.receiver.Idle? && s.high == [] && s.normal == [] {
      all := steps;
      forall h ensures OfPriority(s.received, h) == Pushed(steps, h) {
        ReceivedInOrder(capacity, steps, h);
        assert OfPriority(s.received, h) + [] == OfPriority(s.received, h);
      }
    } else {
      OnwardStep(s);
      OneMore(Start(capacity), steps, Onward(s));
      all := EverythingComesOut(capacity, steps + [Onward(s)]);
    }
  }

  /** A queue that nobody reads takes exactly its capacity of each priority. */
  lemma {:induction false} TakesItsCapacity<T>(capacity: nat, msgs: seq<T>, h: bool) returns (steps: seq<Step<T>>)
    requires |msgs| <= capacity
    ensures CanRun(Start(capacity), steps) && Pushed(steps, h) == msgs && Pushed(steps, !h) == []
    ensures var s := After(Start(capacity), steps);
            && (if h then s.high else s.normal) == msgs && (if h then s.normal else s.high) == []
            && s.capacity == capacity
            && forall m: T :: Enabled(s, Push(m, h)) <==> |msgs| < capacity
  {
    hide CanRun, After, Pushed;
    if msgs == [] {
      steps := [];
      NoSteps<T>(capacity);
    } else {
      var front, last := msgs[..|msgs| - 1], msgs[|msgs| - 1];
      assert msgs == front + [last];
      steps := TakesItsCapacity(capacity, front, h);
      OneMore(Start(capacity), steps, Push(last, h));
      PushedOne(steps, last, h);
      steps := steps + [Push(last, h)];
    }
  }

  lemma NoSteps<T>(capacity: nat)
    ensures CanRun(Start<T>(capacity), []) && After(Start<T>(capacity), []) == Start(capacity)
    ensures forall h :: Pushed<T>([], h) == []
  {}

  lemma PushedOne<T>(steps: seq<Step<T>>, m: T, h: bool)
    ensures Pushed(steps + [Push(m, h)], h) == Pushed(steps, h) + [m]
    ensures Pushed(steps + [Push(m, h)], !h) == Pushed(steps, !h)
  {
    assert (steps + [Push(m, h)])[..|steps|] == steps;
  }
}
