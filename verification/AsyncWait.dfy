/** The blocking cross-thread call of DelegateMQ/delegate/DelegateAsyncWait.h: one source thread calling
    through one delegate again and again, one destination thread working off its queue, which may still
    hold messages of calls that have timed out. Each step is one access to what the threads share. */
module AsyncWait {
  import opened Wrappers

  /** How a run of the target function ended. */
  datatype Outcome<V> = Returned(value: V) | Threw

  datatype Holder = Nobody | TheSource | TheDestination

  /** DelegateAsyncWaitMsg, and the clone that it carries. */
  datatype Message<V> = Message(
    invokerWaiting: bool,
    invokeSucceeded: bool,
    signaled: bool,               // the semaphore
    lock: Holder,
    retVal: Option<V>,            // in the clone
    runs: nat,                    // times the target function was entered
    outcome: Option<Outcome<V>>)  // of the last run

  /** Where the source thread is in operator() and DispatchAsyncWait. */
  datatype Source =
    | Out
    | Built                                       // message built, flag set
    | Waiting                                     // dispatched, in Wait
    | WantsLock(waited: bool)
    | Holding(waited: bool)
    | Releasing(waited: bool, success: bool)
    | Collecting(waited: bool, success: bool)     // lock released, return value to be fetched

  /** Where the destination thread is in Invoke. */
  datatype Target = Away | Entered | Checking | Running | Signaling | Unlocking

  /** What operator() left behind for one call. */
  datatype Result<V> = Result(waited: bool, success: bool, value: Option<V>)

  datatype World<V> = World(
    calls: seq<Message<V>>,       // the messages of all calls, oldest first
    source: Source,               // position in the newest call
    queue: seq<nat>,              // dispatched calls
    current: nat, target: Target, // the call that the destination works on
    results: seq<Result<V>>)      // of the calls that have returned

  function Initial<V>(): World<V> { World([], Out, [], 0, Away, []) }

  datatype Step<V> =
    | Call | Dispatch(ok: bool) | Wake | Expire | Acquire | Decide | Release | Return
    | Take | Drop | Lock | Check | Finish(value: V) | Throw | Signal | Unlock

  predicate Enabled<V>(w: World<V>, step: Step<V>) {
    match step
    case Call => w.source.Out?
    case Dispatch(_) => w.source.Built? && |w.calls| > 0
    case Wake => w.source.Waiting? && |w.calls| > 0 && w.calls[|w.calls| - 1].signaled
    case Expire => w.source.Waiting? && |w.calls| > 0
    case Acquire => w.source.WantsLock? && |w.calls| > 0 && w.calls[|w.calls| - 1].lock == Nobody
    case Decide => w.source.Holding? && |w.calls| > 0
    case Release => w.source.Releasing? && |w.calls| > 0
    case Return => w.source.Collecting? && |w.calls| > 0
    case Take => w.target.Away? && w.queue != []
    case Drop => w.queue != []
    case Lock => w.target.Entered? && w.current < |w.calls| && w.calls[w.current].lock == Nobody
    case Check => w.target.Checking? && w.current < |w.calls|
    case Finish(_) => w.target.Running? && w.current < |w.calls|
    case Throw => w.target.Running? && w.current < |w.calls|
    case Signal => w.target.Signaling? && w.current < |w.calls|
    case Unlock => w.target.Unlocking? && w.current < |w.calls|
  }

  function Newest<V>(w: World<V>): nat
    requires |w.calls| > 0
  {
    |w.calls| - 1
  }

  function Apply<V>(w: World<V>, step: Step<V>): World<V>
    requires Enabled(w, step)
  {
    var i, j := |w.calls| - 1, w.current;
    match step
    case Call => w.(calls := w.calls + [Message(true, false, false, Nobody, None, 0, None)], source := Built)
    case Dispatch(ok) =>
      if ok then w.(queue := w.queue + [Newest(w)], source := Waiting) else w.(source := WantsLock(false))
    case Wake => w.(calls := w.calls[i := w.calls[i].(signaled := false)], source := WantsLock(true))
    case Expire => w.(source := WantsLock(false))
    case Acquire => w.(calls := w.calls[i := w.calls[i].(lock := TheSource)], source := Holding(w.source.waited))
    case Decide =>
      w.(calls := w.calls[i := w.calls[i].(invokerWaiting := false)],
         source := Releasing(w.source.waited, w.source.waited && w.calls[i].invokeSucceeded))
    case Release =>
      w.(calls := w.calls[i := w.calls[i].(lock := Nobody)], source := Collecting(w.source.waited, w.source.success))
    case Return =>
      var value := if w.source.success then w.calls[i].retVal else None;
      w.(results := w.results + [Result(w.source.waited, w.source.success, value)], source := Out)
    case Take => w.(current := w.queue[0], target := Entered, queue := w.queue[1..])
    case Drop => w.(queue := w.queue[1..])
    case Lock => w.(calls := w.calls[j := w.calls[j].(lock := TheDestination)], target := Checking)
    case Check =>
      if w.calls[j].invokerWaiting
      then w.(calls := w.calls[j := w.calls[j].(runs := w.calls[j].runs + 1, outcome := None)], target := Running)
      else w.(target := Unlocking)
    case Finish(v) =>
      w.(calls := w.calls[j := w.calls[j].(retVal := Some(v), invokeSucceeded := true, outcome := Some(Returned(v)))],
         target := Signaling)
    case Throw => w.(calls := w.calls[j := w.calls[j].(outcome := Some(Threw))], target := Signaling)
    case Signal => w.(calls := w.calls[j := w.calls[j].(signaled := true)], target := Unlocking)
    case Unlock => w.(calls := w.calls[j := w.calls[j].(lock := Nobody)], target := Away)
  }

  // ---------- One call at a time ----------

  /** Where the source is in call j. */
  function SourceIn<V>(w: World<V>, j: nat): Source {
    if j < |w.results| then Out else w.source
  }

  function TargetIn<V>(w: World<V>, j: nat): Target {
    if j == w.current then w.target else Away
  }

  /** The handshake of one call: s and t are where the two threads are in it. */
  ghost predicate CallOk<V>(m: Message<V>, s: Source, t: Target, queued: bool) {
    && (m.lock == TheDestination <==> t.Checking? || t.Running? || t.Signaling? || t.Unlocking?)
    && (m.lock == TheSource <==> s.Holding? || s.Releasing?)
    && (m.invokerWaiting <==> s.Built? || s.Waiting? || s.WantsLock? || s.Holding?)
    && (queued ==> t.Away?)
    && (queued || s.Built? || t.Entered? || t.Checking? ==> m.runs == 0)
    && (s.Built? ==> !queued && t.Away?)
    && (t.Running? ==> m.invokerWaiting && m.runs == 1)
    && (t.Signaling? ==> m.outcome.Some?)
    && (m.outcome.Some? <==> m.runs == 1 && !t.Running?) && m.runs <= 1
    && (m.invokeSucceeded <==> m.outcome.Some? && m.outcome.value.Returned?)
    && (m.invokeSucceeded ==> m.retVal == Some(m.outcome.value.value))
    && (m.signaled ==> m.outcome.Some? && !t.Signaling?)
    && (s.Waiting? && m.outcome.Some? && !t.Signaling? ==> m.signaled)
    && (s.WantsLock? || s.Holding? || s.Releasing? || s.Collecting? ==>
          s.waited ==> m.outcome.Some? && !t.Signaling? && !m.signaled)
    && (s.Releasing? || s.Collecting? ==> (s.success <==> s.waited && m.invokeSucceeded))
  }

  ghost predicate ResultOk<V>(m: Message<V>, r: Result<V>) {
    && (r.success <==> r.waited && m.invokeSucceeded)
    && (r.waited ==> m.outcome.Some?)
    && r.value == if r.success then m.retVal else None
  }

  predicate Shape<V>(w: World<V>) {
    && |w.calls| == (if w.source.Out? then |w.results| else |w.results| + 1)
    && (w.target.Away? || w.current < |w.calls|)
    && (forall i | 0 <= i < |w.queue| :: w.queue[i] < |w.calls|)
    && (forall i, j | 0 <= i < j < |w.queue| :: w.queue[i] != w.queue[j])
  }

  ghost predicate Sound<V>(w: World<V>) {
    && Shape(w)
    && (forall j: nat | j < |w.calls| :: CallOk(w.calls[j], SourceIn(w, j), TargetIn(w, j), j in w.queue))
    && (forall j: nat | j < |w.results| :: ResultOk(w.calls[j], w.results[j]))
  }

  lemma StepShape<V>(w: World<V>, step: Step<V>)
    requires Sound(w) && Enabled(w, step)
    ensures Shape(Apply(w, step))
  {
    if step.Dispatch? && step.ok {
      assert CallOk(w.calls[|w.calls| - 1], w.source, TargetIn(w, |w.calls| - 1), |w.calls| - 1 in w.queue);
    }
  }

  predicate BySource<V>(step: Step<V>) {
    step.Dispatch? || step.Wake? || step.Expire? || step.Acquire? || step.Decide? || step.Release? || step.Return?
  }

  lemma SourceStep<V>(w: World<V>, step: Step<V>, j: nat)
    requires Sound(w) && Enabled(w, step) && BySource(step) && j < |w.calls|
    ensures var w' := Apply(w, step);
            CallOk(w'.calls[j], SourceIn(w', j), TargetIn(w', j), j in w'.queue)
  {
    assert CallOk(w.calls[j], SourceIn(w, j), TargetIn(w, j), j in w.queue);
  }

  lemma TargetStep<V>(w: World<V>, step: Step<V>, j: nat)
    requires Sound(w) && Enabled(w, step) && !step.Call? && !BySource(step) && j < |w.calls|
    ensures var w' := Apply(w, step);
            CallOk(w'.calls[j], SourceIn(w', j), TargetIn(w', j), j in w'.queue)
  {
    assert CallOk(w.calls[j], SourceIn(w, j), TargetIn(w, j), j in w.queue);
  }

  lemma CallStep<V>(w: World<V>, j: nat)
    requires Sound(w) && w.source.Out? && j <= |w.calls|
    ensures var w' := Apply(w, Call);
            CallOk(w'.calls[j], SourceIn(w', j), TargetIn(w', j), j in w'.queue)
  {
    if j < |w.calls| {
      assert CallOk(w.calls[j], SourceIn(w, j), TargetIn(w, j), j in w.queue);
    }
  }

  lemma StepResults<V>(w: World<V>, step: Step<V>, j: nat)
    requires Sound(w) && Enabled(w, step) && j < |Apply(w, step).results|
    ensures var w' := Apply(w, step);
            j < |w'.calls| && ResultOk(w'.calls[j], w'.results[j])
  {
    assert CallOk(w.calls[j], SourceIn(w, j), TargetIn(w, j), j in w.queue);
  }

  lemma StepSound<V>(w: World<V>, step: Step<V>)
    requires Sound(w) && Enabled(w, step)
    ensures Sound(Apply(w, step))
  {
    StepShape(w, step);
    var w' := Apply(w, step);
    forall j: nat | j < |w'.calls|
      ensures CallOk(w'.calls[j], SourceIn(w', j), TargetIn(w', j), j in w'.queue)
    {
      hide CallOk, Apply, Enabled;
      if step.Call? {
        CallStep(w, j);
      } else if BySource(step) {
        SourceStep(w, step, j);
      } else {
        TargetStep(w, step, j);
      }
    }
    forall j: nat | j < |w'.results|
      ensures j < |w'.calls| && ResultOk(w'.calls[j], w'.results[j])
    {
      StepResults(w, step, j);
    }
  }

  // ---------- What every run keeps ----------

  predicate CanRun<V>(w: World<V>, steps: seq<Step<V>>)
    decreases |steps|
  {
    steps == [] || (Enabled(w, steps[0]) && CanRun(Apply(w, steps[0]), steps[1..]))
  }

  function After<V>(w: World<V>, steps: seq<Step<V>>): World<V>
    requires CanRun(w, steps)
    decreases |steps|
  {
    if steps == [] then w else After(Apply(w, steps[0]), steps[1..])
  }

  lemma {:induction false} RunSound<V>(w: World<V>, steps: seq<Step<V>>)
    requires Sound(w) && CanRun(w, steps)
    ensures Sound(After(w, steps))
    decreases |steps|
  {
    hide Sound, Apply, Enabled;
    if steps != [] {
      StepSound(w, steps[0]);
      RunSound(Apply(w, steps[0]), steps[1..]);
    }
  }

  /** The target function only ever runs for the call that the source is inside of, so the arguments
      that it shares with the caller are alive; and it runs at most once for each call. */
  lemma RunsInsideTheCall<V>(steps: seq<Step<V>>)
    requires CanRun(Initial(), steps)
    ensures var w := After(Initial(), steps);
            && (w.target.Running? ==>
                  w.current == |w.calls| - 1 == |w.results| && (w.source.Waiting? || w.source.WantsLock?))
            && forall j | 0 <= j < |w.calls| :: w.calls[j].runs <= 1
  {
    hide CanRun, After, Enabled, Apply;
    RunSound(Initial<V>(), steps);
    var w := After(Initial(), steps);
    forall j: nat | j < |w.calls|
      ensures w.calls[j].runs <= 1
    {
      assert CallOk(w.calls[j], SourceIn(w, j), TargetIn(w, j), j in w.queue);
    }
    if w.target.Running? {
      assert CallOk(w.calls[w.current], SourceIn(w, w.current), TargetIn(w, w.current), w.current in w.queue);
    }
  }

  /** A call is reported successful exactly when the source was woken in time and the one run of the
      target function ended normally, and then the caller has the value that this run returned. */
  lemma SuccessMeans<V>(steps: seq<Step<V>>, j: nat)
    requires CanRun(Initial(), steps) && j < |After(Initial(), steps).results|
    ensures var w := After(Initial(), steps);
            var r := w.results[j];
            && j < |w.calls|
            && (r.success <==> r.waited && w.calls[j].outcome.Some? && w.calls[j].outcome.value.Returned?)
            && r.value == (if r.success then Some(w.calls[j].outcome.value.value) else None)
            && (r.waited ==> w.calls[j].runs == 1)
  {
    hide CanRun, After, Enabled, Apply;
    RunSound(Initial<V>(), steps);
    var w := After(Initial(), steps);
    assert ResultOk(w.calls[j], w.results[j]);
    assert CallOk(w.calls[j], SourceIn(w, j), TargetIn(w, j), j in w.queue);
  }

  /** Once a call has returned, nothing is ever done for it again: a stale message in the queue does
      not run the target function. */
  lemma {:induction false} ReturnedIsFinal<V>(w: World<V>, steps: seq<Step<V>>, j: nat)
    requires Sound(w) && CanRun(w, steps) && j < |w.results|
    ensures var w' := After(w, steps);
            && w.results <= w'.results && j < |w.calls| && j < |w'.calls|
            && w'.calls[j].runs == w.calls[j].runs && w'.calls[j].outcome == w.calls[j].outcome
    decreases |steps|
  {
    hide CallOk, ResultOk;
    if steps != [] {
      StepSound(w, steps[0]);
      FinalStep(w, steps[0], j);
      ReturnedIsFinal(Apply(w, steps[0]), steps[1..], j);
    }
  }

  lemma FinalStep<V>(w: World<V>, step: Step<V>, j: nat)
    requires Sound(w) && Enabled(w, step) && j < |w.results|
    ensures var w' := Apply(w, step);
            && w.results <= w'.results && j < |w.calls| && j < |w'.calls|
            && w'.calls[j].runs == w.calls[j].runs && w'.calls[j].outcome == w.calls[j].outcome
  {
    assert CallOk(w.calls[j], SourceIn(w, j), TargetIn(w, j), j in w.queue);
  }

  // ---------- When the target function is not invoked ----------

  /** What decides the fate of a call: the destination looks at its flag, the source clears the flag, the
      source stops waiting without having been woken or could not dispatch it, its message is dropped. */
  datatype Event = Checked(call: nat) | Decided(call: nat) | GaveUp(call: nat) | Dropped(call: nat)

  function EventOf<V>(w: World<V>, step: Step<V>): seq<Event>
    requires Enabled(w, step)
  {
    match step
    case Check => [Checked(w.current)]
    case Decide => [Decided(Newest(w))]
    case Expire => [GaveUp(Newest(w))]
    case Dispatch(ok) => if ok then [] else [GaveUp(Newest(w))]
    case Drop => [Dropped(w.queue[0])]
    case _ => []
  }

  function Log<V>(w: World<V>, steps: seq<Step<V>>): seq<Event>
    requires CanRun(w, steps)
    decreases |steps|
  {
    if steps == [] then [] else EventOf(w, steps[0]) + Log(Apply(w, steps[0]), steps[1..])
  }

  /** The destination looked at the flag of call j before the source cleared it. */
  ghost predicate CheckedInTime(log: seq<Event>, j: nat) {
    exists p :: 0 <= p < |log| && log[p] == Checked(j) && Decided(j) !in log[..p]
  }

  ghost predicate DecidedOnce(log: seq<Event>, j: nat) {
    exists q :: 0 <= q < |log| && log[q] == Decided(j) && Decided(j) !in log[..q] && Decided(j) !in log[q + 1..]
  }

  /** The message of the newest call is queued, being worked on, or done with. */
  predicate Served<V>(w: World<V>) {
    |w.calls| > 0
    && var j := Newest(w);
       j in w.queue || (w.current == j && (w.target.Entered? || w.target.Checking? || w.target.Running?))
       || w.calls[j].outcome.Some?
  }

  lemma StepServed<V>(log: seq<Event>, w: World<V>, step: Step<V>)
    requires Sound(w) && Enabled(w, step) && Apply(w, step).source.Waiting? && |Apply(w, step).calls| > 0
    requires w.source.Waiting? && |w.calls| > 0 && Dropped(Newest(w)) !in log ==> Served(w)
    requires Dropped(Newest(Apply(w, step))) !in log + EventOf(w, step)
    ensures Served(Apply(w, step))
  {
    var w', j := Apply(w, step), |w.calls| - 1;
    if j >= 0 {
      assert CallOk(w.calls[j], SourceIn(w, j), TargetIn(w, j), j in w.queue);
      if step.Dispatch? {
        assert w'.queue[|w.queue|] == j;
      } else if (step.Take? || step.Drop?) && j in w.queue && w.queue[0] != j {
        assert w.queue[1..] == w'.queue && w.queue == [w.queue[0]] + w.queue[1..];
      }
    }
  }

  /** What the log says of one call. */
  ghost predicate Tells<V>(log: seq<Event>, m: Message<V>, s: Source, j: nat) {
    && (m.runs > 0 <==> CheckedInTime(log, j))
    && (Decided(j) in log <==> !m.invokerWaiting)
    && (s.Built? || s.Waiting? ==> GaveUp(j) !in log)
    && (s.WantsLock? || s.Holding? || s.Releasing? || s.Collecting? ==> (s.waited <==> GaveUp(j) !in log))
  }

  ghost predicate Recorded<V>(log: seq<Event>, w: World<V>) {
    && (w.source.Waiting? && |w.calls| > 0 && Dropped(Newest(w)) !in log ==> Served(w))
    && (forall j: nat | j < |w.calls| :: Tells(log, w.calls[j], SourceIn(w, j), j))
    && (forall j: nat | j < |w.results| && j < |w.calls| :: w.results[j].waited <==> GaveUp(j) !in log)
    && (forall e | e in log :: e.call < |w.calls|)
    && (forall p, q | 0 <= p < q < |log| && log[p].Decided? :: log[p] != log[q])
  }

  /** An event more is a check in time if it is a check and the flag still stands. */
  lemma CheckedMore(log: seq<Event>, e: Event, j: nat)
    ensures CheckedInTime(log + [e], j) <==> CheckedInTime(log, j) || (e == Checked(j) && Decided(j) !in log)
  {
    var log' := log + [e];
    if CheckedInTime(log', j) {
      var p :| 0 <= p < |log'| && log'[p] == Checked(j) && Decided(j) !in log'[..p];
      if p < |log| {
        assert log'[..p] == log[..p] && log[p] == Checked(j);
      } else {
        assert log'[..p] == log;
      }
    }
    if CheckedInTime(log, j) {
      var p :| 0 <= p < |log| && log[p] == Checked(j) && Decided(j) !in log[..p];
      assert log'[..p] == log[..p] && log'[p] == Checked(j);
    }
    if e == Checked(j) && Decided(j) !in log {
      assert log'[..|log|] == log && log'[|log|] == Checked(j);
    }
  }

  lemma StepTells<V>(log: seq<Event>, w: World<V>, step: Step<V>, j: nat)
    requires Enabled(w, step) && j < |w.calls| == (if w.source.Out? then |w.results| else |w.results| + 1)
    requires CallOk(w.calls[j], SourceIn(w, j), TargetIn(w, j), j in w.queue)
    requires Tells(log, w.calls[j], SourceIn(w, j), j)
    ensures Tells(log + EventOf(w, step), Apply(w, step).calls[j], SourceIn(Apply(w, step), j), j)
  {
    hide CheckedInTime;
    if EventOf(w, step) == [] {
      assert log + [] == log;
    } else {
      CheckedMore(log, EventOf(w, step)[0], j);
    }
  }

  lemma CallTells<V>(log: seq<Event>, w: World<V>)
    requires w.source.Out? && |w.results| == |w.calls| && forall e | e in log :: e.call < |w.calls|
    ensures var w', j := Apply(w, Call), |w.calls|;
            Tells(log, w'.calls[j], SourceIn(w', j), j)
  {
    hide CheckedInTime;
    NotChecked(log, |w.calls|);
  }

  lemma NotChecked(log: seq<Event>, j: nat)
    requires forall e | e in log :: e.call < j
    ensures !CheckedInTime(log, j) && Decided(j) !in log && GaveUp(j) !in log
  {
    assert Decided(j).call == j && GaveUp(j).call == j && Checked(j).call == j;
  }

  lemma StepWaits<V>(log: seq<Event>, w: World<V>, step: Step<V>, j: nat)
    requires Sound(w) && Enabled(w, step) && Recorded(log, w) && j < |Apply(w, step).results|
    ensures Apply(w, step).results[j].waited <==> GaveUp(j) !in log + EventOf(w, step)
  {
    hide CheckedInTime, ResultOk, CallOk;
    if j < |w.calls| {
      assert Tells(log, w.calls[j], SourceIn(w, j), j);
    }
  }

  lemma StepRecorded<V>(log: seq<Event>, w: World<V>, step: Step<V>)
    requires Sound(w) && Enabled(w, step) && Recorded(log, w)
    ensures Recorded(log + EventOf(w, step), Apply(w, step))
  {
    hide CheckedInTime, ResultOk, CallOk, Tells;
    var w', log' := Apply(w, step), log + EventOf(w, step);
    hide Served;
    if w'.source.Waiting? && |w'.calls| > 0 && Dropped(Newest(w')) !in log' {
      StepServed(log, w, step);
    }
    forall j: nat | j < |w'.calls| ensures Tells(log', w'.calls[j], SourceIn(w', j), j) {
      if j < |w.calls| {
        StepTells(log, w, step, j);
      } else {
        assert log' == log;
        CallTells(log, w);
      }
    }
    forall j: nat | j < |w'.results| && j < |w'.calls| ensures w'.results[j].waited <==> GaveUp(j) !in log' {
      StepWaits(log, w, step, j);
    }
    if step.Decide? {
      DecidesOnce(log, w);
    }
  }

  lemma DecidesOnce<V>(log: seq<Event>, w: World<V>)
    requires Sound(w) && w.source.Holding? && |w.calls| > 0 && Recorded(log, w)
    ensures Decided(Newest(w)) !in log
  {
    var i := Newest(w);
    assert CallOk(w.calls[i], SourceIn(w, i), TargetIn(w, i), i in w.queue);
    assert Tells(log, w.calls[i], SourceIn(w, i), i);
  }

  lemma {:induction false} RunRecorded<V>(log: seq<Event>, w: World<V>, steps: seq<Step<V>>)
    requires Sound(w) && CanRun(w, steps) && Recorded(log, w)
    ensures Recorded(log + Log(w, steps), After(w, steps))
    decreases |steps|
  {
    hide Sound, Apply, Enabled, Recorded, EventOf;
    if steps == [] {
      assert log + [] == log;
    } else {
      StepSound(w, steps[0]);
      StepRecorded(log, w, steps[0]);
      var w' := Apply(w, steps[0]);
      RunRecorded(log + EventOf(w, steps[0]), w', steps[1..]);
      assert log + (EventOf(w, steps[0]) + Log(w', steps[1..])) == (log + EventOf(w, steps[0])) + Log(w', steps[1..]);
    }
  }

  /** The target function runs for a call exactly if the destination looks at the flag of the call before
      the source, once and for all, clears it; whether the call timed out does not matter. */
  lemma RunsIffCheckedInTime<V>(steps: seq<Step<V>>, j: nat)
    requires CanRun(Initial(), steps) && j < |After(Initial(), steps).results|
    ensures var w, log := After(Initial(), steps), Log(Initial(), steps);
            && j < |w.calls|
            && DecidedOnce(log, j)
            && (w.calls[j].runs == 1 <==> CheckedInTime(log, j))
            && (w.calls[j].runs == 0 <==> !CheckedInTime(log, j))
  {
    hide CanRun, After, Enabled, Apply, CheckedInTime, DecidedOnce, Log;
    RunSound(Initial<V>(), steps);
    RunRecorded([], Initial<V>(), steps);
    var w, log := After(Initial<V>(), steps), Log(Initial<V>(), steps);
    assert [] + log == log;
    assert CallOk(w.calls[j], SourceIn(w, j), TargetIn(w, j), j in w.queue);
    assert Tells(log, w.calls[j], SourceIn(w, j), j);
    OnlyOnce(log, j);
  }

  lemma OnlyOnce(log: seq<Event>, j: nat)
    requires Decided(j) in log && forall p, q | 0 <= p < q < |log| && log[p].Decided? :: log[p] != log[q]
    ensures DecidedOnce(log, j)
  {
    var q :| 0 <= q < |log| && log[q] == Decided(j);
    assert Decided(j) !in log[..q] && Decided(j) !in log[q + 1..];
  }

  /** So a call that timed out, or could not be dispatched, fails, and leaves the target function alone
      exactly if the flag is cleared first; any other call succeeds exactly if its run returned normally. */
  lemma SucceedsUnlessGivenUp<V>(steps: seq<Step<V>>, j: nat)
    requires CanRun(Initial(), steps) && j < |After(Initial(), steps).results|
    ensures var w, log := After(Initial(), steps), Log(Initial(), steps);
            && j < |w.calls|
            && (GaveUp(j) in log ==> !w.results[j].success && (w.calls[j].runs == 0 <==> !CheckedInTime(log, j)))
            && (GaveUp(j) !in log ==>
                  && w.calls[j].runs == 1 && w.calls[j].outcome.Some?
                  && (w.results[j].success <==> w.calls[j].outcome.value.Returned?))
  {
    hide CanRun, After, Enabled, Apply, CheckedInTime, DecidedOnce, Log;
    RunsIffCheckedInTime(steps, j);
    SuccessMeans(steps, j);
    RunSound(Initial<V>(), steps);
    RunRecorded([], Initial<V>(), steps);
    var w, log := After(Initial<V>(), steps), Log(Initial<V>(), steps);
    assert [] + log == log;
    assert ResultOk(w.calls[j], w.results[j]);
  }

  // ---------- Progress ----------

  /** Steps left before everything rests, should no new call be made. */
  function Work<V>(w: World<V>): nat {
    (match w.source
     case Out => 0 case Collecting(_, _) => 1 case Releasing(_, _) => 2 case Holding(_) => 3
     case WantsLock(_) => 4 case Waiting => 5 case Built => 12)
    + (match w.target
       case Away => 0 case Unlocking => 1 case Signaling => 2 case Running => 3 case Checking => 4 case Entered => 5)
    + 6 * |w.queue|
  }

  function CallsIn<V>(steps: seq<Step<V>>): nat {
    if steps == [] then 0 else (if steps[0].Call? then 1 else 0) + CallsIn(steps[1..])
  }

  /** At most 13 steps are taken for each call made. */
  lemma {:induction false} RunsAreShort<V>(w: World<V>, steps: seq<Step<V>>)
    requires CanRun(w, steps)
    ensures |steps| + Work(After(w, steps)) <= Work(w) + 13 * CallsIn(steps)
    decreases |steps|
  {
    if steps != [] {
      StepWorks(w, steps[0]);
      RunsAreShort(Apply(w, steps[0]), steps[1..]);
    }
  }

  lemma StepWorks<V>(w: World<V>, step: Step<V>)
    requires Enabled(w, step)
    ensures step.Call? ==> Work(Apply(w, step)) <= Work(w) + 12
    ensures !step.Call? ==> Work(Apply(w, step)) < Work(w)
  {}

  /** While the caller is inside operator() some step other than a new call can be taken: the source
      can go on, or the destination can, which holds the lock that the source needs. */
  lemma NeverStuck<V>(w: World<V>, v: V)
    requires Sound(w) && !w.source.Out?
    ensures exists step :: Enabled(w, step) && !step.Call?
                           && (BySource(step) || (w.source.WantsLock? && w.current == |w.calls| - 1))
  {
    var i := |w.calls| - 1;
    assert CallOk(w.calls[i], SourceIn(w, i), TargetIn(w, i), i in w.queue);
    var step :=
      match w.source
      case Built => Dispatch(true)
      case Waiting => Expire
      case WantsLock(_) =>
        if w.calls[i].lock == Nobody then Acquire
        else (match w.target case Checking => Check case Running => Finish(v) case Signaling => Signal case _ => Unlock)
      case Holding(_) => Decide
      case Releasing(_, _) => Release
      case _ => Return;
    assert Enabled(w, step);
  }

  /** The call can end without a timeout: it is still to be dispatched, or waits for a message that is being
      served, or has been woken. */
  predicate Expecting<V>(w: World<V>) {
    match w.source
    case Out => false
    case Built => true
    case Waiting => Served(w)
    case WantsLock(waited) => waited
    case Holding(waited) => waited
    case Releasing(waited, _) => waited
    case Collecting(waited, _) => waited
  }

  /** A finished target wakes its caller: while the caller waits, it can go on as soon as the destination has
      left the signal behind it. */
  lemma WakeReady<V>(steps: seq<Step<V>>)
    requires CanRun(Initial(), steps) && After(Initial(), steps).source.Waiting?
    ensures var w := After(Initial(), steps);
            && |w.calls| > 0
            && (w.calls[Newest(w)].outcome.Some? && !(w.current == Newest(w) && w.target.Signaling?) ==>
                Enabled(w, Wake))
  {
    hide CanRun, After, Apply;
    RunSound(Initial<V>(), steps);
    var w := After(Initial<V>(), steps);
    assert CallOk(w.calls[Newest(w)], SourceIn(w, Newest(w)), TargetIn(w, Newest(w)), Newest(w) in w.queue);
  }

  /** Unless its message is dropped, a waiting call is served. */
  lemma WaitingIsServed<V>(steps: seq<Step<V>>)
    requires CanRun(Initial(), steps) && After(Initial(), steps).source.Waiting?
    ensures var w := After(Initial(), steps);
            |w.calls| > 0 && (Dropped(Newest(w)) !in Log(Initial(), steps) ==> Served(w))
  {
    hide CanRun, After, Apply, Enabled, CheckedInTime, Log, Served;
    RunSound(Initial<V>(), steps);
    RunRecorded([], Initial<V>(), steps);
    assert [] + Log(Initial<V>(), steps) == Log(Initial<V>(), steps);
  }

  /** The next step towards the return of the call, with v as the value of its target. */
  function Onward<V>(w: World<V>, v: V): Step<V> {
    match w.source
    case Out => Call
    case Built => Dispatch(true)
    case Waiting => if |w.calls| > 0 && w.calls[Newest(w)].signaled then Wake else TargetOnward(w, v)
    case WantsLock(_) => if |w.calls| > 0 && w.calls[Newest(w)].lock == Nobody then Acquire else TargetOnward(w, v)
    case Holding(_) => Decide
    case Releasing(_, _) => Release
    case Collecting(_, _) => Return
  }

  function TargetOnward<V>(w: World<V>, v: V): Step<V> {
    match w.target
    case Away => Take
    case Entered => Lock
    case Checking => Check
    case Running => Finish(v)
    case Signaling => Signal
    case Unlocking => Unlock
  }

  lemma OnwardStep<V>(w: World<V>, v: V)
    requires Sound(w) && Expecting(w)
    ensures var step := Onward(w, v);
            && Enabled(w, step) && !step.Call? && !step.Expire? && !step.Drop? && !step.Throw?
            && step != Dispatch(false)
            && var w' := Apply(w, step);
               && |w'.calls| == |w.calls| && Work(w') < Work(w)
               && (if step.Return? then w'.source.Out? && |w'.results| == |w.results| + 1
                   else Expecting(w') && w'.results == w.results)
  {
    var j := |w.calls| - 1;
    assert CallOk(w.calls[j], SourceIn(w, j), TargetIn(w, j), j in w.queue);
    if w.current < |w.calls| {
      var i := w.current;
      assert CallOk(w.calls[i], SourceIn(w, i), TargetIn(w, i), i in w.queue);
    }
    if (w.source.Waiting? || w.source.Built?) && Onward(w, v) != Wake {
      OnwardServed(w, v);
    }
  }

  lemma OnwardServed<V>(w: World<V>, v: V)
    requires Sound(w) && Expecting(w) && (w.source.Waiting? || w.source.Built?)
    requires Enabled(w, Onward(w, v)) && Onward(w, v) != Wake
    ensures Served(Apply(w, Onward(w, v)))
  {
    StepServed([], w, Onward(w, v));
  }

  lemma OnwardOutcome<V>(w: World<V>, v: V, j: nat)
    requires Sound(w) && Expecting(w) && Enabled(w, Onward(w, v)) && j == |w.calls| - 1
    ensures var step, w' := Onward(w, v), Apply(w, Onward(w, v));
            && j < |w'.calls|
            && (w'.calls[j].outcome == w.calls[j].outcome
                || (w.calls[j].outcome.None? && w'.calls[j].outcome == Some(Returned(v))))
            && (step.Return? ==>
                  && |w.results| == j && w'.results == w.results + [w'.results[j]] && w'.results[j].waited)
  {
    assert CallOk(w.calls[j], SourceIn(w, j), TargetIn(w, j), j in w.queue);
  }

  /** The run needs nothing from outside: no new call, no timeout, no message lost, no exception. */
  ghost predicate Smooth<V>(steps: seq<Step<V>>) {
    forall i | 0 <= i < |steps| ::
      !steps[i].Call? && !steps[i].Expire? && !steps[i].Drop? && !steps[i].Throw? && steps[i] != Dispatch(false)
  }

  /** A call that is expecting its target can always be brought to its end without a timeout. If its target
      was still to finish, it succeeds with the value that the target returns. */
  lemma {:induction false} CallCompletes<V>(w: World<V>, v: V) returns (steps: seq<Step<V>>)
    requires Sound(w) && Expecting(w)
    ensures CanRun(w, steps) && Smooth(steps)
    ensures var w', j := After(w, steps), |w.calls| - 1;
            && Sound(w') && w'.source.Out? && j >= 0 && |w'.calls| == |w.calls| && |w.results| == j
            && w'.results == w.results + [w'.results[j]] && w'.results[j].waited
            && (w'.calls[j].outcome == w.calls[j].outcome || w'.calls[j].outcome == Some(Returned(v)))
            && (w.calls[j].outcome.None? ==> w'.results[j] == Result(true, true, Some(v)))
    decreases Work(w)
  {
    hide Apply, Enabled, CallOk, Expecting, Onward, Work;
    var step := Onward(w, v);
    OnwardStep(w, v);
    StepSound(w, step);
    SomeCall(w);
    var w1, j := Apply(w, step), |w.calls| - 1;
    OnwardOutcome(w, v, j);
    if step.Return? {
      EmptyRun(w1);
      steps := [step];
      assert steps[1..] == [];
      ResultIs(w1, j);
    } else {
      var rest := CallCompletes(w1, v);
      steps := [step] + rest;
      assert steps[1..] == rest;
      ResultIs(After(w1, rest), j);
    }
  }

  /** So in every state of every run in which the caller is outside, the next call can succeed. */
  lemma NextCallSucceeds<V>(before: seq<Step<V>>, v: V) returns (steps: seq<Step<V>>)
    requires CanRun(Initial(), before) && After(Initial(), before).source.Out?
    ensures var w := After(Initial(), before);
            && CanRun(w, [Call] + steps) && Smooth(steps)
            && After(w, [Call] + steps).results == w.results + [Result(true, true, Some(v))]
  {
    hide Apply, Enabled, CallOk, Onward;
    RunSound(Initial<V>(), before);
    var w := After(Initial<V>(), before);
    CallStarts(w);
    StepSound(w, Call);
    steps := CallCompletes(Apply(w, Call), v);
    assert ([Call] + steps)[1..] == steps;
  }

  lemma CallStarts<V>(w: World<V>)
    requires Sound(w) && w.source.Out?
    ensures Enabled(w, Call) && Expecting(Apply(w, Call)) && Apply(w, Call).results == w.results
    ensures |Apply(w, Call).calls| == |w.results| + 1 && Apply(w, Call).calls[|w.results|].outcome.None?
  {}

  lemma SomeCall<V>(w: World<V>)
    requires Sound(w) && Expecting(w)
    ensures |w.calls| > 0
  {}

  lemma ResultIs<V>(w: World<V>, j: nat)
    requires Sound(w) && j < |w.results| && j < |w.calls| && w.results[j].waited
    ensures w.calls[j].outcome.Some? && w.calls[j].outcome.value.Returned? ==>
              w.results[j] == Result(true, true, Some(w.calls[j].outcome.value.value))
  {
    assert CallOk(w.calls[j], SourceIn(w, j), TargetIn(w, j), j in w.queue);
    assert ResultOk(w.calls[j], w.results[j]);
  }

  // ---------- A failure report for a call that ran ----------

  lemma {:induction false} RunOneMore<V>(w: World<V>, steps: seq<Step<V>>, step: Step<V>)
    requires CanRun(w, steps) && Enabled(After(w, steps), step)
    ensures CanRun(w, steps + [step]) && After(w, steps + [step]) == Apply(After(w, steps), step)
    decreases |steps|
  {
    hide Apply, Enabled;
    if steps == [] {
      assert [step][1..] == [];
    } else {
      RunOneMore(Apply(w, steps[0]), steps[1..], step);
      assert (steps + [step])[1..] == steps[1..] + [step];
    }
  }

  /** The timeout fires while the target function runs: the source then has to wait for it to end. */
  function LateRun<V>(v: V): seq<Step<V>> {
    [Call, Dispatch(true), Take, Lock, Check, Expire, Finish(v), Signal, Unlock, Acquire, Decide, Release, Return]
  }

  lemma EmptyRun<V>(w: World<V>)
    ensures CanRun(w, []) && After(w, []) == w
  {}

  lemma LateRunHalfway<V>(v: V)
    ensures CanRun(Initial<V>(), LateRun(v)[..7])
    ensures var m := Message(true, true, false, TheDestination, Some(v), 1, Some(Returned(v)));
            After(Initial<V>(), LateRun(v)[..7]) == World([m], WantsLock(false), [], 0, Signaling, [])
  {
    EmptyRun(Initial<V>());
    hide CanRun, After;
    var run := LateRun(v);
    assert run[..0] == [];
    assert run[..1] == run[..0] + [run[0]];
    RunOneMore(Initial(), run[..0], run[0]);
    assert run[..2] == run[..1] + [run[1]];
    RunOneMore(Initial(), run[..1], run[1]);
    assert run[..3] == run[..2] + [run[2]];
    RunOneMore(Initial(), run[..2], run[2]);
    assert run[..4] == run[..3] + [run[3]];
    RunOneMore(Initial(), run[..3], run[3]);
    assert run[..5] == run[..4] + [run[4]];
    RunOneMore(Initial(), run[..4], run[4]);
    assert run[..6] == run[..5] + [run[5]];
    RunOneMore(Initial(), run[..5], run[5]);
    assert run[..7] == run[..6] + [run[6]];
    RunOneMore(Initial(), run[..6], run[6]);
  }

  lemma FailedThoughRun<V>(v: V)
    ensures CanRun(Initial<V>(), LateRun(v))
    ensures var w := After(Initial<V>(), LateRun(v));
            && |w.results| == 1 && !w.results[0].success && |w.calls| == 1
            && w.calls[0].runs == 1 && w.calls[0].outcome == Some(Returned(v))
  {
    LateRunHalfway(v);
    hide CanRun, After;
    var run := LateRun(v);
    assert run[..8] == run[..7] + [run[7]];
    RunOneMore(Initial(), run[..7], run[7]);
    assert run[..9] == run[..8] + [run[8]];
    RunOneMore(Initial(), run[..8], run[8]);
    assert run[..10] == run[..9] + [run[9]];
    RunOneMore(Initial(), run[..9], run[9]);
    assert run[..11] == run[..10] + [run[10]];
    RunOneMore(Initial(), run[..10], run[10]);
    assert run[..12] == run[..11] + [run[11]];
    RunOneMore(Initial(), run[..11], run[11]);
    assert run[..13] == run[..12] + [run[12]];
    RunOneMore(Initial(), run[..12], run[12]);
    assert run[..13] == run;
  }
}
