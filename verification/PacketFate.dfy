/** What becomes of one packet in the interleaved retry protocol: how often it is sent, and why it leaves
    the store. */
module PacketFate {
  import opened Reliability
  import opened RetryProtocol
  import opened Wrappers

  // ---------- How a packet leaves the store ----------

  datatype Fate = Acknowledged | Exhausted | Erased(why: Failure)

  /** Why the step takes the packet under key k out of the store, if it does. */
  function FateAt(s: State, step: Step, k: Key): Option<Fate>
    requires Enabled(s, step)
  {
    if !step.Advance? || k !in s.store || s.tasks[step.task].Key() != k then None
    else match s.tasks[step.task]
         case Acked(_) => Some(Acknowledged)
         case TimedOut(_) => if s.store[k].attemptsRemaining <= 0 then Some(Exhausted) else None
         case Erasing(_, why) => Some(Erased(why))
         case _ => None
  }

  /** A later message with the same key takes its place. */
  predicate Overwrites(s: State, step: Step, k: Key) {
    step.Begin? && step.packet.Key() == k && k in s.store && s.store[k].packet != step.packet
  }

  /** A packet leaves the store exactly if it is acknowledged, exhausted, refused or failed, or if its key
      is used again. */
  lemma LeavesIff(s: State, step: Step, c: Config, k: Key)
    requires Enabled(s, step) && k in s.store
    ensures var s' := Apply(s, step, c);
            && ((k in s'.store && s'.store[k].packet == s.store[k].packet)
                  <==> FateAt(s, step, k) == None && !Overwrites(s, step, k))
            && (FateAt(s, step, k).Some? ==> k !in s'.store)
  {
    hide Admits, KeyOf, Packet.Key;
  }

  /** Why the packet under this key was first taken out of the store in the run, if it was. */
  ghost function Lost(s: State, steps: seq<Step>, c: Config, k: Key): Option<Fate>
    requires CanRun(s, steps, c)
    decreases |steps|
  {
    if steps == [] then None
    else Sooner(FateAt(s, steps[0], k), Lost(Apply(s, steps[0], c), steps[1..], c, k))
  }

  function Sooner(a: Option<Fate>, b: Option<Fate>): Option<Fate> {
    if a.Some? then a else b
  }

  /** What makes a packet leave before it is exhausted: an acknowledgement, a failed first send, or an Add
      that finds the pending map full. */
  datatype Cause = AckArrives | SendFails | NoRoom

  predicate Brings(s: State, step: Step, c: Config, k: Key, cause: Cause)
    requires Enabled(s, step)
  {
    match cause
    case AckArrives => step == Ack(k)
    case SendFails => step.Advance? && !step.ok && s.tasks[step.task].Accepted? && s.tasks[step.task].Key() == k
    case NoRoom =>
      && step.Advance? && (s.tasks[step.task].Stored? || s.tasks[step.task].Retrying?)
      && s.tasks[step.task].Key() == k && |s.pending| >= c.cap
  }

  ghost function CausesAt(s: State, step: Step, c: Config, k: Key): set<Cause>
    requires Enabled(s, step)
  {
    set cause | cause in {AckArrives, SendFails, NoRoom} && Brings(s, step, c, k, cause)
  }

  /** The causes that occur in a run. */
  ghost function Causes(s: State, steps: seq<Step>, c: Config, k: Key): set<Cause>
    requires CanRun(s, steps, c)
    decreases |steps|
  {
    if steps == [] then {} else CausesAt(s, steps[0], c, k) + Causes(Apply(s, steps[0], c), steps[1..], c, k)
  }

  ghost predicate NoneBegins(steps: seq<Step>, k: Key) {
    forall i | 0 <= i < |steps| && steps[i].Begin? :: steps[i].packet.Key() != k
  }

  /** Nothing is known of this key yet. */
  ghost predicate Unknown(s: State, k: Key) {
    && k !in s.pending && k !in s.store && s.sends[k] == 0
    && forall i | 0 <= i < |s.tasks| :: s.tasks[i] == Done || s.tasks[i].Key() != k
  }

  lemma UnknownStep(s: State, step: Step, c: Config, k: Key)
    requires Honest(s) && Unknown(s, k) && Enabled(s, step) && (step.Begin? ==> step.packet.Key() != k)
    ensures Unknown(Apply(s, step, c), k) && FateAt(s, step, k) == None && CausesAt(s, step, c, k) == {}
  {
    hide Region, AfterRegion, Packet.Key, StoreOk, Honest;
    if step.Advance? {
      RegionUnknown(s, s.tasks[step.task], step.ok, c, k);
    }
  }

  lemma RegionUnknown(s: State, t: Task, ok: bool, c: Config, k: Key)
    requires Honest(s) && k !in s.pending && k !in s.store && t != Done && t.Key() != k
    ensures k !in Region(s, t, ok, c).pending && k !in Region(s, t, ok, c).store
    ensures Region(s, t, ok, c).sends[k] == s.sends[k]
    ensures var t' := AfterRegion(s, t, ok, c); t' == Done || t'.Key() != k
  {
    hide Packet.Key, KeyOf, Admits;
  }

  // ---------- The books of one packet ----------

  /** Registrations of a key still to come or just lost. */
  ghost function Tracks(k: Key): Task -> nat {
    (t: Task) => if (t.Stored? || t.TimedOut? || t.Retrying? || t.Reregistering?) && t.Key() == k then 1 else 0
  }

  /** Sends that a refusal has cancelled. */
  ghost function Refusals(k: Key): Task -> nat {
    (t: Task) => if t.Erasing? && (t.why == Refused || t.why == RetryRefused) && t.key == k then 1 else 0
  }

  ghost function Failures(k: Key): Task -> nat {
    (t: Task) => if t.Erasing? && t.why == SendFailed && t.key == k then 1 else 0
  }

  ghost function Acks(k: Key): Task -> nat {
    (t: Task) => if t == Acked(k) then 1 else 0
  }

  /** Sends made and under way. */
  ghost function Total(s: State, k: Key): nat {
    s.sends[k] + Sum(s.tasks, Owed(k))
  }

  /** The books of a packet whose key no other call uses: it has been sent, is going to be, may be sent or
      has been refused exactly 1 + maxRetries times while it is stored, and when it is exhausted without a
      refusal it has been sent or is going to be that often. It leaves for a reason only if there was a
      cause for it, and once there was it does not stay. */
  ghost predicate Accounted(s: State, c: Config, k: Key, lost: Option<Fate>, happened: set<Cause>) {
    var all, refused := 1 + Max0(c.maxRetries), Sum(s.tasks, Refusals(k));
    var failed, acked := Sum(s.tasks, Failures(k)), Sum(s.tasks, Acks(k));
    && Sum(s.tasks, Tracks(k)) + (if k in s.pending then 1 else 0) <= 1
    && (lost == None <==> k in s.store)
    && (k in s.store ==> Total(s, k) + refused + Budget(s.store, k) == all)
    && (lost == Some(Exhausted) && NoRoom !in happened ==> Total(s, k) == all)
    && (if NoRoom in happened then k in s.store ==> refused > 0
        else refused == 0 && lost != Some(Erased(Refused)) && lost != Some(Erased(RetryRefused)))
    && (if SendFails in happened then k in s.store ==> failed > 0 else failed == 0 && lost != Some(Erased(SendFailed)))
    && (if AckArrives in happened then k in s.store ==> acked > 0 else acked == 0 && lost != Some(Acknowledged))
  }

  lemma SumAtLeast(tasks: seq<Task>, i: nat, f: Task -> nat)
    requires i < |tasks| && f(Done) == 0
    ensures Sum(tasks, f) >= f(tasks[i])
  {
    SumUpdate(tasks, i, Done, f);
  }

  lemma {:induction false} SumNone(tasks: seq<Task>, k: Key)
    requires forall i | 0 <= i < |tasks| :: tasks[i] == Done || tasks[i].Key() != k
    ensures Sum(tasks, Owed(k)) == Sum(tasks, Refusals(k)) == Sum(tasks, Failures(k)) == 0
    ensures Sum(tasks, Acks(k)) == Sum(tasks, Tracks(k)) == 0
  {
    if tasks != [] {
      SumNone(tasks[..|tasks| - 1], k);
    }
  }

  /** A region of another key leaves the books of this one alone. */
  lemma OtherRegion(s: State, t: Task, ok: bool, c: Config, k: Key)
    requires StoreOk(s.store, s.submitted) && t != Done && t.Key() != k
    ensures var s', t' := Region(s, t, ok, c), AfterRegion(s, t, ok, c);
            && s'.sends[k] == s.sends[k] && Budget(s'.store, k) == Budget(s.store, k)
            && (k in s'.store <==> k in s.store) && (k in s'.pending <==> k in s.pending)
            && Owed(k)(t') == Owed(k)(t) == Refusals(k)(t') == Refusals(k)(t) == Failures(k)(t') == Failures(k)(t) == 0
            && Acks(k)(t') == Acks(k)(t) == Tracks(k)(t') == Tracks(k)(t) == 0
  {
    hide KeyOf, Packet.Key, Admits, Max0;
  }

  /** While the packet stays stored a region moves sends from one column of its books to another. */
  lemma OwnSends(s: State, t: Task, ok: bool, c: Config, k: Key)
    requires StoreOk(s.store, s.submitted) && t != Done && t.Key() == k
    requires k in s.store && k in Region(s, t, ok, c).store
    ensures var s', t' := Region(s, t, ok, c), AfterRegion(s, t, ok, c);
            s'.sends[k] + Owed(k)(t') + Refusals(k)(t') + Budget(s'.store, k)
              == s.sends[k] + Owed(k)(t) + Refusals(k)(t) + Budget(s.store, k)
  {
    hide KeyOf, Packet.Key, Admits;
  }

  /** What an acknowledgement or an erasure finds, and a timeout with nothing left. */
  lemma OwnExit(s: State, t: Task, ok: bool, c: Config, k: Key)
    requires t != Done && t.Key() == k
    ensures var s', t' := Region(s, t, ok, c), AfterRegion(s, t, ok, c);
            && (k in s.store ==> (Budget(s.store, k) == 0 <==> s.store[k].attemptsRemaining <= 0))
            && (t.Erasing? || t.Acked? ==> k !in s'.store && t' == Done)
            && (t.TimedOut? && (k !in s.store || Budget(s.store, k) == 0) ==> k !in s'.store && t' == Done)
            && (k !in s.store ==> k !in s'.store)
            && (k in s.store && k !in s'.store ==>
                  t.Erasing? || t.Acked? || (t.TimedOut? && Budget(s.store, k) == 0))
            && (t.TimedOut? || t.Erasing? || t.Acked? ==> s'.sends[k] == s.sends[k] && Owed(k)(t) == 0)
  {
    hide KeyOf, Packet.Key, Admits;
  }

  lemma OwnTotal(s: State, t: Task, ok: bool, c: Config, k: Key)
    requires t != Done && t.Key() == k && !t.TimedOut?
    requires t.Stored? || t.Retrying? ==> |s.pending| < c.cap && k !in s.pending
    ensures var s', t' := Region(s, t, ok, c), AfterRegion(s, t, ok, c);
            s'.sends[k] + Owed(k)(t') == s.sends[k] + Owed(k)(t)
  {
    hide KeyOf, Packet.Key;
  }

  lemma OwnNext(s: State, t: Task, ok: bool, c: Config, k: Key)
    requires StoreOk(s.store, s.submitted) && t != Done && t.Key() == k
    ensures var s', t' := Region(s, t, ok, c), AfterRegion(s, t, ok, c);
            && Tracks(k)(t') + (if k in s'.pending then 1 else 0) <= Tracks(k)(t) + (if k in s.pending then 1 else 0)
            && Refusals(k)(t')
                 == (if (t.Stored? || t.Retrying?) && !(|s.pending| < c.cap && k !in s.pending) then 1 else 0)
            && Failures(k)(t') == (if t.Accepted? && !ok then 1 else 0)
            && Acks(k)(t') == 0
  {
    hide KeyOf, Packet.Key, Timeout;
  }

  lemma AccountedStep(s: State, step: Step, c: Config, k: Key, lost: Option<Fate>, happened: set<Cause>)
    requires Honest(s) && Accounted(s, c, k, lost, happened) && Enabled(s, step)
    requires step.Begin? ==> step.packet.Key() != k
    ensures Accounted(Apply(s, step, c), c, k, Sooner(lost, FateAt(s, step, k)), happened + CausesAt(s, step, c, k))
  {
    hide Sum, Region, AfterRegion, Owed, Tracks, Refusals, Failures, Acks, Budget, Max0, KeyOf, Packet.Key, StoreOk;
    TaskSums(s, step, c, Owed(k));
    TaskSums(s, step, c, Tracks(k));
    TaskSums(s, step, c, Refusals(k));
    TaskSums(s, step, c, Failures(k));
    TaskSums(s, step, c, Acks(k));
    match step
    case Advance(i, ok) =>
      AdvanceAccounted(s, i, ok, c, k, lost, happened);
    case Begin(p) =>
      NewTask(Stored(p), k);
      OtherEntry(s, p, c, k);
    case Expire(j) => NewTask(TimedOut(j), k);
    case Ack(j) => NewTask(Acked(j), k);
    case Deliver(_) =>
  }

  lemma NewTask(t: Task, k: Key)
    requires (t.Stored? && t.Key() != k) || t.TimedOut? || t.Acked?
    ensures Owed(k)(t) == Refusals(k)(t) == Failures(k)(t) == 0
    ensures Tracks(k)(t) == (if t == TimedOut(k) then 1 else 0) && Acks(k)(t) == if t == Acked(k) then 1 else 0
  {}

  lemma OtherEntry(s: State, p: Packet, c: Config, k: Key)
    requires p.Key() != k
    ensures Budget(Apply(s, Begin(p), c).store, k) == Budget(s.store, k)
  {}

  lemma AdvanceAccounted(s: State, i: nat, ok: bool, c: Config, k: Key, lost: Option<Fate>, happened: set<Cause>)
    requires Honest(s) && Accounted(s, c, k, lost, happened) && Enabled(s, Advance(i, ok))
    ensures var step := Advance(i, ok);
            Accounted(Apply(s, step, c), c, k, Sooner(lost, FateAt(s, step, k)), happened + CausesAt(s, step, c, k))
  {
    hide Sum, Region, AfterRegion, Owed, Tracks, Refusals, Failures, Acks, Budget, Max0, KeyOf, Packet.Key, StoreOk;
    var t, t' := s.tasks[i], AfterRegion(s, s.tasks[i], ok, c);
    SumUpdate(s.tasks, i, t', Owed(k));
    SumUpdate(s.tasks, i, t', Tracks(k));
    SumUpdate(s.tasks, i, t', Refusals(k));
    SumUpdate(s.tasks, i, t', Failures(k));
    SumUpdate(s.tasks, i, t', Acks(k));
    if t.Key() == k {
      OwnAdvance(s, i, ok, c, k, lost, happened);
    } else {
      OtherRegion(s, t, ok, c, k);
    }
  }

  lemma OwnAdvance(s: State, i: nat, ok: bool, c: Config, k: Key, lost: Option<Fate>, happened: set<Cause>)
    requires Honest(s) && Accounted(s, c, k, lost, happened) && Enabled(s, Advance(i, ok)) && s.tasks[i].Key() == k
    ensures var step := Advance(i, ok);
            Accounted(Apply(s, step, c), c, k, Sooner(lost, FateAt(s, step, k)), happened + CausesAt(s, step, c, k))
  {
    hide Sum, Region, AfterRegion, Owed, Tracks, Refusals, Failures, Acks, Budget, Max0, KeyOf, Packet.Key, StoreOk;
    hide Task.Key;
    var t, t' := s.tasks[i], AfterRegion(s, s.tasks[i], ok, c);
    SumUpdate(s.tasks, i, t', Owed(k));
    SumUpdate(s.tasks, i, t', Tracks(k));
    SumUpdate(s.tasks, i, t', Refusals(k));
    SumUpdate(s.tasks, i, t', Failures(k));
    SumUpdate(s.tasks, i, t', Acks(k));
    OwnExit(s, t, ok, c, k);
    OwnNext(s, t, ok, c, k);
    if k in s.store && k in Region(s, t, ok, c).store {
      OwnSends(s, t, ok, c, k);
    }
    if !t.TimedOut? && (t.Stored? || t.Retrying? ==> |s.pending| < c.cap && k !in s.pending) {
      OwnTotal(s, t, ok, c, k);
    }
    DoneCounts(k);
    SumAtLeast(s.tasks, i, Tracks(k));
    SumAtLeast(s.tasks, i, Refusals(k));
    SumAtLeast(s.tasks, i, Failures(k));
    SumAtLeast(s.tasks, i, Acks(k));
    OwnCounts(t, k);
  }

  lemma DoneCounts(k: Key)
    ensures Owed(k)(Done) == Tracks(k)(Done) == Refusals(k)(Done) == Failures(k)(Done) == Acks(k)(Done) == 0
  {}

  lemma OwnCounts(t: Task, k: Key)
    requires t.Key() == k && t != Done
    ensures Tracks(k)(t) == if t.Stored? || t.TimedOut? || t.Retrying? || t.Reregistering? then 1 else 0
    ensures Refusals(k)(t) == if t.Erasing? && (t.why == Refused || t.why == RetryRefused) then 1 else 0
    ensures Failures(k)(t) == if t.Erasing? && t.why == SendFailed then 1 else 0
    ensures Acks(k)(t) == if t.Acked? then 1 else 0
  {}

  // ---------- Whole runs ----------

  lemma {:induction false} RunAccounted(s: State, steps: seq<Step>, c: Config, k: Key, lost: Option<Fate>,
                                        happened: set<Cause>)
    requires Sound(s, c) && CanRun(s, steps, c) && NoneBegins(steps, k) && Accounted(s, c, k, lost, happened)
    ensures Accounted(After(s, steps, c), c, k, Sooner(lost, Lost(s, steps, c, k)), happened + Causes(s, steps, c, k))
    decreases |steps|
  {
    hide Honest, Paid, Balanced, Unsent, Apply, Enabled, Accounted, FateAt, CausesAt, Packet.Key;
    if steps == [] {
      assert happened + {} == happened;
    } else {
      SoundStep(s, steps[0], c);
      AccountedStep(s, steps[0], c, k, lost, happened);
      var s1, h := Apply(s, steps[0], c), happened + CausesAt(s, steps[0], c, k);
      RunAccounted(s1, steps[1..], c, k, Sooner(lost, FateAt(s, steps[0], k)), h);
      assert h + Causes(s1, steps[1..], c, k) == happened + Causes(s, steps, c, k);
    }
  }

  lemma BeginAccounted(s: State, p: Packet, c: Config)
    requires Unknown(s, p.Key())
    ensures Accounted(Apply(s, Begin(p), c), c, p.Key(), None, {})
    ensures FateAt(s, Begin(p), p.Key()) == None && CausesAt(s, Begin(p), c, p.Key()) == {}
  {
    var k := p.Key();
    hide Sum, KeyOf, Packet.Key;
    SumNone(s.tasks, k);
    SumAppend(s.tasks, Stored(p), Owed(k));
    SumAppend(s.tasks, Stored(p), Tracks(k));
    SumAppend(s.tasks, Stored(p), Refusals(k));
    SumAppend(s.tasks, Stored(p), Failures(k));
    SumAppend(s.tasks, Stored(p), Acks(k));
  }

  lemma {:induction false} FreshAccounted(s: State, steps: seq<Step>, c: Config, b: nat)
    requires Sound(s, c) && CanRun(s, steps, c) && b < |steps| && steps[b].Begin? && Unknown(s, steps[b].packet.Key())
    requires NoneBegins(steps[..b] + steps[b + 1..], steps[b].packet.Key())
    ensures var k := steps[b].packet.Key();
            Accounted(After(s, steps, c), c, k, Lost(s, steps, c, k), Causes(s, steps, c, k))
    decreases |steps|
  {
    hide Honest, Paid, Balanced, Unsent, Apply, Enabled, Accounted, FateAt, CausesAt, Packet.Key, Unknown;
    var k, s1 := steps[b].packet.Key(), Apply(s, steps[0], c);
    var others := steps[..b] + steps[b + 1..];
    SoundStep(s, steps[0], c);
    if b == 0 {
      assert others == steps[1..];
      BeginAccounted(s, steps[b].packet, c);
      RunAccounted(s1, steps[1..], c, k, None, {});
    } else {
      assert others[0] == steps[0] && others[1..] == steps[1..][..b - 1] + steps[1..][b..];
      UnknownStep(s, steps[0], c, k);
      FreshAccounted(s1, steps[1..], c, b - 1);
    }
    assert {} + Causes(s1, steps[1..], c, k) == Causes(s1, steps[1..], c, k);
  }

  /** No other packet with its key is anywhere. */
  ghost predicate Only(s: State, p: Packet) {
    forall q | q in s.submitted && q.Key() == p.Key() :: q == p
  }

  lemma {:induction false} RunOnly(s: State, steps: seq<Step>, c: Config, p: Packet)
    requires CanRun(s, steps, c) && Only(s, p)
    requires forall i | 0 <= i < |steps| && steps[i].Begin? && steps[i].packet.Key() == p.Key() :: steps[i].packet == p
    ensures Only(After(s, steps, c), p)
    decreases |steps|
  {
    hide Region, AfterRegion, Packet.Key;
    if steps != [] {
      if steps[0].Advance? {
        SameSubmitted(s, s.tasks[steps[0].task], steps[0].ok, c);
      }
      RunOnly(Apply(s, steps[0], c), steps[1..], c, p);
    }
  }

  lemma SameSubmitted(s: State, t: Task, ok: bool, c: Config)
    ensures Region(s, t, ok, c).submitted == s.submitted
  {
    hide Admits, Timeout;
  }

  lemma Alone(steps: seq<Step>, b: nat, i: nat)
    requires b < |steps| && i < |steps| && i != b && steps[b].Begin? && steps[i].Begin?
    requires NoneBegins(steps[..b] + steps[b + 1..], steps[b].packet.Key())
    ensures steps[i].packet.Key() != steps[b].packet.Key()
  {
    var others := steps[..b] + steps[b + 1..];
    assert others[if i < b then i else i - 1] == steps[i];
  }

  /** A packet whose key no other call uses is stored, unchanged, until a step takes it out, and only so
      long; nothing but it is ever sent with its key. In a run without the leaking step it is looked after
      all the time. */
  lemma FreshPacketKept(steps: seq<Step>, c: Config, b: nat)
    requires CanRun(INITIAL, steps, c) && b < |steps| && steps[b].Begin?
    requires NoneBegins(steps[..b] + steps[b + 1..], steps[b].packet.Key())
    ensures var s, p := After(INITIAL, steps, c), steps[b].packet;
            && (p.Key() in s.store <==> Lost(INITIAL, steps, c, p.Key()) == None)
            && (p.Key() in s.store ==> s.store[p.Key()].packet == p)
            && (forall q | q in s.sent && q.Key() == p.Key() :: q == p)
            && (p.Key() in s.store && NoLeak(INITIAL, steps, c) ==> CoveredKey(s, p.Key()))
  {
    hide Paid, Balanced, Unsent, CanRun, After, NoLeak, Packet.Key, CoveredKey, Lost, Causes;
    var p := steps[b].packet;
    InitialSound(c);
    RunKeepsSound(INITIAL, steps, c);
    FreshAccounted(INITIAL, steps, c, b);
    forall i | 0 <= i < |steps| && steps[i].Begin? && steps[i].packet.Key() == p.Key() ensures steps[i].packet == p {
      if i != b {
        Alone(steps, b, i);
      }
    }
    RunOnly(INITIAL, steps, c, p);
    if NoLeak(INITIAL, steps, c) {
      NoneForgotten(INITIAL, steps, c);
    }
  }

  /** While such a packet is stored, the sends made, under way, still allowed and cancelled by a refusal are
      exactly 1 + maxRetries. It leaves as exhausted, if none was cancelled, exactly when all of them are
      made or under way. */
  lemma ExactSends(steps: seq<Step>, c: Config, b: nat)
    requires CanRun(INITIAL, steps, c) && b < |steps| && steps[b].Begin?
    requires NoneBegins(steps[..b] + steps[b + 1..], steps[b].packet.Key())
    ensures var s, k := After(INITIAL, steps, c), steps[b].packet.Key();
            && (k in s.store ==>
                  s.sends[k] + Sum(s.tasks, Owed(k)) + Budget(s.store, k) + Sum(s.tasks, Refusals(k))
                    == 1 + Max0(c.maxRetries))
            && (Lost(INITIAL, steps, c, k) == Some(Exhausted) && NoRoom !in Causes(INITIAL, steps, c, k) ==>
                  s.sends[k] + Sum(s.tasks, Owed(k)) == 1 + Max0(c.maxRetries))
  {
    hide Honest, Paid, Balanced, Unsent, CanRun, After, Packet.Key, Lost, Causes, Sum, Budget;
    InitialSound(c);
    FreshAccounted(INITIAL, steps, c, b);
  }

  /** When no call is under way: such a packet is stored exactly if nothing has happened that makes it leave
      and it is not exhausted; each reason to leave has its own cause; and an exhausted one that never
      found the pending map full has been sent exactly 1 + maxRetries times. */
  lemma EachLossHasItsCause(steps: seq<Step>, c: Config, b: nat)
    requires CanRun(INITIAL, steps, c) && b < |steps| && steps[b].Begin? && Quiescent(After(INITIAL, steps, c))
    requires NoneBegins(steps[..b] + steps[b + 1..], steps[b].packet.Key())
    ensures var s, k := After(INITIAL, steps, c), steps[b].packet.Key();
            var lost, causes := Lost(INITIAL, steps, c, k), Causes(INITIAL, steps, c, k);
            && (k in s.store ==> causes == {} && s.sends[k] + Budget(s.store, k) == 1 + Max0(c.maxRetries))
            && (k !in s.store && causes == {} ==> lost == Some(Exhausted))
            && (lost == Some(Exhausted) && NoRoom !in causes ==> s.sends[k] == 1 + Max0(c.maxRetries))
            && (lost == Some(Acknowledged) ==> AckArrives in causes)
            && (lost == Some(Erased(SendFailed)) ==> SendFails in causes)
            && (lost == Some(Erased(Refused)) || lost == Some(Erased(RetryRefused)) ==> NoRoom in causes)
  {
    hide Honest, Paid, Balanced, Unsent, CanRun, After, Packet.Key, Lost, Causes, Sum, Budget;
    var s, k := After(INITIAL, steps, c), steps[b].packet.Key();
    InitialSound(c);
    FreshAccounted(INITIAL, steps, c, b);
    SumDone(s.tasks, Owed(k));
    SumDone(s.tasks, Refusals(k));
    SumDone(s.tasks, Failures(k));
    SumDone(s.tasks, Acks(k));
    NoCause(Causes(INITIAL, steps, c, k));
    OneFate(Lost(INITIAL, steps, c, k));
  }

  lemma NoCause(causes: set<Cause>)
    ensures AckArrives !in causes && SendFails !in causes && NoRoom !in causes <==> causes == {}
  {
    forall cause | cause in causes
      ensures cause in {AckArrives, SendFails, NoRoom}
    {
      match cause case AckArrives => case SendFails => case NoRoom =>
    }
  }

  lemma OneFate(lost: Option<Fate>)
    ensures lost in {None, Some(Acknowledged), Some(Exhausted), Some(Erased(Refused)), Some(Erased(SendFailed)),
                     Some(Erased(RetryRefused))}
  {
    if lost.Some? {
      match lost.value case Acknowledged => case Exhausted => case Erased(why) =>
        match why case Refused => case SendFailed => case RetryRefused =>
    }
  }

  // ---------- Room, and what is on the wire ----------

  /** A thread about to register a key finds room if no more keys are in use than the cap. */
  lemma {:induction false} RoomNoRefusal(s: State, steps: seq<Step>, c: Config, k: Key, keys: set<Key>,
                                         lost: Option<Fate>, happened: set<Cause>)
    requires Sound(s, c) && CanRun(s, steps, c) && NoneBegins(steps, k) && Accounted(s, c, k, lost, happened)
    requires RetryProtocol.Within(s, keys) && |keys| <= c.cap && k in keys
    requires forall i | 0 <= i < |steps| && steps[i].Begin? :: steps[i].packet.Key() in keys
    ensures NoRoom !in Causes(s, steps, c, k)
    decreases |steps|
  {
    hide Honest, Paid, Balanced, Unsent, Apply, Enabled, Accounted, FateAt, Packet.Key, Brings;
    if steps != [] {
      HasRoom(s, steps[0], c, k, keys, lost, happened);
      SoundStep(s, steps[0], c);
      AccountedStep(s, steps[0], c, k, lost, happened);
      WithinStep(s, steps[0], c, keys);
      RoomNoRefusal(Apply(s, steps[0], c), steps[1..], c, k, keys, Sooner(lost, FateAt(s, steps[0], k)),
                    happened + CausesAt(s, steps[0], c, k));
    }
  }

  lemma HasRoom(s: State, step: Step, c: Config, k: Key, keys: set<Key>, lost: Option<Fate>, happened: set<Cause>)
    requires Enabled(s, step) && Accounted(s, c, k, lost, happened)
    requires s.pending <= keys && |keys| <= c.cap && k in keys
    ensures !Brings(s, step, c, k, NoRoom)
  {
    hide Sum, Budget, Packet.Key;
    if Brings(s, step, c, k, NoRoom) {
      SumAtLeast(s.tasks, step.task, Tracks(k));
      SubsetSmaller(s.pending, keys, k);
    }
  }

  lemma {:induction false} FreshRoom(s: State, steps: seq<Step>, c: Config, b: nat, keys: set<Key>)
    requires Sound(s, c) && CanRun(s, steps, c) && b < |steps| && steps[b].Begin? && Unknown(s, steps[b].packet.Key())
    requires NoneBegins(steps[..b] + steps[b + 1..], steps[b].packet.Key())
    requires RetryProtocol.Within(s, keys) && |keys| <= c.cap
    requires forall i | 0 <= i < |steps| && steps[i].Begin? :: steps[i].packet.Key() in keys
    ensures NoRoom !in Causes(s, steps, c, steps[b].packet.Key())
    decreases |steps|
  {
    hide Honest, Paid, Balanced, Unsent, Apply, Enabled, Accounted, FateAt, CausesAt, Packet.Key, Unknown;
    var k, s1 := steps[b].packet.Key(), Apply(s, steps[0], c);
    var others := steps[..b] + steps[b + 1..];
    SoundStep(s, steps[0], c);
    WithinStep(s, steps[0], c, keys);
    if b == 0 {
      assert others == steps[1..];
      BeginAccounted(s, steps[b].packet, c);
      RoomNoRefusal(s1, steps[1..], c, k, keys, None, {});
    } else {
      assert others[0] == steps[0] && others[1..] == steps[1..][..b - 1] + steps[1..][b..];
      UnknownStep(s, steps[0], c, k);
      FreshRoom(s1, steps[1..], c, b - 1, keys);
    }
  }

  /** As long as no more keys are in use than the monitor has room for, a packet with a key of its own is
      never refused: unless an acknowledgement arrives or its first send fails, it is sent exactly
      1 + maxRetries times by the time that it has left the store and no call is under way. */
  lemma SentOutInFull(steps: seq<Step>, c: Config, b: nat, keys: set<Key>)
    requires CanRun(INITIAL, steps, c) && b < |steps| && steps[b].Begin? && Quiescent(After(INITIAL, steps, c))
    requires NoneBegins(steps[..b] + steps[b + 1..], steps[b].packet.Key())
    requires |keys| <= c.cap && forall i | 0 <= i < |steps| && steps[i].Begin? :: steps[i].packet.Key() in keys
    ensures var s, k := After(INITIAL, steps, c), steps[b].packet.Key();
            var causes := Causes(INITIAL, steps, c, k);
            && NoRoom !in causes
            && (AckArrives !in causes && SendFails !in causes && k !in s.store ==> s.sends[k] == 1 + Max0(c.maxRetries))
  {
    hide Honest, Paid, Balanced, Unsent, CanRun, After, Packet.Key, Lost, Causes, Budget;
    InitialSound(c);
    FreshRoom(INITIAL, steps, c, b, keys);
    EachLossHasItsCause(steps, c, b);
    NoCause(Causes(INITIAL, steps, c, steps[b].packet.Key()));
  }

  /** The packets on the wire with this key. */
  ghost function Copies(sent: seq<Packet>, k: Key): nat {
    if sent == [] then 0 else Copies(sent[..|sent| - 1], k) + if sent[|sent| - 1].Key() == k then 1 else 0
  }

  /** The sends counted are those made. */
  lemma {:induction false} SendsAreMade(s: State, steps: seq<Step>, c: Config, k: Key)
    requires CanRun(s, steps, c) && s.sends[k] == Copies(s.sent, k)
    ensures After(s, steps, c).sends[k] == Copies(After(s, steps, c).sent, k)
    decreases |steps|
  {
    hide AfterRegion, Packet.Key;
    if steps != [] {
      if steps[0].Advance? {
        RegionMakes(s, s.tasks[steps[0].task], steps[0].ok, c, k);
      }
      SendsAreMade(Apply(s, steps[0], c), steps[1..], c, k);
    }
  }

  lemma RegionMakes(s: State, t: Task, ok: bool, c: Config, k: Key)
    requires s.sends[k] == Copies(s.sent, k)
    ensures Region(s, t, ok, c).sends[k] == Copies(Region(s, t, ok, c).sent, k)
  {
    hide Admits, Timeout, Packet.Key;
    if t.Accepted? || t.Resending? {
      assert (s.sent + [t.packet])[..|s.sent|] == s.sent;
    }
  }

  /** The network may deliver any copies of what was sent, in any order. */
  lemma {:induction false} NetworkIsFree(s: State, copies: seq<nat>, c: Config) returns (steps: seq<Step>)
    requires forall i | 0 <= i < |copies| :: copies[i] < |s.sent|
    ensures CanRun(s, steps, c) && |steps| == |copies|
    ensures After(s, steps, c)
         == s.(delivered := s.delivered + seq(|copies|, i requires 0 <= i < |copies| => s.sent[copies[i]]))
    decreases |copies|
  {
    if copies == [] {
      steps := [];
      assert s.delivered + [] == s.delivered;
    } else {
      var s1 := Apply(s, Deliver(copies[0]), c);
      var rest := NetworkIsFree(s1, copies[1..], c);
      steps := [Deliver(copies[0])] + rest;
      assert steps[1..] == rest;
      assert s1.delivered + seq(|copies[1..]|, i requires 0 <= i < |copies[1..]| => s.sent[copies[1..][i]])
          == s.delivered + seq(|copies|, i requires 0 <= i < |copies| => s.sent[copies[i]]);
    }
  }
}
