/** The same reliability layer on several threads: DelegateMQ/extras/util/RetryMonitor.h and
    DelegateMQ/extras/util/TransportMonitor.h cut at their locks, over a network that loses, repeats
    and reorders packets. Each step is one lock region or one physical send. */
module RetryProtocol {
  import opened Reliability
  import opened Wrappers
  import DuplicateFilter
  import Receiver = Participant

  /** Why an entry is erased by the call that uses it. */
  datatype Failure = Refused | SendFailed | RetryRefused

  /** What a thread still has to do in the call it is in. */
  datatype Task =
    | Stored(packet: Packet)        // SendWithRetry, before Add
    | Accepted(packet: Packet)      // SendWithRetry, before Send
    | Marking(key: Key)             // Send returned 0, isSent still to be set
    | Erasing(key: Key, why: Failure) // Add refused or Send failed, entry still to be erased
    | TimedOut(key: Key)            // taken from the pending map, TIMEOUT not yet reported
    | Acked(key: Key)               // taken from the pending map, SUCCESS not yet reported
    | Retrying(packet: Packet)      // retry decided, before Add
    | Resending(packet: Packet)     // retry registered, before Send
    | Reregistering(key: Key)       // timeout during the first send, before Add
    | Done
  {
    function Key(): Key {
      match this
      case Stored(p) => p.Key() case Accepted(p) => p.Key()
      case Retrying(p) => p.Key() case Resending(p) => p.Key()
      case Marking(k) => k case Erasing(k, _) => k case TimedOut(k) => k
      case Acked(k) => k case Reregistering(k) => k
      case Done => 0
    }
  }

  datatype Config = Config(cap: nat, maxRetries: int)

  datatype State = State(
    pending: set<Key>,
    store: map<Key, RetryEntry>,
    tasks: seq<Task>,
    submitted: set<Packet>,     // packets given to SendWithRetry
    starts: multiset<Key>,      // SendWithRetry calls
    sends: multiset<Key>,       // physical sends
    adds: multiset<Key>,        // Add calls that returned true
    reports: multiset<Key>,     // status callbacks run
    sent: seq<Packet>,          // what the network may deliver, any number of times and in any order
    delivered: seq<Packet>)

  const INITIAL := State({}, map[], [], {}, multiset{}, multiset{}, multiset{}, multiset{}, [], [])

  datatype Step =
    | Begin(packet: Packet)           // first lock region of SendWithRetry
    | Expire(key: Key)                // Process takes an entry; a batch is several of these in a row
    | Ack(key: Key)                   // Remove takes an entry
    | Advance(task: nat, ok: bool)    // a thread runs its next region; ok is the result of Send
    | Deliver(copyOf: nat)

  predicate Admits(s: State, k: Key, c: Config) {
    |s.pending| < c.cap && k !in s.pending
  }

  predicate Enabled(s: State, step: Step) {
    match step
    case Begin(_) => true
    case Expire(k) => k in s.pending
    case Ack(k) => k in s.pending
    case Advance(i, _) => i < |s.tasks| && s.tasks[i] != Done
    case Deliver(j) => j < |s.sent|
  }

  function Apply(s: State, step: Step, c: Config): State
    requires Enabled(s, step)
  {
    match step
    case Begin(p) =>
      s.(store := s.store[p.Key() := RetryEntry(p, c.maxRetries, false)], tasks := s.tasks + [Stored(p)],
         submitted := s.submitted + {p}, starts := s.starts + multiset{p.Key()})
    case Expire(k) => s.(pending := s.pending - {k}, tasks := s.tasks + [TimedOut(k)])
    case Ack(k) => s.(pending := s.pending - {k}, tasks := s.tasks + [Acked(k)])
    case Advance(i, ok) => Region(s, s.tasks[i], ok, c).(tasks := s.tasks[i := AfterRegion(s, s.tasks[i], ok, c)])
    case Deliver(j) => s.(delivered := s.delivered + [s.sent[j]])
  }

  /** What the next region of a task leaves to do. */
  function AfterRegion(s: State, t: Task, ok: bool, c: Config): Task {
    match t
    case Stored(p) => if Admits(s, p.Key(), c) then Accepted(p) else Erasing(p.Key(), Refused)
    case Accepted(p) => if ok then Marking(p.Key()) else Erasing(p.Key(), SendFailed)
    case Retrying(p) => if Admits(s, p.Key(), c) then Resending(p) else Erasing(p.Key(), RetryRefused)
    case TimedOut(k) =>
      if k in s.store && s.store[k].attemptsRemaining > 0
      then if s.store[k].isSent then Retrying(s.store[k].packet) else Reregistering(k)
      else Done
    case _ => Done
  }

  /** What it does to the shared state. */
  function Region(s: State, t: Task, ok: bool, c: Config): State {
    match t
    case Stored(p) => Register(s, p.Key(), c)
    case Accepted(p) => Transmit(s, p)
    case Marking(k) => if k in s.store then s.(store := s.store[k := s.store[k].(isSent := true)]) else s
    case Erasing(k, _) => s.(store := s.store - {k})
    case TimedOut(k) => s.(store := Timeout(s.store, k), reports := s.reports + multiset{k})
    case Acked(k) => s.(store := s.store - {k}, reports := s.reports + multiset{k})
    case Retrying(p) => Register(s, p.Key(), c)
    case Resending(p) => Transmit(s, p)
    case Reregistering(k) => Register(s, k, c)
    case Done => s
  }

  /** TransportMonitor::Add. */
  function Register(s: State, k: Key, c: Config): State {
    if Admits(s, k, c) then s.(pending := s.pending + {k}, adds := s.adds + multiset{k}) else s
  }

  function Transmit(s: State, p: Packet): State {
    s.(sends := s.sends + multiset{p.Key()}, sent := s.sent + [p])
  }

  /** The locked part of the TIMEOUT callback. */
  function Timeout(store: map<Key, RetryEntry>, k: Key): map<Key, RetryEntry> {
    if k !in store then store
    else if store[k].attemptsRemaining <= 0 then store - {k}
    else if store[k].isSent then store[k := store[k].(attemptsRemaining := store[k].attemptsRemaining - 1)]
    else store
  }

  predicate CanRun(s: State, steps: seq<Step>, c: Config)
    decreases |steps|
  {
    steps == [] || (Enabled(s, steps[0]) && CanRun(Apply(s, steps[0], c), steps[1..], c))
  }

  function After(s: State, steps: seq<Step>, c: Config): State
    requires CanRun(s, steps, c)
    decreases |steps|
  {
    if steps == [] then s else After(Apply(s, steps[0], c), steps[1..], c)
  }

  // ---------- Sums over the tasks ----------

  ghost function Sum(tasks: seq<Task>, f: Task -> nat): nat {
    if tasks == [] then 0 else Sum(tasks[..|tasks| - 1], f) + f(tasks[|tasks| - 1])
  }

  lemma SumAppend(tasks: seq<Task>, t: Task, f: Task -> nat)
    ensures Sum(tasks + [t], f) == Sum(tasks, f) + f(t)
  {
    assert (tasks + [t])[..|tasks|] == tasks;
  }

  lemma {:induction false} SumUpdate(tasks: seq<Task>, i: nat, t: Task, f: Task -> nat)
    requires i < |tasks|
    ensures Sum(tasks[i := t], f) == Sum(tasks, f) - f(tasks[i]) + f(t)
  {
    var last := |tasks| - 1;
    if i < last {
      SumUpdate(tasks[..last], i, t, f);
      assert tasks[i := t][..last] == tasks[..last][i := t];
    } else {
      assert tasks[i := t][..last] == tasks[..last];
    }
  }

  /** Physical sends a task is committed to. */
  ghost function Owed(k: Key): Task -> nat {
    (t: Task) => if (t.Stored? || t.Accepted? || t.Retrying? || t.Resending?) && t.Key() == k then 1 else 0
  }

  /** Status callbacks waiting to run. */
  ghost function Queued(k: Key): Task -> nat {
    (t: Task) => if (t.TimedOut? || t.Acked?) && t.Key() == k then 1 else 0
  }

  // ---------- Invariants of every interleaving ----------

  /** Packets stay what they were when submitted, and entries sit under their own key. */
  ghost predicate Honest(s: State) {
    && StoreOk(s.store, s.submitted)
    && (forall t | t in s.tasks :: Carries(t, s.submitted))
    && (forall p | p in s.sent :: p in s.submitted)
    && (forall p | p in s.delivered :: p in s.sent)
  }

  /** Sends made, owed and still allowed fit into 1 + maxRetries for each call with the key. */
  ghost predicate Paid(s: State, c: Config) {
    forall k: Key :: s.sends[k] + Sum(s.tasks, Owed(k)) + Budget(s.store, k) <= (1 + Max0(c.maxRetries)) * s.starts[k]
  }

  /** Every accepted Add has had its one status report, is queued for it, or is pending. */
  ghost predicate Balanced(s: State) {
    forall k: Key :: s.adds[k] == s.reports[k] + Sum(s.tasks, Queued(k)) + (if k in s.pending then 1 else 0)
  }

  /** The task will register or erase the entry of its key. */
  predicate Covers(t: Task, k: Key) {
    t.Key() == k && (t.Stored? || t.Erasing? || t.TimedOut? || t.Acked? || t.Retrying? || t.Reregistering?)
  }

  ghost predicate CoveredKey(s: State, k: Key) {
    k in s.pending || exists t :: t in s.tasks && Covers(t, k)
  }

  /** No stored packet is forgotten. */
  ghost predicate Covered(s: State) {
    forall k | k in s.store :: CoveredKey(s, k)
  }

  predicate FirstSending(t: Task, k: Key) {
    t.Key() == k && (t.Stored? || t.Accepted? || t.Marking? || t.Erasing?)
  }

  /** An entry is unsent only while its SendWithRetry call is under way. */
  ghost predicate Unsent(s: State) {
    forall k | k in s.store && !s.store[k].isSent :: exists t :: t in s.tasks && FirstSending(t, k)
  }

  lemma HonestStep(s: State, step: Step, c: Config)
    requires Honest(s) && Enabled(s, step)
    ensures Honest(Apply(s, step, c))
  {
    hide Region, AfterRegion, StoreOk;
    var s' := Apply(s, step, c);
    match step
    case Advance(i, ok) =>
      RegionHonest(s, s.tasks[i], ok, c);
      RegionCarries(s, s.tasks[i], ok, c);
    case Begin(p) =>
      StoreMore(s.store, s.submitted, p, RetryEntry(p, c.maxRetries, false));
    case Expire(_) =>
    case Ack(_) =>
    case Deliver(_) =>
  }

  ghost predicate Carries(t: Task, submitted: set<Packet>) {
    t.Stored? || t.Accepted? || t.Retrying? || t.Resending? ==> t.packet in submitted
  }

  lemma RegionHonest(s: State, t: Task, ok: bool, c: Config)
    requires StoreOk(s.store, s.submitted) && Carries(t, s.submitted)
    ensures var s' := Region(s, t, ok, c);
            && s'.submitted == s.submitted && StoreOk(s'.store, s.submitted)
            && s'.sent == s.sent + (if t.Accepted? || t.Resending? then [t.packet] else [])
            && s'.delivered == s.delivered
  {
    hide Admits, KeyOf, Packet.Key, Timeout;
    if t.TimedOut? {
      TimeoutHonest(s.store, s.submitted, t.key);
    }
  }

  lemma RegionCarries(s: State, t: Task, ok: bool, c: Config)
    requires StoreOk(s.store, s.submitted) && Carries(t, s.submitted)
    ensures Carries(AfterRegion(s, t, ok, c), s.submitted)
  {
    hide Admits, KeyOf, Packet.Key;
  }

  lemma TimeoutHonest(store: map<Key, RetryEntry>, submitted: set<Packet>, k: Key)
    requires StoreOk(store, submitted)
    ensures StoreOk(Timeout(store, k), submitted)
  {
    hide KeyOf, Packet.Key;
  }

  lemma StoreMore(store: map<Key, RetryEntry>, submitted: set<Packet>, p: Packet, entry: RetryEntry)
    requires StoreOk(store, submitted) && entry.packet == p
    ensures StoreOk(store[p.Key() := entry], submitted + {p})
  {}

  lemma PaidStep(s: State, step: Step, c: Config)
    requires Honest(s) && Paid(s, c) && Enabled(s, step)
    ensures Paid(Apply(s, step, c), c)
  {
    hide Admits, Sum, Region, AfterRegion, Owed, Budget, Max0;
    var s' := Apply(s, step, c);
    forall k: Key
      ensures s'.sends[k] + Sum(s'.tasks, Owed(k)) + Budget(s'.store, k) <= (1 + Max0(c.maxRetries)) * s'.starts[k]
    {
      assert s.sends[k] + Sum(s.tasks, Owed(k)) + Budget(s.store, k) <= (1 + Max0(c.maxRetries)) * s.starts[k];
      TaskSums(s, step, c, Owed(k));
      match step
      case Advance(i, ok) =>
        RegionPays(s, s.tasks[i], ok, c, k);
        RegionStarts(s, s.tasks[i], ok, c);
      case Begin(p) => BeginPays(s, p, c, k);
      case Expire(_) => NothingOwed(step.key, k);
      case Ack(_) => NothingOwed(step.key, k);
      case Deliver(_) =>
    }
  }

  lemma RegionPays(s: State, t: Task, ok: bool, c: Config, k: Key)
    requires StoreOk(s.store, s.submitted)
    ensures var s' := Region(s, t, ok, c);
            && s'.sends[k] + Owed(k)(AfterRegion(s, t, ok, c)) + Budget(s'.store, k)
                 <= s.sends[k] + Owed(k)(t) + Budget(s.store, k)
  {
    hide Admits, KeyOf, Packet.Key, Timeout;
    if t.TimedOut? {
      TimeoutPays(s.store, s.submitted, t.key, k);
    }
  }

  lemma RegionStarts(s: State, t: Task, ok: bool, c: Config)
    ensures Region(s, t, ok, c).starts == s.starts
  {
    hide Admits, Timeout;
  }

  lemma TimeoutPays(store: map<Key, RetryEntry>, submitted: set<Packet>, key: Key, k: Key)
    requires StoreOk(store, submitted)
    ensures var retries := key in store && store[key].attemptsRemaining > 0 && store[key].isSent;
            Budget(Timeout(store, key), k) + (if retries && key == k then 1 else 0) <= Budget(store, k)
    ensures key in store ==> store[key].packet.Key() == key
  {
    hide KeyOf;
  }

  lemma BeginPays(s: State, p: Packet, c: Config, k: Key)
    ensures var s' := Apply(s, Begin(p), c);
            && Owed(k)(Stored(p)) + Budget(s'.store, k) + (1 + Max0(c.maxRetries)) * s.starts[k]
                 <= Budget(s.store, k) + (1 + Max0(c.maxRetries)) * s'.starts[k]
            && s'.sends == s.sends
  {
    if k == p.Key() {
      assert (s.starts + multiset{k})[k] == s.starts[k] + 1;
      assert (1 + Max0(c.maxRetries)) * (s.starts[k] + 1)
             == (1 + Max0(c.maxRetries)) * s.starts[k] + (1 + Max0(c.maxRetries));
    }
  }

  lemma NothingOwed(key: Key, k: Key)
    ensures Owed(k)(TimedOut(key)) == 0 && Owed(k)(Acked(key)) == 0
  {}

  lemma BalancedStep(s: State, step: Step, c: Config)
    requires Honest(s) && Balanced(s) && Enabled(s, step)
    ensures Balanced(Apply(s, step, c))
  {
    hide Sum, Timeout, Honest;
    var s' := Apply(s, step, c);
    forall k: Key
      ensures s'.adds[k] == s'.reports[k] + Sum(s'.tasks, Queued(k)) + (if k in s'.pending then 1 else 0)
    {
      assert s.adds[k] == s.reports[k] + Sum(s.tasks, Queued(k)) + (if k in s.pending then 1 else 0);
      TaskSums(s, step, c, Queued(k));
      if step.Advance? {
        RegionReports(s, s.tasks[step.task], step.ok, c, k);
      }
    }
  }

  lemma RegionReports(s: State, t: Task, ok: bool, c: Config, k: Key)
    ensures var s' := Region(s, t, ok, c);
            s'.adds[k] - s.adds[k] == s'.reports[k] - s.reports[k]
              + Queued(k)(AfterRegion(s, t, ok, c)) - Queued(k)(t)
              + (if k in s'.pending then 1 else 0) - (if k in s.pending then 1 else 0)
  {
    hide KeyOf, Packet.Key, Timeout;
  }

  lemma UnsentStep(s: State, step: Step, c: Config)
    requires Unsent(s) && Enabled(s, step)
    ensures Unsent(Apply(s, step, c))
  {
    hide Region, AfterRegion, KeyOf;
    var s' := Apply(s, step, c);
    forall k | k in s'.store && !s'.store[k].isSent
      ensures exists t :: t in s'.tasks && FirstSending(t, k)
    {
      if step.Advance? {
        RegionUnsent(s, s.tasks[step.task], step.ok, c, k);
      }
      if k in s.store && !s.store[k].isSent {
        var t :| t in s.tasks && FirstSending(t, k);
        KeptOrMoved(s, step, c, t);
      } else {
        assert step.Begin? && s'.tasks[|s.tasks|] == Stored(step.packet);
        assert FirstSending(Stored(step.packet), k);
      }
    }
  }

  lemma RegionUnsent(s: State, t: Task, ok: bool, c: Config, k: Key)
    requires k in Region(s, t, ok, c).store && !Region(s, t, ok, c).store[k].isSent
    ensures k in s.store && !s.store[k].isSent
    ensures FirstSending(t, k) ==> FirstSending(AfterRegion(s, t, ok, c), k)
  {
    hide Admits;
  }

  /** A step leaves every task where it is but the one it moves on. */
  lemma KeptOrMoved(s: State, step: Step, c: Config, t: Task)
    requires Enabled(s, step) && t in s.tasks
    ensures t in Apply(s, step, c).tasks
         || (step.Advance? && t == s.tasks[step.task] && AfterRegion(s, t, step.ok, c) in Apply(s, step, c).tasks)
  {
    hide Region, AfterRegion;
    var s' := Apply(s, step, c);
    var j :| 0 <= j < |s.tasks| && s.tasks[j] == t;
    assert step.Advance? && step.task == j ==> s'.tasks[j] == AfterRegion(s, t, step.ok, c);
    assert !(step.Advance? && step.task == j) ==> s'.tasks[j] == t;
  }

  lemma TaskSums(s: State, step: Step, c: Config, f: Task -> nat)
    requires Enabled(s, step)
    ensures var s' := Apply(s, step, c);
            match step
            case Advance(i, ok) =>
              Sum(s'.tasks, f) == Sum(s.tasks, f) - f(s.tasks[i]) + f(AfterRegion(s, s.tasks[i], ok, c))
            case Begin(p) => Sum(s'.tasks, f) == Sum(s.tasks, f) + f(Stored(p))
            case Expire(k) => Sum(s'.tasks, f) == Sum(s.tasks, f) + f(TimedOut(k))
            case Ack(k) => Sum(s'.tasks, f) == Sum(s.tasks, f) + f(Acked(k))
            case Deliver(_) => s'.tasks == s.tasks
  {
    hide Region, AfterRegion;
    match step
    case Advance(i, ok) => SumUpdate(s.tasks, i, AfterRegion(s, s.tasks[i], ok, c), f);
    case Begin(p) => SumAppend(s.tasks, Stored(p), f);
    case Expire(k) => SumAppend(s.tasks, TimedOut(k), f);
    case Ack(k) => SumAppend(s.tasks, Acked(k), f);
    case Deliver(_) =>
  }

  // ---------- The one step that forgets a packet ----------

  /** A re-registration refused by the cap, with nobody else looking after the stored packet. */
  ghost predicate Leaks(s: State, step: Step, c: Config)
    requires Enabled(s, step)
  {
    && step.Advance? && s.tasks[step.task].Reregistering?
    && var k := s.tasks[step.task].key;
       && |s.pending| >= c.cap && k !in s.pending && k in s.store
       && forall j | 0 <= j < |s.tasks| && Covers(s.tasks[j], k) :: j == step.task
  }

  /** Every step keeps every stored packet looked after, except exactly that one. */
  lemma CoveredIff(s: State, step: Step, c: Config)
    requires Honest(s) && Covered(s) && Enabled(s, step)
    ensures Covered(Apply(s, step, c)) <==> !Leaks(s, step, c)
  {
    hide Honest, Admits, Covers;
    var s' := Apply(s, step, c);
    if Leaks(s, step, c) {
      LeakUncovers(s, step, c);
    } else {
      forall k | k in s'.store
        ensures CoveredKey(s', k)
      {
        StaysCovered(s, step, c, k);
      }
    }
  }

  lemma LeakUncovers(s: State, step: Step, c: Config)
    requires Enabled(s, step) && Leaks(s, step, c)
    ensures var k := s.tasks[step.task].key;
            var s' := Apply(s, step, c);
            k in s'.store && !CoveredKey(s', k)
  {
    var k, i := s.tasks[step.task].key, step.task;
    var s' := Apply(s, step, c);
    assert s'.pending == s.pending;
    forall t | t in s'.tasks
      ensures !Covers(t, k)
    {
      var j :| 0 <= j < |s'.tasks| && s'.tasks[j] == t;
      assert j != i ==> s.tasks[j] == t;
    }
  }

  lemma StaysCovered(s: State, step: Step, c: Config, k: Key)
    requires Honest(s) && Covered(s) && Enabled(s, step) && !Leaks(s, step, c)
    requires k in Apply(s, step, c).store
    ensures CoveredKey(Apply(s, step, c), k)
  {
    hide Honest, Region, AfterRegion;
    var s' := Apply(s, step, c);
    if step.Advance? {
      AdvanceCovers(s, step.task, step.ok, c, k);
    } else {
      if step.Begin? {
        assert s'.tasks[|s.tasks|] == Stored(step.packet) && Covers(Stored(step.packet), step.packet.Key());
      }
      if step.Expire? {
        assert s'.tasks[|s.tasks|] == TimedOut(step.key) && Covers(TimedOut(step.key), step.key);
      }
      if step.Ack? {
        assert s'.tasks[|s.tasks|] == Acked(step.key) && Covers(Acked(step.key), step.key);
      }
      if k in s.store && k !in s.pending {
        var t :| t in s.tasks && Covers(t, k);
        KeptOrMoved(s, step, c, t);
      }
    }
  }

  lemma AdvanceCovers(s: State, i: nat, ok: bool, c: Config, k: Key)
    requires i < |s.tasks| && s.tasks[i] != Done && Honest(s) && Covered(s) && !Leaks(s, Advance(i, ok), c)
    requires k in Apply(s, Advance(i, ok), c).store
    ensures CoveredKey(Apply(s, Advance(i, ok), c), k)
  {
    hide StoreOk, Region, AfterRegion, Admits;
    var t := s.tasks[i];
    var s' := Apply(s, Advance(i, ok), c);
    var t' := AfterRegion(s, t, ok, c);
    RegionCovers(s, t, ok, c, k);
    assert s'.tasks[i] == t';
    if k !in s'.pending && !Covers(t', k) {
      var j :| 0 <= j < |s.tasks| && j != i && Covers(s.tasks[j], k);
      assert s'.tasks[j] == s.tasks[j];
    }
  }

  lemma RegionCovers(s: State, t: Task, ok: bool, c: Config, k: Key)
    requires StoreOk(s.store, s.submitted)
    requires k in Region(s, t, ok, c).store
    ensures k in s.store && s.pending <= Region(s, t, ok, c).pending
    ensures Covers(t, k) ==> Covers(AfterRegion(s, t, ok, c), k) || k in Region(s, t, ok, c).pending
                             || (t.Reregistering? && |s.pending| >= c.cap && k !in s.pending)
  {
    hide KeyOf, Packet.Key, Timeout;
    if t.TimedOut? {
      TimeoutCovers(s.store, s.submitted, t.key, k);
    }
  }

  lemma TimeoutCovers(store: map<Key, RetryEntry>, submitted: set<Packet>, key: Key, k: Key)
    requires StoreOk(store, submitted) && k in Timeout(store, key)
    ensures k in store && store[k].packet.Key() == k
    ensures k == key ==> store[k].attemptsRemaining > 0
  {
    hide KeyOf, Packet.Key;
  }

  // ---------- Whole runs ----------

  ghost predicate Sound(s: State, c: Config) {
    Honest(s) && Paid(s, c) && Balanced(s) && Unsent(s)
  }

  lemma SoundStep(s: State, step: Step, c: Config)
    requires Sound(s, c) && Enabled(s, step)
    ensures Sound(Apply(s, step, c), c)
  {
    hide Honest, Paid, Balanced, Unsent, Apply, Enabled;
    HonestStep(s, step, c);
    PaidStep(s, step, c);
    BalancedStep(s, step, c);
    UnsentStep(s, step, c);
  }

  lemma {:induction false} RunKeepsSound(s: State, steps: seq<Step>, c: Config)
    requires Sound(s, c) && CanRun(s, steps, c)
    ensures Sound(After(s, steps, c), c)
    decreases |steps|
  {
    hide Honest, Paid, Balanced, Unsent, Apply, Enabled;
    if steps != [] {
      SoundStep(s, steps[0], c);
      RunKeepsSound(Apply(s, steps[0], c), steps[1..], c);
    }
  }

  lemma InitialSound(c: Config)
    ensures Sound(INITIAL, c) && Covered(INITIAL)
  {}

  /** The run takes no step that forgets a packet. */
  ghost predicate NoLeak(s: State, steps: seq<Step>, c: Config)
    requires CanRun(s, steps, c)
    decreases |steps|
  {
    steps == [] || (!Leaks(s, steps[0], c) && NoLeak(Apply(s, steps[0], c), steps[1..], c))
  }

  lemma {:induction false} NoneForgotten(s: State, steps: seq<Step>, c: Config)
    requires Sound(s, c) && Covered(s) && CanRun(s, steps, c) && NoLeak(s, steps, c)
    ensures Covered(After(s, steps, c))
    decreases |steps|
  {
    hide Honest, Paid, Balanced, Unsent, Covered, Leaks, Apply, Enabled;
    if steps != [] {
      CoveredIff(s, steps[0], c);
      SoundStep(s, steps[0], c);
      NoneForgotten(Apply(s, steps[0], c), steps[1..], c);
    }
  }

  ghost predicate Quiescent(s: State) {
    forall i | 0 <= i < |s.tasks| :: s.tasks[i] == Done
  }

  /** Once no call is under way, what the serialized monitors keep between calls holds here too. */
  lemma SettlesTracked(steps: seq<Step>, c: Config)
    requires CanRun(INITIAL, steps, c) && NoLeak(INITIAL, steps, c) && Quiescent(After(INITIAL, steps, c))
    ensures var s := After(INITIAL, steps, c); Following(s.store, s.pending)
  {
    hide Honest, Paid, Balanced, CanRun, After, NoLeak;
    InitialSound(c);
    RunKeepsSound(INITIAL, steps, c);
    NoneForgotten(INITIAL, steps, c);
  }

  /** With a key used by one SendWithRetry call only, the message is sent at most 1 + maxRetries
      times; in general that holds for each call with the key. */
  lemma SendBound(steps: seq<Step>, c: Config, k: Key)
    requires CanRun(INITIAL, steps, c)
    ensures var s := After(INITIAL, steps, c);
            && s.sends[k] <= (1 + Max0(c.maxRetries)) * s.starts[k]
            && (s.starts[k] == 1 ==> s.sends[k] <= 1 + Max0(c.maxRetries))
  {
    hide Honest, Balanced, Unsent, CanRun, After, Budget, Max0, Sum;
    InitialSound(c);
    RunKeepsSound(INITIAL, steps, c);
    var s := After(INITIAL, steps, c);
    assert s.sends[k] + Sum(s.tasks, Owed(k)) + Budget(s.store, k) <= (1 + Max0(c.maxRetries)) * s.starts[k];
  }

  /** When nothing is under way and nothing is pending, statuses and accepted Adds are the same. */
  lemma OneStatusEach(steps: seq<Step>, c: Config)
    requires CanRun(INITIAL, steps, c)
    ensures var s := After(INITIAL, steps, c);
            && s.reports <= s.adds
            && (Quiescent(s) ==> s.adds == s.reports + multiset(s.pending))
  {
    hide Honest, Paid, Unsent, CanRun, After;
    InitialSound(c);
    RunKeepsSound(INITIAL, steps, c);
    var s := After(INITIAL, steps, c);
    forall k: Key
      ensures s.adds[k] == s.reports[k] + Sum(s.tasks, Queued(k)) + (if k in s.pending then 1 else 0)
      ensures Quiescent(s) ==> Sum(s.tasks, Queued(k)) == 0
    {
      if Quiescent(s) {
        SumDone(s.tasks, Queued(k));
      }
    }
  }

  lemma {:induction false} SumDone(tasks: seq<Task>, f: Task -> nat)
    requires f(Done) == 0 && forall i | 0 <= i < |tasks| :: tasks[i] == Done
    ensures Sum(tasks, f) == 0
  {
    if tasks != [] {
      SumDone(tasks[..|tasks| - 1], f);
    }
  }

  // ---------- Room for every key ----------

  /** Only these keys are anywhere in the system. */
  ghost predicate Within(s: State, keys: set<Key>) {
    && s.pending <= keys && s.store.Keys <= keys
    && forall i | 0 <= i < |s.tasks| :: s.tasks[i] != Done ==> s.tasks[i].Key() in keys
  }

  lemma WithinStep(s: State, step: Step, c: Config, keys: set<Key>)
    requires Honest(s) && Within(s, keys) && Enabled(s, step)
    requires step.Begin? ==> step.packet.Key() in keys
    ensures Within(Apply(s, step, c), keys)
  {
    hide Region, AfterRegion, Packet.Key, StoreOk;
    if step.Advance? {
      RegionWithin(s, s.tasks[step.task], step.ok, c, keys);
      NextWithin(s, s.tasks[step.task], step.ok, c, keys);
    }
  }

  lemma RegionWithin(s: State, t: Task, ok: bool, c: Config, keys: set<Key>)
    requires StoreOk(s.store, s.submitted) && s.pending <= keys && s.store.Keys <= keys
    requires t != Done && t.Key() in keys
    ensures Region(s, t, ok, c).pending <= keys && Region(s, t, ok, c).store.Keys <= keys
  {
    hide Packet.Key, KeyOf, Admits, StoreOk;
  }

  lemma NextWithin(s: State, t: Task, ok: bool, c: Config, keys: set<Key>)
    requires StoreOk(s.store, s.submitted) && s.store.Keys <= keys
    requires t != Done && t.Key() in keys
    ensures var t' := AfterRegion(s, t, ok, c); t' != Done ==> t'.Key() in keys
  {
    hide Packet.Key, KeyOf, Admits;
  }

  lemma RoomNoLeak(s: State, step: Step, c: Config, keys: set<Key>)
    requires Within(s, keys) && Enabled(s, step) && |keys| <= c.cap
    ensures !Leaks(s, step, c)
  {
    if Leaks(s, step, c) {
      var k := s.tasks[step.task].key;
      SubsetSmaller(s.pending, keys, k);
    }
  }

  /** As long as no more keys are in use than the monitor has room for, no run forgets a packet. */
  lemma {:induction false} RoomForAll(s: State, steps: seq<Step>, c: Config, keys: set<Key>)
    requires Sound(s, c) && Within(s, keys) && CanRun(s, steps, c) && |keys| <= c.cap
    requires forall i | 0 <= i < |steps| && steps[i].Begin? :: steps[i].packet.Key() in keys
    ensures NoLeak(s, steps, c)
    decreases |steps|
  {
    hide Paid, Balanced, Unsent, Leaks, Apply, Enabled, Within, Honest, Packet.Key;
    if steps != [] {
      SoundStep(s, steps[0], c);
      WithinStep(s, steps[0], c, keys);
      RoomNoLeak(s, steps[0], c, keys);
      RoomForAll(Apply(s, steps[0], c), steps[1..], c, keys);
    }
  }

  // ---------- End to end ----------

  /** What the receiver sees of the deliveries. */
  function Wire(delivered: seq<Packet>): (packets: seq<Receiver.Packet>)
    ensures |packets| == |delivered|
    ensures forall i | 0 <= i < |delivered| ::
              packets[i] == Receiver.Packet(Receiver.MARKER, delivered[i].id, delivered[i].seqNum, delivered[i].payload)
  {
    seq(|delivered|, i requires 0 <= i < |delivered| =>
      Receiver.Packet(Receiver.MARKER, delivered[i].id, delivered[i].seqNum, delivered[i].payload))
  }

  /** The sequence numbers submitted on one id. */
  ghost function NumbersOn(submitted: set<Packet>, id: Word): set<DuplicateFilter.SeqNum> {
    set p | p in submitted && p.id == id :: p.seqNum
  }

  /** In every run of the senders over every behaviour of the network, a packet that runs a handler is
      one that was submitted, payload and all; and two copies of it both run the handler only if
      historySize other packets of the id did so in between. */
  lemma EndToEnd(steps: seq<Step>, c: Config, channels: set<Receiver.RemoteId>, historySize: nat, i: nat, k: nat)
    requires CanRun(INITIAL, steps, c)
    requires var s := After(INITIAL, steps, c);
             && i < k < |s.delivered| && s.delivered[i].Key() == s.delivered[k].Key()
             && s.delivered[k].id != Receiver.ACK_REMOTE_ID
    requires var packets := Wire(After(INITIAL, steps, c).delivered);
             Receiver.Runs(packets, channels, historySize, i) && Receiver.Runs(packets, channels, historySize, k)
    ensures var s := After(INITIAL, steps, c);
            s.delivered[i] in s.submitted && s.delivered[k] in s.submitted
    ensures var s := After(INITIAL, steps, c);
            Receiver.RunsOn(Wire(s.delivered), channels, historySize, s.delivered[k].id, i + 1, k) >= historySize
  {
    hide Paid, Balanced, Unsent, CanRun, After, Receiver.Runs, Receiver.RunsOn, KeyOf;
    var s := After(INITIAL, steps, c);
    InitialSound(c);
    RunKeepsSound(INITIAL, steps, c);
    KeyInjective(s.delivered[i].id, s.delivered[i].seqNum, s.delivered[k].id, s.delivered[k].seqNum);
    Receiver.PacketAtMostOnce(Wire(s.delivered), channels, historySize, i, k);
  }

  /** As long as no more than historySize sequence numbers are used on an id with a handler, each of them
      that arrives runs the handler exactly once, with a submitted packet. */
  lemma OncePerNumber(steps: seq<Step>, c: Config, channels: set<Receiver.RemoteId>, historySize: nat, k: nat)
    returns (j: nat)
    requires CanRun(INITIAL, steps, c)
    requires var s := After(INITIAL, steps, c);
             && k < |s.delivered| && s.delivered[k].id != Receiver.ACK_REMOTE_ID && s.delivered[k].id in channels
             && |NumbersOn(s.submitted, s.delivered[k].id)| <= historySize
    ensures var s := After(INITIAL, steps, c);
            && j <= k && s.delivered[j].Key() == s.delivered[k].Key() && s.delivered[j] in s.submitted
            && Receiver.Runs(Wire(s.delivered), channels, historySize, j)
            && forall i | 0 <= i < |s.delivered| && i != j && s.delivered[i].Key() == s.delivered[k].Key() ::
                 !Receiver.Runs(Wire(s.delivered), channels, historySize, i)
  {
    hide Paid, Balanced, Unsent, CanRun, After, Receiver.Runs, KeyOf;
    var s := After(INITIAL, steps, c);
    InitialSound(c);
    RunKeepsSound(INITIAL, steps, c);
    var packets, numbers := Wire(s.delivered), NumbersOn(s.submitted, s.delivered[k].id);
    j := Receiver.EachRunsOnce(packets, channels, historySize, numbers, k);
    forall i | 0 <= i < |s.delivered|
      ensures s.delivered[i].Key() == s.delivered[k].Key()
         <==> packets[i].id == packets[k].id && packets[i].seqNum == packets[k].seqNum
    {
      KeyInjective(s.delivered[i].id, s.delivered[i].seqNum, s.delivered[k].id, s.delivered[k].seqNum);
    }
  }

  // ---------- A run that forgets a packet ----------

  lemma {:induction false} RunOneMore(s: State, steps: seq<Step>, step: Step, c: Config)
    requires CanRun(s, steps, c) && Enabled(After(s, steps, c), step)
    ensures CanRun(s, steps + [step], c)
    ensures After(s, steps + [step], c) == Apply(After(s, steps, c), step, c)
    decreases |steps|
  {
    hide Apply, Enabled;
    if steps == [] {
      assert [step][1..] == [];
    } else {
      RunOneMore(Apply(s, steps[0], c), steps[1..], step, c);
      assert (steps + [step])[1..] == steps[1..] + [step];
    }
  }

  lemma EmptyRun(s: State, c: Config)
    ensures CanRun(s, [], c) && After(s, [], c) == s
  {}

  /** Two messages, room for one. */
  function LeakingRun(a: Packet, b: Packet): seq<Step> {
    [Begin(a), Advance(0, true),        // a is registered, its first send still to come
     Expire(a.Key()),                   // and already times out
     Begin(b), Advance(1, true),        // the callback finds a unsent and decides to register it again
     Advance(2, true),                  // b takes the room
     Advance(1, true),                  // registering a again is refused, and nobody looks at the result
     Advance(0, true), Advance(0, true),
     Advance(2, true), Advance(2, true)]
  }

  /** The callback has decided to register a again, and b has taken the room meanwhile. */
  lemma LeakPrepared(a: Packet, b: Packet, c: Config)
    requires a.Key() != b.Key() && c.maxRetries > 0 && c.cap == 1
    ensures CanRun(INITIAL, LeakingRun(a, b)[..6], c)
    ensures var s := After(INITIAL, LeakingRun(a, b)[..6], c);
            && s.tasks == [Accepted(a), Reregistering(a.Key()), Accepted(b)] && s.pending == {b.Key()}
            && s.store == map[a.Key() := RetryEntry(a, c.maxRetries, false),
                              b.Key() := RetryEntry(b, c.maxRetries, false)]
  {
    EmptyRun(INITIAL, c);
    hide KeyOf, Packet.Key, After, CanRun;
    var run := LeakingRun(a, b);
    assert run[..1] == [] + [Begin(a)];
    RunOneMore(INITIAL, [], Begin(a), c);
    assert run[..2] == run[..1] + [run[1]];
    RunOneMore(INITIAL, run[..1], run[1], c);
    assert run[..3] == run[..2] + [run[2]];
    RunOneMore(INITIAL, run[..2], run[2], c);
    assert After(INITIAL, run[..3], c).tasks == [Accepted(a), TimedOut(a.Key())];
    assert run[..4] == run[..3] + [run[3]];
    RunOneMore(INITIAL, run[..3], run[3], c);
    assert run[..5] == run[..4] + [run[4]];
    RunOneMore(INITIAL, run[..4], run[4], c);
    assert After(INITIAL, run[..5], c).tasks == [Accepted(a), Reregistering(a.Key()), Stored(b)];
    assert run[..6] == run[..5] + [run[5]];
    RunOneMore(INITIAL, run[..5], run[5], c);
  }

  lemma FollowingAt(store: map<Key, RetryEntry>, pending: set<Key>, k: Key)
    requires Following(store, pending) && k in store
    ensures k in pending
  {}

  /** All calls have returned, both sends succeeded, and a is stored but will never be acknowledged,
      retried or removed. */
  lemma LeakHappens(a: Packet, b: Packet, c: Config)
    requires a.Key() != b.Key() && c.maxRetries > 0 && c.cap == 1
    ensures CanRun(INITIAL, LeakingRun(a, b), c) && !NoLeak(INITIAL, LeakingRun(a, b), c)
    ensures var s := After(INITIAL, LeakingRun(a, b), c);
            Quiescent(s) && s.pending == {b.Key()} && a.Key() in s.store && s.store[a.Key()].isSent
  {
    hide KeyOf, Packet.Key, After, CanRun, NoLeak, Reliability.Following;
    var run := LeakingRun(a, b);
    LeakPrepared(a, b, c);
    assert run[..7] == run[..6] + [run[6]];
    RunOneMore(INITIAL, run[..6], run[6], c);
    assert run[..8] == run[..7] + [run[7]];
    RunOneMore(INITIAL, run[..7], run[7], c);
    assert run[..9] == run[..8] + [run[8]];
    RunOneMore(INITIAL, run[..8], run[8], c);
    assert After(INITIAL, run[..9], c).tasks == [Done, Done, Accepted(b)];
    assert run[..10] == run[..9] + [run[9]];
    RunOneMore(INITIAL, run[..9], run[9], c);
    assert run == run[..10] + [run[10]];
    RunOneMore(INITIAL, run[..10], run[10], c);
    assert After(INITIAL, run, c).tasks == [Done, Done, Done];
    if NoLeak(INITIAL, run, c) {
      SettlesTracked(run, c);
      FollowingAt(After(INITIAL, run, c).store, After(INITIAL, run, c).pending, a.Key());
    }
  }

  // ---------- A run whose key wraps ----------

  /** a is sent; b comes with the same key while a waits for its acknowledgement. */
  function WrappedRun(a: Packet, b: Packet): seq<Step> {
    [Begin(a), Advance(0, true), Advance(0, true), Advance(0, true),
     Begin(b),                          // overwrites the entry of a
     Advance(1, true),                  // is refused, for the key is pending
     Advance(1, true)]                  // and erases the entry
  }

  lemma WrapPrepared(a: Packet, b: Packet, c: Config)
    requires a.Key() == b.Key() && c.cap > 0
    ensures CanRun(INITIAL, WrappedRun(a, b)[..4], c) && NoLeak(INITIAL, WrappedRun(a, b)[..4], c)
    ensures var s := After(INITIAL, WrappedRun(a, b)[..4], c);
            s.pending == {a.Key()} && a.Key() in s.store && s.tasks == [Done] && s.sent == [a]
  {
    EmptyRun(INITIAL, c);
    assert NoLeak(INITIAL, [], c);
    hide KeyOf, Packet.Key, After, CanRun, NoLeak;
    var run := WrappedRun(a, b);
    assert run[..1] == [] + [run[0]];
    NoLeakOneMore(INITIAL, [], run[0], c);
    assert run[..2] == run[..1] + [run[1]];
    NoLeakOneMore(INITIAL, run[..1], run[1], c);
    assert run[..3] == run[..2] + [run[2]];
    NoLeakOneMore(INITIAL, run[..2], run[2], c);
    assert run[..4] == run[..3] + [run[3]];
    NoLeakOneMore(INITIAL, run[..3], run[3], c);
  }

  /** Nothing leaks, all calls have returned, and a waits for an acknowledgement with nothing left to retry. */
  lemma WrappedKeyForgets(a: Packet, b: Packet, c: Config)
    requires a.Key() == b.Key() && c.cap > 0
    ensures CanRun(INITIAL, WrappedRun(a, b), c) && NoLeak(INITIAL, WrappedRun(a, b), c)
    ensures var s := After(INITIAL, WrappedRun(a, b), c);
            Quiescent(s) && s.sent == [a] && s.pending == {a.Key()} && a.Key() !in s.store
  {
    hide KeyOf, Packet.Key, After, CanRun, NoLeak;
    var run := WrappedRun(a, b);
    WrapPrepared(a, b, c);
    assert run[..5] == run[..4] + [run[4]];
    NoLeakOneMore(INITIAL, run[..4], run[4], c);
    assert run[..6] == run[..5] + [run[5]];
    NoLeakOneMore(INITIAL, run[..5], run[5], c);
    assert After(INITIAL, run[..6], c).tasks == [Done, Erasing(b.Key(), Refused)];
    assert run == run[..6] + [run[6]];
    NoLeakOneMore(INITIAL, run[..6], run[6], c);
  }

  lemma {:induction false} NoLeakOneMore(s: State, steps: seq<Step>, step: Step, c: Config)
    requires CanRun(s, steps, c) && NoLeak(s, steps, c)
    requires Enabled(After(s, steps, c), step) && !Leaks(After(s, steps, c), step, c)
    ensures CanRun(s, steps + [step], c) && NoLeak(s, steps + [step], c)
    ensures After(s, steps + [step], c) == Apply(After(s, steps, c), step, c)
    decreases |steps|
  {
    hide Apply, Enabled, Leaks;
    if steps == [] {
      assert [step][1..] == [];
    } else {
      NoLeakOneMore(Apply(s, steps[0], c), steps[1..], step, c);
      assert (steps + [step])[1..] == steps[1..] + [step];
    }
  }
}
