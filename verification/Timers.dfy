/** DelegateMQ/extras/util/Timer.cpp: an intrusive list of timers from which stopped ones are removed
    late, and the deadlines of periodic timers. Every operation here runs under the timer lock. */
module Timers {

  // ---------- Deadlines ----------

  /** The timing of one timer since its last Start. */
  datatype Timing = Timing(
    timeout: int,
    once: bool,
    enabled: bool,
    expireTime: int,
    started: int,          // when Start was called
    fires: seq<int>,       // when it has expired since, oldest first
    onTime: bool)          // it was never found behind its next deadline

  function Started(now: int, timeout: int, once: bool): Timing {
    Timing(timeout, once, true, now + timeout, now, [], true)
  }

  /** The clock readings of one CheckExpired; it may need fewer. */
  datatype Readings = Readings(first: int, second: int, third: int) {
    ghost predicate Ordered() { first <= second <= third }
  }

  predicate Expires(t: Timing, r: Readings) {
    t.enabled && r.first >= t.expireTime
  }

  function Check(t: Timing, r: Readings): Timing {
    if !Expires(t, r) then t
    else if t.once then t.(enabled := false, fires := t.fires + [r.first])
    else if r.second > t.expireTime + t.timeout
      then t.(expireTime := r.third, fires := t.fires + [r.first], onTime := false)
    else t.(expireTime := t.expireTime + t.timeout, fires := t.fires + [r.first])
  }

  /** The k-th firing comes no earlier than k timeouts after the start, and no drift builds up while
      the processing keeps up. A one-shot timer fires once. */
  ghost predicate Punctual(t: Timing) {
    t.enabled || t.fires != [] ==>
      && t.timeout > 0
      && (forall k | 0 <= k < |t.fires| :: t.fires[k] >= t.started + (k + 1) * t.timeout)
      && (t.once ==> |t.fires| == if t.enabled then 0 else 1)
      && (t.enabled ==> t.expireTime >= t.started + (|t.fires| + 1) * t.timeout)
      && (t.enabled && t.onTime ==> t.expireTime == t.started + (|t.fires| + 1) * t.timeout)
  }

  lemma CheckPunctual(t: Timing, r: Readings)
    requires Punctual(t) && r.Ordered()
    ensures Punctual(Check(t, r))
  {
    if Expires(t, r) {
      var n, d := |t.fires|, t.timeout;
      assert (n + 2) * d == (n + 1) * d + d;
    }
  }

  /** A check that finds a periodic timer due moves its deadline on by at least a timeout and never leaves it
      in the past; it moves it further only up to the last reading of the clock. */
  lemma CatchesUp(t: Timing, r: Readings)
    requires r.Ordered() && t.enabled && !t.once && t.timeout > 0 && r.first >= t.expireTime
    ensures var t' := Check(t, r);
            && t'.enabled && t'.fires == t.fires + [r.first]
            && t'.expireTime >= t.expireTime + t.timeout && t'.expireTime >= r.second
            && (t'.expireTime <= r.third || t'.expireTime == t.expireTime + t.timeout)
            && (t'.onTime <==> t.onTime && r.second <= t.expireTime + t.timeout)
  {}

  function CheckRun(t: Timing, readings: seq<Readings>): Timing {
    if readings == [] then t else Check(CheckRun(t, readings[..|readings| - 1]), readings[|readings| - 1])
  }

  /** When the last check began, or the start if there was none. */
  function LastCheck(start: int, readings: seq<Readings>): int {
    if readings == [] then start else readings[|readings| - 1].first
  }

  /** Each check ends at most one timeout after the one before began. */
  ghost predicate InTime(start: int, timeout: int, readings: seq<Readings>) {
    readings == [] ||
      var front, r := readings[..|readings| - 1], readings[|readings| - 1];
      InTime(start, timeout, front) && r.Ordered() && r.second <= LastCheck(start, front) + timeout
  }

  /** Checked that often, a periodic timer is never pushed back: its deadlines are exactly the
      multiples of the timeout after the start, however the checks fall between them. */
  lemma {:induction false} NoDrift(start: int, timeout: int, readings: seq<Readings>)
    requires timeout > 0 && InTime(start, timeout, readings)
    ensures var t := CheckRun(Started(start, timeout, false), readings);
            && t.enabled && !t.once && t.onTime && t.timeout == timeout && t.started == start
            && t.expireTime == start + (|t.fires| + 1) * timeout
            && t.expireTime >= LastCheck(start, readings)
  {
    if readings != [] {
      var front := readings[..|readings| - 1];
      NoDrift(start, timeout, front);
      var n := |CheckRun(Started(start, timeout, false), front).fires|;
      assert (n + 2) * timeout == (n + 1) * timeout + timeout;
    }
  }

  /** The clock does not go back from one check to the next. */
  ghost predicate Forward(start: int, readings: seq<Readings>) {
    readings == [] ||
      var front, r := readings[..|readings| - 1], readings[|readings| - 1];
      Forward(start, front) && LastCheck(start, front) <= r.first
  }

  /** And then it has fired once for each multiple that has been reached, but for the one at which the last
      check began. */
  lemma {:induction false} FiresAtEach(start: int, timeout: int, readings: seq<Readings>)
    requires timeout > 0 && InTime(start, timeout, readings) && Forward(start, readings)
    ensures var n, last := |CheckRun(Started(start, timeout, false), readings).fires|, LastCheck(start, readings);
            start + n * timeout <= last <= start + (n + 1) * timeout
  {
    NoDrift(start, timeout, readings);
    if readings != [] {
      var front := readings[..|readings| - 1];
      NoDrift(start, timeout, front);
      FiresAtEach(start, timeout, front);
      var n := |CheckRun(Started(start, timeout, false), front).fires|;
      assert (n + 2) * timeout == (n + 1) * timeout + timeout;
    }
  }

  /** Checked at any times at all, it still never fires early. */
  lemma {:induction false} NeverEarly(start: int, timeout: int, once: bool, readings: seq<Readings>)
    requires timeout > 0 && forall j | 0 <= j < |readings| :: readings[j].Ordered()
    ensures Punctual(CheckRun(Started(start, timeout, once), readings))
  {
    if readings == [] {
      ArmedPunctual(start, timeout, once);
    } else {
      NeverEarly(start, timeout, once, readings[..|readings| - 1]);
      CheckPunctual(CheckRun(Started(start, timeout, once), readings[..|readings| - 1]), readings[|readings| - 1]);
    }
  }

  lemma ArmedPunctual(now: int, timeout: int, once: bool)
    requires timeout > 0
    ensures Punctual(Started(now, timeout, once))
  {}

  // ---------- The list ----------

  class Clock {
    var time: int

    constructor (time: int)
      ensures this.time == time
    {
      this.time := time;
    }

    /** Time never goes back. */
    method Now() returns (t: int)
      modifies this
      ensures old(time) <= t == time
    {
      var passed: int := *;
      if passed > 0 {
        time := time + passed;
      }
      t := time;
    }
  }

  class Timer {
    var timeout: int
    var expireTime: int
    var enabled: bool
    var once: bool
    var next: Timer?
    ghost var started: int
    ghost var fires: seq<int>
    ghost var onTime: bool

    constructor ()
      ensures !enabled && next == null && fires == []
    {
      timeout, expireTime, enabled, once, next := 0, 0, false, false, null;
      started, fires, onTime := 0, [], true;
    }

    ghost function Schedule(): Timing
      reads this`timeout, this`once, this`enabled, this`expireTime, this`started, this`fires, this`onTime
    {
      Timing(timeout, once, enabled, expireTime, started, fires, onTime)
    }

    method Arm(clock: Clock, timeout: int, once: bool)
      modifies this`timeout, this`once, this`enabled, this`expireTime, this`started, this`fires, this`onTime, clock
      ensures Schedule() == Started(clock.time, timeout, once) && old(clock.time) <= clock.time
    {
      this.timeout, this.once := timeout, once;
      var now := clock.Now();
      expireTime := now + timeout;
      enabled := true;
      started, fires, onTime := now, [], true;
    }

    method CheckExpired(clock: Clock) returns (expired: bool, ghost r: Readings)
      modifies this`enabled, this`expireTime, this`fires, this`onTime, clock
      ensures r.Ordered() && old(clock.time) <= r.first && r.third == clock.time
      ensures expired <==> Expires(old(Schedule()), r)
      ensures Schedule() == Check(old(Schedule()), r)
    {
      hide Punctual;
      r := Readings(clock.time, clock.time, clock.time);
      if !enabled {
        return false, r;
      }
      var now := clock.Now();
      r := Readings(now, now, now);
      if now < expireTime {
        return false, r;
      }
      fires := fires + [now];
      if once {
        enabled := false;
      } else {
        expireTime := expireTime + timeout;
        var later := clock.Now();
        r := Readings(now, later, later);
        if later > expireTime {
          expireTime := clock.Now();
          r := Readings(now, later, expireTime);
          onTime := false;
        }
      }
      expired := true;
    }
  }

  ghost predicate Distinct(list: seq<Timer>) {
    forall i, j | 0 <= i < j < |list| :: list[i] != list[j]
  }

  /** The element at a position of the list, null behind its end. */
  ghost function At(list: seq<Timer>, i: int): Timer? {
    if 0 <= i < |list| then list[i] else null
  }

  /** Following next from the head visits exactly these timers: the list has no cycle. */
  ghost predicate Chained(head: Timer?, list: seq<Timer>)
    reads list`next
  {
    head == At(list, 0) && Distinct(list) && forall i | 0 <= i < |list| :: list[i].next == At(list, i + 1)
  }

  /** The timers of this set, in list order. */
  ghost function Only(list: seq<Timer>, on: set<Timer>): seq<Timer> {
    if list == [] then []
    else
      var t := list[|list| - 1];
      Only(list[..|list| - 1], on) + if t in on then [t] else []
  }

  lemma {:induction false} OnlyMembers(list: seq<Timer>, on: set<Timer>)
    ensures forall t | t in Only(list, on) :: t in list && t in on
    ensures forall t | t in list && t in on :: t in Only(list, on)
    ensures Distinct(list) ==> Distinct(Only(list, on))
  {
    if list != [] {
      OnlyMembers(list[..|list| - 1], on);
      assert list == list[..|list| - 1] + [list[|list| - 1]];
    }
  }

  /** The timers with a hit, in list order: each of them once. */
  ghost function Picked(list: seq<Timer>, hits: seq<bool>): seq<Timer>
    requires |hits| <= |list|
  {
    if hits == [] then []
    else
      var i := |hits| - 1;
      Picked(list, hits[..i]) + if hits[i] then [list[i]] else []
  }

  ghost function Hits(hits: seq<bool>): nat {
    if hits == [] then 0 else Hits(hits[..|hits| - 1]) + if hits[|hits| - 1] then 1 else 0
  }

  /** A timer was visited only while there was room for another expired one. */
  ghost predicate Room(hits: seq<bool>, max: nat) {
    forall j | 0 <= j < |hits| :: Hits(hits[..j]) < max
  }

  lemma HitsEmpty(list: seq<Timer>, max: nat)
    ensures Picked(list, []) == [] && Hits([]) == 0 && Room([], max)
  {}

  lemma HitsStep(list: seq<Timer>, hits: seq<bool>, expired: bool, max: nat)
    requires Room(hits, max) && Hits(hits) < max && |hits| < |list|
    ensures Room(hits + [expired], max) && Hits(hits + [expired]) == Hits(hits) + (if expired then 1 else 0)
    ensures Picked(list, hits + [expired]) == Picked(list, hits) + (if expired then [list[|hits|]] else [])
  {
    var hits' := hits + [expired];
    assert hits'[..|hits|] == hits;
    forall j | 0 <= j < |hits'|
      ensures Hits(hits'[..j]) < max
    {
      assert hits'[..j] == hits[..j];
      if j == |hits| {
        assert hits[..j] == hits;
      }
    }
  }

  ghost function Schedules(list: seq<Timer>): (was: seq<Timing>)
    reads list`timeout, list`once, list`enabled, list`expireTime, list`started, list`fires, list`onTime
    ensures |was| == |list| && forall j | 0 <= j < |list| :: was[j] == list[j].Schedule()
  {
    if list == [] then [] else Schedules(list[..|list| - 1]) + [list[|list| - 1].Schedule()]
  }

  /** The first timers of a list have been checked, with these outcomes; was and now are the timings
      of its timers before and after. */
  ghost predicate Checked(was: seq<Timing>, now: seq<Timing>, hits: seq<bool>, readings: seq<Readings>) {
    && |hits| == |readings| <= |was| == |now|
    && (forall j | 0 <= j < |hits| ::
          (hits[j] <==> Expires(was[j], readings[j])) && now[j] == Check(was[j], readings[j]))
    && (forall j | |hits| <= j < |was| :: now[j] == was[j])
    && (forall j | 0 <= j < |readings| - 1 :: readings[j].third <= readings[j + 1].first)
  }

  lemma CheckedStart(was: seq<Timing>)
    ensures Checked(was, was, [], [])
  {}

  lemma CheckedStep(was: seq<Timing>, now: seq<Timing>, hits: seq<bool>, readings: seq<Readings>, r: Readings)
    requires Checked(was, now, hits, readings) && |hits| < |was|
    requires readings != [] ==> readings[|readings| - 1].third <= r.first
    ensures Checked(was, now[|hits| := Check(now[|hits|], r)], hits + [Expires(now[|hits|], r)], readings + [r])
  {
    hide Check, Expires;
  }

  // ---------- When the limit is exceeded ----------

  /** Every reading falls between these times. */
  ghost predicate Clocked(readings: seq<Readings>, from: int, to: int) {
    forall j | 0 <= j < |readings| :: readings[j].Ordered() && from <= readings[j].first && readings[j].third <= to
  }

  lemma NotClocked(time: int)
    ensures Clocked([], time, time)
  {}

  lemma ClockedStep(readings: seq<Readings>, from: int, to: int, r: Readings, to': int)
    requires Clocked(readings, from, to) && from <= to <= r.first && r.Ordered() && r.third <= to'
    ensures Clocked(readings + [r], from, to')
  {}

  /** The assertion fails exactly if the limit is reached before the end of the list. */
  ghost predicate Outcome(size: nat, hits: seq<bool>, fault: bool, max: nat) {
    if fault then |hits| < size && Hits(hits) == max else |hits| == size && Room(hits, max)
  }

  /** The timers due at a time. */
  ghost function DueAt(was: seq<Timing>, now: int): nat {
    if was == [] then 0
    else
      var t := was[|was| - 1];
      DueAt(was[..|was| - 1], now) + if t.enabled && now >= t.expireTime then 1 else 0
  }

  /** The limit is reached by timers other than the last one. */
  ghost predicate TooManyDue(was: seq<Timing>, now: int, max: nat) {
    was != [] && DueAt(was[..|was| - 1], now) >= max
  }

  lemma {:induction false} HitsAtMost(hits: seq<bool>)
    ensures Hits(hits) <= |hits|
  {
    if hits != [] {
      HitsAtMost(hits[..|hits| - 1]);
    }
  }

  lemma {:induction false} HitsOfDue(was: seq<Timing>, now: seq<Timing>, hits: seq<bool>, readings: seq<Readings>,
                                     from: int, to: int, n: nat)
    requires Checked(was, now, hits, readings) && Clocked(readings, from, to) && n <= |hits|
    ensures Hits(hits[..n]) >= DueAt(was[..n], from)
    ensures from == to ==> Hits(hits[..n]) == DueAt(was[..n], from)
  {
    hide Check;
    if n > 0 {
      HitsOfDue(was, now, hits, readings, from, to, n - 1);
      assert hits[..n][..n - 1] == hits[..n - 1] && was[..n][..n - 1] == was[..n - 1];
      assert readings[n - 1].Ordered();
    }
  }

  lemma {:induction false} DueGrows(was: seq<Timing>, now: int, n: nat)
    requires n <= |was|
    ensures DueAt(was[..n], now) <= DueAt(was, now)
  {
    if n < |was| {
      DueGrows(was[..|was| - 1], now, n);
      assert was[..|was| - 1][..n] == was[..n];
    } else {
      assert was[..n] == was;
    }
  }

  /** No fault with as many timers as the limit allows; a fault for certain if the limit is reached by
      timers that are due when the call begins and are not the last of the list; and exactly then if the
      clock stands still. */
  ghost predicate Foretold(was: seq<Timing>, fault: bool, from: int, to: int, max: nat) {
    && (|was| <= max ==> !fault)
    && (TooManyDue(was, from, max) ==> fault)
    && (from == to ==> (fault <==> TooManyDue(was, from, max)))
  }

  lemma FaultCondition(was: seq<Timing>, now: seq<Timing>, hits: seq<bool>, readings: seq<Readings>, fault: bool,
                       from: int, to: int, max: nat)
    requires Checked(was, now, hits, readings) && Clocked(readings, from, to) && Outcome(|was|, hits, fault, max)
    ensures Foretold(was, fault, from, to, max)
  {
    hide Checked, Clocked;
    HitsAtMost(hits);
    assert hits[..|hits|] == hits;
    HitsOfDue(was, now, hits, readings, from, to, |hits|);
    if fault {
      var front := was[..|was| - 1];
      DueGrows(front, from, |hits|);
      assert front[..|hits|] == was[..|hits|];
    } else if was != [] {
      HitsOfDue(was, now, hits, readings, from, to, |was| - 1);
    }
  }

  /** What one call of ProcessTimers does to the timers left by the purge. */
  ghost predicate Processed(was: seq<Timing>, now: seq<Timing>, hits: seq<bool>, readings: seq<Readings>, fault: bool,
                            from: int, to: int, max: nat) {
    && Checked(was, now, hits, readings) && Clocked(readings, from, to)
    && Outcome(|was|, hits, fault, max) && Foretold(was, fault, from, to, max)
  }

  ghost function Size(on: set<Timer>): nat { |on| }

  lemma FewNoFault(was: seq<Timing>, now: seq<Timing>, hits: seq<bool>, readings: seq<Readings>, fault: bool,
                   from: int, to: int, max: nat)
    requires Processed(was, now, hits, readings, fault, from, to, max)
    ensures |was| <= max ==> !fault
  {}

  /** One timer more than the limit, and all of them due. */
  lemma FaultHappens(was: seq<Timing>, now: seq<Timing>, hits: seq<bool>, readings: seq<Readings>, fault: bool,
                     from: int, to: int, max: nat)
    requires Checked(was, now, hits, readings) && Clocked(readings, from, to) && Outcome(|was|, hits, fault, max)
    requires |was| == max + 1 && forall j | 0 <= j < |was| :: was[j] == Timing(1, false, true, from, from - 1, [], true)
    ensures fault
  {
    hide Checked, Clocked, Outcome;
    AllDue(was[..max], from);
    FaultCondition(was, now, hits, readings, fault, from, to, max);
  }

  lemma {:induction false} AllDue(was: seq<Timing>, now: int)
    requires forall j | 0 <= j < |was| :: was[j].enabled && now >= was[j].expireTime
    ensures DueAt(was, now) == |was|
  {
    if was != [] {
      AllDue(was[..|was| - 1], now);
    }
  }

  /** Every enabled timer is in the list, and the list holds a disabled one only while the flag is set. */
  ghost predicate Flagged(list: seq<Timer>, alive: set<Timer>, on: set<Timer>, timerStopped: bool) {
    && on <= alive
    && (forall t | t in list :: t in alive)
    && (forall t | t in on :: t in list)
    && (!timerStopped ==> forall t | t in list :: t in on)
  }

  ghost function Inserted(list: seq<Timer>, t: Timer): seq<Timer> {
    if t in list then list else [t] + list
  }

  lemma InsertedIs(list: seq<Timer>, t: Timer)
    ensures Inserted(list, t) == if t in list then list else [t] + list
  {}

  lemma FlagsStart(list: seq<Timer>, alive: set<Timer>, on: set<Timer>, timerStopped: bool, t: Timer)
    requires Flagged(list, alive, on, timerStopped) && t in alive
    ensures Flagged(Inserted(list, t), alive, on + {t}, timerStopped)
  {}

  lemma DropAt(list: seq<Timer>, i: nat)
    requires Distinct(list) && i < |list|
    ensures var rest := list[..i] + list[i + 1..];
            && Distinct(rest)
            && (forall j | 0 <= j < |rest| :: rest[j] == list[if j < i then j else j + 1] && rest[j] != list[i])
            && (forall j | 0 <= j <= |rest| :: At(rest, j) == At(list, if j < i then j else j + 1))
            && At(list, i - 1) == (if i == 0 then null else rest[i - 1])
            && (forall j | 0 <= j < |rest| && j != i - 1 :: rest[j] != At(list, i - 1))
  {
    var rest := list[..i] + list[i + 1..];
    forall j | 0 <= j < |rest|
      ensures rest[j] == list[if j < i then j else j + 1]
    {}
  }

  lemma {:induction false} SizeOfSet(list: seq<Timer>, on: set<Timer>)
    requires Distinct(list) && (forall t | t in list :: t in on) && forall t | t in on :: t in list
    ensures |list| == |on|
  {
    if list == [] {
      assert on == {};
    } else {
      var n := |list| - 1;
      var t := list[n];
      forall u | u in list[..n]
        ensures u in on - {t}
      {}
      forall u | u in on - {t}
        ensures u in list[..n]
      {
        var i :| 0 <= i < |list| && list[i] == u;
        assert list[..n][i] == u;
      }
      SizeOfSet(list[..n], on - {t});
    }
  }

  // ---------- Purging ----------

  ghost predicate Within(list: seq<Timer>, alive: set<Timer>) {
    forall i | 0 <= i < |list| :: list[i] in alive
  }

  ghost predicate Members(list: seq<Timer>, was: seq<Timer>) {
    forall i | 0 <= i < |list| :: list[i] in was
  }

  lemma WithinDrop(list: seq<Timer>, alive: set<Timer>, was: seq<Timer>, i: nat)
    requires i < |list| && Within(list, alive) && Members(list, was)
    ensures Within(list[..i] + list[i + 1..], alive) && Members(list[..i] + list[i + 1..], was)
  {}

  lemma {:induction false} OnlyBoth(a: seq<Timer>, b: seq<Timer>, on: set<Timer>)
    ensures Only(a + b, on) == Only(a, on) + Only(b, on)
  {
    if b == [] {
      assert a + b == a;
    } else {
      OnlyBoth(a, b[..|b| - 1], on);
      assert (a + b)[..|a + b| - 1] == a + b[..|b| - 1];
    }
  }

  lemma {:induction false} OnlyAll(list: seq<Timer>, on: set<Timer>)
    requires forall i | 0 <= i < |list| :: list[i] in on
    ensures Only(list, on) == list
  {
    if list != [] {
      OnlyAll(list[..|list| - 1], on);
    }
  }

  lemma OnlyOne(t: Timer, on: set<Timer>)
    ensures Only([t], on) == if t in on then [t] else []
  {
    assert [t][..0] == [];
  }

  lemma OnlyWithout(list: seq<Timer>, i: nat, on: set<Timer>, t: Timer)
    requires Distinct(list) && i <= |list| && t !in on && (i < |list| ==> list[i] == t)
    requires forall j | 0 <= j < |list| && list[j] != t :: list[j] in on
    requires i == |list| ==> t !in list
    ensures Only(list, on) == if i < |list| then list[..i] + list[i + 1..] else list
  {
    hide Only;
    if i < |list| {
      assert list == list[..i] + ([t] + list[i + 1..]);
      assert [] + list[i + 1..] == list[i + 1..];
      OnlyBoth(list[..i], [t] + list[i + 1..], on);
      OnlyBoth([t], list[i + 1..], on);
      OnlyOne(t, on);
      OnlyAll(list[..i], on);
      OnlyAll(list[i + 1..], on);
    } else {
      OnlyAll(list, on);
    }
  }

  /** n timers have been looked at, the first i of the list are those of them that stay. */
  ghost predicate Purging(was: seq<Timer>, on: set<Timer>, list: seq<Timer>, i: nat, n: nat) {
    n <= |was| && i == |Only(was[..n], on)| && list == Only(was[..n], on) + was[n..]
  }

  lemma PurgeStart(was: seq<Timer>, on: set<Timer>)
    ensures Purging(was, on, was, 0, 0)
  {
    assert was[..0] == [] && Only(was[..0], on) == [] && [] + was[0..] == was;
  }

  lemma PurgeStep(was: seq<Timer>, on: set<Timer>, list: seq<Timer>, i: nat, n: nat)
    requires Purging(was, on, list, i, n) && i < |list|
    ensures list[i] in on ==> Purging(was, on, list, i + 1, n + 1)
    ensures list[i] !in on ==> Purging(was, on, list[..i] + list[i + 1..], i, n + 1)
  {
    hide Only;
    var a := Only(was[..n], on);
    assert list[i] == was[n] && was[..n + 1] == was[..n] + [was[n]];
    OnlyBoth(was[..n], [was[n]], on);
    OnlyOne(was[n], on);
    assert list[..i] == a && list[i + 1..] == was[n + 1..];
    assert a + [] == a;
  }

  lemma PurgeEnd(was: seq<Timer>, on: set<Timer>, list: seq<Timer>, i: nat, n: nat)
    requires Purging(was, on, list, i, n) && i >= |list|
    ensures list == Only(was, on)
  {
    assert was[..n] == was && Only(was, on) + [] == Only(was, on);
  }

  lemma FlagsPurge(list: seq<Timer>, alive: set<Timer>, on: set<Timer>, timerStopped: bool)
    requires Flagged(list, alive, on, timerStopped)
    ensures Flagged(Only(list, on), alive, on, false) && Within(list, alive) && Members(Only(list, on), list)
    ensures !timerStopped ==> Only(list, on) == list
  {
    OnlyMembers(list, on);
    if !timerStopped {
      OnlyAll(list, on);
    }
  }

  /** The second list is the first without the timer. */
  ghost predicate Removes(list: seq<Timer>, list': seq<Timer>, t: Timer) {
    && (t !in list ==> list' == list)
    && forall i | 0 <= i < |list| && list[i] == t :: list' == list[..i] + list[i + 1..]
  }

  lemma FlagsDestroy(list: seq<Timer>, alive: set<Timer>, on: set<Timer>, timerStopped: bool, t: Timer)
    requires Flagged(list, alive, on, timerStopped) && Distinct(list)
    ensures var list' := Only(list, alive - {t});
            && t !in list' && Flagged(list', alive - {t}, on - {t}, timerStopped)
            && Removes(list, list', t)
  {
    hide Only;
    OnlyMembers(list, alive - {t});
    if t in list {
      forall i | 0 <= i < |list| && list[i] == t
        ensures Only(list, alive - {t}) == list[..i] + list[i + 1..]
      {
        OnlyWithout(list, i, alive - {t}, t);
      }
    } else {
      OnlyWithout(list, |list|, alive - {t}, t);
    }
  }

  class TimerList {
    const maxExpired: nat
    const clock: Clock
    var head: Timer?
    var timerStopped: bool
    ghost var list: seq<Timer>
    ghost var alive: set<Timer>    // constructed and not destroyed
    ghost var on: set<Timer>       // the enabled ones

    ghost predicate Linked()
      reads this`head, this`list, list`next
    {
      Chained(head, list)
    }

    /** on is the set of enabled timers. */
    ghost predicate Agrees()
      reads this`on, this`alive, alive`enabled
    {
      forall t | t in alive :: t.enabled <==> t in on
    }

    ghost predicate OnTime()
      reads this`alive, alive`timeout, alive`once, alive`enabled, alive`expireTime, alive`started, alive`fires,
            alive`onTime
    {
      forall t | t in alive :: Punctual(t.Schedule())
    }

    ghost predicate Valid()
      reads this, list, alive
    {
      Linked() && Agrees() && OnTime() && Flagged(list, alive, on, timerStopped)
    }

    constructor (maxExpired: nat, clock: Clock)
      ensures Valid() && list == [] && alive == {} && this.maxExpired == maxExpired && this.clock == clock
    {
      this.maxExpired, this.clock := maxExpired, clock;
      head, timerStopped, list, alive, on := null, false, [], {}, {};
    }

    method NewTimer() returns (t: Timer)
      requires Valid()
      modifies this`alive
      ensures Valid() && fresh(t) && alive == old(alive) + {t} && !t.enabled
    {
      t := new Timer();
      alive := alive + {t};
    }

    /** A timeout that is not positive is refused. */
    method Start(t: Timer, timeout: int, once: bool) returns (ok: bool)
      requires Valid() && t in alive
      modifies this`head, this`list, this`on, t, clock
      ensures Valid() && (ok <==> timeout > 0)
      ensures ok ==> t.Schedule() == Timing(timeout, once, true, clock.time + timeout, clock.time, [], true)
      ensures ok ==> list == if t in old(list) then old(list) else [t] + old(list)
      ensures !ok ==> list == old(list) && t.Schedule() == old(t.Schedule()) && t.next == old(t.next)
    {
      if timeout <= 0 {
        return false;
      }
      InsertedIs(list, t);
      hide Valid, Inserted;
      ArmAndInsert(t, timeout, once);
      return true;
    }

    method ArmAndInsert(t: Timer, timeout: int, once: bool)
      requires Valid() && t in alive && timeout > 0
      modifies this`head, this`list, this`on, t, clock
      ensures Valid() && t.Schedule() == Started(clock.time, timeout, once) && list == Inserted(old(list), t)
    {
      hide Linked, Agrees, OnTime, Started, Flagged, Inserted;
      FlagsStart(list, alive, on, timerStopped, t);
      Arm(t, timeout, once);
      Insert(t);
    }

    method Arm(t: Timer, timeout: int, once: bool)
      requires Agrees() && OnTime() && t in alive && timeout > 0
      modifies this`on, t`timeout, t`once, t`enabled, t`expireTime, t`started, t`fires, t`onTime, clock
      ensures Agrees() && OnTime() && on == old(on) + {t}
      ensures t.Schedule() == Started(clock.time, timeout, once)
    {
      hide Punctual;
      t.Arm(clock, timeout, once);
      ArmedPunctual(clock.time, timeout, once);
      on := on + {t};
    }

    /** Only a timer that is not yet in the list is put in. */
    method Insert(t: Timer)
      requires Linked()
      modifies this`head, this`list, t`next
      ensures Linked() && list == Inserted(old(list), t)
    {
      var found := Find(t);
      if !found {
        PushFront(t);
      }
    }

    method PushFront(t: Timer)
      requires Linked() && t !in list
      modifies this`head, this`list, t`next
      ensures Linked() && list == [t] + old(list)
    {
      t.next := head;
      head := t;
      list := [t] + list;
    }

    method Find(t: Timer) returns (found: bool)
      requires Linked()
      ensures found <==> t in list
    {
      var p := head;
      ghost var i := 0;
      found := false;
      while p != null
        invariant 0 <= i <= |list| && p == At(list, i) && !found
        invariant forall j | 0 <= j < i :: list[j] != t
        decreases |list| - i
      {
        if p == t {
          return true;
        }
        p := p.next;
        i := i + 1;
      }
    }

    method Stop(t: Timer)
      requires Valid() && t in alive
      modifies this`timerStopped, this`on, t`enabled
      ensures Valid() && t.Schedule() == old(t.Schedule()).(enabled := false)
    {
      t.enabled := false;
      timerStopped := true;
      on := on - {t};
    }

    /** Takes a timer out of the chain; prev is the one before it, null for the first. */
    method Unlink(t: Timer, prev: Timer?, ghost i: nat)
      requires Linked() && i < |list| && list[i] == t && prev == At(list, i - 1)
      modifies this`head, this`list, list`next
      ensures Linked() && list == old(list)[..i] + old(list)[i + 1..]
      ensures t.next == null
    {
      DropAt(list, i);
      ghost var was, rest := list, list[..i] + list[i + 1..];
      hide Distinct, At;
      var next := t.next;
      t.next := null;
      if prev == null {
        head := next;
      } else {
        prev.next := next;
      }
      list := rest;
      forall j | 0 <= j < |rest|
        ensures rest[j].next == At(rest, j + 1)
      {
        assert rest[j] == was[if j < i then j else j + 1];
        assert was[j].next == old(was[j].next) || j == i - 1 || j == i;
      }
    }

    method Destroy(t: Timer)
      requires Valid() && t in alive
      modifies this`head, this`list, this`alive, this`on, list`next
      ensures Valid() && alive == old(alive) - {t}
      ensures t !in list && list == Only(old(list), alive)
    {
      hide Agrees, OnTime, Flagged, Linked, Only;
      DestroyFlags(t);
      TakeOut(t, alive - {t});
      Bury(t);
    }

    lemma DestroyFlags(t: Timer)
      requires Linked() && Flagged(list, alive, on, timerStopped)
      ensures var list' := Only(list, alive - {t});
              && t !in list' && Flagged(list', alive - {t}, on - {t}, timerStopped)
              && Removes(list, list', t)
    {
      FlagsDestroy(list, alive, on, timerStopped, t);
    }

    method TakeOut(t: Timer, ghost others: set<Timer>)
      requires Linked() && Removes(list, Only(list, others), t)
      modifies this`head, this`list, list`next
      ensures Linked() && list == Only(old(list), others)
    {
      hide Only;
      var found;
      ghost var i;
      var prev;
      found, prev, i := Locate(t);
      if found {
        Unlink(t, prev, i);
      }
    }

    method Locate(t: Timer) returns (found: bool, prev: Timer?, ghost i: nat)
      requires Linked()
      ensures found <==> t in list
      ensures found ==> i < |list| && list[i] == t && prev == At(list, i - 1)
    {
      var p: Timer? := head;
      prev, i := null, 0;
      while p != null && p != t
        invariant 0 <= i <= |list| && p == At(list, i) && prev == At(list, i - 1)
        invariant forall j | 0 <= j < i :: list[j] != t
        decreases |list| - i
      {
        prev := p;
        p := p.next;
        i := i + 1;
      }
      found := p != null;
    }

    ghost method Bury(t: Timer)
      requires Agrees() && OnTime() && t in alive
      modifies this`alive, this`on
      ensures Agrees() && OnTime() && alive == old(alive) - {t} && on == old(on) - {t}
    {
      hide Punctual;
      alive, on := alive - {t}, on - {t};
    }

    /** The purge of ProcessTimers: afterwards the chain holds exactly the enabled timers, in their old order. */
    method Purge()
      requires Linked() && Agrees() && Within(list, alive)
      modifies this`head, this`list, list`next
      ensures Linked() && list == Only(old(list), on)
    {
      hide Linked, Agrees, Within, Purging, Only;
      var p, prev: Timer? := head, null;
      ghost var was, i, n := list, 0, 0;
      PurgeStart(was, on);
      First();
      while p != null
        invariant Linked() && Purging(was, on, list, i, n) && Within(list, alive) && Members(list, was)
        invariant p == At(list, i) && prev == At(list, i - 1)
        decreases |list| - i
      {
        PurgeStep(was, on, list, i, n);
        Step(i);
        if !p.enabled {
          WithinDrop(list, alive, was, i);
          var next := p.next;
          Unlink(p, prev, i);
          p := next;
        } else {
          prev := p;
          p := p.next;
          i := i + 1;
        }
        n := n + 1;
      }
      PurgeEnd(was, on, list, i, n);
    }

    lemma First()
      requires Linked()
      ensures head == At(list, 0) && Members(list, list)
    {}

    lemma Step(i: nat)
      requires Linked() && Agrees() && Within(list, alive) && i < |list|
      ensures list[i].next == At(list, i + 1) && (list[i].enabled <==> list[i] in on)
    {}

    method CheckOne(t: Timer) returns (expired: bool, ghost r: Readings)
      requires Valid() && t in list
      modifies this`timerStopped, this`on, t`enabled, t`expireTime, t`fires, t`onTime, clock
      ensures Valid()
      ensures r.Ordered() && old(clock.time) <= r.first && r.third == clock.time
      ensures expired <==> Expires(old(t.Schedule()), r)
      ensures t.Schedule() == Check(old(t.Schedule()), r)
    {
      hide Punctual, Chained;
      expired, r := t.CheckExpired(clock);
      CheckPunctual(old(t.Schedule()), r);
      if expired && t.once {
        timerStopped := true;
        on := on - {t};
      }
    }

    method CheckNext(t: Timer, ghost i: nat) returns (expired: bool, ghost r: Readings)
      requires Valid() && i < |list| && t == list[i]
      modifies this`timerStopped, this`on, clock, list
      ensures Valid() && r.Ordered() && old(clock.time) <= r.first && r.third == clock.time
      ensures expired <==> Expires(old(Schedules(list))[i], r)
      ensures Schedules(list) == old(Schedules(list))[i := Check(old(Schedules(list))[i], r)]
    {
      hide Valid, Check, Expires, Schedules;
      Others(t, i);
      ghost var was := Schedules(list);
      expired, r := CheckOne(t);
      forall j | 0 <= j < |list|
        ensures Schedules(list)[j] == was[i := Check(was[i], r)][j]
      {
        if j != i {
          assert list[j] != t;
        }
      }
    }

    lemma Others(t: Timer, i: nat)
      requires Valid() && i < |list| && t == list[i]
      ensures forall j | 0 <= j < |list| && j != i :: list[j] != t
    {}

    /** Visits the list while fewer than maxExpired timers have expired; a timer left over is a fault.
        hits tells which of the visited timers expired, readings what the clock showed for each. */
    method CheckAll()
      returns (snapshots: seq<Timer>, fault: bool, ghost hits: seq<bool>, ghost readings: seq<Readings>)
      requires Valid()
      modifies this`timerStopped, this`on, clock, list
      ensures Valid()
      ensures Checked(old(Schedules(list)), Schedules(list), hits, readings)
      ensures |hits| <= |list| && snapshots == Picked(list, hits)
      ensures Clocked(readings, old(clock.time), clock.time) && Outcome(|list|, hits, fault, maxExpired)
      ensures old(clock.time) <= clock.time
    {
      hide Valid, Checked, Schedules, Room, Hits, Picked, Clocked;
      HitsEmpty(list, maxExpired);
      NotClocked(clock.time);
      snapshots, fault, hits, readings := [], false, [], [];
      var t := head;
      ghost var i := 0;
      Begin();
      ghost var was := Schedules(list);
      CheckedStart(was);
      while t != null
        invariant Valid()
        invariant Checked(was, Schedules(list), hits, readings)
        invariant readings != [] ==> readings[|readings| - 1].third <= clock.time
        invariant old(clock.time) <= clock.time && Clocked(readings, old(clock.time), clock.time)
        invariant 0 <= i == |hits| == |readings| <= |list| && t == At(list, i)
        invariant snapshots == Picked(list, hits) && |snapshots| == Hits(hits) <= maxExpired
        invariant Room(hits, maxExpired)
        decreases |list| - i
      {
        if |snapshots| >= maxExpired {
          fault := true;
          break;
        }
        assert t == list[i];
        var expired;
        ghost var r;
        ghost var now, time := Schedules(list), clock.time;
        expired, r := CheckNext(t, i);
        ClockedStep(readings, old(clock.time), time, r, clock.time);
        Next(i);
        CheckedStep(was, now, hits, readings, r);
        HitsStep(list, hits, expired, maxExpired);
        if expired {
          snapshots := snapshots + [t];
        }
        hits, readings := hits + [expired], readings + [r];
        t := t.next;
        i := i + 1;
      }
    }

    /** Purges the list if a timer was stopped, then checks every timer in order. The callbacks of the
        expired ones run afterwards, once for each, in the order of the list. Whether the assertion on
        their number fails can be told from the state before the call. */
    method ProcessTimers()
      returns (snapshots: seq<Timer>, fault: bool, ghost hits: seq<bool>, ghost readings: seq<Readings>)
      requires Valid()
      modifies this`head, this`list, this`timerStopped, this`on, clock, list
      ensures Valid() && list == Only(old(list), old(on))
      ensures Size(old(on)) <= maxExpired ==> !fault
      ensures |hits| <= |list| && snapshots == Picked(list, hits)
      ensures Processed(old(Schedules(Only(list, on))), Schedules(list), hits, readings, fault,
                        old(clock.time), clock.time, maxExpired)
    {
      hide Valid, Picked, Processed, Schedules, Only, Size;
      OnlySize();
      ghost var was := Schedules(Only(list, on));
      PurgeIfStopped();
      assert Schedules(list) == was;
      snapshots, fault, hits, readings := CheckAndForetell();
      FewNoFault(was, Schedules(list), hits, readings, fault, old(clock.time), clock.time, maxExpired);
    }

    method CheckAndForetell()
      returns (snapshots: seq<Timer>, fault: bool, ghost hits: seq<bool>, ghost readings: seq<Readings>)
      requires Valid()
      modifies this`timerStopped, this`on, clock, list
      ensures Valid() && |hits| <= |list| && snapshots == Picked(list, hits)
      ensures Processed(old(Schedules(list)), Schedules(list), hits, readings, fault, old(clock.time), clock.time,
                        maxExpired)
    {
      hide Valid, Picked, Checked, Schedules, Clocked, Outcome, Foretold;
      ghost var was, from := Schedules(list), clock.time;
      snapshots, fault, hits, readings := CheckAll();
      FaultCondition(was, Schedules(list), hits, readings, fault, from, clock.time, maxExpired);
    }

    /** After the purge the list has as many timers as are enabled. */
    lemma OnlySize()
      requires Valid()
      ensures |Only(list, on)| == Size(on)
    {
      OnlyMembers(list, on);
      SizeOfSet(Only(list, on), on);
    }

    method PurgeIfStopped()
      requires Valid()
      modifies this`head, this`list, this`timerStopped, list`next
      ensures Valid() && list == Only(old(list), on) && Members(list, old(list))
    {
      hide Agrees, OnTime, Chained, Only, Flagged, Members;
      FlagsPurge(list, alive, on, timerStopped);
      if timerStopped {
        Purge();
        timerStopped := false;
      }
    }

    lemma Begin()
      requires Valid()
      ensures head == At(list, 0)
    {}

    lemma Next(i: nat)
      requires Valid() && i < |list|
      ensures list[i].next == At(list, i + 1)
    {}
  }
}
