/** The sending half of the reliability layer, each public call run to its end before the next:
    DelegateMQ/extras/util/TransportMonitor.h, DelegateMQ/extras/util/RetryMonitor.h and the sequence
    counter of DelegateMQ/extras/dispatcher/Dispatcher.h. */
module Reliability {
  import opened Wrappers

  type Key = n: int | 0 <= n < 0x1_0000_0000
  type Word = n: int | 0 <= n < 0x1_0000

  /** (id << 16) | seqNum. */
  function KeyOf(id: Word, seqNum: Word): Key { id * 0x1_0000 + seqNum }

  lemma KeyInjective(id1: Word, seq1: Word, id2: Word, seq2: Word)
    ensures KeyOf(id1, seq1) == KeyOf(id2, seq2) <==> id1 == id2 && seq1 == seq2
    ensures KeyOf(id1, seq1) / 0x1_0000 == id1 && KeyOf(id1, seq1) % 0x1_0000 == seq1
  {}

  lemma KeyInjectiveAll(id: Word, seqNum: Word)
    ensures forall d: TimeoutData | d.Key() == KeyOf(id, seqNum) :: d.remoteId == id && d.seqNum == seqNum
  {}

  datatype Packet = Packet(id: Word, seqNum: Word, payload: seq<int>) {
    function Key(): Key { KeyOf(id, seqNum) }
  }

  datatype Status = SUCCESS | TIMEOUT

  function Max0(n: int): nat { if n > 0 then n else 0 }

  // ---------- The surroundings ----------

  /** A clock that may do anything between two readings, unless it is frozen. */
  class Clock {
    const frozen: bool
    var time: int

    constructor (frozen: bool, time: int)
      ensures this.frozen == frozen && this.time == time
    {
      this.frozen, this.time := frozen, time;
    }

    method Now() returns (t: int)
      modifies this
      ensures t == time && (frozen ==> time == old(time))
    {
      if !frozen {
        time := *;
      }
      t := time;
    }
  }

  /** The physical transport: a call that sends once and returns 0 or an error. */
  class Transport {
    ghost var log: seq<Packet>
    ghost var sends: multiset<Key>

    constructor ()
      ensures log == [] && sends == multiset{}
    {
      log, sends := [], multiset{};
    }

    method Send(p: Packet) returns (result: int)
      modifies this
      ensures log == old(log) + [p] && sends == old(sends) + multiset{p.Key()}
    {
      log, sends := log + [p], sends + multiset{p.Key()};
      result := *;
    }
  }

  // ---------- TransportMonitor ----------

  datatype TimeoutData = TimeoutData(remoteId: Word, seqNum: Word, timeStamp: int) {
    function Key(): Key { KeyOf(remoteId, seqNum) }
  }

  predicate Expired(d: TimeoutData, now: int, timeout: int) {
    now - d.timeStamp > timeout
  }

  class TransportMonitor {
    const timeout: int
    const maxPending: nat
    const maxExpired: nat
    const clock: Clock
    var pending: map<Key, TimeoutData>
    var expiredItems: seq<TimeoutData>
    /** Accepted Add calls and status reports, counted for each key. */
    ghost var adds: multiset<Key>
    ghost var successes: multiset<Key>
    ghost var timeouts: multiset<Key>
    /** The monitor connected to the status signal. */
    var subscriber: RetryMonitor?

    ghost predicate Valid()
      reads this`pending
    {
      && maxExpired > 0
      && |pending| <= maxPending
      && forall k | k in pending :: pending[k].Key() == k
    }

    /** Every accepted Add has had its one status report or still waits for it. */
    ghost predicate Balanced()
      reads this`pending, this`adds, this`successes, this`timeouts
    {
      adds == successes + timeouts + multiset(pending.Keys)
    }

    constructor (timeout: int, maxPending: nat, maxExpired: nat, clock: Clock)
      requires maxExpired > 0
      ensures Valid() && Balanced() && pending == map[]
      ensures this.timeout == timeout && this.maxPending == maxPending
      ensures this.maxExpired == maxExpired && this.clock == clock
    {
      this.timeout, this.maxPending, this.maxExpired, this.clock := timeout, maxPending, maxExpired, clock;
      pending := map[];
      expiredItems := [];
      adds, successes, timeouts := multiset{}, multiset{}, multiset{};
      subscriber := null;
    }

    method Add(seqNum: Word, remoteId: Word) returns (added: bool)
      requires Valid()
      modifies this`pending, this`adds, clock
      ensures Valid() && (clock.frozen ==> clock.time == old(clock.time))
      ensures added <==> |old(pending)| < maxPending && KeyOf(remoteId, seqNum) !in old(pending)
      ensures var k := KeyOf(remoteId, seqNum);
              if added
              then pending == old(pending)[k := TimeoutData(remoteId, seqNum, clock.time)]
                   && adds == old(adds) + multiset{k}
              else pending == old(pending) && adds == old(adds)
      ensures old(Balanced()) ==> Balanced()
    {
      var key := KeyOf(remoteId, seqNum);
      if |pending| >= maxPending {
        return false;
      }
      if key in pending {
        return false;
      }
      var now := clock.Now();
      ghost var before := pending.Keys;
      pending := pending[key := TimeoutData(remoteId, seqNum, now)];
      adds := adds + multiset{key};
      assert pending.Keys == before + {key};
      return true;
    }

    /** The locked part of one pass of Process: moves the first maxExpired expired entries, in key
        order, from the pending map to the expired items. */
    method TakeExpired() returns (ghost taken: set<Key>)
      requires Valid()
      modifies this`pending, this`expiredItems, clock
      ensures Valid() && (clock.frozen ==> clock.time == old(clock.time))
      ensures pending == old(pending) - taken
      ensures IsBatch(expiredItems, taken, old(pending), clock.time, timeout, maxExpired)
    {
      hide IsBatch;
      var now := clock.Now();
      expiredItems, pending, taken := Scan(pending, now, timeout, maxExpired);
    }

    /** The retry monitor listens to this monitor, and no call is under way. */
    ghost predicate Idle()
      reads this, subscriber, if subscriber == null then {} else {subscriber.transport}
    {
      && subscriber != null && subscriber.monitor == this
      && subscriber.Valid() && subscriber.Tracked() && Balanced()
    }

    /** Acknowledges a message. Without a remote id the first pending entry in key order with the
        sequence number is taken. */
    method Remove(seqNum: Word, remoteId: Word) returns (found: bool, k: Key)
      requires Idle()
      modifies this`pending, this`successes, this`adds, clock, subscriber`store, subscriber.transport
      ensures Idle()
      ensures subscriber.transport.log == old(subscriber.transport.log)
      ensures remoteId != 0 ==> (found <==> KeyOf(remoteId, seqNum) in old(pending))
      ensures remoteId == 0 ==> (found <==> exists m :: m in old(pending) && old(pending)[m].seqNum == seqNum)
      ensures found ==> k in old(pending) && old(pending)[k].seqNum == seqNum
      ensures found && remoteId != 0 ==> k == KeyOf(remoteId, seqNum)
      ensures found && remoteId == 0 ==> forall m | m in old(pending) && old(pending)[m].seqNum == seqNum :: k <= m
      ensures pending == (if found then old(pending) - {k} else old(pending))
      ensures successes == old(successes) + (if found then multiset{k} else multiset{})
      ensures subscriber.store == (if found then old(subscriber.store) - {k} else old(subscriber.store))
    {
      OwnKeys();
      hide KeyOf, RetryMonitor.Sound, Idle;
      if remoteId != 0 {
        k := KeyOf(remoteId, seqNum);
        found := k in pending;
        KeyInjectiveAll(remoteId, seqNum);
      } else {
        found, k := FirstWith(pending, seqNum);
      }
      if found {
        Acknowledge(k);
      }
    }

    lemma OwnKeys()
      requires Idle()
      ensures forall k | k in pending :: pending[k].Key() == k
    {}

    /** The linear scan over the sorted map. */
    static method FirstWith(entries: map<Key, TimeoutData>, seqNum: Word) returns (found: bool, k: Key)
      ensures found <==> exists m :: m in entries && entries[m].seqNum == seqNum
      ensures found ==> k in entries && entries[k].seqNum == seqNum
      ensures found ==> forall m | m in entries && entries[m].seqNum == seqNum :: k <= m
    {
      var rest := entries.Keys;
      while rest != {}
        invariant rest <= entries.Keys && forall m | m in entries && m !in rest :: entries[m].seqNum != seqNum
        decreases rest
      {
        k := Least(rest);
        if entries[k].seqNum == seqNum {
          return true, k;
        }
        rest := rest - {k};
      }
      return false, 0;
    }

    method Acknowledge(k: Key)
      requires Idle() && k in pending
      modifies this`pending, this`successes, this`adds, clock, subscriber`store, subscriber.transport
      ensures Idle() && subscriber.transport.log == old(subscriber.transport.log)
      ensures pending == old(pending) - {k} && successes == old(successes) + multiset{k}
      ensures subscriber.store == old(subscriber.store) - {k}
    {
      hide KeyOf, RetryMonitor.Sound, Consistent, Idle;
      IdleReporting();
      var d := pending[k];
      AcknowledgeStep(pending.Keys, subscriber.store, adds, successes, timeouts, maxPending, k);
      ErasedKeys(pending, k);
      pending := pending - {k};
      successes := successes + multiset{k};
      ReportSuccess(d);
      IdleReporting();
    }

    method ReportSuccess(d: TimeoutData)
      requires subscriber != null && subscriber.monitor == this && subscriber.Valid()
      modifies this`pending, this`adds, clock, subscriber`store, subscriber.transport
      ensures subscriber.Valid() && subscriber.transport.log == old(subscriber.transport.log)
      ensures subscriber.store == old(subscriber.store) - {d.Key()}
      ensures pending == old(pending) && adds == old(adds)
    {
      hide KeyOf, RetryMonitor.Sound, Balanced;
      subscriber.OnStatusChanged(d.remoteId, d.seqNum, SUCCESS);
    }

    /** These keys have left the pending map and their timeout is still to be reported. */
    ghost predicate Reporting(todo: set<Key>)
      reads this, subscriber, if subscriber == null then {} else {subscriber.transport}
      ensures Reporting(todo) ==> subscriber != null && subscriber.monitor == this && Valid()
    {
      && subscriber != null && subscriber.monitor == this && subscriber.Valid()
      && Consistent(pending.Keys, subscriber.store, adds, successes, timeouts, todo, maxPending)
    }

    ghost function Credit(todo: set<Key>): nat
      reads this, subscriber
    {
      if subscriber == null then 0 else |Credits(pending.Keys + todo, subscriber.store)|
    }

    /** The timeout signal for a key that has left room for itself. */
    method ReportTimeout(d: TimeoutData)
      requires subscriber != null && subscriber.monitor == this && subscriber.Valid()
      requires d.Key() !in pending && |pending| < maxPending
      modifies this`pending, this`adds, clock, subscriber`store, subscriber.transport
      ensures subscriber.Valid() && (clock.frozen ==> clock.time == old(clock.time))
      ensures subscriber.store == AfterTimeout(old(subscriber.store), d.Key(), true)
      ensures pending == Readded(old(pending), old(subscriber.store), d, clock.time)
      ensures adds == AddsAfter(old(adds), old(subscriber.store), d.Key())
    {
      TimeoutCases(pending, subscriber.store, d);
      hide KeyOf, RetryMonitor.Valid, Valid, Balanced, Readds, Readded, AfterTimeout, AddsAfter;
      subscriber.OnStatusChanged(d.remoteId, d.seqNum, TIMEOUT);
    }

    method ReportOne(d: TimeoutData, ghost rest: set<Key>)
      requires d.Key() !in rest && Reporting(rest + {d.Key()})
      modifies this`pending, this`adds, this`timeouts, clock, subscriber`store, subscriber.transport
      ensures Reporting(rest) && Credit(rest) < old(Credit(rest + {d.Key()}))
      ensures clock.frozen ==> clock.time == old(clock.time)
      ensures Extends(old(pending), pending, clock.frozen, clock.time)
      ensures timeouts == old(timeouts) + multiset{d.Key()}
    {
      hide Extends, KeyOf, RetryMonitor.Valid, Valid, TimeoutData.Key, Consistent, Readds, AfterTimeout, Credits;
      hide Readded, AddsAfter, KeysAfter;
      ghost var k := d.Key();
      TimeoutStep(pending.Keys, subscriber.store, adds, successes, timeouts, rest, maxPending, k);
      ReaddedKeys(pending, subscriber.store, d);
      ReaddedExtends(pending, subscriber.store, d, clock.frozen);
      timeouts := timeouts + multiset{k};
      ReportTimeout(d);
    }

    method ReportExpired(ghost taken: set<Key>)
      requires Reporting(taken) && Sorted(expiredItems)
      requires taken == KeysOf(expiredItems)
      modifies this`pending, this`adds, this`timeouts, clock, subscriber`store, subscriber.transport
      ensures Reporting({}) && Credit({}) + |expiredItems| <= old(Credit(taken))
      ensures clock.frozen ==> clock.time == old(clock.time)
      ensures Extends(old(pending), pending, clock.frozen, clock.time)
      ensures timeouts == old(timeouts) + multiset(taken)
    {
      hide KeyOf, TimeoutData.Key, Reporting, Credit, Sorted, KeysOf, Extends;
      var i := 0;
      assert expiredItems[0..] == expiredItems;
      ExtendsItself(pending, clock.frozen, clock.time);
      while i < |expiredItems|
        invariant expiredItems == old(expiredItems) && 0 <= i <= |expiredItems|
        invariant Reporting(KeysOf(expiredItems[i..]))
        invariant Credit(KeysOf(expiredItems[i..])) + i <= old(Credit(taken))
        invariant clock.frozen ==> clock.time == old(clock.time)
        invariant Extends(old(pending), pending, clock.frozen, clock.time)
        invariant timeouts + multiset(KeysOf(expiredItems[i..])) == old(timeouts) + multiset(taken)
      {
        FirstOfRest(expiredItems, i);
        ghost var before, time := pending, clock.time;
        ReportOne(expiredItems[i], KeysOf(expiredItems[i + 1..]));
        ExtendsFurther(old(pending), before, pending, clock.frozen, time, clock.time);
        i := i + 1;
      }
      FirstOfRest(expiredItems, i);
    }

    /** One pass: collect a batch under the lock, then report it. */
    method Pass() returns (count: nat, ghost taken: set<Key>)
      requires Reporting({})
      modifies this`pending, this`expiredItems, this`adds, this`timeouts
      modifies clock, subscriber`store, subscriber.transport
      ensures Reporting({}) && Credit({}) + count <= old(Credit({}))
      ensures count <= maxExpired && (clock.frozen ==> clock.time == old(clock.time))
      ensures timeouts == old(timeouts) + multiset(taken)
      ensures clock.frozen && timeout >= 0 ==>
                PassDone(old(pending), pending, taken, count == maxExpired, clock.time, timeout)
    {
      hide KeyOf, RetryMonitor.Sound, Consistent, Credits, AreItems, KeysOf, Extends, Expired, PassDone, IsBatch;
      ghost var keys := pending.Keys;
      taken := TakeExpired();
      BatchKeys(expiredItems, taken, old(pending), clock.time, timeout, maxExpired);
      TakeStep(keys, subscriber.store, adds, successes, timeouts, taken, maxPending);
      assert pending.Keys == keys - taken;
      ghost var left := pending;
      ReportExpired(taken);
      count := |expiredItems|;
      if clock.frozen && timeout >= 0 {
        PassLeaves(expiredItems, taken, old(pending), pending, clock.time, timeout, maxExpired);
      }
    }

    /** However many batches it takes, and whatever the clock does, the loop ends. When the clock
        stands still during the call, each entry older than the timeout times out exactly once, the others
        stay as they were, and none of that age is left. */
    method Process()
      requires Idle()
      modifies this`pending, this`expiredItems, this`adds, this`timeouts
      modifies clock, subscriber`store, subscriber.transport
      ensures Idle()
      ensures clock.frozen && timeout >= 0 ==>
                && clock.time == old(clock.time)
                && (forall k | k in pending :: clock.time - pending[k].timeStamp <= timeout)
                && (forall k | k in old(pending) && clock.time - old(pending)[k].timeStamp <= timeout ::
                      k in pending && pending[k] == old(pending)[k])
                && (forall k: Key ::
                      timeouts[k] == old(timeouts)[k]
                        + if k in old(pending) && clock.time - old(pending)[k].timeStamp > timeout then 1 else 0)
    {
      IdleReporting();
      hide Reporting, Credit, Idle, PassDone, ExpiredKeys, KeepsUnexpired;
      DrainStart(pending, timeouts, clock.time, timeout);
      while true
        invariant Reporting({}) && (clock.frozen ==> clock.time == old(clock.time))
        invariant clock.frozen && timeout >= 0 ==>
                    Drained(old(pending), pending, old(timeouts), timeouts, clock.time, timeout)
        decreases Credit({})
      {
        if pending == map[] {
          NothingExpired(clock.time, timeout);
          break;
        }
        ghost var before, reported := pending, timeouts;
        var count, taken := Pass();
        if clock.frozen && timeout >= 0 {
          DrainStep(old(pending), before, pending, old(timeouts), reported, taken, count == maxExpired,
                    clock.time, timeout);
        }
        if count != maxExpired {
          break;
        }
      }
      if clock.frozen && timeout >= 0 {
        DrainEnd(old(pending), pending, old(timeouts), timeouts, clock.time, timeout);
      }
      IdleReporting();
    }

    lemma IdleReporting()
      ensures Idle() <==> Reporting({})
    {
      hide KeyOf, RetryMonitor.Sound;
      assert pending.Keys + {} == pending.Keys;
    }

    static method Scan(entries: map<Key, TimeoutData>, now: int, timeout: int, max: nat)
      returns (items: seq<TimeoutData>, left: map<Key, TimeoutData>, ghost taken: set<Key>)
      requires forall k | k in entries :: entries[k].Key() == k
      ensures left == entries - taken && |left| <= |entries|
      ensures IsBatch(items, taken, entries, now, timeout, max)
    {
      hide KeyOf, TimeoutData.Key, Expired, Scanned, IsBatch;
      var rest := entries.Keys;
      items, left, taken := [], entries, {};
      ScanStart(entries, now, timeout, max);
      while rest != {}
        invariant Scanned(items, left, taken, rest, entries, now, timeout, max)
        decreases rest
      {
        var k := Least(rest);
        ScanStep(items, left, taken, rest, entries, now, timeout, max, k);
        if Expired(left[k], now, timeout) {
          if |items| >= max {
            break;
          }
          items := items + [left[k]];
          left := left - {k};
          taken := taken + {k};
        }
        rest := rest - {k};
      }
      ScanEnd(items, left, taken, rest, entries, now, timeout, max);
    }

    /** Where the iteration over the sorted map stands. */
    static method Least(rest: set<Key>) returns (k: Key)
      requires rest != {}
      ensures k in rest && forall r | r in rest :: k <= r
    {
      LeastKey(rest);
      k :| IsLeast(rest, k);
    }
  }

  /** The first max expired entries in key order. */
  ghost predicate IsBatch(items: seq<TimeoutData>, taken: set<Key>, entries: map<Key, TimeoutData>,
                          now: int, timeout: int, max: nat) {
    && |items| <= max && Sorted(items) && AreItems(items, taken, entries)
    && (forall d | d in items :: Expired(d, now, timeout))
    && (forall k, t | k in entries && k !in taken && Expired(entries[k], now, timeout) && t in taken :: t < k)
    && (|items| < max ==> forall k | k in entries && k !in taken :: !Expired(entries[k], now, timeout))
  }

  ghost predicate Sorted(items: seq<TimeoutData>) {
    forall i, j | 0 <= i < j < |items| :: items[i].Key() < items[j].Key()
  }

  /** The items are the entries of these keys. */
  ghost predicate AreItems(items: seq<TimeoutData>, keys: set<Key>, pending: map<Key, TimeoutData>) {
    && (forall d | d in items :: d.Key() in keys)
    && (forall k | k in keys :: k in pending && pending[k] in items && pending[k].Key() == k)
    && |items| == |keys|
  }

  /** The keys outside rest have been visited, in key order. */
  ghost predicate Scanned(items: seq<TimeoutData>, left: map<Key, TimeoutData>, taken: set<Key>, rest: set<Key>,
                          entries: map<Key, TimeoutData>, now: int, timeout: int, max: nat) {
    && |items| <= max && Sorted(items) && AreItems(items, taken, entries)
    && left == entries - taken && |left| <= |entries| && rest <= left.Keys
    && (forall d | d in items :: Expired(d, now, timeout))
    && (forall k | k in entries :: entries[k].Key() == k)
    && (forall k, r | k in entries && k !in rest && r in rest :: k < r)
    && (forall k | k in left && k !in rest :: !Expired(entries[k], now, timeout))
  }

  lemma ScanStart(entries: map<Key, TimeoutData>, now: int, timeout: int, max: nat)
    requires forall k | k in entries :: entries[k].Key() == k
    ensures Scanned([], entries, {}, entries.Keys, entries, now, timeout, max)
  {}

  lemma ScanStep(items: seq<TimeoutData>, left: map<Key, TimeoutData>, taken: set<Key>, rest: set<Key>,
                 entries: map<Key, TimeoutData>, now: int, timeout: int, max: nat, k: Key)
    requires Scanned(items, left, taken, rest, entries, now, timeout, max)
    requires k in rest && forall r | r in rest :: k <= r
    ensures k in left
    ensures !Expired(left[k], now, timeout) ==> Scanned(items, left, taken, rest - {k}, entries, now, timeout, max)
    ensures Expired(left[k], now, timeout) && |items| < max ==>
              Scanned(items + [left[k]], left - {k}, taken + {k}, rest - {k}, entries, now, timeout, max)
  {
    hide KeyOf, TimeoutData.Key, Expired, AreItems, Sorted;
    if Expired(left[k], now, timeout) && |items| < max {
      TakenVisited(items, left, taken, rest, entries, now, timeout, max);
      assert (entries - taken) - {k} == entries - (taken + {k});
      MoreItems(items, taken, entries, k);
    }
  }

  lemma ScanEnd(items: seq<TimeoutData>, left: map<Key, TimeoutData>, taken: set<Key>, rest: set<Key>,
                entries: map<Key, TimeoutData>, now: int, timeout: int, max: nat)
    requires Scanned(items, left, taken, rest, entries, now, timeout, max)
    requires rest == {} || |items| >= max
    ensures left == entries - taken && |left| <= |entries|
    ensures IsBatch(items, taken, entries, now, timeout, max)
  {
    hide KeyOf, TimeoutData.Key, Expired, AreItems, Sorted;
    TakenVisited(items, left, taken, rest, entries, now, timeout, max);
  }

  lemma TakenVisited(items: seq<TimeoutData>, left: map<Key, TimeoutData>, taken: set<Key>, rest: set<Key>,
                     entries: map<Key, TimeoutData>, now: int, timeout: int, max: nat)
    requires Scanned(items, left, taken, rest, entries, now, timeout, max)
    ensures forall t, r | t in taken && r in rest :: t < r
  {
    hide KeyOf, TimeoutData.Key, Expired, Sorted;
    forall t, r | t in taken && r in rest
      ensures t < r
    {
      assert t in entries && t !in left;
    }
  }

  lemma MoreItems(items: seq<TimeoutData>, keys: set<Key>, pending: map<Key, TimeoutData>, k: Key)
    requires Sorted(items) && AreItems(items, keys, pending)
    requires k in pending && pending[k].Key() == k && forall t | t in keys :: t < k
    ensures Sorted(items + [pending[k]]) && AreItems(items + [pending[k]], keys + {k}, pending)
  {
    hide KeyOf, TimeoutData.Key;
    assert k !in keys;
  }

  ghost function KeysOf(items: seq<TimeoutData>): set<Key> {
    set d | d in items :: d.Key()
  }

  lemma FirstOfRest(items: seq<TimeoutData>, i: nat)
    requires Sorted(items) && i <= |items|
    ensures i == |items| ==> KeysOf(items[i..]) == {}
    ensures i < |items| ==>
              && KeysOf(items[i..]) == KeysOf(items[i + 1..]) + {items[i].Key()}
              && items[i].Key() !in KeysOf(items[i + 1..])
  {
    hide KeyOf, TimeoutData.Key;
    if i < |items| {
      assert items[i..] == [items[i]] + items[i + 1..];
      forall d | d in items[i + 1..]
        ensures d.Key() != items[i].Key()
      {
        var j :| 0 <= j < |items[i + 1..]| && items[i + 1..][j] == d;
        assert d == items[i + 1 + j];
      }
    }
  }

  /** For each tracked key the reports it can still cause: one, and one more for each retry. */
  ghost function Credits(keys: set<Key>, store: map<Key, RetryEntry>): multiset<Key> {
    if keys == {} then multiset{}
    else
      var k :| k in keys;
      Credits(keys - {k}, store)[k := 1 + Budget(store, k)]
  }

  lemma {:induction false} CreditsAt(keys: set<Key>, store: map<Key, RetryEntry>)
    ensures forall k: Key :: Credits(keys, store)[k] == if k in keys then 1 + Budget(store, k) else 0
  {
    if keys != {} {
      var k :| k in keys && Credits(keys, store) == Credits(keys - {k}, store)[k := 1 + Budget(store, k)];
      CreditsAt(keys - {k}, store);
    }
  }

  lemma CreditDrops(keys: set<Key>, store: map<Key, RetryEntry>, keys': set<Key>, store': map<Key, RetryEntry>, k: Key)
    requires k in keys && keys - {k} <= keys' <= keys
    requires forall j: Key | j != k :: Budget(store', j) == Budget(store, j)
    requires k in keys' ==> Budget(store', k) < Budget(store, k)
    ensures |Credits(keys', store')| < |Credits(keys, store)|
  {
    hide Budget;
    CreditsAt(keys, store);
    CreditsAt(keys', store');
    var c, c' := Credits(keys, store), Credits(keys', store');
    assert c' == c[k := c'[k]];
  }

  /** The books while some timeouts (todo) are taken out but not yet reported. */
  ghost predicate Consistent(keys: set<Key>, store: map<Key, RetryEntry>, adds: multiset<Key>, successes: multiset<Key>,
                             timeouts: multiset<Key>, todo: set<Key>, maxPending: nat) {
    && todo !! keys && |keys| + |todo| <= maxPending
    && Following(store, keys + todo)
    && adds == successes + timeouts + multiset(keys) + multiset(todo)
  }

  /** Reporting one timeout, with the room that the key itself has left behind: the books stay
      consistent and fewer reports are left to come. */
  lemma TimeoutStep(keys: set<Key>, store: map<Key, RetryEntry>, adds: multiset<Key>, successes: multiset<Key>,
                    timeouts: multiset<Key>, rest: set<Key>, maxPending: nat, k: Key)
    requires k !in rest && Consistent(keys, store, adds, successes, timeouts, rest + {k}, maxPending)
    ensures k !in keys && |keys| < maxPending
    ensures var store' := AfterTimeout(store, k, true);
            && Consistent(KeysAfter(keys, store, k), store', AddsAfter(adds, store, k), successes,
                          timeouts + multiset{k}, rest, maxPending)
            && |Credits(KeysAfter(keys, store, k) + rest, store')| < |Credits(keys + (rest + {k}), store)|
  {
    hide Credits, AfterTimeout, Readds;
    hide Following, KeysAfter, AddsAfter;
    TimeoutFollowing(keys, store, rest, k);
    TimeoutSizes(keys, store, rest, maxPending, k);
    TimeoutCount(keys, adds, store, successes, timeouts, rest, k);
    TimeoutCredit(keys, store, rest, k);
  }

  lemma TimeoutFollowing(keys: set<Key>, store: map<Key, RetryEntry>, rest: set<Key>, k: Key)
    requires Following(store, keys + (rest + {k}))
    ensures Following(AfterTimeout(store, k, true), KeysAfter(keys, store, k) + rest)
  {}

  lemma TimeoutSizes(keys: set<Key>, store: map<Key, RetryEntry>, rest: set<Key>, maxPending: nat, k: Key)
    requires k !in rest && rest + {k} !! keys && |keys| + |rest + {k}| <= maxPending
    ensures k !in keys && |keys| < maxPending
    ensures rest !! KeysAfter(keys, store, k) && |KeysAfter(keys, store, k)| + |rest| <= maxPending
  {
    assert k in rest + {k} && |rest + {k}| == |rest| + 1;
  }

  lemma TimeoutCount(keys: set<Key>, adds: multiset<Key>, store: map<Key, RetryEntry>, successes: multiset<Key>,
                     timeouts: multiset<Key>, rest: set<Key>, k: Key)
    requires k !in rest && k !in keys
    requires adds == successes + timeouts + multiset(keys) + multiset(rest + {k})
    ensures AddsAfter(adds, store, k)
         == successes + (timeouts + multiset{k}) + multiset(KeysAfter(keys, store, k)) + multiset(rest)
  {
    assert multiset(rest + {k}) == multiset(rest) + multiset{k};
    assert multiset(keys + {k}) == multiset(keys) + multiset{k};
  }

  lemma TimeoutCredit(keys: set<Key>, store: map<Key, RetryEntry>, rest: set<Key>, k: Key)
    requires k !in rest && k !in keys && Following(store, keys + (rest + {k}))
    ensures |Credits(KeysAfter(keys, store, k) + rest, AfterTimeout(store, k, true))|
            < |Credits(keys + (rest + {k}), store)|
  {
    hide Credits;
    CreditDrops(keys + (rest + {k}), store, KeysAfter(keys, store, k) + rest, AfterTimeout(store, k, true), k);
  }

  lemma AcknowledgeStep(keys: set<Key>, store: map<Key, RetryEntry>, adds: multiset<Key>, successes: multiset<Key>,
                        timeouts: multiset<Key>, maxPending: nat, k: Key)
    requires k in keys && Consistent(keys, store, adds, successes, timeouts, {}, maxPending)
    ensures Consistent(keys - {k}, store - {k}, adds, successes + multiset{k}, timeouts, {}, maxPending)
  {
    assert multiset(keys) == multiset(keys - {k}) + multiset{k};
    assert keys + {} == keys && (keys - {k}) + {} == keys - {k};
  }

  lemma TakeStep(keys: set<Key>, store: map<Key, RetryEntry>, adds: multiset<Key>, successes: multiset<Key>,
                 timeouts: multiset<Key>, taken: set<Key>, maxPending: nat)
    requires taken <= keys && Consistent(keys, store, adds, successes, timeouts, {}, maxPending)
    ensures Consistent(keys - taken, store, adds, successes, timeouts, taken, maxPending)
    ensures (keys - taken) + taken == keys && keys + {} == keys
  {
    assert (keys - taken) + taken == keys && keys + {} == keys;
    assert multiset(keys) == multiset(keys - taken) + multiset(taken);
  }

  lemma BatchKeys(items: seq<TimeoutData>, taken: set<Key>, entries: map<Key, TimeoutData>, now: int, timeout: int,
                  max: nat)
    requires IsBatch(items, taken, entries, now, timeout, max)
    ensures taken == KeysOf(items) && taken <= entries.Keys && Sorted(items) && |items| <= max
  {
    hide KeyOf, TimeoutData.Key, Expired, Sorted;
  }

  // ---------- What one call of Process leaves ----------

  ghost function ExpiredKeys(pending: map<Key, TimeoutData>, now: int, timeout: int): set<Key> {
    set k | k in pending && Expired(pending[k], now, timeout)
  }

  ghost predicate KeepsUnexpired(was: map<Key, TimeoutData>, pending: map<Key, TimeoutData>, now: int, timeout: int) {
    forall k | k in was && !Expired(was[k], now, timeout) :: k in pending && pending[k] == was[k]
  }

  /** Entries were added only, and with the time that stands still if it does. */
  ghost predicate Extends(was: map<Key, TimeoutData>, pending: map<Key, TimeoutData>, frozen: bool, time: int) {
    && (forall k | k in was :: k in pending && pending[k] == was[k])
    && (frozen ==> forall k | k in pending && k !in was :: pending[k].timeStamp == time)
  }

  lemma ExtendsItself(pending: map<Key, TimeoutData>, frozen: bool, time: int)
    ensures Extends(pending, pending, frozen, time)
  {}

  lemma ExtendsFurther(was: map<Key, TimeoutData>, between: map<Key, TimeoutData>, pending: map<Key, TimeoutData>,
                       frozen: bool, time: int, now: int)
    requires Extends(was, between, frozen, time) && Extends(between, pending, frozen, now)
    requires frozen ==> time == now
    ensures Extends(was, pending, frozen, now)
  {}

  lemma ReaddedExtends(pending: map<Key, TimeoutData>, store: map<Key, RetryEntry>, d: TimeoutData, frozen: bool)
    requires d.Key() !in pending
    ensures forall time :: Extends(pending, Readded(pending, store, d, time), frozen, time)
  {
    hide TimeoutData.Key, Readds;
  }

  /** One pass took some expired entries, all of them unless its batch was full, and added none. */
  ghost predicate PassDone(was: map<Key, TimeoutData>, pending: map<Key, TimeoutData>, taken: set<Key>, full: bool,
                           now: int, timeout: int) {
    && taken <= ExpiredKeys(was, now, timeout)
    && ExpiredKeys(pending, now, timeout) == ExpiredKeys(was, now, timeout) - taken
    && KeepsUnexpired(was, pending, now, timeout)
    && (!full ==> ExpiredKeys(pending, now, timeout) == {})
  }

  lemma PassLeaves(items: seq<TimeoutData>, taken: set<Key>, was: map<Key, TimeoutData>, pending: map<Key, TimeoutData>,
                   now: int, timeout: int, max: nat)
    requires timeout >= 0 && IsBatch(items, taken, was, now, timeout, max)
    requires Extends(was - taken, pending, true, now)
    ensures PassDone(was, pending, taken, |items| == max, now, timeout)
  {
    hide KeyOf, TimeoutData.Key, Sorted;
    var left := was - taken;
    assert forall k | k in taken :: Expired(was[k], now, timeout);
    assert forall k | k in pending :: (k in left && pending[k] == was[k]) || pending[k].timeStamp == now;
    assert forall k | k in left :: k in pending && pending[k] == was[k];
  }

  /** Part of the entries that had expired have timed out, and nothing else has happened. */
  ghost predicate Drained(was: map<Key, TimeoutData>, pending: map<Key, TimeoutData>, timeouts: multiset<Key>,
                          timeouts': multiset<Key>, now: int, timeout: int) {
    && timeouts' + multiset(ExpiredKeys(pending, now, timeout)) == timeouts + multiset(ExpiredKeys(was, now, timeout))
    && KeepsUnexpired(was, pending, now, timeout)
  }

  lemma DrainStart(pending: map<Key, TimeoutData>, timeouts: multiset<Key>, now: int, timeout: int)
    ensures Drained(pending, pending, timeouts, timeouts, now, timeout)
  {}

  /** What draining means for the ages of the entries. */
  lemma DrainEnd(was: map<Key, TimeoutData>, pending: map<Key, TimeoutData>, timeouts: multiset<Key>,
                 timeouts': multiset<Key>, now: int, timeout: int)
    requires Drained(was, pending, timeouts, timeouts', now, timeout) && ExpiredKeys(pending, now, timeout) == {}
    ensures forall k | k in pending :: now - pending[k].timeStamp <= timeout
    ensures forall k | k in was && now - was[k].timeStamp <= timeout :: k in pending && pending[k] == was[k]
    ensures forall k: Key ::
              timeouts'[k] == timeouts[k] + if k in was && now - was[k].timeStamp > timeout then 1 else 0
  {
    forall k | k in pending
      ensures now - pending[k].timeStamp <= timeout
    {
      assert k !in ExpiredKeys(pending, now, timeout);
    }
    assert timeouts' == timeouts + multiset(ExpiredKeys(was, now, timeout));
  }

  lemma NothingExpired(now: int, timeout: int)
    ensures ExpiredKeys(map[], now, timeout) == {}
  {}

  lemma DrainStep(was: map<Key, TimeoutData>, between: map<Key, TimeoutData>, pending: map<Key, TimeoutData>,
                  timeouts: multiset<Key>, reported: multiset<Key>, taken: set<Key>, full: bool, now: int, timeout: int)
    requires Drained(was, between, timeouts, reported, now, timeout)
    requires PassDone(between, pending, taken, full, now, timeout)
    ensures Drained(was, pending, timeouts, reported + multiset(taken), now, timeout)
    ensures !full ==> ExpiredKeys(pending, now, timeout) == {}
  {
    hide Expired;
    var left, all := ExpiredKeys(pending, now, timeout), ExpiredKeys(between, now, timeout);
    assert multiset(all) == multiset(left) + multiset(taken);
  }

  predicate IsLeast(s: set<Key>, k: Key) {
    k in s && forall r | r in s :: k <= r
  }

  lemma LeastKey(s: set<Key>)
    requires s != {}
    ensures exists k: Key :: IsLeast(s, k)
  {
    Inhabited(s);
    var x: Key :| x in s;
    var rest := s - {x};
    if rest == {} {
      LeastOfMore(s, rest, x, x);
    } else {
      LeastKey(rest);
      var k: Key :| IsLeast(rest, k);
      LeastOfMore(s, rest, x, if x < k then x else k);
    }
  }

  lemma LeastOfMore(s: set<Key>, rest: set<Key>, x: Key, k: Key)
    requires x in s && rest == s - {x} && k in s && k <= x && forall r | r in rest :: k <= r
    ensures IsLeast(s, k)
  {
    forall r | r in s
      ensures k <= r
    {
      assert r == x || r in rest;
    }
  }

  // ---------- Dispatcher ----------

  function Next(seqNum: Word): Word {
    if seqNum == 0xFFFF then 0 else seqNum + 1
  }

  /** The process-wide 16-bit counter, shared by all dispatchers. */
  class SequenceCounter {
    var seqNum: Word
    /** Numbers handed out so far, oldest first. */
    ghost var issued: seq<Word>

    ghost predicate Valid()
      reads this
    {
      && Counts(issued)
      && (issued != [] ==> seqNum == Next(issued[|issued| - 1]))
    }

    constructor ()
      ensures Valid() && seqNum == 0 && issued == []
    {
      seqNum, issued := 0, [];
    }

    method FetchAdd() returns (n: Word)
      requires Valid()
      modifies this
      ensures Valid() && n == old(seqNum) && issued == old(issued) + [n]
    {
      n, seqNum := seqNum, Next(seqNum);
      issued := issued + [n];
    }
  }

  /** Stamps each packet with the next number and sends it. */
  class Dispatcher {
    const counter: SequenceCounter
    var transport: Transport?

    constructor (counter: SequenceCounter)
      ensures this.counter == counter && transport == null
    {
      this.counter, transport := counter, null;
    }

    method SetTransport(transport: Transport?)
      modifies this
      ensures this.transport == transport
    {
      this.transport := transport;
    }

    /** Without a transport nothing is sent and no number is used up. */
    method Dispatch(payload: seq<int>, id: Word) returns (err: int, outSeqNum: Word)
      requires counter.Valid()
      modifies counter, transport
      ensures counter.Valid()
      ensures transport == null ==> err == -1 && counter.issued == old(counter.issued)
      ensures transport != null ==>
                && outSeqNum == old(counter.seqNum) && counter.issued == old(counter.issued) + [outSeqNum]
                && transport.log == old(transport.log) + [Packet(id, outSeqNum, payload)]
    {
      outSeqNum := 0;
      if transport == null {
        return -1, outSeqNum;
      }
      outSeqNum := counter.FetchAdd();
      err := transport.Send(Packet(id, outSeqNum, payload));
    }
  }

  ghost predicate Counts(issued: seq<Word>) {
    forall i | 0 <= i < |issued| - 1 :: issued[i + 1] == Next(issued[i])
  }

  /** A run of a wrapping counter repeats a number exactly after a multiple of 65536 dispatches. */
  lemma {:induction false} CounterRepeats(issued: seq<Word>, i: nat, j: nat)
    requires Counts(issued)
    requires i <= j < |issued|
    ensures issued[j] as int == (issued[i] + (j - i)) % 0x1_0000
    ensures issued[i] == issued[j] <==> (j - i) % 0x1_0000 == 0
    decreases j
  {
    if i < j {
      CounterRepeats(issued, i, j - 1);
      assert issued[j - 1 + 1] == Next(issued[j - 1]);
    }
  }

  // ---------- RetryMonitor ----------

  datatype RetryEntry = RetryEntry(packet: Packet, attemptsRemaining: int, isSent: bool)

  /** Physical sends of one message still allowed by its entry. */
  function Budget(store: map<Key, RetryEntry>, k: Key): nat {
    if k in store then Max0(store[k].attemptsRemaining) else 0
  }

  /** For each key: physical sends so far, and those still allowed, fit into 1 + maxRetries for each
      SendWithRetry call made with the key. */
  ghost predicate WithinBudget(sends: multiset<Key>, store: map<Key, RetryEntry>, maxRetries: int,
                               starts: multiset<Key>) {
    forall k: Key :: sends[k] + Budget(store, k) <= (1 + Max0(maxRetries)) * starts[k]
  }

  ghost predicate StoreOk(store: map<Key, RetryEntry>, submitted: set<Packet>) {
    forall k | k in store :: store[k].packet.Key() == k && store[k].packet in submitted
  }

  class RetryMonitor {
    const transport: Transport
    const monitor: TransportMonitor
    const maxRetries: int
    var store: map<Key, RetryEntry>
    ghost var starts: multiset<Key>
    ghost var submitted: set<Packet>

    ghost predicate Valid()
      reads this, monitor`pending, transport
    {
      monitor.Valid() && Sound()
    }

    /** The stored packets are the submitted ones, and no send exceeds the retry budget. */
    ghost predicate Sound()
      reads this, transport
    {
      && StoreOk(store, submitted)
      && (forall p | p in transport.log :: p in submitted)
      && WithinBudget(transport.sends, store, maxRetries, starts)
    }

    constructor (transport: Transport, monitor: TransportMonitor, maxRetries: int)
      requires monitor.Valid() && transport.log == [] && transport.sends == multiset{}
      ensures Valid() && store == map[] && starts == multiset{} && submitted == {}
      ensures this.transport == transport && this.monitor == monitor && this.maxRetries == maxRetries
    {
      this.transport, this.monitor, this.maxRetries := transport, monitor, maxRetries;
      store, starts, submitted := map[], multiset{}, {};
    }

    /** Between calls every stored packet is tracked by the monitor and has been sent. */
    ghost predicate Tracked()
      reads this`store, monitor`pending
    {
      Following(store, monitor.pending.Keys)
    }

    method SendWithRetry(p: Packet) returns (result: int)
      requires Valid()
      modifies this, monitor`pending, monitor`adds, monitor.clock, transport
      ensures Valid() && (monitor.clock.frozen ==> monitor.clock.time == old(monitor.clock.time))
      ensures starts == old(starts) + multiset{p.Key()} && submitted == old(submitted) + {p}
      ensures old(monitor.Balanced()) ==> monitor.Balanced()
      ensures old(Tracked()) ==> Tracked()
      ensures if |old(monitor.pending)| < monitor.maxPending && p.Key() !in old(monitor.pending)
              then && transport.log == old(transport.log) + [p]
                   && monitor.pending ==
                        old(monitor.pending)[p.Key() := TimeoutData(p.id, p.seqNum, monitor.clock.time)]
                   && store == (if result == 0 then old(store)[p.Key() := RetryEntry(p, maxRetries, true)]
                                else old(store) - {p.Key()})
              else && result == -1 && transport.log == old(transport.log)
                   && monitor.pending == old(monitor.pending)
                   && store == old(store) - {p.Key()}
    {
      hide KeyOf, WithinBudget, StoreOk;
      var key := p.Key();
      StartAllowed(transport.sends, store, maxRetries, starts, submitted, p);
      starts, submitted := starts + multiset{key}, submitted + {p};
      PutThenErase(store, key, RetryEntry(p, maxRetries, false));
      store := store[key := RetryEntry(p, maxRetries, false)];
      var added := monitor.Add(p.seqNum, p.id);
      if !added {
        Forget(key);
        return -1;
      }
      result := transport.Send(p);
      if result != 0 {
        Forget(key);
      } else if key in store {
        MarkAllowed(transport.sends, store, maxRetries, starts, submitted, key);
        store := store[key := store[key].(isSent := true)];
      }
    }

    /** Reacts to a status report; the entry of its key has just left the monitor. */
    method OnStatusChanged(id: Word, seqNum: Word, status: Status)
      requires Valid()
      modifies this`store, monitor`pending, monitor`adds, monitor.clock, transport
      ensures Valid() && (monitor.clock.frozen ==> monitor.clock.time == old(monitor.clock.time))
      ensures old(monitor.Balanced()) ==> monitor.Balanced()
      ensures var k := KeyOf(id, seqNum);
              var s, was := old(store), old(monitor.pending);
              var room := |was| < monitor.maxPending && k !in was;
              var again := was[k := TimeoutData(id, seqNum, monitor.clock.time)];
              if k !in s then
                store == s && monitor.pending == was && transport.log == old(transport.log)
              else if status.SUCCESS? || s[k].attemptsRemaining <= 0 || (s[k].isSent && !room) then
                store == s - {k} && monitor.pending == was && transport.log == old(transport.log)
              else if s[k].isSent then
                && store == s[k := s[k].(attemptsRemaining := s[k].attemptsRemaining - 1)]
                && monitor.pending == again && transport.log == old(transport.log) + [s[k].packet]
              else
                && store == s && monitor.pending == (if room then again else was)
                && transport.log == old(transport.log)
      ensures var k := KeyOf(id, seqNum);
              monitor.adds == old(monitor.adds)
                + if monitor.pending == old(monitor.pending) then multiset{} else multiset{k}
    {
      hide KeyOf, WithinBudget, StoreOk, TransportMonitor.Balanced;
      var key := KeyOf(id, seqNum);
      if key !in store {
        return;
      }
      var entry := store[key];
      if status == SUCCESS {
        Forget(key);
        return;
      }
      if entry.attemptsRemaining > 0 && entry.isSent {
        Retry(id, seqNum);
      } else if entry.attemptsRemaining > 0 && !entry.isSent {
        StoredHeader(store, submitted, id, seqNum);
        var added := monitor.Add(entry.packet.seqNum, entry.packet.id);
      } else if entry.attemptsRemaining <= 0 {
        Forget(key);
      }
    }

    method Forget(key: Key)
      requires Valid()
      modifies this`store
      ensures Valid() && store == old(store) - {key}
    {
      hide KeyOf, WithinBudget, StoreOk;
      EraseAllowed(transport.sends, store, maxRetries, starts, submitted, key);
      store := store - {key};
    }

    /** Takes one attempt off the entry and sends its packet again, header and payload unchanged. */
    method Retry(id: Word, seqNum: Word)
      requires Valid() && KeyOf(id, seqNum) in store && store[KeyOf(id, seqNum)].attemptsRemaining > 0
      modifies this`store, monitor`pending, monitor`adds, monitor.clock, transport
      ensures Valid() && (monitor.clock.frozen ==> monitor.clock.time == old(monitor.clock.time))
      ensures old(monitor.Balanced()) ==> monitor.Balanced()
      ensures var k := KeyOf(id, seqNum);
              var s, was := old(store), old(monitor.pending);
              if |was| < monitor.maxPending && k !in was
              then && store == s[k := s[k].(attemptsRemaining := s[k].attemptsRemaining - 1)]
                   && monitor.pending == was[k := TimeoutData(id, seqNum, monitor.clock.time)]
                   && monitor.adds == old(monitor.adds) + multiset{k}
                   && transport.log == old(transport.log) + [s[k].packet]
              else && store == s - {k} && monitor.pending == was && monitor.adds == old(monitor.adds)
                   && transport.log == old(transport.log)
    {
      hide KeyOf, WithinBudget, StoreOk, TransportMonitor.Balanced;
      var key := KeyOf(id, seqNum);
      var entry := store[key];
      StoredHeader(store, submitted, id, seqNum);
      RetryAllowed(transport.sends, store, maxRetries, starts, submitted, key);
      store := store[key := entry.(attemptsRemaining := entry.attemptsRemaining - 1)];
      var added := monitor.Add(entry.packet.seqNum, entry.packet.id);
      if added {
        var result := transport.Send(entry.packet);
      } else {
        Forget(key);
        assert store == old(store) - {key};
      }
    }
  }

  /** The retry store after a timeout; room tells whether the monitor would take the key back. */
  function AfterTimeout(store: map<Key, RetryEntry>, k: Key, room: bool): map<Key, RetryEntry> {
    if k !in store then store
    else if store[k].attemptsRemaining <= 0 then store - {k}
    else if !store[k].isSent then store
    else if room then store[k := store[k].(attemptsRemaining := store[k].attemptsRemaining - 1)]
    else store - {k}
  }

  /** A timeout of this key makes the retry monitor register it again. */
  predicate Readds(store: map<Key, RetryEntry>, k: Key) {
    k in store && store[k].attemptsRemaining > 0
  }

  /** The retry store after n timeouts of a key, one after the other, with room in the monitor. */
  function AfterTimeouts(store: map<Key, RetryEntry>, k: Key, n: nat): map<Key, RetryEntry> {
    if n == 0 then store else AfterTimeout(AfterTimeouts(store, k, n - 1), k, true)
  }

  /** How often these n timeouts register the key again, and so send its packet again. */
  function Repeats(store: map<Key, RetryEntry>, k: Key, n: nat): nat {
    if n == 0 then 0 else Repeats(store, k, n - 1) + if Readds(AfterTimeouts(store, k, n - 1), k) then 1 else 0
  }

  /** Without an acknowledgement a sent packet with m attempts is sent again at each of the first m timeouts
      and at no later one, and dropped at the timeout after them. */
  lemma {:induction false} ExactRetries(store: map<Key, RetryEntry>, k: Key, n: nat)
    requires k in store && store[k].isSent
    ensures var m, later := Max0(store[k].attemptsRemaining), AfterTimeouts(store, k, n);
            && Repeats(store, k, n) == (if n <= m then n else m)
            && (k in later <==> n <= m)
            && (0 < n <= m ==> later[k] == store[k].(attemptsRemaining := m - n))
            && forall j | j != k :: (j in later <==> j in store) && (j in store ==> later[j] == store[j])
  {
    if n > 0 {
      ExactRetries(store, k, n - 1);
    }
  }

  lemma TimeoutCases(pending: map<Key, TimeoutData>, store: map<Key, RetryEntry>, d: TimeoutData)
    requires d.Key() !in pending
    ensures var k, kept := d.Key(), AfterTimeout(store, d.Key(), true);
            if k !in store then kept == store
            else if store[k].attemptsRemaining <= 0 then kept == store - {k}
            else if store[k].isSent then
              kept == store[k := store[k].(attemptsRemaining := store[k].attemptsRemaining - 1)]
            else kept == store
    ensures forall time ::
              if d.Key() in store && store[d.Key()].attemptsRemaining > 0
              then Readded(pending, store, d, time) == pending[d.Key() := TimeoutData(d.remoteId, d.seqNum, time)]
                   && Readded(pending, store, d, time) != pending
              else Readded(pending, store, d, time) == pending
    ensures forall adds :: AddsAfter(adds, store, d.Key()) ==
              adds + if d.Key() in store && store[d.Key()].attemptsRemaining > 0 then multiset{d.Key()} else multiset{}
  {}

  /** The pending map after the timeout of an entry that has just left it. */
  function Readded(pending: map<Key, TimeoutData>, store: map<Key, RetryEntry>, d: TimeoutData, time: int)
    : map<Key, TimeoutData>
  {
    if Readds(store, d.Key()) then pending[d.Key() := TimeoutData(d.remoteId, d.seqNum, time)] else pending
  }

  function KeysAfter(keys: set<Key>, store: map<Key, RetryEntry>, k: Key): set<Key> {
    if Readds(store, k) then keys + {k} else keys
  }

  function AddsAfter(adds: multiset<Key>, store: map<Key, RetryEntry>, k: Key): multiset<Key> {
    if Readds(store, k) then adds + multiset{k} else adds
  }

  lemma ReaddedKeys(pending: map<Key, TimeoutData>, store: map<Key, RetryEntry>, d: TimeoutData)
    ensures forall time :: Readded(pending, store, d, time).Keys == KeysAfter(pending.Keys, store, d.Key())
  {}

  ghost predicate Following(store: map<Key, RetryEntry>, pending: set<Key>) {
    forall k | k in store :: k in pending && store[k].isSent
  }

  lemma ErasedKeys(pending: map<Key, TimeoutData>, k: Key)
    ensures (pending - {k}).Keys == pending.Keys - {k}
  {}

  lemma PutThenErase(store: map<Key, RetryEntry>, key: Key, entry: RetryEntry)
    ensures store[key := entry] - {key} == store - {key}
    ensures store[key := entry][key := entry.(isSent := true)] == store[key := entry.(isSent := true)]
  {}

  lemma StoredHeader(store: map<Key, RetryEntry>, submitted: set<Packet>, id: Word, seqNum: Word)
    requires StoreOk(store, submitted) && KeyOf(id, seqNum) in store
    ensures var p := store[KeyOf(id, seqNum)].packet;
            p.id == id && p.seqNum == seqNum && p.Key() == KeyOf(id, seqNum) && p in submitted
  {
    var p := store[KeyOf(id, seqNum)].packet;
    KeyInjective(p.id, p.seqNum, id, seqNum);
  }

  /** A new call pays for its first send and its retries. */
  lemma StartAllowed(sends: multiset<Key>, store: map<Key, RetryEntry>, maxRetries: int, starts: multiset<Key>,
                     submitted: set<Packet>, p: Packet)
    requires WithinBudget(sends, store, maxRetries, starts) && StoreOk(store, submitted)
    ensures var store' := store[p.Key() := RetryEntry(p, maxRetries, false)];
            var starts' := starts + multiset{p.Key()};
            && WithinBudget(sends, store', maxRetries, starts')
            && WithinBudget(sends + multiset{p.Key()}, store', maxRetries, starts')
            && StoreOk(store', submitted + {p})
  {
    hide KeyOf;
    var key, m := p.Key(), 1 + Max0(maxRetries);
    var store' := store[key := RetryEntry(p, maxRetries, false)];
    var starts' := starts + multiset{key};
    forall k: Key
      ensures (sends + multiset{key})[k] + Budget(store', k) <= m * starts'[k]
    {
      assert sends[k] + Budget(store, k) <= m * starts[k];
      if k == key {
        assert m * starts'[k] == m * starts[k] + m;
      }
    }
  }

  lemma EraseAllowed(sends: multiset<Key>, store: map<Key, RetryEntry>, maxRetries: int, starts: multiset<Key>,
                     submitted: set<Packet>, key: Key)
    requires WithinBudget(sends, store, maxRetries, starts) && StoreOk(store, submitted)
    ensures WithinBudget(sends, store - {key}, maxRetries, starts) && StoreOk(store - {key}, submitted)
  {
    hide Max0;
    forall k: Key
      ensures sends[k] + Budget(store - {key}, k) <= (1 + Max0(maxRetries)) * starts[k]
    {
      assert sends[k] + Budget(store, k) <= (1 + Max0(maxRetries)) * starts[k];
    }
  }

  lemma MarkAllowed(sends: multiset<Key>, store: map<Key, RetryEntry>, maxRetries: int, starts: multiset<Key>,
                    submitted: set<Packet>, key: Key)
    requires WithinBudget(sends, store, maxRetries, starts) && StoreOk(store, submitted) && key in store
    ensures var store' := store[key := store[key].(isSent := true)];
            WithinBudget(sends, store', maxRetries, starts) && StoreOk(store', submitted)
  {
    hide Max0;
    var store' := store[key := store[key].(isSent := true)];
    forall k: Key
      ensures sends[k] + Budget(store', k) <= (1 + Max0(maxRetries)) * starts[k]
    {
      assert sends[k] + Budget(store, k) <= (1 + Max0(maxRetries)) * starts[k];
    }
  }

  /** A retry is paid for by the attempt it takes off the entry. */
  lemma RetryAllowed(sends: multiset<Key>, store: map<Key, RetryEntry>, maxRetries: int, starts: multiset<Key>,
                     submitted: set<Packet>, key: Key)
    requires WithinBudget(sends, store, maxRetries, starts) && StoreOk(store, submitted)
    requires key in store && store[key].attemptsRemaining > 0
    ensures var store' := store[key := store[key].(attemptsRemaining := store[key].attemptsRemaining - 1)];
            && WithinBudget(sends, store', maxRetries, starts)
            && WithinBudget(sends + multiset{key}, store', maxRetries, starts)
            && StoreOk(store', submitted)
  {
    var store' := store[key := store[key].(attemptsRemaining := store[key].attemptsRemaining - 1)];
    forall k: Key
      ensures (sends + multiset{key})[k] + Budget(store', k) <= (1 + Max0(maxRetries)) * starts[k]
    {
      assert sends[k] + Budget(store, k) <= (1 + Max0(maxRetries)) * starts[k];
    }
  }
}
