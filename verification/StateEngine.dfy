/** The state machine engine of StateMachine/StateMachine.cpp: events raised from outside and by the
    states themselves, guards, exit, entry and state actions, and who deletes the event data. */
module StateEngine {
  import opened Wrappers

  type Byte = n: int | 0 <= n < 0x100

  const EVENT_IGNORED: Byte := 0xFE
  const CANNOT_HAPPEN: Byte := 0xFF

  // ---------- State maps ----------

  /** An event as given to InternalEvent; without data the engine makes a NoEventData. */
  datatype Raised<D> = Raised(state: Byte, data: Option<D>)

  /** What a state action does to the fields of its machine and which internal events it raises; or an
      assertion in it fails, the one on the type of the event data included. */
  datatype Outcome<U, D> = Failed | Did(user: U, raised: seq<Raised<D>>)

  /** What an exit or entry action does; raising an event there is an error. */
  datatype Hooked<U> = Hooked(user: U, raises: bool)

  /** A row of the extended state map; the simple state map has actions only. */
  datatype Row<!U, !D> = Row(
    action: (U, D) -> Outcome<U, D>,
    guard: Option<(U, D) -> bool>,
    entry: Option<(U, D) -> Hooked<U>>,
    exit: Option<U -> Hooked<U>>)

  datatype Machine<!U, !D> = Machine(rows: seq<Row<U, D>>, noData: D) {
    predicate Valid() { 0 < |rows| < EVENT_IGNORED }
  }

  predicate Simple<U, D>(m: Machine<U, D>) {
    forall i | 0 <= i < |m.rows| :: m.rows[i].guard.None? && m.rows[i].entry.None? && m.rows[i].exit.None?
  }

  /** Internal events lead down in rank only. */
  ghost predicate Ranked<U(!new), D(!new)>(m: Machine<U, D>, rank: Byte -> nat) {
    forall s: Byte, u, d | s < |m.rows| && m.rows[s].action(u, d).Did? ::
      forall r | r in m.rows[s].action(u, d).raised :: rank(r.state) < rank(s)
  }

  ghost predicate RaisesAtMostOne<U(!new), D(!new)>(m: Machine<U, D>) {
    forall s, u, d | 0 <= s < |m.rows| && m.rows[s].action(u, d).Did? :: |m.rows[s].action(u, d).raised| <= 1
  }

  // ---------- Specification of the engine ----------

  /** Event data is an object: the caller's is CALLERS, those made by InternalEvent are numbered. */
  datatype Datum<D> = Datum(id: int, value: D)

  const CALLERS: int := -1

  datatype Event<D> = Event(state: Byte, data: Datum<D>)

  /** Guards, actions and hooks that ran. */
  datatype Call = Guarded(state: Byte, passed: bool) | Exited(state: Byte) | Entered(state: Byte) | Acted(state: Byte)

  datatype Config<U, D> = Config(
    current: Byte,
    user: U,
    event: Option<Event<D>>,
    external: bool,        // no event of this ExternalEvent call has been dealt with yet
    created: nat,          // event data objects made so far
    deleted: seq<int>,
    leaked: seq<int>,      // overwritten before they were used
    calls: seq<Call>,
    fault: bool)           // an assertion has failed

  /** InternalEvent: the last one wins, and the data of the one before is lost. */
  function Raise<U, D>(c: Config<U, D>, r: Raised<D>, noData: D): Config<U, D> {
    var value := if r.data.Some? then r.data.value else noData;
    c.(event := Some(Event(r.state, Datum(c.created, value))), created := c.created + 1,
       leaked := if c.event.Some? then c.leaked + [c.event.value.data.id] else c.leaked)
  }

  function RaiseAll<U, D>(c: Config<U, D>, raised: seq<Raised<D>>, noData: D): Config<U, D> {
    if raised == [] then c else Raise(RaiseAll(c, raised[..|raised| - 1], noData), raised[|raised| - 1], noData)
  }

  function Act<U, D>(m: Machine<U, D>, c: Config<U, D>, s: Byte, data: Datum<D>): Config<U, D>
    requires s < |m.rows|
  {
    match m.rows[s].action(c.user, data.value)
    case Failed => c.(current := s, fault := true)
    case Did(u, raised) => RaiseAll(c.(current := s, user := u, calls := c.calls + [Acted(s)]), raised, m.noData)
  }

  function Exit<U, D>(m: Machine<U, D>, c: Config<U, D>): Config<U, D>
    requires c.current < |m.rows|
  {
    match m.rows[c.current].exit
    case None => c
    case Some(f) =>
      c.(user := f(c.user).user, fault := c.fault || f(c.user).raises, calls := c.calls + [Exited(c.current)])
  }

  function Enter<U, D>(m: Machine<U, D>, c: Config<U, D>, s: Byte, data: Datum<D>): Config<U, D>
    requires s < |m.rows|
  {
    match m.rows[s].entry
    case None => c
    case Some(f) =>
      c.(user := f(c.user, data.value).user, fault := c.fault || f(c.user, data.value).raises,
         calls := c.calls + [Entered(s)])
  }

  /** Data is deleted after use, except that of the first event, which is the caller's. */
  function Dispose<U, D>(c: Config<U, D>, data: Datum<D>): Config<U, D> {
    if c.fault then c
    else c.(deleted := if c.external then c.deleted else c.deleted + [data.id], external := false)
  }

  predicate Passes<U, D>(m: Machine<U, D>, c: Config<U, D>, s: Byte, data: Datum<D>)
    requires s < |m.rows|
  {
    m.rows[s].guard.None? || m.rows[s].guard.value(c.user, data.value)
  }

  function AskGuard<U, D>(m: Machine<U, D>, c: Config<U, D>, s: Byte, data: Datum<D>): Config<U, D>
    requires s < |m.rows|
  {
    if m.rows[s].guard.None? then c else c.(calls := c.calls + [Guarded(s, Passes(m, c, s, data))])
  }

  function ChangeState<U, D>(m: Machine<U, D>, c: Config<U, D>, s: Byte, data: Datum<D>): Config<U, D>
    requires s < |m.rows| && c.current < |m.rows|
  {
    if s == c.current then c else Enter(m, Exit(m, c), s, data)
  }

  /** One turn of the engine. */
  function Turn<U, D>(m: Machine<U, D>, c: Config<U, D>): Config<U, D>
    requires c.event.Some? && c.current < |m.rows|
  {
    var s, data := c.event.value.state, c.event.value.data;
    if s >= |m.rows| then c.(fault := true)
    else
      var asked := AskGuard(m, c.(event := None), s, data);
      if !Passes(m, c, s, data) then Dispose(asked, data)
      else
        var ready := ChangeState(m, asked, s, data);
        if ready.fault then ready else Dispose(Act(m, ready, s, data), data)
  }

  /** The whole engine. */
  ghost function Run<U(!new), D(!new)>(m: Machine<U, D>, rank: Byte -> nat, c: Config<U, D>): Config<U, D>
    requires Ranked(m, rank) && c.current < |m.rows|
    decreases if c.event.Some? then 1 + rank(c.event.value.state) else 0
  {
    if c.event.None? || c.fault then c
    else
      TurnGoesDown(m, rank, c);
      var c' := Turn(m, c);
      if c'.fault then c' else Run(m, rank, c')
  }

  lemma RaiseAllSteps<U, D>(c: Config<U, D>, raised: seq<Raised<D>>, i: nat, noData: D)
    requires i <= |raised|
    ensures RaiseAll(c, raised[..0], noData) == c
    ensures i < |raised| ==>
            RaiseAll(c, raised[..i + 1], noData) == Raise(RaiseAll(c, raised[..i], noData), raised[i], noData)
  {
    if i < |raised| {
      assert raised[..i + 1][..i] == raised[..i];
    }
  }

  lemma {:induction false} RaiseAllLast<U, D>(c: Config<U, D>, raised: seq<Raised<D>>, noData: D)
    ensures var c' := RaiseAll(c, raised, noData);
            && c'.current == c.current && c'.external == c.external && c'.fault == c.fault && c'.user == c.user
            && c'.calls == c.calls && c'.deleted == c.deleted
            && (raised == [] ==> c' == c)
            && (raised != [] ==> c'.event.Some? && c'.event.value.state == raised[|raised| - 1].state)
  {
    if raised != [] {
      RaiseAllLast(c, raised[..|raised| - 1], noData);
    }
  }

  /** The configuration in which the state action of a turn starts. */
  function Ready<U, D>(m: Machine<U, D>, c: Config<U, D>): Config<U, D>
    requires c.event.Some? && c.current < |m.rows| && c.event.value.state < |m.rows|
  {
    var s, data := c.event.value.state, c.event.value.data;
    ChangeState(m, AskGuard(m, c.(event := None), s, data), s, data)
  }

  /** Guards and hooks touch nothing but the fields of the machine. */
  lemma ReadyKeeps<U, D>(m: Machine<U, D>, c: Config<U, D>)
    requires c.event.Some? && c.current < |m.rows| && c.event.value.state < |m.rows|
    ensures var r := Ready(m, c);
            && r.event.None? && r.created == c.created && r.deleted == c.deleted && r.leaked == c.leaked
            && r.current == c.current && r.external == c.external
  {}

  lemma TurnGoesDown<U(!new), D(!new)>(m: Machine<U, D>, rank: Byte -> nat, c: Config<U, D>)
    requires Ranked(m, rank) && c.event.Some? && !c.fault && c.current < |m.rows|
    ensures Turn(m, c).current < |m.rows|
    ensures Turn(m, c).event.Some? && !Turn(m, c).fault ==>
            rank(Turn(m, c).event.value.state) < rank(c.event.value.state)
  {
    var s, data := c.event.value.state, c.event.value.data;
    if s < |m.rows| {
      ReadyKeeps(m, c);
      ActRaises(m, rank, Ready(m, c), s, data);
      hide Act, ChangeState;
    }
  }

  lemma ActRaises<U(!new), D(!new)>(m: Machine<U, D>, rank: Byte -> nat, c: Config<U, D>, s: Byte, data: Datum<D>)
    requires Ranked(m, rank) && s < |m.rows| && c.event.None?
    ensures Act(m, c, s, data).current == s
    ensures Act(m, c, s, data).event.Some? ==> rank(Act(m, c, s, data).event.value.state) < rank(s)
  {
    var out := m.rows[s].action(c.user, data.value);
    if out.Did? {
      var c' := c.(current := s, user := out.user, calls := c.calls + [Acted(s)]);
      RaiseAllLast(c', out.raised, m.noData);
      if out.raised != [] {
        assert out.raised[|out.raised| - 1] in out.raised;
      }
    }
  }

  // ---------- Event data ----------

  /** Each object made so far has been deleted once, or lost once, or is pending, or is in hand. */
  ghost predicate Books(created: nat, deleted: seq<int>, leaked: seq<int>, pending: int, hand: int) {
    && (forall id: nat ::
          multiset(deleted)[id] + multiset(leaked)[id] + (if id == pending then 1 else 0)
            + (if id == hand then 1 else 0)
            == if id < created then 1 else 0)
    && CALLERS !in deleted && CALLERS !in leaked
  }

  function Pending<U, D>(c: Config<U, D>): int {
    if c.event.Some? then c.event.value.data.id else CALLERS
  }

  /** The engine tells the caller's data from its own by counting turns. */
  ghost predicate Accounted<U, D>(c: Config<U, D>) {
    && Books(c.created, c.deleted, c.leaked, Pending(c), CALLERS)
    && (c.event.Some? ==> Pending(c) >= CALLERS && (c.external <==> Pending(c) == CALLERS))
  }

  lemma NewObject(created: nat, deleted: seq<int>, leaked: seq<int>, pending: int, hand: int)
    requires Books(created, deleted, leaked, pending, hand) && pending >= CALLERS
    ensures pending == CALLERS ==> Books(created + 1, deleted, leaked, created, hand)
    ensures pending != CALLERS ==> Books(created + 1, deleted, leaked + [pending], created, hand)
  {
    forall id: nat
      ensures pending == CALLERS ==>
                multiset(deleted)[id] + multiset(leaked)[id] + (if id == created then 1 else 0)
                  + (if id == hand then 1 else 0)
                  == if id < created + 1 then 1 else 0
      ensures pending != CALLERS ==>
                multiset(deleted)[id] + multiset(leaked + [pending])[id] + (if id == created then 1 else 0)
                  + (if id == hand then 1 else 0)
                  == if id < created + 1 then 1 else 0
    {
      assert multiset(deleted)[id] + multiset(leaked)[id] + (if id == pending then 1 else 0)
             + (if id == hand then 1 else 0)
          == if id < created then 1 else 0;
    }
  }

  lemma {:induction false} RaiseAllBooks<U, D>(c: Config<U, D>, raised: seq<Raised<D>>, noData: D, hand: int)
    requires c.event.None? && Books(c.created, c.deleted, c.leaked, CALLERS, hand)
    ensures var c' := RaiseAll(c, raised, noData);
            && Books(c'.created, c'.deleted, c'.leaked, Pending(c'), hand)
            && (c'.event.Some? ==> Pending(c') >= 0)
  {
    hide Books;
    if raised != [] {
      var front := RaiseAll(c, raised[..|raised| - 1], noData);
      RaiseAllBooks(c, raised[..|raised| - 1], noData, hand);
      NewObject(front.created, front.deleted, front.leaked, Pending(front), hand);
    }
  }

  /** All but the last of the events that one action raises are lost with their data. */
  lemma {:induction false} RaiseAllLeaks<U, D>(c: Config<U, D>, raised: seq<Raised<D>>, noData: D)
    requires c.event.None?
    ensures var c' := RaiseAll(c, raised, noData);
            && |c'.leaked| == |c.leaked| + (if raised == [] then 0 else |raised| - 1) && c.leaked <= c'.leaked
            && (c'.leaked == c.leaked <==> |raised| <= 1)
  {
    if raised != [] {
      RaiseAllLeaks(c, raised[..|raised| - 1], noData);
      RaiseAllLast(c, raised[..|raised| - 1], noData);
    }
  }

  lemma ActBooks<U, D>(m: Machine<U, D>, c: Config<U, D>, s: Byte, data: Datum<D>)
    requires s < |m.rows| && c.event.None? && Books(c.created, c.deleted, c.leaked, CALLERS, data.id)
    ensures var c' := Act(m, c, s, data);
            && Books(c'.created, c'.deleted, c'.leaked, Pending(c'), data.id)
            && (c'.event.Some? ==> Pending(c') >= 0) && c'.external == c.external
  {
    hide Books;
    var out := m.rows[s].action(c.user, data.value);
    if out.Did? {
      var c1 := c.(current := s, user := out.user, calls := c.calls + [Acted(s)]);
      RaiseAllBooks(c1, out.raised, m.noData, data.id);
      RaiseAllLast(c1, out.raised, m.noData);
    }
  }

  lemma InHand(created: nat, deleted: seq<int>, leaked: seq<int>, pending: int, hand: int)
    requires Books(created, deleted, leaked, pending, hand)
    ensures Books(created, deleted, leaked, hand, pending)
    ensures hand >= 0 ==> Books(created, deleted + [hand], leaked, pending, CALLERS)
  {
    forall id: nat
      ensures hand >= 0 ==>
                multiset(deleted + [hand])[id] + multiset(leaked)[id] + (if id == pending then 1 else 0)
                  + (if id == CALLERS then 1 else 0)
                  == if id < created then 1 else 0
    {
      assert multiset(deleted)[id] + multiset(leaked)[id] + (if id == pending then 1 else 0)
             + (if id == hand then 1 else 0)
          == if id < created then 1 else 0;
    }
  }

  lemma TurnAccounted<U, D>(m: Machine<U, D>, c: Config<U, D>)
    requires c.event.Some? && c.current < |m.rows| && Accounted(c) && !c.fault
    ensures !Turn(m, c).fault ==> Accounted(Turn(m, c)) && !Turn(m, c).external
  {
    hide Books, Act, ChangeState;
    var s, data := c.event.value.state, c.event.value.data;
    InHand(c.created, c.deleted, c.leaked, Pending(c), CALLERS);
    InHand(c.created, c.deleted, c.leaked, CALLERS, data.id);
    if s < |m.rows| {
      ReadyKeeps(m, c);
      var ready := Ready(m, c);
      ActBooks(m, ready, s, data);
      var done := Act(m, ready, s, data);
      InHand(done.created, done.deleted, done.leaked, Pending(done), data.id);
    }
  }

  lemma TurnLeaks<U(!new), D(!new)>(m: Machine<U, D>, c: Config<U, D>)
    requires c.event.Some? && c.current < |m.rows| && RaisesAtMostOne(m)
    ensures Turn(m, c).leaked == c.leaked
  {
    hide ChangeState;
    var s, data := c.event.value.state, c.event.value.data;
    if s < |m.rows| {
      ReadyKeeps(m, c);
      var ready := Ready(m, c);
      var out := m.rows[s].action(ready.user, data.value);
      if out.Did? {
        RaiseAllLeaks(ready.(current := s, user := out.user, calls := ready.calls + [Acted(s)]), out.raised, m.noData);
      }
    }
  }

  /** When the engine stops without a fault no event is pending, and every event data object that the
      machine made has been deleted once, or lost once if an action raised more than one event; the
      caller's data is never deleted. */
  lemma {:induction false} RunAccounted<U(!new), D(!new)>(m: Machine<U, D>, rank: Byte -> nat, c: Config<U, D>)
    requires Ranked(m, rank) && c.current < |m.rows| && Accounted(c) && !c.fault
    ensures var c' := Run(m, rank, c);
            !c'.fault ==>
              && c'.event.None? && Accounted(c') && CALLERS !in c'.deleted
              && (RaisesAtMostOne(m) ==> c'.leaked == c.leaked)
              && (c.leaked == [] && RaisesAtMostOne(m) ==>
                  forall id | 0 <= id < c'.created :: multiset(c'.deleted)[id] == 1)
    decreases if c.event.Some? then 1 + rank(c.event.value.state) else 0
  {
    hide Turn, RaisesAtMostOne;
    if c.event.Some? {
      TurnGoesDown(m, rank, c);
      TurnAccounted(m, c);
      if RaisesAtMostOne(m) {
        TurnLeaks(m, c);
      }
      if !Turn(m, c).fault {
        RunAccounted(m, rank, Turn(m, c));
      }
    }
  }

  // ---------- Exit and entry actions ----------

  function Times(calls: seq<Call>, call: Call): nat {
    multiset(calls)[call]
  }

  /** The state action runs exactly when the guard lets the event through, the exit and entry actions
      exactly when this changes the state. */
  lemma TurnHooks<U, D>(m: Machine<U, D>, c: Config<U, D>, s: Byte)
    requires c.event.Some? && c.current < |m.rows| && s < |m.rows| && !Turn(m, c).fault
    ensures var c', e := Turn(m, c), c.event.value;
            && e.state < |m.rows|
            && c'.current == (if Passes(m, c, e.state, e.data) then e.state else c.current)
            && Times(c'.calls, Acted(s)) == Times(c.calls, Acted(s))
               + (if Passes(m, c, e.state, e.data) && s == e.state then 1 else 0)
            && Times(c'.calls, Entered(s)) == Times(c.calls, Entered(s))
                 + (if m.rows[s].entry.Some? && c.current != s == c'.current then 1 else 0)
            && Times(c'.calls, Exited(s)) == Times(c.calls, Exited(s))
                 + (if m.rows[s].exit.Some? && c.current == s != c'.current then 1 else 0)
  {
    hide Act, ChangeState, Times;
    var e := c.event.value;
    var asked := AskGuard(m, c.(event := None), e.state, e.data);
    GuardCalls(c.calls, e.state, Passes(m, c, e.state, e.data), s);
    if Passes(m, c, e.state, e.data) {
      ChangeHooks(m, asked, e.state, e.data, s);
      ActHooks(m, Ready(m, c), e.state, e.data, s);
    }
  }

  lemma GuardCalls(calls: seq<Call>, state: Byte, passed: bool, s: Byte)
    ensures var calls' := calls + [Guarded(state, passed)];
            && Times(calls', Acted(s)) == Times(calls, Acted(s))
            && Times(calls', Entered(s)) == Times(calls, Entered(s))
            && Times(calls', Exited(s)) == Times(calls, Exited(s))
  {}

  lemma ChangeHooks<U, D>(m: Machine<U, D>, c: Config<U, D>, to: Byte, data: Datum<D>, s: Byte)
    requires c.current < |m.rows| && s < |m.rows| && to < |m.rows|
    ensures var c' := ChangeState(m, c, to, data);
            && Times(c'.calls, Acted(s)) == Times(c.calls, Acted(s))
            && Times(c'.calls, Entered(s)) == Times(c.calls, Entered(s))
               + (if m.rows[s].entry.Some? && c.current != s == to then 1 else 0)
            && Times(c'.calls, Exited(s)) == Times(c.calls, Exited(s))
               + (if m.rows[s].exit.Some? && c.current == s != to then 1 else 0)
            && c'.current == c.current
  {
    hide Times, Exit, Enter;
    if to != c.current {
      ExitHooks(m, c, s);
      EnterHooks(m, Exit(m, c), to, data, s);
    }
  }

  lemma ExitHooks<U, D>(m: Machine<U, D>, c: Config<U, D>, s: Byte)
    requires c.current < |m.rows| && s < |m.rows|
    ensures var c' := Exit(m, c);
            && Times(c'.calls, Acted(s)) == Times(c.calls, Acted(s))
            && Times(c'.calls, Entered(s)) == Times(c.calls, Entered(s))
            && Times(c'.calls, Exited(s)) == Times(c.calls, Exited(s))
               + (if m.rows[s].exit.Some? && c.current == s then 1 else 0)
            && c'.current == c.current
  {}

  lemma EnterHooks<U, D>(m: Machine<U, D>, c: Config<U, D>, to: Byte, data: Datum<D>, s: Byte)
    requires s < |m.rows| && to < |m.rows|
    ensures var c' := Enter(m, c, to, data);
            && Times(c'.calls, Acted(s)) == Times(c.calls, Acted(s))
            && Times(c'.calls, Exited(s)) == Times(c.calls, Exited(s))
            && Times(c'.calls, Entered(s)) == Times(c.calls, Entered(s))
               + (if m.rows[s].entry.Some? && to == s then 1 else 0)
            && c'.current == c.current
  {}

  lemma ActHooks<U, D>(m: Machine<U, D>, c: Config<U, D>, to: Byte, data: Datum<D>, s: Byte)
    requires to < |m.rows|
    ensures var c' := Act(m, c, to, data);
            !c'.fault ==>
              && c'.current == to
              && Times(c'.calls, Acted(s)) == Times(c.calls, Acted(s)) + (if s == to then 1 else 0)
              && Times(c'.calls, Entered(s)) == Times(c.calls, Entered(s))
              && Times(c'.calls, Exited(s)) == Times(c.calls, Exited(s))
  {
    var out := m.rows[to].action(c.user, data.value);
    if out.Did? {
      RaiseAllLast(c.(current := to, user := out.user, calls := c.calls + [Acted(to)]), out.raised, m.noData);
    }
  }

  /** And they run in this order: guard, exit action of the old state, entry action of the new one, state
      action. */
  lemma TurnOrder<U, D>(m: Machine<U, D>, c: Config<U, D>)
    requires c.event.Some? && c.current < |m.rows| && !Turn(m, c).fault
    ensures c.event.value.state < |m.rows|
    ensures var s, from := c.event.value.state, c.current;
            var passed := Passes(m, c, s, c.event.value.data);
            Turn(m, c).calls ==
              c.calls + (if m.rows[s].guard.Some? then [Guarded(s, passed)] else [])
                + (if passed && s != from && m.rows[from].exit.Some? then [Exited(from)] else [])
                + (if passed && s != from && m.rows[s].entry.Some? then [Entered(s)] else [])
                + (if passed then [Acted(s)] else [])
  {
    hide RaiseAll;
    var s, data := c.event.value.state, c.event.value.data;
    if s < |m.rows| && Passes(m, c, s, data) {
      var ready := Ready(m, c);
      var out := m.rows[s].action(ready.user, data.value);
      if out.Did? {
        RaiseAllLast(ready.(current := s, user := out.user, calls := ready.calls + [Acted(s)]), out.raised, m.noData);
      }
    }
  }

  /** Over a whole run: a state with both hooks has been entered once more than left exactly if the
      machine is in it now and was not before. */
  lemma {:induction false} EnteredAsLeft<U(!new), D(!new)>(m: Machine<U, D>, rank: Byte -> nat, c: Config<U, D>,
                                                           s: Byte)
    requires Ranked(m, rank) && c.current < |m.rows| && !c.fault && !Run(m, rank, c).fault
    requires s < |m.rows| && m.rows[s].entry.Some? && m.rows[s].exit.Some?
    ensures var c' := Run(m, rank, c);
            Times(c'.calls, Entered(s)) - Times(c.calls, Entered(s)) + (if c.current == s then 1 else 0)
              == Times(c'.calls, Exited(s)) - Times(c.calls, Exited(s)) + (if c'.current == s then 1 else 0)
    decreases if c.event.Some? then 1 + rank(c.event.value.state) else 0
  {
    hide Turn, Times;
    if c.event.Some? {
      TurnGoesDown(m, rank, c);
      TurnHooks(m, c, s);
      EnteredAsLeft(m, rank, Turn(m, c), s);
    }
  }

  // ---------- Where an event leads ----------

  /** What one turn does to state and fields: a failed assertion, the end of the run, or the next event. */
  datatype Hop<U, D> = Halt | Rest(state: Byte, user: U) | Onward(state: Byte, user: U, to: Byte, data: D)

  function Leave<U, D>(m: Machine<U, D>, state: Byte, user: U): Hooked<U>
    requires state < |m.rows|
  {
    match m.rows[state].exit
    case None => Hooked(user, false)
    case Some(f) => f(user)
  }

  function Arrive<U, D>(m: Machine<U, D>, state: Byte, user: U, data: D): Hooked<U>
    requires state < |m.rows|
  {
    match m.rows[state].entry
    case None => Hooked(user, false)
    case Some(f) => f(user, data)
  }

  function HopTo<U, D>(m: Machine<U, D>, state: Byte, user: U, to: Byte, data: D): Hop<U, D>
    requires state < |m.rows|
  {
    if to >= |m.rows| then Halt
    else if m.rows[to].guard.Some? && !m.rows[to].guard.value(user, data) then Rest(state, user)
    else
      var left := if to == state then Hooked(user, false) else Leave(m, state, user);
      var arrived := if to == state then left else Arrive(m, to, left.user, data);
      if left.raises || arrived.raises then Halt
      else
        match m.rows[to].action(arrived.user, data)
        case Failed => Halt
        case Did(u, raised) =>
          if raised == [] then Rest(to, u)
          else
            var last := raised[|raised| - 1];
            Onward(to, u, last.state, if last.data.Some? then last.data.value else m.noData)
  }

  /** The same, as an engine configuration. */
  predicate Reached<U(==), D(==)>(c: Config<U, D>, hop: Hop<U, D>) {
    match hop
    case Halt => c.fault
    case Rest(s, u) => !c.fault && c.current == s && c.user == u && c.event.None?
    case Onward(s, u, to, d) =>
      && !c.fault && c.current == s && c.user == u
      && c.event.Some? && c.event.value.state == to && c.event.value.data.value == d
  }

  lemma RaiseAllValue<U, D>(c: Config<U, D>, raised: seq<Raised<D>>, noData: D)
    requires raised != []
    ensures var last, c' := raised[|raised| - 1], RaiseAll(c, raised, noData);
            c'.event.Some? && c'.event.value.state == last.state
            && c'.event.value.data.value == if last.data.Some? then last.data.value else noData
  {}

  lemma ChangeHops<U, D>(m: Machine<U, D>, c: Config<U, D>, to: Byte, data: Datum<D>)
    requires c.current < |m.rows| && to < |m.rows| && !c.fault
    ensures var left := if to == c.current then Hooked(c.user, false) else Leave(m, c.current, c.user);
            var arrived := if to == c.current then left else Arrive(m, to, left.user, data.value);
            var c' := ChangeState(m, c, to, data);
            && (c'.fault <==> left.raises || arrived.raises)
            && (!c'.fault ==> c'.user == arrived.user) && c'.event == c.event
  {}

  lemma TurnHops<U, D>(m: Machine<U, D>, c: Config<U, D>)
    requires c.event.Some? && c.current < |m.rows| && !c.fault
    ensures Reached(Turn(m, c), HopTo(m, c.current, c.user, c.event.value.state, c.event.value.data.value))
  {
    hide ChangeState, RaiseAll;
    var s, data := c.event.value.state, c.event.value.data;
    if s < |m.rows| {
      ChangeHops(m, AskGuard(m, c.(event := None), s, data), s, data);
      var ready := Ready(m, c);
      var out := m.rows[s].action(ready.user, data.value);
      if out.Did? {
        var acting := ready.(current := s, user := out.user, calls := ready.calls + [Acted(s)]);
        RaiseAllLast(acting, out.raised, m.noData);
        if out.raised != [] {
          RaiseAllValue(acting, out.raised, m.noData);
        }
      }
    }
  }

  /** Where an event takes a machine in the end, the events that it raises itself included. */
  datatype End<U> = End(state: Byte, user: U, fault: bool)

  ghost function Follow<U(!new), D(!new)>(m: Machine<U, D>, rank: Byte -> nat, state: Byte, user: U, to: Byte,
                                          data: D): End<U>
    requires Ranked(m, rank) && state < |m.rows|
  {
    var end := Run(m, rank, Config(state, user, Some(Event(to, Datum(CALLERS, data))), true, 0, [], [], [], false));
    End(end.current, end.user, end.fault)
  }

  lemma {:induction false} RunAlike<U(!new), D(!new)>(m: Machine<U, D>, rank: Byte -> nat, c: Config<U, D>,
                                                      d: Config<U, D>, hop: Hop<U, D>)
    requires Ranked(m, rank) && c.current < |m.rows| && d.current < |m.rows|
    requires Reached(c, hop) && Reached(d, hop) && !hop.Halt?
    ensures var c', d' := Run(m, rank, c), Run(m, rank, d);
            c'.fault == d'.fault && (!c'.fault ==> c'.current == d'.current && c'.user == d'.user)
    decreases if c.event.Some? then 1 + rank(c.event.value.state) else 0
  {
    hide Turn, HopTo;
    if c.event.Some? {
      var next := HopTo(m, c.current, c.user, c.event.value.state, c.event.value.data.value);
      TurnHops(m, c);
      TurnHops(m, d);
      TurnGoesDown(m, rank, c);
      TurnGoesDown(m, rank, d);
      if !next.Halt? {
        RunAlike(m, rank, Turn(m, c), Turn(m, d), next);
      }
    }
  }

  /** An event is followed hop by hop. */
  lemma FollowHops<U(!new), D(!new)>(m: Machine<U, D>, rank: Byte -> nat, state: Byte, user: U, to: Byte, data: D)
    requires Ranked(m, rank) && state < |m.rows|
    ensures var end := Follow(m, rank, state, user, to, data);
            match HopTo(m, state, user, to, data)
            case Halt => end.fault
            case Rest(s, u) => end == End(s, u, false)
            case Onward(s, u, t, d) =>
              && s < |m.rows|
              && var rest := Follow(m, rank, s, u, t, d);
                 end.fault == rest.fault && (!end.fault ==> end == rest)
  {
    hide Turn, HopTo;
    var c := Config(state, user, Some(Event(to, Datum(CALLERS, data))), true, 0, [], [], [], false);
    var hop := HopTo(m, state, user, to, data);
    TurnHops(m, c);
    TurnGoesDown(m, rank, c);
    if hop.Rest? {
      assert Run(m, rank, Turn(m, c)) == Turn(m, c);
    }
    if hop.Onward? {
      RunAlike(m, rank, Turn(m, c),
               Config(hop.state, hop.user, Some(Event(hop.to, Datum(CALLERS, hop.data))), true, 0, [], [], [], false),
               hop);
    }
  }

  // ---------- The simple engine ----------

  function SimpleTurn<U, D>(m: Machine<U, D>, c: Config<U, D>): Config<U, D>
    requires c.event.Some? && c.current < |m.rows|
  {
    var s, data := c.event.value.state, c.event.value.data;
    if s >= |m.rows| then c.(fault := true)
    else Dispose(Act(m, c.(event := None), s, data), data)
  }

  /** The engine for simple state maps does what the other one does with rows that have no hooks. */
  lemma SimpleIsExtended<U, D>(m: Machine<U, D>, c: Config<U, D>)
    requires Simple(m) && c.event.Some? && c.current < |m.rows| && !c.fault
    ensures SimpleTurn(m, c) == Turn(m, c)
  {}

  // ---------- The machine ----------

  class StateMachine<U(!new), D(!new)> {
    const machine: Machine<U, D>
    const simple: bool               // GetStateMap, not GetStateMapEx
    var currentState: Byte
    var newState: Byte
    var eventGenerated: bool
    var eventData: Option<Datum<D>>
    var user: U
    var created: nat
    var faulted: bool                // an assertion has failed and the program stopped
    ghost var deleted: seq<int>
    ghost var leaked: seq<int>
    ghost var calls: seq<Call>

    ghost predicate Valid()
      reads this
    {
      && machine.Valid() && currentState < |machine.rows| && (simple ==> Simple(machine))
      && (eventGenerated <==> eventData.Some?)
    }

    ghost function Value(external: bool): Config<U, D>
      reads this
      requires Valid()
    {
      Config(currentState, user, if eventGenerated then Some(Event(newState, eventData.value)) else None, external,
             created, deleted, leaked, calls, faulted)
    }

    constructor (machine: Machine<U, D>, simple: bool, user: U)
      requires machine.Valid() && (simple ==> Simple(machine))
      ensures Valid() && Value(true) == Config(0, user, None, true, 0, [], [], [], false)
      ensures this.machine == machine && this.simple == simple
    {
      this.machine, this.simple, this.user := machine, simple, user;
      currentState, newState, eventGenerated, eventData := 0, 0, false, None;
      created, faulted, deleted, leaked, calls := 0, false, [], [], [];
    }

    method InternalEvent(state: Byte, data: Option<Datum<D>>)
      requires Valid()
      modifies this
      ensures Valid() && eventGenerated && newState == state
      ensures eventData == (if data.Some? then data else Some(Datum(old(created), machine.noData)))
      ensures created == (if data.Some? then old(created) else old(created) + 1)
      ensures leaked == (if old(eventGenerated) then old(leaked) + [old(eventData).value.id] else old(leaked))
      ensures currentState == old(currentState) && user == old(user) && faulted == old(faulted)
      ensures deleted == old(deleted) && calls == old(calls)
    {
      if eventGenerated {
        leaked := leaked + [eventData.value.id];
      }
      if data.None? {
        eventData, created := Some(Datum(created, machine.noData)), created + 1;
      } else {
        eventData := data;
      }
      eventGenerated, newState := true, state;
    }

    /** A state action raises its events one by one, each with an object of its own or without data. */
    method RaiseEvents(raised: seq<Raised<D>>)
      requires Valid()
      modifies this
      ensures Valid()
      ensures forall external :: Value(external) == RaiseAll(old(Value(external)), raised, machine.noData)
    {
      var i := 0;
      RaiseAllSteps(Value(true), raised, 0, machine.noData);
      RaiseAllSteps(Value(false), raised, 0, machine.noData);
      hide RaiseAll, Raise;
      while i < |raised|
        invariant 0 <= i <= |raised| && Valid()
        invariant Value(true) == RaiseAll(old(Value(true)), raised[..i], machine.noData)
        invariant Value(false) == RaiseAll(old(Value(false)), raised[..i], machine.noData)
      {
        RaiseAllSteps(old(Value(true)), raised, i, machine.noData);
        RaiseAllSteps(old(Value(false)), raised, i, machine.noData);
        RaiseEvent(raised[i]);
        i := i + 1;
      }
      assert raised[..i] == raised;
    }

    method RaiseEvent(r: Raised<D>)
      requires Valid()
      modifies this
      ensures Valid()
      ensures forall external :: Value(external) == Raise(old(Value(external)), r, machine.noData)
    {
      var data := None;
      if r.data.Some? {
        data, created := Some(Datum(created, r.data.value)), created + 1;
      }
      InternalEvent(r.state, data);
    }

    /** Without data of the caller the engine uses an object of its own on the stack. */
    method ExternalEvent(state: Byte, data: Option<D>, ghost rank: Byte -> nat)
      requires Valid() && !faulted && !eventGenerated && Ranked(machine, rank)
      modifies this
      ensures Valid()
      ensures state == EVENT_IGNORED ==> Value(true) == old(Value(true))
      ensures state != EVENT_IGNORED ==>
                var value := if data.Some? then data.value else machine.noData;
                var start := old(Value(true)).(event := Some(Event(state, Datum(CALLERS, value))));
                Value(Run(machine, rank, start).external) == Run(machine, rank, start)
    {
      if state != EVENT_IGNORED {
        var value := if data.Some? then data.value else machine.noData;
        InternalEvent(state, Some(Datum(CALLERS, value)));
        Engine(rank);
      }
    }

    /** Runs until no event is pending. Only the data of the first event is not deleted. */
    method Engine(ghost rank: Byte -> nat)
      requires Valid() && !faulted && eventGenerated && Ranked(machine, rank)
      modifies this
      ensures Valid()
      ensures var end := Run(machine, rank, old(Value(true))); Value(end.external) == end
    {
      hide Turn;
      var externalEvent := true;
      ghost var start := Value(true);
      while eventGenerated
        invariant Valid() && !faulted
        invariant Run(machine, rank, Value(externalEvent)) == Run(machine, rank, start)
        decreases if eventGenerated then 1 + rank(newState) else 0
      {
        TurnGoesDown(machine, rank, Value(externalEvent));
        if simple {
          SimpleIsExtended(machine, Value(externalEvent));
          SimpleTurnOnce(externalEvent);
        } else {
          TurnOnce(externalEvent);
        }
        if faulted {
          return;
        }
        externalEvent := false;
      }
    }

    method SimpleTurnOnce(externalEvent: bool)
      requires Valid() && !faulted && eventGenerated
      modifies this
      ensures Valid() && Value(faulted && externalEvent) == SimpleTurn(machine, old(Value(externalEvent)))
    {
      if newState >= |machine.rows| {
        faulted := true;
        return;
      }
      hide Act;
      var state, data := newState, eventData.value;
      eventData, eventGenerated := None, false;
      assert Value(externalEvent) == old(Value(externalEvent)).(event := None);
      ActOnce(state, data);
      DisposeOnce(externalEvent, data);
    }

    method TurnOnce(externalEvent: bool)
      requires Valid() && !faulted && eventGenerated
      modifies this
      ensures Valid() && Value(faulted && externalEvent) == Turn(machine, old(Value(externalEvent)))
    {
      if newState >= |machine.rows| {
        faulted := true;
        return;
      }
      hide Act, ChangeState;
      var state, data := newState, eventData.value;
      eventData, eventGenerated := None, false;
      assert Value(externalEvent) == old(Value(externalEvent)).(event := None);
      var guardResult := true;
      var guard := machine.rows[state].guard;
      if guard.Some? {
        guardResult := guard.value(user, data.value);
        calls := calls + [Guarded(state, guardResult)];
      }
      if guardResult {
        ChangeOnce(state, data);
        if faulted {
          return;
        }
        ActOnce(state, data);
      }
      DisposeOnce(externalEvent, data);
    }

    method DisposeOnce(externalEvent: bool, data: Datum<D>)
      requires Valid()
      modifies this`deleted
      ensures Valid() && Value(faulted && externalEvent) == Dispose(old(Value(externalEvent)), data)
    {
      if !faulted && !externalEvent {
        deleted := deleted + [data.id];
      }
    }

    /** Exit action of the old state, then entry action of the new one; neither may raise an event. */
    method ChangeOnce(state: Byte, data: Datum<D>)
      requires Valid() && !faulted && !eventGenerated && state < |machine.rows|
      modifies this`user, this`calls, this`faulted
      ensures Valid()
      ensures forall external :: Value(external) == ChangeState(machine, old(Value(external)), state, data)
    {
      if state != currentState {
        var raises := false;
        var exit, entry := machine.rows[currentState].exit, machine.rows[state].entry;
        if exit.Some? {
          var h := exit.value(user);
          user, raises, calls := h.user, h.raises, calls + [Exited(currentState)];
        }
        if entry.Some? {
          var h := entry.value(user, data.value);
          user, raises, calls := h.user, raises || h.raises, calls + [Entered(state)];
        }
        faulted := raises;
      }
    }

    method ActOnce(state: Byte, data: Datum<D>)
      requires Valid() && !faulted && !eventGenerated && state < |machine.rows|
      modifies this
      ensures Valid()
      ensures forall external :: Value(external) == Act(machine, old(Value(external)), state, data)
    {
      currentState := state;
      match machine.rows[state].action(user, data.value) {
        case Failed =>
          faulted := true;
        case Did(u, raised) =>
          user, calls := u, calls + [Acted(state)];
          RaiseEvents(raised);
      }
    }
  }
}
