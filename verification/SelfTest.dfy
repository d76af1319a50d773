/** The self-test system of SelfTest/SelfTestEngine.cpp, SelfTest/CentrifugeTest.cpp, SelfTest/PressureTest.cpp
    and SelfTest/SelfTest.cpp: three state machines that talk through the queue of one thread. */
module SelfTest {
  import opened StateEngine
  import opened Wrappers

  /** Event data: a StartData, or the NoEventData base. */
  datatype Data = NoEventData | StartData(shortSelfTest: bool)

  datatype Test = TheEngine | Centrifuge | Pressure

  /** What the thread executes. */
  datatype Msg =
    | Start(data: Data)
    | Poll
    | Complete(test: Test)  // OnCompleted of a sub-test
    | Cancel(test: Test)

  // States shared by all machines, then those of each.
  const IDLE: Byte := 0
  const COMPLETED: Byte := 1
  const FAILED: Byte := 2
  const START_TEST: Byte := 3
  const ACCELERATION: Byte := 4
  const WAIT_FOR_ACCELERATION: Byte := 5
  const DECELERATION: Byte := 6
  const WAIT_FOR_DECELERATION: Byte := 7
  const START_CENTRIFUGE_TEST: Byte := 3
  const START_PRESSURE_TEST: Byte := 4

  // ---------- CentrifugeTest ----------

  /** The fields of the centrifuge test, and what its signals have put into the queue. */
  datatype Spin = Spin(speed: int, timerOn: bool, connected: bool, posted: seq<Msg>)

  function Plain<U, D>(action: (U, D) -> Outcome<U, D>): Row<U, D> {
    Row(action, None, None, None)
  }

  function CentrifugeMachine(): Machine<Spin, Data> {
    Machine([
      Row((u: Spin, d: Data) => Did(u.(connected := false, timerOn := false), []), None,
          Some((u: Spin, d: Data) => Hooked(u, false)), None),
      Plain((u: Spin, d: Data) => Did(u.(posted := u.posted + [Complete(Centrifuge)]), [Raised(IDLE, None)])),
      Plain((u: Spin, d: Data) => Did(u.(posted := u.posted + [Cancel(TheEngine)]), [Raised(IDLE, None)])),
      Row((u: Spin, d: Data) =>
            if d.StartData? then Did(u.(connected := true), [Raised(ACCELERATION, None)]) else Failed,
          Some((u: Spin, d: Data) => u.speed == 0), None, None),
      Plain((u: Spin, d: Data) => Did(u.(timerOn := true), [])),
      Row((u: Spin, d: Data) =>
            Did(u.(speed := u.speed + 1), if u.speed + 1 >= 5 then [Raised(DECELERATION, None)] else []),
          None, None, Some((u: Spin) => Hooked(u.(timerOn := false), false))),
      Plain((u: Spin, d: Data) => Did(u.(timerOn := true), [])),
      Row((u: Spin, d: Data) => Did(u.(speed := u.speed - 1), if u.speed == 0 then [Raised(COMPLETED, None)] else []),
          None, None, Some((u: Spin) => Hooked(u.(timerOn := false), false)))
    ], NoEventData)
  }

  function CentrifugeRank(s: Byte): nat {
    if s == IDLE || s == ACCELERATION || s == DECELERATION then 0
    else if s == WAIT_FOR_DECELERATION then 2 else 1
  }

  lemma CentrifugeRanked()
    ensures Ranked(CentrifugeMachine(), CentrifugeRank)
  {}

  function StartTransition(state: Byte): Byte {
    if state == IDLE then START_TEST
    else if state == COMPLETED || state == FAILED then CANNOT_HAPPEN
    else EVENT_IGNORED
  }

  function PollTransition(state: Byte): Byte {
    if state == ACCELERATION || state == WAIT_FOR_ACCELERATION then WAIT_FOR_ACCELERATION
    else if state == DECELERATION || state == WAIT_FOR_DECELERATION then WAIT_FOR_DECELERATION
    else EVENT_IGNORED
  }

  /** An event sent to the centrifuge test from outside. */
  ghost function ToCentrifuge(state: Byte, user: Spin, to: Byte, data: Data): End<Spin>
    requires state < 8
  {
    CentrifugeRanked();
    if to == EVENT_IGNORED then End(state, user, false)
    else Follow(CentrifugeMachine(), CentrifugeRank, state, user, to, data)
  }

  /** Between events the centrifuge test rests in Idle or in one of the four states of its ramp. */
  predicate CentrifugeOk(s: Byte, u: Spin) {
    && (s == IDLE || s == ACCELERATION || s == WAIT_FOR_ACCELERATION || s == DECELERATION || s == WAIT_FOR_DECELERATION)
    && (u.timerOn <==> s != IDLE) && (u.connected <==> s != IDLE)
    && (s == ACCELERATION ==> u.speed == 0)
    && (s == WAIT_FOR_ACCELERATION ==> 1 <= u.speed <= 4)
    && (s == DECELERATION ==> u.speed == 5)
    && (s == WAIT_FOR_DECELERATION ==> 0 <= u.speed <= 4)
    && (s == IDLE ==> -1 <= u.speed <= 5)
  }

  function Left(s: Byte, u: Spin, to: Byte): Spin {
    if to != s && (s == WAIT_FOR_ACCELERATION || s == WAIT_FOR_DECELERATION) then u.(timerOn := false) else u
  }

  lemma CentrifugeLeave(s: Byte, u: Spin)
    requires s < 8
    ensures s == WAIT_FOR_ACCELERATION || s == WAIT_FOR_DECELERATION ==>
              Leave(CentrifugeMachine(), s, u) == Hooked(u.(timerOn := false), false)
    ensures s != WAIT_FOR_ACCELERATION && s != WAIT_FOR_DECELERATION ==>
            Leave(CentrifugeMachine(), s, u) == Hooked(u, false)
  {}

  lemma CentrifugeArrive(s: Byte, u: Spin, d: Data)
    requires s < 8
    ensures Arrive(CentrifugeMachine(), s, u, d) == Hooked(u, false)
  {}

  lemma CentrifugeGuards(s: Byte, u: Spin, d: Data)
    requires s < 8
    ensures var guard := CentrifugeMachine().rows[s].guard;
            if s == START_TEST then guard.Some? && guard.value(u, d) == (u.speed == 0) else guard.None?
  {}

  /** One hop of the centrifuge test. */
  lemma CentrifugeHop(s: Byte, u: Spin, to: Byte, d: Data)
    requires s < 8 && to < 8
    ensures var m := CentrifugeMachine();
            HopTo(m, s, u, to, d) ==
              if to == START_TEST && u.speed != 0 then Rest(s, u)
              else match m.rows[to].action(Left(s, u, to), d)
                   case Failed => Halt
                   case Did(u', raised) =>
                     if raised == [] then Rest(to, u') else Onward(to, u', raised[|raised| - 1].state,
                       if raised[|raised| - 1].data.Some? then raised[|raised| - 1].data.value else NoEventData)
  {
    hide Leave, Arrive;
    CentrifugeLeave(s, u);
    CentrifugeArrive(to, Left(s, u, to), d);
    CentrifugeGuards(to, u, d);
  }

  /** Polls drive the ramp: up to 5, then down past 0, where the test completes. */
  lemma CentrifugePolled(s: Byte, u: Spin)
    requires CentrifugeOk(s, u)
    ensures var end := ToCentrifuge(s, u, PollTransition(s), NoEventData);
            if s == IDLE then end == End(s, u, false)
            else if s == ACCELERATION || (s == WAIT_FOR_ACCELERATION && u.speed < 4) then
              end == End(WAIT_FOR_ACCELERATION, u.(speed := u.speed + 1), false)
            else if s == WAIT_FOR_ACCELERATION then end == End(DECELERATION, u.(speed := 5), false)
            else if s == DECELERATION || u.speed > 0 then
              end == End(WAIT_FOR_DECELERATION, u.(speed := u.speed - 1), false)
            else end == End(IDLE, Spin(-1, false, false, u.posted + [Complete(Centrifuge)]), false)
  {
    var m, to := CentrifugeMachine(), PollTransition(s);
    hide HopTo, Follow;
    if s != IDLE {
      CentrifugeRanked();
      CentrifugeHop(s, u, to, NoEventData);
      FollowHops(m, CentrifugeRank, s, u, to, NoEventData);
      var up, down := u.(speed := u.speed + 1), u.(speed := u.speed - 1);
      if to == WAIT_FOR_ACCELERATION && up.speed >= 5 {
        CentrifugeHop(to, up, DECELERATION, NoEventData);
        FollowHops(m, CentrifugeRank, to, up, DECELERATION, NoEventData);
      }
      if to == WAIT_FOR_DECELERATION && u.speed == 0 {
        CentrifugeHop(to, down, COMPLETED, NoEventData);
        FollowHops(m, CentrifugeRank, to, down, COMPLETED, NoEventData);
        var done := down.(timerOn := false, posted := u.posted + [Complete(Centrifuge)]);
        CentrifugeHop(COMPLETED, done, IDLE, NoEventData);
        FollowHops(m, CentrifugeRank, COMPLETED, done, IDLE, NoEventData);
      }
    }
  }

  /** A start is refused while the test runs, and for good once the speed has gone below 0. */
  lemma CentrifugeStarted(s: Byte, u: Spin, data: Data)
    requires CentrifugeOk(s, u) && data.StartData?
    ensures ToCentrifuge(s, u, StartTransition(s), data)
         == if s == IDLE && u.speed == 0 then End(ACCELERATION, u.(connected := true, timerOn := true), false)
            else End(s, u, false)
  {
    var m := CentrifugeMachine();
    hide HopTo, Follow;
    if s == IDLE {
      CentrifugeRanked();
      CentrifugeHop(s, u, START_TEST, data);
      FollowHops(m, CentrifugeRank, s, u, START_TEST, data);
      if u.speed == 0 {
        CentrifugeHop(START_TEST, u.(connected := true), ACCELERATION, NoEventData);
        FollowHops(m, CentrifugeRank, START_TEST, u.(connected := true), ACCELERATION, NoEventData);
      }
    }
  }

  lemma CentrifugeCancelled(s: Byte, u: Spin)
    requires CentrifugeOk(s, u) && s != IDLE
    ensures ToCentrifuge(s, u, FAILED, NoEventData)
         == End(IDLE, Spin(u.speed, false, false, u.posted + [Cancel(TheEngine)]), false)
  {
    var m := CentrifugeMachine();
    hide HopTo, Follow;
    CentrifugeRanked();
    CentrifugeHop(s, u, FAILED, NoEventData);
    FollowHops(m, CentrifugeRank, s, u, FAILED, NoEventData);
    var failed := Left(s, u, FAILED).(posted := u.posted + [Cancel(TheEngine)]);
    CentrifugeHop(FAILED, failed, IDLE, NoEventData);
    FollowHops(m, CentrifugeRank, FAILED, failed, IDLE, NoEventData);
  }

  /** The speed after an effective poll. */
  function Polled(s: Byte, speed: int): int {
    if s == ACCELERATION || s == WAIT_FOR_ACCELERATION then speed + 1 else speed - 1
  }

  function StateAfterPoll(s: Byte, speed: int): Byte {
    if s == ACCELERATION || (s == WAIT_FOR_ACCELERATION && speed < 4) then WAIT_FOR_ACCELERATION
    else if s == WAIT_FOR_ACCELERATION then DECELERATION
    else if s == DECELERATION || speed > 0 then WAIT_FOR_DECELERATION
    else IDLE
  }

  // ---------- The centrifuge test on the engine ----------

  lemma CentrifugeRaisesOne()
    ensures RaisesAtMostOne(CentrifugeMachine()) && CentrifugeMachine().Valid()
  {}

  /** The machine with its events, driven by the imperative engine. */
  class CentrifugeTest {
    const sm: StateMachine<Spin, Data>

    /** At rest, and every event data object that was ever made has been deleted exactly once. */
    ghost predicate Valid()
      reads sm
    {
      && sm.Valid() && sm.machine == CentrifugeMachine() && !sm.simple
      && !sm.faulted && !sm.eventGenerated
      && Books(sm.created, sm.deleted, sm.leaked, CALLERS, CALLERS) && sm.leaked == []
      && CentrifugeOk(sm.currentState, sm.user)
    }

    constructor ()
      ensures Valid() && fresh(sm) && sm.currentState == IDLE && sm.user == Spin(0, false, false, [])
    {
      CentrifugeRaisesOne();
      sm := new StateMachine(CentrifugeMachine(), false, Spin(0, false, false, []));
    }

    method Start(data: Data)
      requires Valid() && data.StartData?
      modifies sm
      ensures Valid()
      ensures old(sm.currentState) == IDLE && old(sm.user).speed == 0 ==>
                sm.currentState == ACCELERATION && sm.user == old(sm.user).(connected := true, timerOn := true)
      ensures old(sm.currentState) != IDLE || old(sm.user).speed != 0 ==>
                sm.currentState == old(sm.currentState) && sm.user == old(sm.user)
    {
      CentrifugeStarted(sm.currentState, sm.user, data);
      Send(StartTransition(sm.currentState), Some(data));
    }

    method Poll()
      requires Valid()
      modifies sm
      ensures Valid()
      ensures sm.currentState == (if old(sm.currentState) == IDLE then IDLE
                                  else StateAfterPoll(old(sm.currentState), old(sm.user).speed))
      ensures sm.user.speed == (if old(sm.currentState) == IDLE then old(sm.user).speed
                                else Polled(old(sm.currentState), old(sm.user).speed))
      ensures sm.user.posted == old(sm.user).posted
                + (if old(sm.currentState) != IDLE && sm.currentState == IDLE then [Complete(Centrifuge)] else [])
    {
      CentrifugePolled(sm.currentState, sm.user);
      Send(PollTransition(sm.currentState), None);
    }

    method CancelTest()
      requires Valid()
      modifies sm
      ensures Valid() && sm.currentState == IDLE && sm.user.speed == old(sm.user).speed
      ensures sm.user.posted == old(sm.user).posted + (if old(sm.currentState) == IDLE then [] else [Cancel(TheEngine)])
    {
      if sm.currentState != IDLE {
        CentrifugeCancelled(sm.currentState, sm.user);
        Send(FAILED, None);
      }
    }

    method Send(to: Byte, data: Option<Data>)
      requires Valid()
      requires var d := if data.Some? then data.value else NoEventData;
               var end := ToCentrifuge(sm.currentState, sm.user, to, d); !end.fault && CentrifugeOk(end.state, end.user)
      modifies sm
      ensures Valid()
      ensures var d := if data.Some? then data.value else NoEventData;
              var end := ToCentrifuge(old(sm.currentState), old(sm.user), to, d);
              sm.currentState == end.state && sm.user == end.user
    {
      CentrifugeRanked();
      CentrifugeRaisesOne();
      if to != EVENT_IGNORED {
        ghost var d := if data.Some? then data.value else NoEventData;
        ghost var start := sm.Value(true).(event := Some(Event(to, Datum(CALLERS, d))));
        SentAccounted(start);
        RunAlike(CentrifugeMachine(), CentrifugeRank, start,
                 Config(sm.currentState, sm.user, Some(Event(to, Datum(CALLERS, d))), true, 0, [], [], [], false),
                 Onward(sm.currentState, sm.user, to, d));
      }
      sm.ExternalEvent(to, data, CentrifugeRank);
    }
  }

  lemma SentAccounted(start: Config<Spin, Data>)
    requires Ranked(CentrifugeMachine(), CentrifugeRank) && start.current < 8 && start.event.Some? && start.external
             && !start.fault
    requires start.event.value.data.id == CALLERS && start.leaked == []
    requires Books(start.created, start.deleted, start.leaked, CALLERS, CALLERS)
    ensures var end := Run(CentrifugeMachine(), CentrifugeRank, start);
            !end.fault ==>
              && end.event.None? && end.leaked == []
              && Books(end.created, end.deleted, end.leaked, CALLERS, CALLERS)
  {
    hide Run, Books;
    CentrifugeRaisesOne();
    RunAccounted(CentrifugeMachine(), CentrifugeRank, start);
  }

  // ---------- PressureTest ----------

  /** The pressure test has no fields; its signals go into the queue too. */
  datatype Press = Press(posted: seq<Msg>)

  function PressureMachine(): Machine<Press, Data> {
    Machine([
      Plain((u: Press, d: Data) => Did(u, [])),
      Plain((u: Press, d: Data) => Did(u.(posted := u.posted + [Complete(Pressure)]), [Raised(IDLE, None)])),
      Plain((u: Press, d: Data) => Did(u.(posted := u.posted + [Cancel(TheEngine)]), [Raised(IDLE, None)])),
      Plain((u: Press, d: Data) => if d.StartData? then Did(u, [Raised(COMPLETED, None)]) else Failed)
    ], NoEventData)
  }

  function PressureRank(s: Byte): nat {
    if s == IDLE then 0 else if s == START_TEST then 2 else 1
  }

  lemma PressureRanked()
    ensures Ranked(PressureMachine(), PressureRank)
  {}

  ghost function ToPressure(state: Byte, user: Press, to: Byte, data: Data): End<Press>
    requires state < 4
  {
    PressureRanked();
    if to == EVENT_IGNORED then End(state, user, false)
    else Follow(PressureMachine(), PressureRank, state, user, to, data)
  }

  /** The pressure test completes within its own start. */
  lemma PressureStarted(u: Press, data: Data)
    requires data.StartData?
    ensures ToPressure(IDLE, u, StartTransition(IDLE), data)
            == End(IDLE, u.(posted := u.posted + [Complete(Pressure)]), false)
  {
    var m := PressureMachine();
    hide Follow;
    PressureRanked();
    var done := u.(posted := u.posted + [Complete(Pressure)]);
    FollowHops(m, PressureRank, IDLE, u, START_TEST, data);
    FollowHops(m, PressureRank, START_TEST, u, COMPLETED, NoEventData);
    FollowHops(m, PressureRank, COMPLETED, done, IDLE, NoEventData);
  }

  // ---------- SelfTestEngine ----------

  /** A test has raised OnCompleted or OnFailed. */
  datatype Milestone = Completed(test: Test) | FailedTest(test: Test)

  /** The fields of the engine, its two sub-tests among them, and the signals that it has raised. */
  datatype Fields = Fields(startData: Data, cState: Byte, spin: Spin, pState: Byte, press: Press,
                           raised: seq<Milestone>)

  ghost function StartCentrifuge(f: Fields, d: Data): Outcome<Fields, Data> {
    if !d.StartData? || f.cState >= 8 then Failed
    else
      var end := ToCentrifuge(f.cState, f.spin, StartTransition(f.cState), d);
      if end.fault then Failed else Did(f.(startData := d, cState := end.state, spin := end.user), [])
  }

  ghost function StartPressure(f: Fields): Outcome<Fields, Data> {
    if f.pState >= 4 then Failed
    else
      var end := ToPressure(f.pState, f.press, StartTransition(f.pState), f.startData);
      if end.fault then Failed else Did(f.(pState := end.state, press := end.user), [])
  }

  ghost function EngineMachine(): Machine<Fields, Data> {
    Machine([
      Plain((f: Fields, d: Data) => Did(f, [])),
      Plain((f: Fields, d: Data) => Did(f.(raised := f.raised + [Completed(TheEngine)]), [Raised(IDLE, None)])),
      Plain((f: Fields, d: Data) => Did(f.(raised := f.raised + [FailedTest(TheEngine)]), [Raised(IDLE, None)])),
      Plain((f: Fields, d: Data) => StartCentrifuge(f, d)),
      Plain((f: Fields, d: Data) => StartPressure(f))
    ], NoEventData)
  }

  function EngineRank(s: Byte): nat {
    if s == COMPLETED || s == FAILED then 1 else 0
  }

  lemma EngineRanked()
    ensures Ranked(EngineMachine(), EngineRank)
  {}

  function EngineStart(state: Byte): Byte {
    if state == IDLE then START_CENTRIFUGE_TEST
    else if state == COMPLETED || state == FAILED then CANNOT_HAPPEN
    else EVENT_IGNORED
  }

  function EngineComplete(state: Byte): Byte {
    if state == IDLE then EVENT_IGNORED
    else if state == START_CENTRIFUGE_TEST then START_PRESSURE_TEST
    else if state == START_PRESSURE_TEST then COMPLETED
    else CANNOT_HAPPEN
  }

  ghost function ToEngine(state: Byte, f: Fields, to: Byte, data: Data): End<Fields>
    requires state < 5
  {
    EngineRanked();
    if to == EVENT_IGNORED then End(state, f, false) else Follow(EngineMachine(), EngineRank, state, f, to, data)
  }

  predicate EngineOk(s: Byte, f: Fields) {
    && (s == IDLE || s == START_CENTRIFUGE_TEST || s == START_PRESSURE_TEST)
    && CentrifugeOk(f.cState, f.spin) && f.pState == IDLE && f.startData.StartData?
  }

  lemma EngineStarted(s: Byte, f: Fields, data: Data)
    requires EngineOk(s, f) && data.StartData?
    ensures ToEngine(s, f, EngineStart(s), data)
         == if s != IDLE then End(s, f, false)
            else if f.cState == IDLE && f.spin.speed == 0 then
              End(START_CENTRIFUGE_TEST,
                  f.(startData := data, cState := ACCELERATION, spin := f.spin.(connected := true, timerOn := true)),
                  false)
            else End(START_CENTRIFUGE_TEST, f.(startData := data), false)
  {
    hide Follow, ToCentrifuge;
    if s == IDLE {
      EngineRanked();
      CentrifugeStarted(f.cState, f.spin, data);
      FollowHops(EngineMachine(), EngineRank, s, f, START_CENTRIFUGE_TEST, data);
    }
  }

  lemma EngineCompleted(s: Byte, f: Fields)
    requires EngineOk(s, f)
    ensures ToEngine(s, f, EngineComplete(s), NoEventData)
         == if s == IDLE then End(s, f, false)
            else if s == START_CENTRIFUGE_TEST then
              End(START_PRESSURE_TEST, f.(press := Press(f.press.posted + [Complete(Pressure)])), false)
            else End(IDLE, f.(raised := f.raised + [Completed(TheEngine)]), false)
  {
    var m := EngineMachine();
    hide Follow, ToPressure;
    EngineRanked();
    if s == START_CENTRIFUGE_TEST {
      PressureStarted(f.press, f.startData);
      FollowHops(m, EngineRank, s, f, START_PRESSURE_TEST, NoEventData);
    } else if s == START_PRESSURE_TEST {
      FollowHops(m, EngineRank, s, f, COMPLETED, NoEventData);
      FollowHops(m, EngineRank, COMPLETED, f.(raised := f.raised + [Completed(TheEngine)]), IDLE, NoEventData);
    }
  }

  lemma EngineCancelled(s: Byte, f: Fields)
    requires EngineOk(s, f) && s != IDLE
    ensures ToEngine(s, f, FAILED, NoEventData) == End(IDLE, f.(raised := f.raised + [FailedTest(TheEngine)]), false)
  {
    var m := EngineMachine();
    hide Follow;
    EngineRanked();
    FollowHops(m, EngineRank, s, f, FAILED, NoEventData);
    FollowHops(m, EngineRank, FAILED, f.(raised := f.raised + [FailedTest(TheEngine)]), IDLE, NoEventData);
  }

  // ---------- The whole system ----------

  datatype World = World(
    engine: Byte,
    fields: Fields,
    queue: seq<Msg>,       // of the one thread that runs all three machines
    log: seq<Milestone>,   // every OnCompleted and OnFailed, oldest first
    run: EngineRun,        // the last start that the engine accepted
    polls: nat,            // Poll events that were not ignored
    fault: bool)

  /** How the engine test came upon the centrifuge when it started, and the milestones since then. */
  datatype EngineRun = EngineRun(idle: bool, speed: int, since: seq<Milestone>)

  const INITIAL := World(
    IDLE, Fields(StartData(false), IDLE, Spin(0, false, false, []), IDLE, Press([]), []), [], [],
    EngineRun(true, 0, []), 0, false)

  datatype Step =
    | UserStart(data: Data)      // SelfTestEngine::Start from any thread
    | UserCancel(test: Test)     // Cancel of any of the machines
    | Tick                       // the poll callback runs, perhaps captured before the timer was stopped
    | Dispatch                   // the thread executes the message at the head of the queue

  predicate Enabled(w: World, step: Step) {
    match step
    case UserStart(d) => d.StartData?
    case UserCancel(_) => true
    case Tick => true
    case Dispatch => w.queue != [] && w.engine < 5 && w.fields.cState < 8 && w.fields.pState < 4
  }

  ghost function Execute(w: World, msg: Msg): World
    requires w.engine < 5 && w.fields.cState < 8 && w.fields.pState < 4
  {
    var f := w.fields;
    match msg
    case Start(d) =>
      var run := if w.engine == IDLE then EngineRun(f.cState == IDLE, f.spin.speed, []) else w.run;
      EngineDone(w.(run := run), ToEngine(w.engine, f, EngineStart(w.engine), d))
    case Complete(_) => EngineDone(w, ToEngine(w.engine, f, EngineComplete(w.engine), NoEventData))
    case Poll =>
      var to := PollTransition(f.cState);
      CentrifugeDone(w.(polls := if to == EVENT_IGNORED then w.polls else w.polls + 1),
                     ToCentrifuge(f.cState, f.spin, to, NoEventData))
    case Cancel(TheEngine) =>
      if w.engine == IDLE then w else EngineDone(w, ToEngine(w.engine, f, FAILED, NoEventData))
    case Cancel(Centrifuge) =>
      if f.cState == IDLE then w else CentrifugeDone(w, ToCentrifuge(f.cState, f.spin, FAILED, NoEventData))
    case Cancel(Pressure) =>
      if f.pState == IDLE then w else PressureDone(w, ToPressure(f.pState, f.press, FAILED, NoEventData))
  }

  function EngineDone(w: World, end: End<Fields>): World {
    w.(engine := end.state, fields := end.user, fault := w.fault || end.fault)
  }

  function CentrifugeDone(w: World, end: End<Spin>): World {
    w.(fields := w.fields.(cState := end.state, spin := end.user), fault := w.fault || end.fault)
  }

  function PressureDone(w: World, end: End<Press>): World {
    w.(fields := w.fields.(pState := end.state, press := end.user), fault := w.fault || end.fault)
  }

  /** What the signals of the sub-tests mean. */
  function Milestones(posted: seq<Msg>, test: Test): seq<Milestone> {
    if posted == [] then []
    else
      Milestones(posted[..|posted| - 1], test)
        + [if posted[|posted| - 1].Complete? then Completed(test) else FailedTest(test)]
  }

  function News(f: Fields): seq<Milestone> {
    Milestones(f.spin.posted, Centrifuge) + Milestones(f.press.posted, Pressure) + f.raised
  }

  /** The messages that the sub-tests posted while a message was executed are in the queue. */
  function Collect(w: World): World {
    var f := w.fields;
    w.(fields := f.(spin := f.spin.(posted := []), press := Press([]), raised := []),
       queue := w.queue + f.spin.posted + f.press.posted,
       log := w.log + News(f), run := w.run.(since := w.run.since + News(f)))
  }

  ghost function Apply(w: World, step: Step): World
    requires Enabled(w, step)
  {
    match step
    case UserStart(d) => w.(queue := w.queue + [Start(d)])
    case UserCancel(t) => w.(queue := w.queue + [Cancel(t)])
    case Tick => w.(queue := w.queue + [Poll])
    case Dispatch => Collect(Execute(w.(queue := w.queue[1..]), w.queue[0]))
  }

  /** Between events no machine rests in Completed, Failed or a StartTest state, the poll timer runs
      and is connected exactly while the centrifuge is not idle, the speed fits the state, and no
      assertion has failed. */
  ghost predicate Sound(w: World) {
    && EngineOk(w.engine, w.fields) && !w.fault
    && w.fields.spin.posted == [] && w.fields.press.posted == [] && w.fields.raised == []
    && forall i | 0 <= i < |w.queue| :: w.queue[i].Start? ==> w.queue[i].data.StartData?
  }

  /** The milestones that a message leads to. */
  predicate Adds(w: World, w': World, news: seq<Milestone>) {
    w'.log == w.log + news && w'.run == w.run.(since := w.run.since + news)
  }

  lemma NothingPosted(w: World)
    ensures w.queue + [] + [] == w.queue && w.log + [] == w.log && w.run.(since := w.run.since + []) == w.run
    ensures forall raised :: Milestones([], Centrifuge) + Milestones([], Pressure) + raised == raised
    ensures forall ms, t :: ms + Milestones([], t) + [] == ms && Milestones([], t) + ms + [] == ms
  {
    forall t ensures Milestones([], t) == [] {}
    forall raised: seq<Milestone> ensures [] + [] + raised == raised {}
    assert w.run.since + [] == w.run.since;
  }

  lemma OnePosted(m: Msg, test: Test)
    ensures [] + [m] == [m] && Milestones([m], test) == [if m.Complete? then Completed(test) else FailedTest(test)]
  {
    assert [m][..0] == [];
  }

  lemma StartExecuted(w: World, d: Data)
    requires Sound(w) && d.StartData?
    ensures var w' := Collect(Execute(w, Start(d)));
            var f, f' := w.fields, w'.fields;
            && Sound(w') && w'.queue == w.queue && w'.log == w.log && w'.polls == w.polls
            && w'.run == (if w.engine == IDLE then EngineRun(f.cState == IDLE, f.spin.speed, []) else w.run)
            && w'.engine == (if w.engine == IDLE then START_CENTRIFUGE_TEST else w.engine)
            && (if w.engine == IDLE && f.cState == IDLE && f.spin.speed == 0
                then f'.cState == ACCELERATION && f'.spin.speed == 0 else f'.cState == f.cState && f'.spin == f.spin)
  {
    hide ToEngine, Milestones;
    EngineStarted(w.engine, w.fields, d);
    NothingPosted(w);
  }

  lemma CompleteExecuted(w: World, test: Test)
    requires Sound(w)
    ensures var w' := Collect(Execute(w, Complete(test)));
            var f, f' := w.fields, w'.fields;
            && Sound(w') && f'.cState == f.cState && f'.spin == f.spin && w'.polls == w.polls
            && (if w.engine == IDLE then w' == w
                else if w.engine == START_CENTRIFUGE_TEST
                then && w'.engine == START_PRESSURE_TEST && w'.queue == w.queue + [Complete(Pressure)]
                     && Adds(w, w', [Completed(Pressure)])
                else w'.engine == IDLE && w'.queue == w.queue && Adds(w, w', [Completed(TheEngine)]))
  {
    hide ToEngine, Milestones;
    EngineCompleted(w.engine, w.fields);
    NothingPosted(w);
    OnePosted(Complete(Pressure), Pressure);
  }

  lemma PollExecuted(w: World)
    requires Sound(w)
    ensures var w' := Collect(Execute(w, Poll));
            var f, f' := w.fields, w'.fields;
            && Sound(w') && w'.engine == w.engine
            && (if f.cState == IDLE then w' == w
                else && w'.polls == w.polls + 1
                     && f'.spin.speed == Polled(f.cState, f.spin.speed)
                     && f'.cState == StateAfterPoll(f.cState, f.spin.speed)
                     && w'.queue == w.queue + (if f'.cState == IDLE then [Complete(Centrifuge)] else [])
                     && Adds(w, w', if f'.cState == IDLE then [Completed(Centrifuge)] else []))
  {
    hide ToCentrifuge, Milestones;
    CentrifugePolled(w.fields.cState, w.fields.spin);
    NothingPosted(w);
    OnePosted(Complete(Centrifuge), Centrifuge);
  }

  function CentrifugeCompletions(log: seq<Milestone>): nat {
    multiset(log)[Completed(Centrifuge)]
  }

  /** A cancelled test fails unless it is idle; a centrifuge that still spins is left spinning. */
  lemma CancelExecuted(w: World, test: Test)
    requires Sound(w)
    ensures var w' := Collect(Execute(w, Cancel(test)));
            && Sound(w') && w'.fields.spin.speed == w.fields.spin.speed && w'.polls == w.polls
            && (w.fields.cState == IDLE ==> w'.fields.cState == IDLE)
            && CentrifugeCompletions(w'.log) == CentrifugeCompletions(w.log)
  {
    hide Execute, Collect;
    match test
    case TheEngine => EngineCancelExecuted(w);
    case Centrifuge => CentrifugeCancelExecuted(w);
    case Pressure => PressureCancelExecuted(w);
  }

  lemma EngineCancelExecuted(w: World)
    requires Sound(w)
    ensures var w' := Collect(Execute(w, Cancel(TheEngine)));
            && Sound(w') && w'.fields.spin == w.fields.spin && w'.fields.cState == w.fields.cState
            && w'.engine == IDLE && w'.polls == w.polls && w'.queue == w.queue
            && Adds(w, w', if w.engine == IDLE then [] else [FailedTest(TheEngine)])
  {
    hide ToEngine, ToCentrifuge, Milestones;
    if w.engine != IDLE {
      EngineCancelled(w.engine, w.fields);
    }
    NothingPosted(w);
  }

  lemma CentrifugeCancelExecuted(w: World)
    requires Sound(w)
    ensures var w' := Collect(Execute(w, Cancel(Centrifuge)));
            && Sound(w') && w'.fields.spin.speed == w.fields.spin.speed && w'.fields.cState == IDLE
            && w'.engine == w.engine && w'.polls == w.polls
            && w'.queue == w.queue + (if w.fields.cState == IDLE then [] else [Cancel(TheEngine)])
            && Adds(w, w', if w.fields.cState == IDLE then [] else [FailedTest(Centrifuge)])
  {
    hide ToEngine, ToCentrifuge, Milestones;
    if w.fields.cState != IDLE {
      CentrifugeCancelled(w.fields.cState, w.fields.spin);
      OnePosted(Cancel(TheEngine), Centrifuge);
    }
    NothingPosted(w);
  }

  lemma PressureCancelExecuted(w: World)
    requires Sound(w)
    ensures Collect(Execute(w, Cancel(Pressure))) == w
  {
    NothingPosted(w);
  }

  /** A failed assertion in any of the three machines, CANNOT_HAPPEN included, shows in the world, and stays. */
  lemma FaultShows(w: World, msg: Msg)
    requires w.engine < 5 && w.fields.cState < 8 && w.fields.pState < 4
    ensures var f, fault := w.fields, Collect(Execute(w, msg)).fault;
            match msg
            case Start(d) => fault <==> w.fault || ToEngine(w.engine, f, EngineStart(w.engine), d).fault
            case Complete(_) =>
              fault <==> w.fault || ToEngine(w.engine, f, EngineComplete(w.engine), NoEventData).fault
            case Poll =>
              fault <==> w.fault || ToCentrifuge(f.cState, f.spin, PollTransition(f.cState), NoEventData).fault
            case Cancel(TheEngine) =>
              fault <==> w.fault || (w.engine != IDLE && ToEngine(w.engine, f, FAILED, NoEventData).fault)
            case Cancel(Centrifuge) =>
              fault <==> w.fault || (f.cState != IDLE && ToCentrifuge(f.cState, f.spin, FAILED, NoEventData).fault)
            case Cancel(Pressure) =>
              fault <==> w.fault || (f.pState != IDLE && ToPressure(f.pState, f.press, FAILED, NoEventData).fault)
    ensures (w.engine == COMPLETED || w.engine == FAILED) && (msg.Start? || msg.Complete?) ==>
              Collect(Execute(w, msg)).fault
  {
    hide ToCentrifuge, ToPressure, Milestones, Follow, HopTo;
    EngineRanked();
    if msg.Start? || msg.Complete? {
      var data := if msg.Start? then msg.data else NoEventData;
      NoSuchState(w.engine, w.fields, data);
    }
  }

  lemma NoSuchState(s: Byte, f: Fields, data: Data)
    requires s < 5
    ensures ToEngine(s, f, CANNOT_HAPPEN, data).fault
  {
    hide Follow;
    EngineRanked();
    FollowHops(EngineMachine(), EngineRank, s, f, CANNOT_HAPPEN, data);
  }

  lemma StepSound(w: World, step: Step)
    requires Sound(w) && Enabled(w, step)
    ensures Sound(Apply(w, step))
  {
    hide Execute, Collect;
    if step.Dispatch? {
      var rest := w.(queue := w.queue[1..]);
      match w.queue[0]
      case Start(d) => StartExecuted(rest, d);
      case Complete(t) => CompleteExecuted(rest, t);
      case Poll => PollExecuted(rest);
      case Cancel(t) => CancelExecuted(rest, t);
    }
  }

  // ---------- Whole runs ----------

  ghost predicate CanRun(w: World, steps: seq<Step>)
    decreases |steps|, 0
  {
    steps == [] || (CanRun(w, steps[..|steps| - 1]) && Enabled(After(w, steps[..|steps| - 1]), steps[|steps| - 1]))
  }

  ghost function After(w: World, steps: seq<Step>): World
    requires CanRun(w, steps)
    decreases |steps|, 1
  {
    if steps == [] then w else Apply(After(w, steps[..|steps| - 1]), steps[|steps| - 1])
  }

  /** In every run of starts, cancels, timer ticks and dispatches. */
  lemma {:induction false} RunSound(steps: seq<Step>)
    requires CanRun(INITIAL, steps)
    ensures Sound(After(INITIAL, steps))
  {
    hide Apply, Enabled;
    if steps != [] {
      RunSound(steps[..|steps| - 1]);
      StepSound(After(INITIAL, steps[..|steps| - 1]), steps[|steps| - 1]);
    }
  }

  /** The last poll leaves the speed at -1, and this records that the test has completed. */
  lemma CompletionStep(w: World, step: Step)
    requires Sound(w) && Enabled(w, step)
    ensures var w' := Apply(w, step);
            CentrifugeCompletions(w'.log) - CentrifugeCompletions(w.log)
              == (if w'.fields.spin.speed == -1 then 1 else 0) - (if w.fields.spin.speed == -1 then 1 else 0)
    ensures w.fields.cState == IDLE && w.fields.spin.speed != 0 ==>
              Apply(w, step).fields.cState == IDLE && Apply(w, step).fields.spin.speed == w.fields.spin.speed
              && Apply(w, step).polls == w.polls
  {
    hide Execute, Collect;
    if step.Dispatch? {
      var rest := w.(queue := w.queue[1..]);
      match w.queue[0]
      case Start(d) => StartExecuted(rest, d);
      case Complete(t) => CompleteExecuted(rest, t);
      case Poll => PollExecuted(rest);
      case Cancel(t) => CancelExecuted(rest, t);
    }
  }

  /** The centrifuge test completes at most once in the life of the program, whatever is started and
      cancelled: its guard refuses every start after the speed has ended below 0. */
  lemma {:induction false} CompletesAtMostOnce(steps: seq<Step>)
    requires CanRun(INITIAL, steps)
    ensures var w := After(INITIAL, steps);
            Sound(w) && CentrifugeCompletions(w.log) == if w.fields.spin.speed == -1 then 1 else 0
  {
    hide Apply, Enabled;
    if steps != [] {
      CompletesAtMostOnce(steps[..|steps| - 1]);
      StepSound(After(INITIAL, steps[..|steps| - 1]), steps[|steps| - 1]);
      CompletionStep(After(INITIAL, steps[..|steps| - 1]), steps[|steps| - 1]);
    }
  }

  /** An idle centrifuge that has not come to rest at speed 0 never runs again. */
  lemma {:induction false} NeverRunsAgain(w: World, steps: seq<Step>)
    requires Sound(w) && w.fields.cState == IDLE && w.fields.spin.speed != 0 && CanRun(w, steps)
    ensures var w' := After(w, steps);
            Sound(w') && w'.fields.cState == IDLE && w'.fields.spin.speed == w.fields.spin.speed && w'.polls == w.polls
  {
    hide Apply, Enabled;
    if steps != [] {
      NeverRunsAgain(w, steps[..|steps| - 1]);
      StepSound(After(w, steps[..|steps| - 1]), steps[|steps| - 1]);
      CompletionStep(After(w, steps[..|steps| - 1]), steps[|steps| - 1]);
    }
  }

  // ---------- The first run ----------

  datatype Stage = Before | Spinning | Spun | Pressed | Finished | Refused

  /** Complete messages waiting in the queue. */
  function Completes(q: seq<Msg>): nat {
    multiset(q)[Complete(Centrifuge)] + multiset(q)[Complete(Pressure)] + multiset(q)[Complete(TheEngine)]
  }

  /** Effective polls that lead to this state and speed. */
  function PollsFor(s: Byte, speed: int): int {
    if s == ACCELERATION || s == WAIT_FOR_ACCELERATION then speed else 10 - speed
  }

  function Log(stage: Stage): seq<Milestone> {
    match stage
    case Before => []
    case Spinning => []
    case Spun => [Completed(Centrifuge)]
    case Pressed => [Completed(Centrifuge), Completed(Pressure)]
    case Finished => [Completed(Centrifuge), Completed(Pressure), Completed(TheEngine)]
    case Refused => [Completed(Centrifuge), Completed(Pressure), Completed(TheEngine)]
  }

  ghost predicate Reached(w: World, stage: Stage) {
    var s, speed := w.fields.cState, w.fields.spin.speed;
    && w.log == Log(stage)
    && (if stage.Before? then w.engine == IDLE && s == IDLE && speed == 0 && w.polls == 0
        else if stage.Spinning?
        then w.engine == START_CENTRIFUGE_TEST && s != IDLE && w.polls == PollsFor(s, speed) && w.polls < 11
        else s == IDLE && speed == -1 && w.polls == 11
             && w.engine == (if stage.Pressed? then START_PRESSURE_TEST
                             else if stage.Finished? then IDLE else START_CENTRIFUGE_TEST))
  }

  function Owing(stage: Stage): nat {
    if stage.Spun? || stage.Pressed? then 1 else 0
  }

  ghost predicate At(w: World, stage: Stage) {
    Reached(w, stage) && Completes(w.queue) == Owing(stage)
  }

  predicate Follows(stage: Stage, next: Stage) {
    next == stage || (stage.Before? && next.Spinning?) || (stage.Spinning? && next.Spun?)
    || (stage.Spun? && next.Pressed?) || (stage.Pressed? && next.Finished?) || (stage.Finished? && next.Refused?)
  }

  ghost predicate NoCancel(q: seq<Msg>) {
    forall i | 0 <= i < |q| :: !q[i].Cancel?
  }

  lemma OneOfThree(m: Msg)
    ensures m.Complete? <==> m == Complete(Centrifuge) || m == Complete(Pressure) || m == Complete(TheEngine)
  {
    if m.Complete? {
      match m.test
      case TheEngine =>
      case Centrifuge =>
      case Pressure =>
    }
  }

  lemma HeadOfQueue(q: seq<Msg>)
    requires q != []
    ensures Completes(q) == Completes(q[1..]) + if q[0].Complete? then 1 else 0
    ensures NoCancel(q) ==> NoCancel(q[1..]) && !q[0].Cancel?
  {
    assert q == [q[0]] + q[1..];
    OneOfThree(q[0]);
  }

  lemma TailOfQueue(q: seq<Msg>, m: Msg)
    ensures Completes(q + [m]) == Completes(q) + if m.Complete? then 1 else 0
    ensures NoCancel(q) && !m.Cancel? ==> NoCancel(q + [m])
  {
    OneOfThree(m);
  }

  /** Stage by stage, in this order and no other. */
  lemma StageStep(w: World, step: Step, stage: Stage) returns (next: Stage)
    requires Sound(w) && At(w, stage) && NoCancel(w.queue) && Enabled(w, step) && !step.UserCancel?
    ensures Sound(Apply(w, step)) && At(Apply(w, step), next) && NoCancel(Apply(w, step).queue)
    ensures Follows(stage, next)
  {
    hide Execute, Collect, Completes, NoCancel;
    StepSound(w, step);
    next := stage;
    match step
    case UserStart(d) => TailOfQueue(w.queue, Start(d));
    case Tick => TailOfQueue(w.queue, Poll);
    case Dispatch =>
      HeadOfQueue(w.queue);
      next := DispatchStage(w.(queue := w.queue[1..]), w.queue[0], stage);
  }

  lemma DispatchStage(w: World, msg: Msg, stage: Stage) returns (next: Stage)
    requires Sound(w) && NoCancel(w.queue) && !msg.Cancel? && (msg.Start? ==> msg.data.StartData?)
    requires Reached(w, stage) && Completes(w.queue) + (if msg.Complete? then 1 else 0) == Owing(stage)
    ensures At(Collect(Execute(w, msg)), next) && NoCancel(Collect(Execute(w, msg)).queue)
    ensures Follows(stage, next)
  {
    hide Execute, Collect, Completes, NoCancel;
    assert w.queue + [] == w.queue && w.log + [] == w.log;
    match msg
    case Start(d) =>
      StartExecuted(w, d);
      next := if stage.Before? then Spinning else if stage.Finished? then Refused else stage;
    case Complete(t) =>
      CompleteExecuted(w, t);
      TailOfQueue(w.queue, Complete(Pressure));
      next := if stage.Spun? then Pressed else Finished;
    case Poll =>
      PollExecuted(w);
      TailOfQueue(w.queue, Complete(Centrifuge));
      next := if stage.Spinning? && Collect(Execute(w, Poll)).fields.cState == IDLE then Spun else stage;
  }

  ghost predicate Uncancelled(steps: seq<Step>) {
    forall i | 0 <= i < |steps| :: !steps[i].UserCancel?
  }

  /** In every run without cancels, however starts and polls fall, the milestones come in one order: the
      centrifuge test completes with the 11th poll that is not ignored, then the pressure test, then the
      engine, each once; a later start is refused. */
  lemma {:induction false} FirstRun(steps: seq<Step>) returns (stage: Stage)
    requires CanRun(INITIAL, steps) && Uncancelled(steps)
    ensures var w := After(INITIAL, steps);
            && Sound(w) && At(w, stage) && NoCancel(w.queue)
            && w.polls <= 11 && (w.log != [] <==> w.polls == 11)
            && w.log <= [Completed(Centrifuge), Completed(Pressure), Completed(TheEngine)]
  {
    hide Apply, Enabled, Sound, Completes;
    if steps == [] {
      stage := Before;
      StartOfRun();
    } else {
      var before := FirstRun(steps[..|steps| - 1]);
      stage := StageStep(After(INITIAL, steps[..|steps| - 1]), steps[|steps| - 1], before);
    }
  }

  lemma StartOfRun()
    ensures Sound(INITIAL) && At(INITIAL, Before) && NoCancel(INITIAL.queue)
  {}

  // ---------- And it does complete ----------

  lemma OneMore(w: World, steps: seq<Step>, step: Step)
    requires CanRun(w, steps) && Enabled(After(w, steps), step)
    ensures CanRun(w, steps + [step]) && After(w, steps + [step]) == Apply(After(w, steps), step)
    ensures Uncancelled(steps) && !step.UserCancel? ==> Uncancelled(steps + [step])
  {
    assert (steps + [step])[..|steps|] == steps;
  }

  /** From the n-th step on nothing comes from outside, and the timer polls only while it is on. */
  ghost predicate Unaided(w: World, steps: seq<Step>, n: nat)
    requires CanRun(w, steps)
  {
    |steps| <= n
    || (var front, last := steps[..|steps| - 1], steps[|steps| - 1];
        && Unaided(w, front, n) && !last.UserStart? && !last.UserCancel?
        && (last.Tick? ==> After(w, front).fields.spin.timerOn && After(w, front).fields.spin.connected))
  }

  lemma OneMoreUnaided(w: World, steps: seq<Step>, step: Step, n: nat)
    requires CanRun(w, steps) && Enabled(After(w, steps), step) && Unaided(w, steps, n) && Uncancelled(steps)
    requires !step.UserStart? && !step.UserCancel?
    requires step.Tick? ==> After(w, steps).fields.spin.timerOn && After(w, steps).fields.spin.connected
    ensures CanRun(w, steps + [step]) && Unaided(w, steps + [step], n) && Uncancelled(steps + [step])
    ensures After(w, steps + [step]) == Apply(After(w, steps), step)
  {
    OneMore(w, steps, step);
    assert (steps + [step])[..|steps|] == steps;
  }

  /** The engine has been started, or is going to be by a message in the queue. */
  ghost predicate Underway(w: World) {
    w.engine != IDLE || w.log != [] || exists i :: 0 <= i < |w.queue| && w.queue[i].Start?
  }

  lemma UnderwayStep(w: World, step: Step)
    requires Sound(w) && Enabled(w, step) && NoCancel(w.queue) && !step.UserCancel?
    requires Underway(w) || step.UserStart?
    ensures Underway(Apply(w, step))
  {
    hide Execute, Collect;
    var w' := Apply(w, step);
    if step.Dispatch? {
      var rest := w.(queue := w.queue[1..]);
      match w.queue[0] {
        case Start(d) => StartExecuted(rest, d);
        case Complete(t) => CompleteExecuted(rest, t);
        case Poll => PollExecuted(rest);
        case Cancel(_) => assert false;
      }
      if i :| 0 < i < |w.queue| && w.queue[i].Start? {
        assert w'.queue[i - 1].Start?;
      }
    } else if step.UserStart? {
      assert w'.queue[|w.queue|].Start?;
    } else if i :| 0 <= i < |w.queue| && w.queue[i].Start? {
      assert w'.queue[i].Start?;
    }
  }

  lemma {:induction false} StartedIsUnderway(steps: seq<Step>)
    requires CanRun(INITIAL, steps) && Uncancelled(steps) && exists i :: 0 <= i < |steps| && steps[i].UserStart?
    ensures Underway(After(INITIAL, steps))
  {
    hide Apply, Enabled, Sound, Underway, At;
    var front, last := steps[..|steps| - 1], steps[|steps| - 1];
    var stage := FirstRun(front);
    if !last.UserStart? {
      var i :| 0 <= i < |steps| && steps[i].UserStart?;
      assert front[i].UserStart?;
      StartedIsUnderway(front);
    }
    UnderwayStep(After(INITIAL, front), last);
  }

  function Rank(stage: Stage): nat {
    match stage
    case Before => 5 case Spinning => 4 case Spun => 3 case Pressed => 2 case Finished => 1 case Refused => 0
  }

  /** Each message executed brings the end nearer. */
  lemma DispatchBrings(w: World, stage: Stage) returns (next: Stage)
    requires Sound(w) && At(w, stage) && NoCancel(w.queue) && Underway(w) && w.queue != []
    ensures Enabled(w, Dispatch)
    ensures var w' := Apply(w, Dispatch);
            && Sound(w') && At(w', next) && NoCancel(w'.queue) && Underway(w') && w.polls <= w'.polls
            && (Rank(next) < Rank(stage) || (next == stage && (w'.polls > w.polls || |w'.queue| < |w.queue|)))
            && (stage.Spinning? && w.queue[0].Poll? ==> w'.polls > w.polls)
  {
    hide Execute, Collect, Completes, NoCancel, Underway;
    next := StageStep(w, Dispatch, stage);
    UnderwayStep(w, Dispatch);
    HeadOfQueue(w.queue);
    var rest := w.(queue := w.queue[1..]);
    match w.queue[0]
    case Start(d) => StartExecuted(rest, d);
    case Complete(t) => CompleteExecuted(rest, t);
    case Poll => PollExecuted(rest);
    case Cancel(_) => assert false;
  }

  /** With an empty queue the timer polls the ramp on. */
  lemma TickBrings(w: World)
    requires Sound(w) && At(w, Spinning) && w.queue == [] && Underway(w)
    ensures var w' := Apply(w, Tick);
            && Sound(w') && At(w', Spinning) && NoCancel(w'.queue) && Underway(w') && w'.queue == [Poll]
            && w'.polls == w.polls && w.fields.spin.timerOn && w.fields.spin.connected
  {
    hide Completes;
    var next := StageStep(w, Tick, Spinning);
    UnderwayStep(w, Tick);
  }

  /** Whatever the queue holds, ticks and dispatches alone take a started run to its end. */
  lemma {:induction false} RunFinishes(steps: seq<Step>, stage: Stage, n: nat) returns (all: seq<Step>)
    requires CanRun(INITIAL, steps) && Uncancelled(steps) && Unaided(INITIAL, steps, n)
    requires var w := After(INITIAL, steps); Sound(w) && At(w, stage) && NoCancel(w.queue) && Underway(w)
    ensures steps <= all && CanRun(INITIAL, all) && Uncancelled(all) && Unaided(INITIAL, all, n)
    ensures After(INITIAL, all).queue == [] && After(INITIAL, all).log == Log(Finished)
    decreases Rank(stage), 11 - After(INITIAL, steps).polls, |After(INITIAL, steps).queue|
  {
    hide Apply, Enabled, CanRun, After, Uncancelled, Unaided, Sound, Completes, NoCancel, Underway;
    var w := After(INITIAL, steps);
    if w.queue != [] {
      var next := DispatchBrings(w, stage);
      OneMoreUnaided(INITIAL, steps, Dispatch, n);
      all := RunFinishes(steps + [Dispatch], next, n);
    } else if stage.Spinning? {
      TickBrings(w);
      TickEnabled(w);
      OneMoreUnaided(INITIAL, steps, Tick, n);
      var ticked := After(INITIAL, steps + [Tick]);
      var next := DispatchBrings(ticked, stage);
      OneMoreUnaided(INITIAL, steps + [Tick], Dispatch, n);
      all := RunFinishes(steps + [Tick] + [Dispatch], next, n);
    } else {
      NothingQueued();
      NotUnderway(w);
      all := steps;
    }
  }

  lemma TickEnabled(w: World)
    ensures Enabled(w, Tick)
  {}

  lemma NotUnderway(w: World)
    requires w.queue == [] && Underway(w)
    ensures w.engine != IDLE || w.log != []
  {}

  /** Every run without cancels can be brought to its end: if it contains a start, by ticks and dispatches
      alone, and otherwise by one start and these. */
  lemma EveryRunCanFinish(steps: seq<Step>, data: Data) returns (all: seq<Step>)
    requires CanRun(INITIAL, steps) && Uncancelled(steps) && data.StartData?
    ensures steps <= all && CanRun(INITIAL, all) && Uncancelled(all)
    ensures After(INITIAL, all).queue == [] && After(INITIAL, all).log == Log(Finished)
    ensures if exists i :: 0 <= i < |steps| && steps[i].UserStart? then Unaided(INITIAL, all, |steps|)
            else steps + [UserStart(data)] <= all && Unaided(INITIAL, all, |steps| + 1)
  {
    hide Apply, CanRun, After, Uncancelled, Sound, Completes, NoCancel, Underway, At;
    var from := steps;
    if forall i | 0 <= i < |steps| :: !steps[i].UserStart? {
      OneMore(INITIAL, steps, UserStart(data));
      from := steps + [UserStart(data)];
      assert from[|steps|].UserStart?;
    }
    StartedIsUnderway(from);
    var stage := FirstRun(from);
    all := RunFinishes(from, stage, |from|);
  }

  /** The timer keeps polling while the centrifuge ramps: ticks and dispatches alone take it to the end. */
  lemma {:induction false} RampCompletes(steps: seq<Step>) returns (all: seq<Step>)
    requires CanRun(INITIAL, steps) && Uncancelled(steps) && Sound(After(INITIAL, steps))
    requires At(After(INITIAL, steps), Spinning) && After(INITIAL, steps).queue == []
    ensures steps <= all && |all| == |steps| + 2 * (11 - After(INITIAL, steps).polls)
    ensures CanRun(INITIAL, all) && Uncancelled(all) && Sound(After(INITIAL, all))
    ensures At(After(INITIAL, all), Spun) && After(INITIAL, all).queue == [Complete(Centrifuge)]
    decreases 11 - After(INITIAL, steps).polls
  {
    hide Execute, Collect, CanRun, After, Uncancelled;
    var w := After(INITIAL, steps);
    OneMore(INITIAL, steps, Tick);
    var ticked := After(INITIAL, steps + [Tick]);
    assert ticked.queue == [Poll] && ticked.(queue := ticked.queue[1..]) == w;
    OneMore(INITIAL, steps + [Tick], Dispatch);
    PollExecuted(w);
    all := steps + [Tick] + [Dispatch];
    NothingQueued();
    if After(INITIAL, all).fields.cState != IDLE {
      all := RampCompletes(all);
    }
  }

  lemma NothingQueued()
    ensures Completes([]) == 0 && Completes([Complete(Centrifuge)]) == 1 && Completes([Complete(Pressure)]) == 1
  {}

  /** One start, 11 ticks of the timer, and the ramp is at its end. */
  lemma RampRun(data: Data) returns (steps: seq<Step>)
    requires data.StartData?
    ensures CanRun(INITIAL, steps) && Uncancelled(steps) && |steps| == 24 && Sound(After(INITIAL, steps))
    ensures At(After(INITIAL, steps), Spun) && After(INITIAL, steps).queue == [Complete(Centrifuge)]
  {
    hide Execute, Collect, CanRun, After, Uncancelled;
    EmptyRun();
    NothingQueued();
    OneMore(INITIAL, [], UserStart(data));
    var started := After(INITIAL, [] + [UserStart(data)]);
    assert started.queue == [Start(data)] && started.(queue := started.queue[1..]) == INITIAL;
    OneMore(INITIAL, [] + [UserStart(data)], Dispatch);
    StartExecuted(INITIAL, data);
    steps := RampCompletes([] + [UserStart(data)] + [Dispatch]);
  }

  /** One start, 11 ticks of the timer, and the run is finished. */
  lemma FirstRunCompletes(data: Data) returns (steps: seq<Step>)
    requires data.StartData?
    ensures CanRun(INITIAL, steps) && Uncancelled(steps) && |steps| == 26
    ensures At(After(INITIAL, steps), Finished) && After(INITIAL, steps).queue == []
  {
    hide Execute, Collect, CanRun, After, Uncancelled;
    NothingQueued();
    steps := RampRun(data);
    var w := After(INITIAL, steps);
    assert w.queue[1..] == [];
    CompleteExecuted(w.(queue := []), Centrifuge);
    OneMore(INITIAL, steps, Dispatch);
    steps := steps + [Dispatch];
    w := After(INITIAL, steps);
    assert w.queue == [Complete(Pressure)] && w.queue[1..] == [];
    CompleteExecuted(w.(queue := []), Pressure);
    OneMore(INITIAL, steps, Dispatch);
    steps := steps + [Dispatch];
  }

  lemma EmptyRun()
    ensures CanRun(INITIAL, []) && After(INITIAL, []) == INITIAL && Uncancelled([]) && Sound(INITIAL)
  {}

  // ---------- Completions left over from an earlier run ----------

  function EngineCompletions(log: seq<Milestone>): nat {
    multiset(log)[Completed(TheEngine)]
  }

  /** The start came upon an idle centrifuge that refuses to run. */
  predicate Stale(r: EngineRun) {
    r.idle && r.speed != 0
  }

  /** What the milestones of the current engine run can be, and that one Complete is on its way at most,
      and only once the centrifuge has completed. */
  ghost predicate RunOk(w: World, owed: nat) {
    var c, speed, r := w.fields.cState, w.fields.spin.speed, w.run;
    && EngineCompletions(w.log) + Completes(w.queue) + owed <= (if speed == -1 then 1 else 0)
    && (w.engine == START_CENTRIFUGE_TEST ==>
          if Stale(r) then c == IDLE && speed == r.speed && r.since == []
          else (c != IDLE && r.since == []) || (c == IDLE && r.since == [Completed(Centrifuge)])
               || (c == IDLE && speed != -1 && r.since == [FailedTest(Centrifuge)]))
    && (w.engine == START_PRESSURE_TEST ==>
          c == IDLE && r.since == (if Stale(r) then [] else [Completed(Centrifuge)]) + [Completed(Pressure)])
  }

  lemma ExecuteRunOk(w: World, msg: Msg)
    requires Sound(w) && RunOk(w, if msg.Complete? then 1 else 0) && (msg.Start? ==> msg.data.StartData?)
    ensures var w' := Collect(Execute(w, msg));
            && RunOk(w', 0)
            && (EngineCompletions(w'.log) > EngineCompletions(w.log) ==>
                  w'.run.since == (if Stale(w'.run) then [] else [Completed(Centrifuge)])
                                    + [Completed(Pressure), Completed(TheEngine)])
  {
    hide Execute, Collect, Completes;
    match msg
    case Start(d) => StartExecuted(w, d);
    case Complete(t) =>
      CompleteExecuted(w, t);
      TailOfQueue(w.queue, Complete(Pressure));
    case Poll => PollRunOk(w);
    case Cancel(TheEngine) => EngineCancelExecuted(w);
    case Cancel(Centrifuge) => CancelRunOk(w);
    case Cancel(Pressure) => PressureCancelExecuted(w);
  }

  lemma PollRunOk(w: World)
    requires Sound(w) && RunOk(w, 0)
    ensures var w' := Collect(Execute(w, Poll));
            RunOk(w', 0) && EngineCompletions(w'.log) == EngineCompletions(w.log)
  {
    hide Execute, Collect, Completes;
    PollExecuted(w);
    TailOfQueue(w.queue, Complete(Centrifuge));
    assert w.run.since + [] == w.run.since && w.queue + [] == w.queue && w.log + [] == w.log;
  }

  lemma CancelRunOk(w: World)
    requires Sound(w) && RunOk(w, 0)
    ensures var w' := Collect(Execute(w, Cancel(Centrifuge)));
            RunOk(w', 0) && EngineCompletions(w'.log) == EngineCompletions(w.log)
  {
    hide Execute, Collect, Completes;
    CentrifugeCancelExecuted(w);
    TailOfQueue(w.queue, Cancel(TheEngine));
    assert w.run.since + [] == w.run.since && w.queue + [] == w.queue && w.log + [] == w.log;
  }

  lemma StepRunOk(w: World, step: Step)
    requires Sound(w) && RunOk(w, 0) && Enabled(w, step)
    ensures var w' := Apply(w, step);
            && RunOk(w', 0)
            && (EngineCompletions(w'.log) > EngineCompletions(w.log) ==>
                  w'.run.since == (if Stale(w'.run) then [] else [Completed(Centrifuge)])
                                    + [Completed(Pressure), Completed(TheEngine)])
  {
    hide Execute, Collect, Completes;
    match step
    case UserStart(d) => TailOfQueue(w.queue, Start(d));
    case UserCancel(t) => TailOfQueue(w.queue, Cancel(t));
    case Tick => TailOfQueue(w.queue, Poll);
    case Dispatch =>
      HeadOfQueue(w.queue);
      ExecuteRunOk(w.(queue := w.queue[1..]), w.queue[0]);
  }

  lemma {:induction false} RunRunOk(steps: seq<Step>)
    requires CanRun(INITIAL, steps)
    ensures Sound(After(INITIAL, steps)) && RunOk(After(INITIAL, steps), 0)
  {
    hide Apply, Enabled, Sound, RunOk;
    if steps == [] {
      StartRunOk();
    } else {
      RunRunOk(steps[..|steps| - 1]);
      StepSound(After(INITIAL, steps[..|steps| - 1]), steps[|steps| - 1]);
      StepRunOk(After(INITIAL, steps[..|steps| - 1]), steps[|steps| - 1]);
    }
  }

  lemma StartRunOk()
    ensures Sound(INITIAL) && RunOk(INITIAL, 0)
  {}

  /** In every run, cancels included: the engine test completes at most once. It does so on completions of
      the centrifuge and the pressure test since its own start, unless that start came upon an idle
      centrifuge with a speed other than 0: then it completes on a message left over from an earlier run,
      and no centrifuge test belongs to it. */
  lemma EngineCompletesOnItsOwn(steps: seq<Step>, step: Step)
    requires CanRun(INITIAL, steps) && Enabled(After(INITIAL, steps), step)
    ensures var w, w' := After(INITIAL, steps), Apply(After(INITIAL, steps), step);
            && EngineCompletions(w'.log) <= 1
            && (EngineCompletions(w'.log) > EngineCompletions(w.log) ==>
                  && w.run.idle == w'.run.idle && w.run.speed == w'.run.speed
                  && (Completed(Centrifuge) in w'.run.since <==> !Stale(w'.run))
                  && w'.run.since == (if Stale(w'.run) then [] else [Completed(Centrifuge)])
                                       + [Completed(Pressure), Completed(TheEngine)])
  {
    hide Apply, Enabled, Sound, CanRun, After, Completes;
    RunRunOk(steps);
    StepRunOk(After(INITIAL, steps), step);
    if EngineCompletions(Apply(After(INITIAL, steps), step).log) > EngineCompletions(After(INITIAL, steps).log) {
      SameRun(After(INITIAL, steps), step);
    }
  }

  /** A step in which the engine completes does not start it. */
  lemma SameRun(w: World, step: Step)
    requires Sound(w) && Enabled(w, step) && EngineCompletions(Apply(w, step).log) > EngineCompletions(w.log)
    ensures Apply(w, step).run.idle == w.run.idle && Apply(w, step).run.speed == w.run.speed
  {
    hide Execute, Collect;
    var rest := w.(queue := w.queue[1..]);
    match w.queue[0]
    case Start(d) => StartExecuted(rest, d);
    case Complete(t) => CompleteExecuted(rest, t);
    case Poll => PollExecuted(rest);
    case Cancel(TheEngine) => EngineCancelExecuted(rest);
    case Cancel(Centrifuge) => CentrifugeCancelExecuted(rest);
    case Cancel(Pressure) => PressureCancelExecuted(rest);
  }

  /** The engine is cancelled and started again while the completion of the pressure test is on its way. */
  lemma StaleCompletion(data: Data) returns (steps: seq<Step>)
    requires data.StartData?
    ensures CanRun(INITIAL, steps)
    ensures var w := After(INITIAL, steps);
            && Stale(w.run) && w.run.since == [Completed(Pressure), Completed(TheEngine)]
            && w.log == [Completed(Centrifuge), Completed(Pressure), FailedTest(TheEngine),
                         Completed(Pressure), Completed(TheEngine)]
  {
    hide Execute, Collect, CanRun, After, Uncancelled;
    steps := RampRun(data);
    var w := After(INITIAL, steps);
    OneMore(INITIAL, steps, UserCancel(TheEngine));
    OneMore(INITIAL, steps + [UserCancel(TheEngine)], UserStart(data));
    steps := steps + [UserCancel(TheEngine)] + [UserStart(data)];
    assert After(INITIAL, steps) == w.(queue := [Complete(Centrifuge), Cancel(TheEngine), Start(data)]);
    CompleteExecuted(w.(queue := [Cancel(TheEngine), Start(data)]), Centrifuge);
    steps := DispatchIs(steps, Complete(Centrifuge), [Cancel(TheEngine), Start(data)]);
    w := After(INITIAL, steps);
    EngineCancelExecuted(w.(queue := [Start(data), Complete(Pressure)]));
    steps := DispatchIs(steps, Cancel(TheEngine), [Start(data), Complete(Pressure)]);
    w := After(INITIAL, steps);
    StartExecuted(w.(queue := [Complete(Pressure)]), data);
    steps := DispatchIs(steps, Start(data), [Complete(Pressure)]);
    w := After(INITIAL, steps);
    CompleteExecuted(w.(queue := []), Pressure);
    steps := DispatchIs(steps, Complete(Pressure), []);
    w := After(INITIAL, steps);
    CompleteExecuted(w.(queue := []), Pressure);
    steps := DispatchIs(steps, Complete(Pressure), []);
  }

  lemma DispatchIs(steps: seq<Step>, msg: Msg, rest: seq<Msg>) returns (all: seq<Step>)
    requires CanRun(INITIAL, steps) && Sound(After(INITIAL, steps)) && After(INITIAL, steps).queue == [msg] + rest
    ensures all == steps + [Dispatch] && CanRun(INITIAL, all)
    ensures After(INITIAL, all) == Collect(Execute(After(INITIAL, steps).(queue := rest), msg))
  {
    hide Execute, Collect, CanRun, After;
    OneMore(INITIAL, steps, Dispatch);
    all := steps + [Dispatch];
    assert After(INITIAL, steps).queue[1..] == rest;
  }
}
