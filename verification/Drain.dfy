/**
 * Shutting the hub down while connections keep arriving, ending and being closed
 * for reasons of their own.
 */
module Drain {
  import opened Wrappers
  import opened Connection

  type ConnId = nat

  /** A connection's life: upgraded, then registered and serving, deregistered, finished. */
  datatype Life = Upgraded | Serving | Deregistered | Finished

  datatype Client = Client(life: Life, admitted: bool, closed: Option<Status>)

  datatype Shutdown =
    | NotCalled
    | Warning(todo: set<ConnId>)
    | Pausing
    | ClosingAll(todo: set<ConnId>)
    | Awaiting(todo: set<ConnId>)
    | BrokerClosing(timedOut: bool)
    | AwaitingDispatcher(timedOut: bool)
    | Returned(timedOut: bool)

  datatype State = State(
    clients: map<ConnId, Client>,
    conns: set<ConnId>,
    closing: bool,
    live: set<ConnId>,         // what the closing section found
    shutdown: Shutdown,
    buffered: nat,             // messages the transport still holds
    brokerClosed: bool,
    dispatching: bool)

  const Start: State := State(map[], {}, false, {}, NotCalled, 0, false, true)

  datatype Step =
    | Upgrade(conn: ConnId)
    | Register(conn: ConnId)
    | Close(conn: ConnId, status: Status)
    | Deregister(conn: ConnId)
    | Finish(conn: ConnId)
    | Message
    | Dispatch
    | StopDispatching
    | CallShutdown
    | Warn(conn: ConnId, full: bool)
    | WarnedAll
    | PauseOver
    | CloseOne(conn: ConnId)
    | ClosedAll
    | SeeFinished(conn: ConnId)
    | SeeAllFinished
    | TimeOut
    | CloseBroker
    | SeeDispatcherStopped

  predicate Enabled(s: State, step: Step) {
    match step
    case Upgrade(c) => c !in s.clients
    case Register(c) => c in s.clients && s.clients[c].life.Upgraded?
    case Close(c, _) => c in s.clients && s.clients[c].life.Serving?
    case Deregister(c) => c in s.clients && s.clients[c].life.Serving? && s.clients[c].closed.Some?
    case Finish(c) => c in s.clients && s.clients[c].life.Deregistered?
    case Message => !s.brokerClosed
    case Dispatch => s.dispatching && s.buffered > 0
    case StopDispatching => s.dispatching && s.buffered == 0 && s.brokerClosed
    case CallShutdown => s.shutdown.NotCalled?
    case Warn(c, _) => s.shutdown.Warning? && c in s.shutdown.todo && c in s.clients
    case WarnedAll => s.shutdown == Warning({})
    case PauseOver => s.shutdown.Pausing?
    case CloseOne(c) => s.shutdown.ClosingAll? && c in s.shutdown.todo && c in s.clients
    case ClosedAll => s.shutdown == ClosingAll({})
    case SeeFinished(c) => s.shutdown.Awaiting? && c in s.shutdown.todo && c in s.clients && s.clients[c].life.Finished?
    case SeeAllFinished => s.shutdown == Awaiting({})
    case TimeOut => s.shutdown.Awaiting? && s.shutdown.todo != {}
    case CloseBroker => s.shutdown.BrokerClosing?
    case SeeDispatcherStopped => s.shutdown.AwaitingDispatcher? && !s.dispatching
  }

  function With(s: State, c: ConnId, k: Client): State {
    s.(clients := s.clients[c := k])
  }

  function Shut(k: Client, status: Status): Client {
    if k.closed.Some? then k else k.(closed := Some(status))
  }

  function Do(s: State, step: Step): State
    requires Enabled(s, step)
  {
    match step
    case Upgrade(c) => With(s, c, Client(Upgraded, false, None))
    case Register(c) =>
      if s.closing then With(s, c, s.clients[c].(life := Finished))
      else With(s.(conns := s.conns + {c}), c, s.clients[c].(life := Serving, admitted := true))
    case Close(c, status) => With(s, c, Shut(s.clients[c], status))
    case Deregister(c) => With(s.(conns := s.conns - {c}), c, s.clients[c].(life := Deregistered))
    case Finish(c) => With(s, c, s.clients[c].(life := Finished))
    case Message => s.(buffered := s.buffered + 1)
    case Dispatch => s.(buffered := s.buffered - 1)
    case StopDispatching => s.(dispatching := false)
    case CallShutdown => s.(closing := true, live := s.conns, shutdown := Warning(s.conns))
    case Warn(c, full) =>
      With(s.(shutdown := Warning(s.shutdown.todo - {c})), c, if full then Shut(s.clients[c], SlowConsumer) else s.clients[c])
    case WarnedAll => s.(shutdown := if s.live == {} then ClosingAll({}) else Pausing)
    case PauseOver => s.(shutdown := ClosingAll(s.live))
    case CloseOne(c) =>
      With(s.(shutdown := ClosingAll(s.shutdown.todo - {c})), c, Shut(s.clients[c], GoingAway))
    case ClosedAll => s.(shutdown := Awaiting(s.live))
    case SeeFinished(c) => s.(shutdown := Awaiting(s.shutdown.todo - {c}))
    case SeeAllFinished => s.(shutdown := BrokerClosing(false))
    case TimeOut => s.(shutdown := BrokerClosing(true))
    case CloseBroker => s.(brokerClosed := true, shutdown := AwaitingDispatcher(s.shutdown.timedOut))
    case SeeDispatcherStopped => s.(shutdown := Returned(s.shutdown.timedOut))
  }

  predicate Reached(shutdown: Shutdown, point: nat) {
    (match shutdown
     case NotCalled => 0
     case Warning(_) => 1
     case Pausing => 2
     case ClosingAll(_) => 3
     case Awaiting(_) => 4
     case BrokerClosing(_) => 5
     case AwaitingDispatcher(_) => 6
     case Returned(_) => 7) >= point
  }

  predicate OnTime(shutdown: Shutdown) {
    match shutdown
    case BrokerClosing(timedOut) => !timedOut
    case AwaitingDispatcher(timedOut) => !timedOut
    case Returned(timedOut) => !timedOut
    case _ => false
  }

  ghost predicate Listed(s: State) {
    forall c :: c in s.conns <==> c in s.clients && s.clients[c].life.Serving?
  }

  /** Whatever is registered once the hub is closing is in what the drain found. */
  ghost predicate Snapshotted(s: State) {
    && (s.closing <==> Reached(s.shutdown, 1))
    && (s.closing ==> s.conns <= s.live)
    && (forall c :: c in s.live ==> c in s.clients && s.clients[c].admitted)
  }

  ghost predicate Admitted(s: State) {
    && (forall c :: c in s.clients && (s.clients[c].life.Serving? || s.clients[c].life.Deregistered?) ==> s.clients[c].admitted)
    && (forall c :: c in s.clients && s.clients[c].life.Upgraded? ==> !s.clients[c].admitted)
  }

  ghost predicate Registered(s: State) {
    Listed(s) && Snapshotted(s) && Admitted(s)
  }

  ghost predicate Progressed(s: State) {
    && (s.shutdown.Warning? ==> s.shutdown.todo <= s.live)
    && (s.shutdown.ClosingAll? ==> s.shutdown.todo <= s.live && forall c :: c in s.live - s.shutdown.todo && c in s.clients ==> s.clients[c].closed.Some?)
    && (Reached(s.shutdown, 4) ==> forall c :: c in s.live && c in s.clients ==> s.clients[c].closed.Some?)
    && (s.shutdown.Awaiting? ==> s.shutdown.todo <= s.live && forall c :: c in s.live - s.shutdown.todo && c in s.clients ==> s.clients[c].life.Finished?)
    && (OnTime(s.shutdown) ==> forall c :: c in s.live && c in s.clients ==> s.clients[c].life.Finished?)
    && (s.brokerClosed <==> Reached(s.shutdown, 6))
    && (!s.dispatching ==> s.brokerClosed && s.buffered == 0)
    && (s.shutdown.Returned? ==> !s.dispatching)
  }

  ghost predicate Inv(s: State) {
    Registered(s) && Progressed(s)
  }

  lemma ListedKept(s: State, step: Step)
    requires Listed(s) && Enabled(s, step)
    ensures Listed(Do(s, step))
  {
  }

  lemma SnapshottedKept(s: State, step: Step)
    requires Listed(s) && Snapshotted(s) && Admitted(s) && Enabled(s, step)
    ensures Snapshotted(Do(s, step))
  {
  }

  lemma AdmittedKept(s: State, step: Step)
    requires Admitted(s) && Enabled(s, step)
    ensures Admitted(Do(s, step))
  {
  }

  lemma RegisteredKept(s: State, step: Step)
    requires Registered(s) && Enabled(s, step)
    ensures Registered(Do(s, step))
  {
    hide Listed, Snapshotted, Admitted, Do, Enabled;
    ListedKept(s, step);
    SnapshottedKept(s, step);
    AdmittedKept(s, step);
  }

  lemma ProgressedKept(s: State, step: Step)
    requires Registered(s) && Progressed(s) && Enabled(s, step)
    ensures Progressed(Do(s, step))
  {
  }

  predicate Legal(s: State, steps: seq<Step>)
    decreases |steps|
  {
    steps == [] || (Enabled(s, steps[0]) && Legal(Do(s, steps[0]), steps[1..]))
  }

  function Run(s: State, steps: seq<Step>): State
    requires Legal(s, steps)
    decreases |steps|
  {
    if steps == [] then s else Run(Do(s, steps[0]), steps[1..])
  }

  lemma {:induction false} RunKeepsInv(s: State, steps: seq<Step>)
    requires Inv(s) && Legal(s, steps)
    ensures Inv(Run(s, steps))
    decreases |steps|
  {
    hide Registered, Progressed, Do, Enabled;
    if steps != [] {
      RegisteredKept(s, steps[0]);
      ProgressedKept(s, steps[0]);
      RunKeepsInv(Do(s, steps[0]), steps[1..]);
    }
  }

  lemma StartHolds()
    ensures Inv(Start)
  {
  }

  /** Registration against a drain: nobody is admitted that the drain does not know of. */
  lemma NobodySlipsPastTheDrain(steps: seq<Step>)
    requires Legal(Start, steps)
    ensures var s := Run(Start, steps);
            && (s.closing ==> s.conns <= s.live)
            && (forall c :: c in s.conns <==> c in s.clients && s.clients[c].life.Serving?)
  {
    StartHolds();
    RunKeepsInv(Start, steps);
  }

  /**
   * A shutdown that does not time out returns only when every connection it found
   * was closed and has finished, nobody is being served, and the dispatcher has
   * stopped with nothing left undelivered; one that times out still waits for
   * the dispatcher.
   */
  lemma DrainIsComplete(steps: seq<Step>)
    requires Legal(Start, steps) && Run(Start, steps).shutdown.Returned?
    ensures var s := Run(Start, steps);
            && s.brokerClosed && !s.dispatching && s.buffered == 0
            && (forall c :: c in s.live ==> c in s.clients && s.clients[c].closed.Some?)
            && (!s.shutdown.timedOut ==>
                  && s.conns == {}
                  && (forall c :: c in s.live ==> s.clients[c].life.Finished?)
                  && (forall c :: c in s.clients ==> !s.clients[c].life.Serving?))
  {
    StartHolds();
    RunKeepsInv(Start, steps);
    var s := Run(Start, steps);
    assert s.conns <= s.live;
  }

  /** The first reason a connection is closed for stands, in every continuation. */
  lemma {:induction false} FirstReasonStands(s: State, steps: seq<Step>, c: ConnId)
    requires Legal(s, steps) && c in s.clients && s.clients[c].closed.Some?
    ensures c in Run(s, steps).clients && Run(s, steps).clients[c].closed == s.clients[c].closed
    decreases |steps|
  {
    if steps != [] {
      ReasonStands(s, steps[0], c);
      hide Do, Enabled;
      FirstReasonStands(Do(s, steps[0]), steps[1..], c);
    }
  }

  lemma ReasonStands(s: State, step: Step, c: ConnId)
    requires Enabled(s, step) && c in s.clients && s.clients[c].closed.Some?
    ensures c in Do(s, step).clients && Do(s, step).clients[c].closed == s.clients[c].closed
  {
  }

  /** The drain's own steps, the connections' endings, and the dispatcher's. */
  predicate Onward(step: Step) {
    !(step.TimeOut? || step.Upgrade? || step.Register? || step.Close? || step.Message? || step.CallShutdown?)
  }

  /** Once a drain has begun, it can always go on, with no help from a timeout. */
  lemma DrainIsNeverStuck(steps: seq<Step>)
    requires Legal(Start, steps)
    requires var shutdown := Run(Start, steps).shutdown; !shutdown.NotCalled? && !shutdown.Returned?
    ensures exists step :: Onward(step) && Enabled(Run(Start, steps), step)
  {
    StartHolds();
    RunKeepsInv(Start, steps);
    CanGoOn(Run(Start, steps));
  }

  lemma CanGoOn(s: State)
    requires Inv(s) && !s.shutdown.NotCalled? && !s.shutdown.Returned?
    ensures exists step :: Onward(step) && Enabled(s, step)
  {
    match s.shutdown
    case Warning(todo) =>
      if c :| c in todo { assert Enabled(s, Warn(c, false)); } else { assert Enabled(s, WarnedAll); }
    case Pausing => assert Enabled(s, PauseOver);
    case ClosingAll(todo) =>
      if c :| c in todo { assert Enabled(s, CloseOne(c)); } else { assert Enabled(s, ClosedAll); }
    case Awaiting(todo) =>
      if c :| c in todo {
        assert s.clients[c].closed.Some? && s.clients[c].admitted;
        assert Enabled(s, SeeFinished(c)) || Enabled(s, Deregister(c)) || Enabled(s, Finish(c));
      } else {
        assert Enabled(s, SeeAllFinished);
      }
    case BrokerClosing(_) => assert Enabled(s, CloseBroker);
    case AwaitingDispatcher(_) =>
      assert Enabled(s, SeeDispatcherStopped) || Enabled(s, Dispatch) || Enabled(s, StopDispatching);
  }

  // ------------------------------------------------------------ it comes to an end

  function Leaving(s: State): set<ConnId> {
    set c | c in s.clients && s.clients[c].life.Deregistered?
  }

  function StepsLeft(s: State): nat {
    match s.shutdown
    case NotCalled => 0
    case Warning(todo) => |todo| + 2 * |s.live| + 6
    case Pausing => 2 * |s.live| + 5
    case ClosingAll(todo) => |todo| + |s.live| + 4
    case Awaiting(todo) => |todo| + 3
    case BrokerClosing(_) => 2
    case AwaitingDispatcher(_) => 1
    case Returned(_) => 0
  }

  /** What a begun drain can still take: its own steps, two for each registered connection, one for each leaving, and the dispatcher's. */
  function Budget(s: State): nat {
    StepsLeft(s) + 2 * |s.conns| + |Leaving(s)| + s.buffered + if s.dispatching then 1 else 0
  }

  function One(b: bool): nat {
    if b then 1 else 0
  }

  predicate IsLeaving(s: State, c: ConnId) {
    c in s.clients && s.clients[c].life.Deregistered?
  }

  lemma IsLeavingAfter(s: State, step: Step, c: ConnId)
    requires Listed(s) && Enabled(s, step)
    ensures IsLeaving(Do(s, step), c) <==>
            if step == Deregister(c) then true else if step == Finish(c) then false else IsLeaving(s, c)
    ensures step == Deregister(c) ==> !IsLeaving(s, c)
    ensures step == Finish(c) ==> IsLeaving(s, c)
  {
  }

  lemma LeavingAfter(s: State, step: Step)
    requires Listed(s) && Enabled(s, step)
    ensures |Leaving(Do(s, step))| == |Leaving(s)| + One(step.Deregister?) - One(step.Finish?)
  {
    hide Listed, Enabled, Do;
    var t := Do(s, step);
    forall c ensures c in Leaving(t) <==>
            if step == Deregister(c) then true else if step == Finish(c) then false else c in Leaving(s) {
      IsLeavingAfter(s, step, c);
    }
    if step.Deregister? {
      IsLeavingAfter(s, step, step.conn);
      assert Leaving(t) == Leaving(s) + {step.conn};
    } else if step.Finish? {
      IsLeavingAfter(s, step, step.conn);
      assert Leaving(t) == Leaving(s) - {step.conn};
    } else {
      assert Leaving(t) == Leaving(s);
    }
  }

  lemma ConnsAfter(s: State, step: Step)
    requires Listed(s) && Enabled(s, step) && s.closing
    ensures |Do(s, step).conns| == |s.conns| - One(step.Deregister?)
  {
    if step.Deregister? { assert step.conn in s.conns; }
  }

  /** The shutdown's own steps: the rest leave its point where it is. */
  predicate IsShutdowns(step: Step) {
    Onward(step) && !(step.Deregister? || step.Finish? || step.Dispatch? || step.StopDispatching?)
  }

  lemma OthersLeaveItsPoint(s: State, step: Step)
    requires Enabled(s, step) && !s.shutdown.NotCalled? && !IsShutdowns(step) && !step.TimeOut?
    ensures Do(s, step).shutdown == s.shutdown && Do(s, step).live == s.live
  {
  }

  lemma TodoShrinks(s: State, step: Step)
    requires Enabled(s, step) && (step.Warn? || step.CloseOne? || step.SeeFinished?)
    ensures StepsLeft(Do(s, step)) + 1 <= StepsLeft(s)
  {
    hide Shut;
    var todo := s.shutdown.todo - {step.conn};
    assert |todo| == |s.shutdown.todo| - 1;
    var t := Do(s, step);
    assert t.live == s.live;
    if step.Warn? {
      assert t.shutdown == Warning(todo);
    } else if step.CloseOne? {
      assert t.shutdown == ClosingAll(todo);
    } else {
      assert t.shutdown == Awaiting(todo);
    }
  }

  lemma PointPassed(s: State, step: Step)
    requires Enabled(s, step)
    requires step.WarnedAll? || step.PauseOver? || step.ClosedAll? || step.SeeAllFinished? || step.TimeOut?
             || step.CloseBroker? || step.SeeDispatcherStopped?
    ensures StepsLeft(Do(s, step)) + 1 <= StepsLeft(s)
  {
    hide With, Shut;
    var t := Do(s, step);
    assert t.live == s.live;
  }

  lemma ShutdownGoesOn(s: State, step: Step)
    requires Enabled(s, step) && (IsShutdowns(step) || step.TimeOut?)
    ensures StepsLeft(Do(s, step)) + 1 <= StepsLeft(s)
  {
    hide Do, Enabled, StepsLeft;
    if step.Warn? || step.CloseOne? || step.SeeFinished? { TodoShrinks(s, step); } else { PointPassed(s, step); }
  }

  lemma StepsLeftAfter(s: State, step: Step)
    requires Enabled(s, step) && !s.shutdown.NotCalled?
    ensures StepsLeft(Do(s, step)) + One(IsShutdowns(step)) <= StepsLeft(s)
  {
    hide Do, Enabled, IsShutdowns;
    if !IsShutdowns(step) && !step.TimeOut? { OthersLeaveItsPoint(s, step); } else { ShutdownGoesOn(s, step); }
  }

  lemma BudgetStep(s: State, step: Step)
    requires Registered(s) && Enabled(s, step) && !s.shutdown.NotCalled?
    ensures Budget(Do(s, step)) + One(Onward(step)) <= Budget(s) + One(step.Message?)
    ensures !Do(s, step).shutdown.NotCalled?
  {
    LeavingAfter(s, step);
    ConnsAfter(s, step);
    StepsLeftAfter(s, step);
    StillBegun(s, step);
    hide Leaving, StepsLeft, Listed, Snapshotted, Admitted, Reached;
  }

  function Onwards(steps: seq<Step>): nat {
    if steps == [] then 0 else One(Onward(steps[0])) + Onwards(steps[1..])
  }

  function Messages(steps: seq<Step>): nat {
    if steps == [] then 0 else One(steps[0].Message?) + Messages(steps[1..])
  }

  lemma {:induction false} BudgetRun(s: State, steps: seq<Step>)
    requires Inv(s) && Legal(s, steps) && !s.shutdown.NotCalled?
    ensures Budget(Run(s, steps)) + Onwards(steps) <= Budget(s) + Messages(steps)
    decreases |steps|
  {
    if steps != [] {
      hide Registered, Progressed, Do, Enabled, Budget, Onward;
      RegisteredKept(s, steps[0]);
      ProgressedKept(s, steps[0]);
      BudgetStep(s, steps[0]);
      BudgetRun(Do(s, steps[0]), steps[1..]);
    }
  }

  /**
   * A begun drain finishes without its timeout: whatever happens, it takes no more
   * onward steps than its budget and one for each message that still comes in,
   * and until it has returned there is one it can take.
   */
  lemma DrainFinishes(steps: seq<Step>, more: seq<Step>)
    requires Legal(Start, steps) && Legal(Run(Start, steps), more) && !Run(Start, steps).shutdown.NotCalled?
    ensures var s := Run(Start, steps); var t := Run(s, more);
            && Onwards(more) <= Budget(s) + Messages(more)
            && (!t.shutdown.Returned? ==> exists step :: Onward(step) && Enabled(t, step))
  {
    StartHolds();
    RunKeepsInv(Start, steps);
    var s := Run(Start, steps);
    BudgetRun(s, more);
    RunKeepsInv(s, more);
    StaysBegun(s, more);
    if !Run(s, more).shutdown.Returned? { CanGoOn(Run(s, more)); }
  }

  lemma {:induction false} StaysBegun(s: State, steps: seq<Step>)
    requires Legal(s, steps) && !s.shutdown.NotCalled?
    ensures !Run(s, steps).shutdown.NotCalled?
    decreases |steps|
  {
    if steps != [] {
      StillBegun(s, steps[0]);
      hide Do, Enabled;
      StaysBegun(Do(s, steps[0]), steps[1..]);
    }
  }

  lemma StillBegun(s: State, step: Step)
    requires Enabled(s, step) && !s.shutdown.NotCalled?
    ensures !Do(s, step).shutdown.NotCalled?
  {
  }

  // ---------------------------------------------------------- what has happened

  /** The reason a step closes a connection for, if it has none yet. */
  function ClosesFor(step: Step, c: ConnId): Option<Status> {
    if step.Close? && step.conn == c then Some(step.status)
    else if step == Warn(c, true) then Some(SlowConsumer)
    else if step == CloseOne(c) then Some(GoingAway)
    else None
  }

  /** The first reason in a run. */
  function FirstReason(steps: seq<Step>, c: ConnId): Option<Status> {
    if steps == [] then None
    else if FirstReason(steps[..|steps| - 1], c).Some? then FirstReason(steps[..|steps| - 1], c)
    else ClosesFor(steps[|steps| - 1], c)
  }

  function Dispatches(steps: seq<Step>): nat {
    if steps == [] then 0 else One(steps[0].Dispatch?) + Dispatches(steps[1..])
  }

  /** Registered while the hub was not closing. */
  predicate AdmittedIn(steps: seq<Step>, c: ConnId) {
    steps != [] &&
    var before := steps[..|steps| - 1];
    AdmittedIn(before, c) || (steps[|steps| - 1] == Register(c) && CallShutdown !in before)
  }

  ghost predicate ShutdownTold(s: State, steps: seq<Step>) {
    && (s.closing <==> CallShutdown in steps)
    && s.buffered + Dispatches(steps) == Messages(steps)
    && (match s.shutdown
        case BrokerClosing(timedOut) => timedOut <==> TimeOut in steps
        case AwaitingDispatcher(timedOut) => timedOut <==> TimeOut in steps
        case Returned(timedOut) => timedOut <==> TimeOut in steps
        case _ => TimeOut !in steps)
  }

  ghost predicate ReasonsTold(s: State, steps: seq<Step>) {
    && (forall c :: c in s.clients <==> Upgrade(c) in steps)
    && (forall c :: FirstReason(steps, c) == if c in s.clients then s.clients[c].closed else None)
  }

  /** Where a connection is in its life, from what it has done. */
  ghost predicate LifeTold(k: Client, steps: seq<Step>, c: ConnId) {
    && k.admitted == AdmittedIn(steps, c)
    && (Register(c) !in steps ==> !AdmittedIn(steps, c) && Deregister(c) !in steps && Finish(c) !in steps)
    && k.life == if Register(c) !in steps then Upgraded
                 else if !AdmittedIn(steps, c) || Finish(c) in steps then Finished
                 else if Deregister(c) in steps then Deregistered
                 else Serving
  }

  ghost predicate LivesTold(s: State, steps: seq<Step>) {
    forall c :: if c in s.clients then LifeTold(s.clients[c], steps, c)
                else Register(c) !in steps && Deregister(c) !in steps && Finish(c) !in steps && !AdmittedIn(steps, c)
  }

  lemma StepsMore(steps: seq<Step>, step: Step)
    ensures forall x :: x in steps + [step] <==> x in steps || x == step
    ensures Messages(steps + [step]) == Messages(steps) + One(step.Message?)
    ensures Dispatches(steps + [step]) == Dispatches(steps) + One(step.Dispatch?)
    ensures forall c :: FirstReason(steps + [step], c) == if FirstReason(steps, c).Some? then FirstReason(steps, c) else ClosesFor(step, c)
    ensures forall c :: AdmittedIn(steps + [step], c) <==> AdmittedIn(steps, c) || (step == Register(c) && CallShutdown !in steps)
  {
    CountsMore(steps, step);
    assert (steps + [step])[..|steps|] == steps;
  }

  lemma {:induction false} CountsMore(steps: seq<Step>, step: Step)
    ensures Messages(steps + [step]) == Messages(steps) + One(step.Message?)
    ensures Dispatches(steps + [step]) == Dispatches(steps) + One(step.Dispatch?)
  {
    if steps == [] {
      assert [step][1..] == [] && [] + [step] == [step];
    } else {
      assert (steps + [step])[1..] == steps[1..] + [step];
      CountsMore(steps[1..], step);
    }
  }

  lemma ShutdownTells(s: State, past: seq<Step>, step: Step)
    requires ShutdownTold(s, past) && Enabled(s, step)
    ensures ShutdownTold(Do(s, step), past + [step])
  {
    StepsMore(past, step);
    hide Messages, Dispatches, FirstReason, AdmittedIn, Shut;
  }

  lemma ClientsAfter(s: State, step: Step, c: ConnId)
    requires Enabled(s, step)
    ensures c in Do(s, step).clients <==> c in s.clients || step == Upgrade(c)
    ensures step == Upgrade(c) ==> c !in s.clients && Do(s, step).clients[c] == Client(Upgraded, false, None)
    ensures c !in s.clients ==> ClosesFor(step, c) == None && step != Register(c) && step != Deregister(c) && step != Finish(c)
  {
    hide Shut;
  }

  lemma ReasonAfter(s: State, step: Step, c: ConnId)
    requires Enabled(s, step) && c in s.clients && c in Do(s, step).clients
    ensures Do(s, step).clients[c].closed == if s.clients[c].closed.Some? then s.clients[c].closed else ClosesFor(step, c)
  {
  }

  lemma ReasonsTell(s: State, past: seq<Step>, step: Step)
    requires ReasonsTold(s, past) && Enabled(s, step)
    ensures ReasonsTold(Do(s, step), past + [step])
  {
    hide Do, Enabled, FirstReason, ClosesFor, AdmittedIn, Messages, Dispatches;
    StepsMore(past, step);
    forall c ensures FirstReason(past + [step], c) == if c in Do(s, step).clients then Do(s, step).clients[c].closed else None {
      ClientsAfter(s, step, c);
      if c in s.clients { ReasonAfter(s, step, c); }
    }
    forall c { ClientsAfter(s, step, c); }
  }

  lemma LifeStep(s: State, step: Step, c: ConnId)
    requires Enabled(s, step) && c in s.clients && c in Do(s, step).clients
    ensures Do(s, step).clients[c].life ==
            if step == Register(c) then (if s.closing then Finished else Serving)
            else if step == Deregister(c) then Deregistered
            else if step == Finish(c) then Finished
            else s.clients[c].life
    ensures step == Register(c) ==> s.clients[c].life.Upgraded?
    ensures step == Deregister(c) ==> s.clients[c].life.Serving?
    ensures step == Finish(c) ==> s.clients[c].life.Deregistered?
  {
  }

  lemma AdmittedStep(s: State, step: Step, c: ConnId)
    requires Enabled(s, step) && c in s.clients && c in Do(s, step).clients
    ensures Do(s, step).clients[c].admitted <==> s.clients[c].admitted || (step == Register(c) && !s.closing)
  {
  }

  lemma LifeAfter(s: State, past: seq<Step>, step: Step, c: ConnId)
    requires (s.closing <==> CallShutdown in past) && LivesTold(s, past) && Enabled(s, step)
    ensures var t, now := Do(s, step), past + [step];
            if c in t.clients then LifeTold(t.clients[c], now, c)
            else Register(c) !in now && Deregister(c) !in now && Finish(c) !in now && !AdmittedIn(now, c)
  {
    StepsMore(past, step);
    hide FirstReason, AdmittedIn, Messages, Dispatches, Do, Enabled;
    ClientsAfter(s, step, c);
    if c in s.clients {
      LifeStep(s, step, c);
      AdmittedStep(s, step, c);
      assert LifeTold(s.clients[c], past, c);
    }
  }

  lemma LivesTell(s: State, past: seq<Step>, step: Step)
    requires (s.closing <==> CallShutdown in past) && LivesTold(s, past) && Enabled(s, step)
    ensures LivesTold(Do(s, step), past + [step])
  {
    hide Do, Enabled, LifeTold, AdmittedIn;
    forall c { LifeAfter(s, past, step, c); }
  }

  lemma {:induction false} RunTells(s: State, past: seq<Step>, steps: seq<Step>)
    requires Legal(s, steps) && ShutdownTold(s, past) && ReasonsTold(s, past) && LivesTold(s, past)
    ensures var t := Run(s, steps); ShutdownTold(t, past + steps) && ReasonsTold(t, past + steps) && LivesTold(t, past + steps)
    decreases |steps|
  {
    hide Do, Enabled, FirstReason, AdmittedIn, LifeTold, Messages, Dispatches;
    if steps == [] {
      assert past + steps == past;
    } else {
      ShutdownTells(s, past, steps[0]);
      ReasonsTell(s, past, steps[0]);
      LivesTell(s, past, steps[0]);
      hide ShutdownTold, ReasonsTold, LivesTold;
      RunTells(Do(s, steps[0]), past + [steps[0]], steps[1..]);
      assert past + [steps[0]] + steps[1..] == past + steps;
    }
  }

  /**
   * Over every run, what has happened decides the state: the hub is closing once
   * it was shut down, the transport holds what came in and was not dispatched, a
   * shutdown timed out if its deadline passed, every connection has been closed
   * for the first reason it was given, and serves exactly if it registered before
   * the shutdown and has not left.
   */
  lemma DrainFollowsItsSteps(steps: seq<Step>)
    requires Legal(Start, steps)
    ensures var s := Run(Start, steps); ShutdownTold(s, steps) && ReasonsTold(s, steps) && LivesTold(s, steps)
  {
    RunTells(Start, [], steps);
    assert [] + steps == steps;
  }

  /**
   * What the world around a drain can do: a connection is closed while it serves
   * and leaves once it is closed; messages come in while the broker is open; the
   * deadline passes only while somebody is awaited; and the drain pauses between
   * warning and closing only if it found somebody.
   */
  lemma AroundTheDrain(s: State, c: ConnId, status: Status)
    requires c in s.clients
    ensures Enabled(s, Close(c, status)) <==> s.clients[c].life == Serving
    ensures Enabled(s, Deregister(c)) <==> s.clients[c].life == Serving && s.clients[c].closed != None
    ensures Enabled(s, Message) <==> !s.brokerClosed
    ensures Enabled(s, TimeOut) <==> exists todo :: todo != {} && s.shutdown == Awaiting(todo)
    ensures Enabled(s, WarnedAll) ==> (Do(s, WarnedAll).shutdown == Pausing <==> s.live != {})
  {
    if Enabled(s, TimeOut) { assert s.shutdown == Awaiting(s.shutdown.todo); }
  }
}
