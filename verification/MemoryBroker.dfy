/**
 * The in-process transport: deliveries counted under the lock and sent outside
 * it, and a close that waits for them before it closes the message channel.
 */
module MemoryBroker {
  import opened Wrappers
  import opened Rooms

  datatype Error = BrokerClosed

  datatype Broker<P> = Broker(subs: set<Room>, closed: bool, messages: seq<Message<P>>)

  function Fresh<P>(): Broker<P> {
    Broker({}, false, [])
  }

  /** What one broker makes of one published message, when nothing blocks. */
  function Delivered<P>(b: Broker<P>, message: Message<P>): Broker<P> {
    if b.closed || message.room !in b.subs then b else b.(messages := b.messages + [message])
  }

  /** A broker takes a message exactly if it is open and subscribed to its room, and puts it last. */
  lemma DeliveredExactly<P>(b: Broker<P>, message: Message<P>)
    ensures Delivered(b, message).messages == if !b.closed && message.room in b.subs then b.messages + [message] else b.messages
    ensures Delivered(b, message).subs == b.subs && Delivered(b, message).closed == b.closed
    ensures Fresh<P>() == Broker({}, false, [])
  {
  }

  class Instance<P> {
    var subs: set<Room>
    var closed: bool
    var messages: seq<Message<P>>

    function Value(): Broker<P>
      reads this
    {
      Broker(subs, closed, messages)
    }

    constructor ()
      ensures Value() == Fresh()
    {
      subs, closed, messages := {}, false, [];
    }

    method Subscribe(room: Room) returns (r: Result<(), Error>)
      modifies this
      ensures r.Failure? <==> old(closed)
      ensures Value() == if old(closed) then old(Value()) else old(Value()).(subs := old(subs) + {room})
    {
      if closed { return Failure(BrokerClosed); }
      subs := subs + {room};
      return Success(());
    }

    method Unsubscribe(room: Room) returns (r: Result<(), Error>)
      modifies this
      ensures r.Failure? <==> old(closed)
      ensures Value() == if old(closed) then old(Value()) else old(Value()).(subs := old(subs) - {room})
    {
      if closed { return Failure(BrokerClosed); }
      subs := subs - {room};
      return Success(());
    }

    method Deliver(message: Message<P>)
      modifies this
      ensures Value() == Delivered(old(Value()), message)
    {
      if closed || message.room !in subs { return; }
      messages := messages + [message];
    }
  }

  class Bus<P> {
    var brokers: seq<Instance<P>>

    ghost predicate Valid()
      reads this
    {
      forall i, j :: 0 <= i < j < |brokers| ==> brokers[i] != brokers[j]
    }

    constructor ()
      ensures Valid() && brokers == []
    {
      brokers := [];
    }

    method Attach() returns (broker: Instance<P>)
      requires Valid()
      modifies this
      ensures Valid() && fresh(broker) && broker.Value() == Fresh() && brokers == old(brokers) + [broker]
    {
      broker := new Instance();
      brokers := brokers + [broker];
    }

    /** Every attached broker gets the message once, and keeps it exactly if it is open and subscribed. */
    method Publish(sender: Instance<P>, room: Room, payload: P) returns (r: Result<(), Error>)
      requires Valid()
      modifies brokers
      ensures r.Failure? <==> old(sender.closed)
      ensures forall b :: b in brokers ==>
        b.Value() == if r.Failure? then old(b.Value()) else Delivered(old(b.Value()), Message(room, payload))
    {
      if sender.closed { return Failure(BrokerClosed); }
      for i := 0 to |brokers|
        invariant brokers == old(brokers)
        invariant forall k :: 0 <= k < i ==> brokers[k].Value() == Delivered(old(brokers[k].Value()), Message(room, payload))
        invariant forall k :: i <= k < |brokers| ==> brokers[k].Value() == old(brokers[k].Value())
      {
        brokers[i].Deliver(Message(room, payload));
      }
      return Success(());
    }
  }

  // ----------------------------------------- deliveries racing with the close

  datatype Phase = Arrived | Counted | Leaving | Gone

  /** Where the one run of the close has got to. */
  datatype Closer = Entered | Marked | Released | Drained | Finished

  datatype State = State(
    subs: set<Room>,
    closed: bool,
    inflight: int,
    deliveries: seq<(Room, Phase)>,
    buffered: nat,
    capacity: nat,
    doneCloses: nat,
    channelCloses: nat,
    closer: Option<Closer>,
    blockedClosers: nat,
    crashed: bool)

  datatype Step =
    | Subscribe(room: Room)
    | Unsubscribe(room: Room)
    | Arrive(room: Room)
    | Enter(id: nat)              // the section under the lock
    | Send(id: nat)               // the channel send of the select
    | GiveUp(id: nat, cancelled: bool)
    | Leave(id: nat)              // inflight.Done
    | Consume
    | CallClose
    | Closing                     // the next statement of the close
    | CloseReturns                // a second caller, once the first has finished

  function Start(capacity: nat): State {
    State({}, false, 0, [], 0, capacity, 0, 0, None, 0, false)
  }

  predicate In(s: State, id: nat, phase: Phase) {
    id < |s.deliveries| && s.deliveries[id].1 == phase
  }

  /** A send is ready when there is room, and also, fatally, when the channel is closed. */
  predicate Enabled(s: State, step: Step) {
    match step
    case Subscribe(_) => true
    case Unsubscribe(_) => true
    case Arrive(_) => true
    case Enter(id) => In(s, id, Arrived)
    case Send(id) => In(s, id, Counted) && (s.buffered < s.capacity || s.channelCloses > 0)
    case GiveUp(id, cancelled) => In(s, id, Counted) && (s.doneCloses > 0 || cancelled)
    case Leave(id) => In(s, id, Leaving)
    case Consume => s.buffered > 0
    case CallClose => true
    case Closing =>
      s.closer.Some? && s.closer != Some(Finished) && (s.closer == Some(Released) ==> s.inflight == 0)
    case CloseReturns => s.blockedClosers > 0 && s.closer == Some(Finished)
  }

  function Move(s: State, id: nat, phase: Phase): State
    requires id < |s.deliveries|
  {
    s.(deliveries := s.deliveries[id := (s.deliveries[id].0, phase)])
  }

  function Do(s: State, step: Step): State
    requires Enabled(s, step)
  {
    match step
    case Subscribe(room) => if s.closed then s else s.(subs := s.subs + {room})
    case Unsubscribe(room) => if s.closed then s else s.(subs := s.subs - {room})
    case Arrive(room) => s.(deliveries := s.deliveries + [(room, Arrived)])
    case Enter(id) =>
      if s.closed || s.deliveries[id].0 !in s.subs then Move(s, id, Gone)
      else Move(s, id, Counted).(inflight := s.inflight + 1)
    case Send(id) =>
      if s.channelCloses > 0 then Move(s, id, Leaving).(crashed := true)
      else Move(s, id, Leaving).(buffered := s.buffered + 1)
    case GiveUp(id, _) => Move(s, id, Leaving)
    case Leave(id) => Move(s, id, Gone).(inflight := s.inflight - 1, crashed := s.crashed || s.inflight <= 0)
    case Consume => s.(buffered := s.buffered - 1)
    case CallClose => if s.closer.None? then s.(closer := Some(Entered)) else s.(blockedClosers := s.blockedClosers + 1)
    case Closing =>
      (match s.closer.value
       case Entered => s.(closed := true, closer := Some(Marked))
       case Marked => s.(doneCloses := s.doneCloses + 1, closer := Some(Released), crashed := s.crashed || s.doneCloses > 0)
       case Released => s.(closer := Some(Drained))
       case Drained =>
         s.(channelCloses := s.channelCloses + 1, closer := Some(Finished), crashed := s.crashed || s.channelCloses > 0)
       case Finished => s)
    case CloseReturns => s.(blockedClosers := s.blockedClosers - 1)
  }

  function Active(deliveries: seq<(Room, Phase)>): nat {
    if deliveries == [] then 0
    else Active(deliveries[..|deliveries| - 1]) + Holds(deliveries[|deliveries| - 1].1)
  }

  function Holds(phase: Phase): nat {
    if phase.Counted? || phase.Leaving? then 1 else 0
  }

  lemma {:induction false} NoneActive(deliveries: seq<(Room, Phase)>)
    ensures Active(deliveries) == 0 <==> forall i :: 0 <= i < |deliveries| ==> Holds(deliveries[i].1) == 0
  {
    if deliveries != [] {
      NoneActive(deliveries[..|deliveries| - 1]);
    }
  }

  lemma {:induction false} ActiveUpdated(deliveries: seq<(Room, Phase)>, id: nat, phase: Phase)
    requires id < |deliveries|
    ensures Active(deliveries[id := (deliveries[id].0, phase)]) == Active(deliveries) + Holds(phase) - Holds(deliveries[id].1)
    decreases |deliveries|
  {
    var last := |deliveries| - 1;
    var after := deliveries[id := (deliveries[id].0, phase)];
    if id == last {
      assert after[..last] == deliveries[..last];
    } else {
      ActiveUpdated(deliveries[..last], id, phase);
      assert after[..last] == deliveries[..last][id := (deliveries[id].0, phase)];
    }
  }

  lemma ActiveAppended(deliveries: seq<(Room, Phase)>, room: Room)
    ensures Active(deliveries + [(room, Arrived)]) == Active(deliveries)
  {
    assert (deliveries + [(room, Arrived)])[..|deliveries|] == deliveries;
  }

  predicate Past(closer: Option<Closer>, point: Closer) {
    closer.Some? && Rank(closer.value) >= Rank(point)
  }

  function Rank(closer: Closer): nat {
    match closer case Entered => 0 case Marked => 1 case Released => 2 case Drained => 3 case Finished => 4
  }

  ghost predicate Inv(s: State) {
    && !s.crashed
    && s.inflight == Active(s.deliveries)
    && (s.closed <==> Past(s.closer, Marked))
    && s.doneCloses == (if Past(s.closer, Released) then 1 else 0)
    && s.channelCloses == (if Past(s.closer, Finished) then 1 else 0)
    && (Past(s.closer, Drained) ==> s.inflight == 0)
  }

  lemma StepKeepsInv(s: State, step: Step)
    requires Inv(s) && Enabled(s, step)
    ensures Inv(Do(s, step))
  {
    hide Active;
    match step
    case Arrive(room) => ActiveAppended(s.deliveries, room);
    case Enter(id) => ActiveUpdated(s.deliveries, id, if s.closed || s.deliveries[id].0 !in s.subs then Gone else Counted);
    case Send(id) =>
      NoneActive(s.deliveries);
      assert Holds(s.deliveries[id].1) == 1;
      ActiveUpdated(s.deliveries, id, Leaving);
    case GiveUp(id, _) => ActiveUpdated(s.deliveries, id, Leaving);
    case Leave(id) =>
      NoneActive(s.deliveries);
      assert Holds(s.deliveries[id].1) == 1;
      ActiveUpdated(s.deliveries, id, Gone);
    case _ =>
  }

  predicate Legal(s: State, steps: seq<Step>)
    decreases |steps|
  {
    steps == [] || (Enabled(s, steps[0]) && Legal(Do(s, steps[0]), steps[1..]))
  }

  function Run(s: State, steps: seq<Step>): State
    requires Legal(s, steps)
    decreases |steps|
  {
    if steps == [] then s else Run(Do(s, steps[0]), steps[1..])
  }

  lemma {:induction false} RunKeepsInv(s: State, steps: seq<Step>)
    requires Inv(s) && Legal(s, steps)
    ensures Inv(Run(s, steps))
    decreases |steps|
  {
    hide Inv, Do;
    if steps != [] {
      StepKeepsInv(s, steps[0]);
      RunKeepsInv(Do(s, steps[0]), steps[1..]);
    }
  }

  /**
   * In every interleaving of any number of deliveries and closes, nothing is sent
   * on the closed message channel, no channel is closed twice, the counter never
   * goes negative, and once the message channel is closed no delivery holds it.
   */
  lemma CloseIsSafe(capacity: nat, steps: seq<Step>)
    requires Legal(Start(capacity), steps)
    ensures var s := Run(Start(capacity), steps);
            && !s.crashed
            && s.channelCloses <= 1 && s.doneCloses <= 1 && s.inflight >= 0
            && (s.channelCloses == 1 ==> forall id :: !In(s, id, Counted) && !In(s, id, Leaving))
            && (s.closer == Some(Marked) ==> s.doneCloses == 0) && (s.closer == Some(Drained) ==> s.channelCloses == 0)
            && (forall id :: In(s, id, Leaving) ==> s.inflight > 0)
  {
    RunKeepsInv(Start(capacity), steps);
    NoneActive(Run(Start(capacity), steps).deliveries);
  }

  /**
   * What would be fatal: a send chosen on the closed message channel, which is
   * ready then however full the buffer; a count taken below zero; a second close.
   */
  lemma CrashesExactly(s: State, step: Step)
    requires !s.crashed
    ensures Enabled(s, step) ==>
              (Do(s, step).crashed <==>
                 || (step.Send? && s.channelCloses > 0)
                 || (step.Leave? && s.inflight <= 0)
                 || (step.Closing? && s.closer == Some(Marked) && s.doneCloses > 0)
                 || (step.Closing? && s.closer == Some(Drained) && s.channelCloses > 0))
    ensures step.Send? && In(s, step.id, Counted) && s.channelCloses > 0 ==> Enabled(s, step)
  {
  }

  // ------------------------------------------------------------ close finishes

  /** The steps of the close itself and of the deliveries it waits for. */
  predicate Helpful(step: Step) {
    step.Closing? || step.GiveUp? || step.Send? || step.Leave?
  }

  function Pending(deliveries: seq<(Room, Phase)>): nat {
    if deliveries == [] then 0
    else Pending(deliveries[..|deliveries| - 1]) + Owes(deliveries[|deliveries| - 1].1)
  }

  function Owes(phase: Phase): nat {
    match phase case Counted => 2 case Leaving => 1 case _ => 0
  }

  lemma {:induction false} PendingUpdated(deliveries: seq<(Room, Phase)>, id: nat, phase: Phase)
    requires id < |deliveries|
    ensures Pending(deliveries[id := (deliveries[id].0, phase)]) == Pending(deliveries) + Owes(phase) - Owes(deliveries[id].1)
    decreases |deliveries|
  {
    var last := |deliveries| - 1;
    var after := deliveries[id := (deliveries[id].0, phase)];
    if id == last {
      assert after[..last] == deliveries[..last];
    } else {
      PendingUpdated(deliveries[..last], id, phase);
      assert after[..last] == deliveries[..last][id := (deliveries[id].0, phase)];
    }
  }

  /** How many helpful steps can still be taken once the close has marked the broker. */
  function Budget(s: State): nat
    requires s.closer.Some?
  {
    Pending(s.deliveries) + 4 - Rank(s.closer.value)
  }

  lemma BudgetDrops(s: State, step: Step)
    requires Inv(s) && s.closed && Enabled(s, step)
    ensures Budget(Do(s, step)) <= Budget(s) - if Helpful(step) then 1 else 0
  {
    match step
    case Arrive(room) => assert (s.deliveries + [(room, Arrived)])[..|s.deliveries|] == s.deliveries;
    case Enter(id) => PendingUpdated(s.deliveries, id, Gone);
    case Send(id) => PendingUpdated(s.deliveries, id, Leaving);
    case GiveUp(id, _) => PendingUpdated(s.deliveries, id, Leaving);
    case Leave(id) => PendingUpdated(s.deliveries, id, Gone);
    case _ =>
  }

  function Help(steps: seq<Step>): nat {
    if steps == [] then 0 else (if Helpful(steps[0]) then 1 else 0) + Help(steps[1..])
  }

  /** Something the close is waiting for can always happen, without any consumer. */
  lemma CloseIsNeverStuck(s: State)
    requires Inv(s) && s.closer.Some? && s.closer != Some(Finished)
    ensures exists step :: Helpful(step) && !step.Send? && Enabled(s, step)
  {
    if s.closer == Some(Released) && s.inflight != 0 {
      NoneActive(s.deliveries);
      var id :| 0 <= id < |s.deliveries| && Holds(s.deliveries[id].1) != 0;
      if s.deliveries[id].1.Counted? {
        assert Enabled(s, GiveUp(id, false));
      } else {
        assert Enabled(s, Leave(id));
      }
    } else {
      assert Enabled(s, Closing);
    }
  }

  /**
   * Close always finishes: whatever else happens, only so many helpful steps can
   * be taken after the broker is marked closed, and while the close has not
   * finished one of them can be.
   */
  lemma {:induction false} CloseFinishes(s: State, steps: seq<Step>)
    requires Inv(s) && s.closed && Legal(s, steps)
    ensures Help(steps) <= Budget(s)
    ensures var t := Run(s, steps);
            t.closer != Some(Finished) ==> exists step :: Helpful(step) && !step.Send? && Enabled(t, step)
    decreases |steps|
  {
    hide Budget, Enabled;
    if steps == [] {
      if s.closer != Some(Finished) {
        CloseIsNeverStuck(s);
      }
    } else {
      StepKeepsInv(s, steps[0]);
      BudgetDrops(s, steps[0]);
      ClosedStays(s, steps[0]);
      CloseFinishes(Do(s, steps[0]), steps[1..]);
    }
  }

  lemma ClosedStays(s: State, step: Step)
    requires s.closed && Enabled(s, step)
    ensures Do(s, step).closed
  {
  }

  // ---------------------------------------------------------- what has happened

  function Count(steps: seq<Step>, kind: Step): nat {
    if steps == [] then 0 else Count(steps[..|steps| - 1], kind) + if steps[|steps| - 1] == kind then 1 else 0
  }

  function Sends(steps: seq<Step>): nat {
    if steps == [] then 0 else Sends(steps[..|steps| - 1]) + if steps[|steps| - 1].Send? then 1 else 0
  }

  /** The rooms of the messages that arrived, in order: a delivery is named by its place. */
  function ArrivedRooms(steps: seq<Step>): seq<Room> {
    if steps == [] then []
    else ArrivedRooms(steps[..|steps| - 1]) + if steps[|steps| - 1].Arrive? then [steps[|steps| - 1].room] else []
  }

  /** What was subscribed to and not unsubscribed from, until the first statement of a close. */
  function SubsOf(steps: seq<Step>): set<Room> {
    if steps == [] then {}
    else
      var (before, last) := (steps[..|steps| - 1], steps[|steps| - 1]);
      if Closing in before then SubsOf(before)
      else if last.Subscribe? then SubsOf(before) + {last.room}
      else if last.Unsubscribe? then SubsOf(before) - {last.room}
      else SubsOf(before)
  }

  /** Counted in: its section found the broker open and subscribed to its room. */
  predicate TakenIn(steps: seq<Step>, id: nat) {
    steps != [] &&
    var (before, last) := (steps[..|steps| - 1], steps[|steps| - 1]);
    TakenIn(before, id) || (last == Enter(id) && Closing !in before && id < |ArrivedRooms(before)| && ArrivedRooms(before)[id] in SubsOf(before))
  }

  predicate Chosen(steps: seq<Step>, id: nat) {
    Send(id) in steps || GiveUp(id, true) in steps || GiveUp(id, false) in steps
  }

  ghost predicate CloseTold(s: State, steps: seq<Step>) {
    && (s.closed <==> Closing in steps) && s.subs == SubsOf(steps)
    && (s.closer.None? <==> CallClose !in steps) && (s.closer.Some? && s.closer != Some(Entered) <==> Closing in steps)
    && s.blockedClosers + Count(steps, CloseReturns) + (if s.closer.Some? then 1 else 0) == Count(steps, CallClose)
    && (CloseReturns in steps ==> s.closer == Some(Finished))
  }

  ghost predicate BufferTold(s: State, steps: seq<Step>) {
    s.buffered + Count(steps, Consume) == Sends(steps) && s.buffered <= s.capacity
  }

  ghost predicate BrokerTold(s: State, steps: seq<Step>) {
    CloseTold(s, steps) && BufferTold(s, steps)
  }

  /** Where a delivery has got to, from what it has done. */
  ghost predicate DeliveryTold(phase: Phase, steps: seq<Step>, id: nat) {
    && (Enter(id) !in steps ==> !TakenIn(steps, id))
    && (!TakenIn(steps, id) ==> !Chosen(steps, id) && Leave(id) !in steps)
    && (Leave(id) in steps ==> Chosen(steps, id))
    && phase == if Enter(id) !in steps then Arrived
                else if !TakenIn(steps, id) || Leave(id) in steps then Gone
                else if Chosen(steps, id) then Leaving
                else Counted
  }

  ghost predicate DeliveriesTold(s: State, steps: seq<Step>) {
    && |s.deliveries| == |ArrivedRooms(steps)|
    && (forall id :: 0 <= id < |s.deliveries| ==> s.deliveries[id].0 == ArrivedRooms(steps)[id] && DeliveryTold(s.deliveries[id].1, steps, id))
    && (forall id: nat :: id >= |s.deliveries| ==>
          Enter(id) !in steps && Leave(id) !in steps && !TakenIn(steps, id) && !Chosen(steps, id))
  }

  lemma StepsMore(steps: seq<Step>, step: Step)
    ensures forall x :: x in steps + [step] <==> x in steps || x == step
    ensures forall kind :: Count(steps + [step], kind) == Count(steps, kind) + if step == kind then 1 else 0
    ensures Sends(steps + [step]) == Sends(steps) + if step.Send? then 1 else 0
    ensures ArrivedRooms(steps + [step]) == ArrivedRooms(steps) + if step.Arrive? then [step.room] else []
    ensures SubsOf(steps + [step]) ==
            if Closing in steps then SubsOf(steps)
            else if step.Subscribe? then SubsOf(steps) + {step.room}
            else if step.Unsubscribe? then SubsOf(steps) - {step.room}
            else SubsOf(steps)
    ensures forall id: nat :: TakenIn(steps + [step], id) <==>
              TakenIn(steps, id) || (step == Enter(id) && Closing !in steps && id < |ArrivedRooms(steps)| && ArrivedRooms(steps)[id] in SubsOf(steps))
  {
    assert (steps + [step])[..|steps|] == steps;
  }

  lemma CloseTells(s: State, past: seq<Step>, step: Step)
    requires CloseTold(s, past) && Enabled(s, step)
    ensures CloseTold(Do(s, step), past + [step])
  {
    StepsMore(past, step);
    hide Count, Sends, ArrivedRooms, SubsOf, TakenIn;
  }

  lemma SendHasRoom(s: State, id: nat)
    requires Inv(s) && Enabled(s, Send(id))
    ensures s.buffered < s.capacity && s.channelCloses == 0
  {
    NoneActive(s.deliveries);
    assert Holds(s.deliveries[id].1) == 1;
  }

  lemma BufferTells(s: State, past: seq<Step>, step: Step)
    requires Inv(s) && BufferTold(s, past) && Enabled(s, step)
    ensures BufferTold(Do(s, step), past + [step])
  {
    StepsMore(past, step);
    if step.Send? { SendHasRoom(s, step.id); }
    hide Count, Sends, ArrivedRooms, SubsOf, TakenIn, Active, Inv;
  }

  lemma BrokerTells(s: State, past: seq<Step>, step: Step)
    requires Inv(s) && BrokerTold(s, past) && Enabled(s, step)
    ensures BrokerTold(Do(s, step), past + [step])
  {
    hide CloseTold, BufferTold, Do, Enabled, Inv;
    CloseTells(s, past, step);
    BufferTells(s, past, step);
  }

  lemma PhaseAfter(s: State, step: Step, id: nat)
    requires Enabled(s, step) && id < |s.deliveries|
    ensures id < |Do(s, step).deliveries| && Do(s, step).deliveries[id].0 == s.deliveries[id].0
    ensures Do(s, step).deliveries[id].1 ==
            if step == Enter(id) then (if s.closed || s.deliveries[id].0 !in s.subs then Gone else Counted)
            else if step == Send(id) || step == GiveUp(id, true) || step == GiveUp(id, false) then Leaving
            else if step == Leave(id) then Gone
            else s.deliveries[id].1
    ensures step == Enter(id) ==> s.deliveries[id].1.Arrived?
    ensures step == Send(id) || step == GiveUp(id, true) || step == GiveUp(id, false) ==> s.deliveries[id].1.Counted?
    ensures step == Leave(id) ==> s.deliveries[id].1.Leaving?
  {
  }

  lemma DeliveryTells(s: State, past: seq<Step>, step: Step, id: nat)
    requires BrokerTold(s, past) && DeliveriesTold(s, past) && Enabled(s, step) && id < |s.deliveries|
    ensures id < |Do(s, step).deliveries| && DeliveryTold(Do(s, step).deliveries[id].1, past + [step], id)
  {
    StepsMore(past, step);
    PhaseAfter(s, step, id);
    assert DeliveryTold(s.deliveries[id].1, past, id);
    hide Do, Enabled, Count, Sends, ArrivedRooms, SubsOf, TakenIn;
  }

  lemma SizeAfter(s: State, step: Step)
    requires Enabled(s, step)
    ensures |Do(s, step).deliveries| == |s.deliveries| + if step.Arrive? then 1 else 0
    ensures step.Arrive? ==> Do(s, step).deliveries[|s.deliveries|] == (step.room, Arrived)
    ensures forall id: nat :: step == Enter(id) || step == Leave(id) || step == Send(id) || step == GiveUp(id, true) || step == GiveUp(id, false) ==>
              id < |s.deliveries|
  {
  }

  lemma DeliveriesTell(s: State, past: seq<Step>, step: Step)
    requires BrokerTold(s, past) && DeliveriesTold(s, past) && Enabled(s, step)
    ensures DeliveriesTold(Do(s, step), past + [step])
  {
    hide Do, Enabled, Count, Sends, ArrivedRooms, SubsOf, TakenIn, BrokerTold;
    var t, now := Do(s, step), past + [step];
    StepsMore(past, step);
    SizeAfter(s, step);
    forall id | 0 <= id < |t.deliveries|
      ensures t.deliveries[id].0 == ArrivedRooms(now)[id] && DeliveryTold(t.deliveries[id].1, now, id)
    {
      if id < |s.deliveries| {
        PhaseAfter(s, step, id);
        DeliveryTells(s, past, step, id);
      }
    }
  }

  lemma {:induction false} RunTells(s: State, past: seq<Step>, steps: seq<Step>)
    requires Inv(s) && Legal(s, steps) && BrokerTold(s, past) && DeliveriesTold(s, past)
    ensures BrokerTold(Run(s, steps), past + steps) && DeliveriesTold(Run(s, steps), past + steps)
    decreases |steps|
  {
    hide Do, Enabled, Inv, BrokerTold, DeliveriesTold;
    if steps == [] {
      assert past + steps == past;
    } else {
      StepKeepsInv(s, steps[0]);
      BrokerTells(s, past, steps[0]);
      DeliveriesTell(s, past, steps[0]);
      RunTells(Do(s, steps[0]), past + [steps[0]], steps[1..]);
      assert past + [steps[0]] + steps[1..] == past + steps;
    }
  }

  /**
   * Over every run, what has happened decides the state: a message is counted in
   * exactly if its section found the broker open and subscribed to its room; what
   * is buffered was sent and not consumed, and fits; a broker is subscribed to what
   * it was asked for before the close; and no call of a close returns before the
   * close has finished.
   */
  lemma BrokerFollowsItsSteps(capacity: nat, steps: seq<Step>)
    requires Legal(Start(capacity), steps)
    ensures var s := Run(Start(capacity), steps); BrokerTold(s, steps) && DeliveriesTold(s, steps)
  {
    RunTells(Start(capacity), [], steps);
    assert [] + steps == steps;
  }

  /** A delivery waits for room exactly while the buffer is full, the broker is not being released and nobody cancels it; the rest may come at any time. */
  lemma WaitsExactly(s: State, id: nat, room: Room)
    requires Inv(s) && In(s, id, Counted)
    ensures !Enabled(s, Send(id)) && !Enabled(s, GiveUp(id, false)) <==> s.buffered >= s.capacity && s.doneCloses == 0
    ensures Enabled(s, GiveUp(id, true))
    ensures Enabled(s, Subscribe(room)) && Enabled(s, Unsubscribe(room)) && Enabled(s, Arrive(room)) && Enabled(s, CallClose)
  {
    NoneActive(s.deliveries);
    assert Holds(s.deliveries[id].1) == 1;
  }
}
