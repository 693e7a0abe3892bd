/**
 * The dispatcher, every connection's queue and every connection's write pump,
 * interleaved: what one membership of a room is delivered has no gap in it.
 */
module Fanout {
  import opened Wrappers
  import opened Rooms
  import opened Connection

  type ConnId = nat

  /** An event frame carries its place in the transport's stream; the rest are answers and warnings. */
  datatype Frame = Event(room: Room, index: nat) | Other

  datatype Pump = Waiting | Holding(frame: Frame) | Stopped

  /** `queued` is everything ever put on the send queue, of which the pump has taken `taken`. */
  datatype Client = Client(queued: seq<Frame>, taken: nat, wire: seq<Frame>, pump: Pump, closed: Option<Status>)

  /** `offering` is the connection between `trySend`'s look at `closed` and its send. */
  datatype Dispatch =
    | Idle
    | Fanning(todo: set<ConnId>, offering: Option<ConnId>, slow: set<ConnId>)
    | Closing(slow: set<ConnId>)

  /** A membership: messages dispatched and frames queued when it began. */
  datatype Stay = Stay(base: nat, from: nat)

  datatype Ended = Ended(conn: ConnId, room: Room, stay: Stay, end: nat, to: nat, kept: bool)

  datatype State = State(
    stream: seq<Room>,        // every message the transport delivered, by its room
    next: nat,                // the message being fanned out, or the next one
    dispatch: Dispatch,
    clients: map<ConnId, Client>,
    stays: map<(ConnId, Room), Stay>,
    past: seq<Ended>,
    refused: set<ConnId>,     // ever found with a full buffer during fan-out
    capacity: nat)

  datatype Step =
    | Connect(conn: ConnId)
    | Arrive(room: Room)
    | Begin
    | Look(conn: ConnId)
    | Offer(conn: ConnId, skip: bool)
    | EndFanning
    | CloseSlow(conn: ConnId)
    | EndClosing
    | Insert(conn: ConnId, room: Room)
    | Remove(conn: ConnId, room: Room)
    | Close(conn: ConnId, status: Status)
    | Answer(conn: ConnId, late: bool)    // a frame of the connection's own
    | Take(conn: ConnId)
    | Wrote(conn: ConnId, ok: bool)
    | StopPump(conn: ConnId)

  function Start(capacity: nat): State {
    State([], 0, Idle, map[], map[], [], {}, capacity)
  }

  function Current(s: State): Room
    requires s.next < |s.stream|
  {
    s.stream[s.next]
  }

  predicate HasSpace(s: State, k: Client) {
    |k.queued| - k.taken < s.capacity
  }

  predicate Enabled(s: State, step: Step) {
    match step
    case Connect(c) => c !in s.clients
    case Arrive(_) => true
    case Begin => s.dispatch.Idle? && s.next < |s.stream|
    case Look(c) => s.dispatch.Fanning? && s.dispatch.offering.None? && c in s.dispatch.todo && c in s.clients
    case Offer(c, skip) =>
      s.dispatch.Fanning? && s.dispatch.offering == Some(c) && c in s.clients && s.next < |s.stream|
      && (skip ==> s.clients[c].closed.Some?)
    case EndFanning => s.dispatch.Fanning? && s.dispatch.offering.None? && s.dispatch.todo == {}
    case CloseSlow(c) => s.dispatch.Closing? && c in s.dispatch.slow && c in s.clients
    case EndClosing => s.dispatch.Closing? && s.dispatch.slow == {}
    case Insert(c, room) => !s.dispatch.Fanning? && c in s.clients && (c, room) !in s.stays
    case Remove(c, room) => !s.dispatch.Fanning? && c in s.clients && (c, room) in s.stays
    case Close(c, _) => c in s.clients
    case Answer(c, late) => c in s.clients && (late ==> s.clients[c].closed.Some? && HasSpace(s, s.clients[c]))
    case Take(c) => c in s.clients && s.clients[c].pump.Waiting? && s.clients[c].taken < |s.clients[c].queued|
    case Wrote(c, _) => c in s.clients && s.clients[c].pump.Holding?
    case StopPump(c) => c in s.clients && s.clients[c].pump.Waiting?
  }

  function With(s: State, c: ConnId, k: Client): State {
    s.(clients := s.clients[c := k])
  }

  function Shut(k: Client, status: Status): Client {
    if k.closed.Some? then k else k.(closed := Some(status))
  }

  function Put(k: Client, frame: Frame): Client {
    k.(queued := k.queued + [frame])
  }

  /** Whether a membership has been given everything so far: nothing refused, nothing skipped. */
  predicate Keeping(s: State, c: ConnId)
    requires c in s.clients
  {
    || (s.dispatch.Fanning? && s.dispatch.offering == Some(c))
    || (s.clients[c].closed.None? && (s.dispatch.Idle? || c !in s.dispatch.slow))
  }

  function Do(s: State, step: Step): State
    requires Enabled(s, step)
  {
    match step
    case Connect(c) => With(s, c, Client([], 0, [], Waiting, None))
    case Arrive(room) => s.(stream := s.stream + [room])
    case Begin => s.(dispatch := Fanning((set c | c in s.clients && (c, Current(s)) in s.stays), None, {}))
    case Look(c) =>
      s.(dispatch := s.dispatch.(todo := s.dispatch.todo - {c}, offering := if s.clients[c].closed.Some? then None else Some(c)))
    case Offer(c, skip) =>
      var k := s.clients[c];
      var after := s.(dispatch := s.dispatch.(offering := None));
      if skip then after
      else if HasSpace(s, k) then With(after, c, Put(k, Event(Current(s), s.next)))
      else if k.closed.Some? then after
      else after.(dispatch := after.dispatch.(slow := after.dispatch.slow + {c}), refused := s.refused + {c})
    case EndFanning => s.(dispatch := Closing(s.dispatch.slow), next := s.next + 1)
    case CloseSlow(c) =>
      With(s.(dispatch := Closing(s.dispatch.slow - {c})), c, Shut(s.clients[c], SlowConsumer))
    case EndClosing => s.(dispatch := Idle)
    case Insert(c, room) => s.(stays := s.stays[(c, room) := Stay(s.next, |s.clients[c].queued|)])
    case Remove(c, room) =>
      s.(stays := s.stays - {(c, room)},
         past := s.past + [Ended(c, room, s.stays[(c, room)], s.next, |s.clients[c].queued|, Keeping(s, c))])
    case Close(c, status) => With(s, c, Shut(s.clients[c], status))
    case Answer(c, late) =>
      var k := s.clients[c];
      if late then With(s, c, Put(k, Other))
      else if k.closed.Some? then s
      else if HasSpace(s, k) then With(s, c, Put(k, Other))
      else With(s, c, Shut(k, SlowConsumer))
    case Take(c) =>
      var k := s.clients[c];
      With(s, c, k.(taken := k.taken + 1, pump := Holding(k.queued[k.taken])))
    case Wrote(c, ok) =>
      var k := s.clients[c];
      if ok then With(s, c, k.(wire := k.wire + [k.pump.frame], pump := Waiting))
      else With(s, c, Shut(k, InternalError).(pump := Stopped))
    case StopPump(c) => With(s, c, s.clients[c].(pump := Stopped))
  }

  // ------------------------------------------------------------- what is owed

  /** The stream places of one room's events among some frames, in queue order. */
  function Events(frames: seq<Frame>, room: Room): seq<nat> {
    if frames == [] then []
    else
      var last := frames[|frames| - 1];
      Events(frames[..|frames| - 1], room) + if last.Event? && last.room == room then [last.index] else []
  }

  /** The stream places of one room's messages from `lo` up to `hi`. */
  function Places(stream: seq<Room>, room: Room, lo: nat, hi: nat): seq<nat>
    requires hi <= |stream|
  {
    if hi <= lo then [] else Places(stream, room, lo, hi - 1) + if stream[hi - 1] == room then [hi - 1] else []
  }

  lemma EventsPut(frames: seq<Frame>, frame: Frame, room: Room)
    ensures Events(frames + [frame], room) == Events(frames, room) + if frame.Event? && frame.room == room then [frame.index] else []
  {
    assert (frames + [frame])[..|frames|] == frames;
  }

  lemma {:induction false} PlacesStable(stream: seq<Room>, more: Room, room: Room, lo: nat, hi: nat)
    requires hi <= |stream|
    ensures Places(stream + [more], room, lo, hi) == Places(stream, room, lo, hi)
    decreases hi
  {
    if hi > lo {
      PlacesStable(stream, more, room, lo, hi - 1);
    }
  }

  /** How many messages the dispatcher is done with as far as one connection goes. */
  function Reached(s: State, c: ConnId): nat {
    if s.dispatch.Fanning? && c !in s.dispatch.todo && s.dispatch.offering != Some(c) then s.next + 1 else s.next
  }

  /** A run of the room's messages from the start of the stay, all of them while it keeps up. */
  ghost predicate NoGap(s: State, c: ConnId, room: Room, frames: seq<Frame>, base: nat, hi: nat, kept: bool)
    requires hi <= |s.stream|
  {
    && base <= hi
    && Events(frames, room) <= Places(s.stream, room, base, hi)
    && (kept ==> Events(frames, room) == Places(s.stream, room, base, hi))
  }

  ghost predicate Shape(s: State) {
    && s.next <= |s.stream|
    && (forall c, room :: (c, room) in s.stays ==> c in s.clients && s.stays[(c, room)].from <= |s.clients[c].queued|)
    && (s.dispatch.Fanning? ==>
          && s.next < |s.stream|
          && (forall c :: c in s.dispatch.todo ==> c in s.clients && c !in s.dispatch.slow && s.dispatch.offering != Some(c))
          && (s.dispatch.offering.Some? ==>
                && s.dispatch.offering.value in s.clients
                && s.dispatch.offering.value !in s.refused && s.dispatch.offering.value !in s.dispatch.slow))
    && (forall c :: c in s.refused ==> c in s.clients && (s.clients[c].closed.Some? || (!s.dispatch.Idle? && c in s.dispatch.slow)))
  }

  /** Whoever the message being fanned out is for has been reached, is next, or is still to come. */
  ghost predicate Covered(s: State) {
    s.dispatch.Fanning? && s.next < |s.stream| ==>
      forall c :: c in s.dispatch.todo || s.dispatch.offering == Some(c) ==> (c, Current(s)) in s.stays
  }

  ghost predicate StayHolds(s: State, c: ConnId, room: Room)
    requires Shape(s) && (c, room) in s.stays
  {
    var stay := s.stays[(c, room)];
    NoGap(s, c, room, s.clients[c].queued[stay.from..], stay.base, Reached(s, c), Keeping(s, c))
  }

  ghost predicate EndedHolds(s: State, e: Ended)
    requires Shape(s)
  {
    && e.conn in s.clients && e.stay.from <= e.to <= |s.clients[e.conn].queued| && e.end <= s.next
    && NoGap(s, e.conn, e.room, s.clients[e.conn].queued[e.stay.from..e.to], e.stay.base, e.end, e.kept)
  }

  predicate PipedClient(k: Client, capacity: nat) {
    && k.taken <= |k.queued| && |k.queued| - k.taken <= capacity
    && match k.pump
       case Waiting => k.wire == k.queued[..k.taken]
       case Holding(frame) => k.wire + [frame] == k.queued[..k.taken]
       case Stopped => k.wire <= k.queued
  }

  ghost predicate Piped(s: State) {
    forall c :: c in s.clients ==> PipedClient(s.clients[c], s.capacity)
  }

  // ------------------------------------------------------------------ one step

  lemma ShapeKept(s: State, step: Step)
    requires Shape(s) && Enabled(s, step)
    ensures Shape(Do(s, step))
  {
  }

  lemma CoveredKept(s: State, step: Step)
    requires Shape(s) && Covered(s) && Enabled(s, step)
    ensures Covered(Do(s, step))
  {
  }

  lemma PutPiped(k: Client, frame: Frame, capacity: nat)
    requires PipedClient(k, capacity) && |k.queued| - k.taken < capacity
    ensures PipedClient(Put(k, frame), capacity)
  {
    assert Put(k, frame).queued[..k.taken] == k.queued[..k.taken];
  }

  lemma TakePiped(k: Client, capacity: nat)
    requires PipedClient(k, capacity) && k.pump.Waiting? && k.taken < |k.queued|
    ensures PipedClient(k.(taken := k.taken + 1, pump := Holding(k.queued[k.taken])), capacity)
  {
    assert k.queued[..k.taken + 1] == k.queued[..k.taken] + [k.queued[k.taken]];
  }

  lemma StopPiped(k: Client, capacity: nat)
    requires PipedClient(k, capacity)
    ensures PipedClient(k.(pump := Stopped), capacity)
  {
    assert k.queued == k.queued[..k.taken] + k.queued[k.taken..];
  }

  lemma PipedKept(s: State, step: Step)
    requires Piped(s) && Enabled(s, step)
    ensures Piped(Do(s, step))
  {
    match step
    case Connect(_) =>
    case Offer(c, _) =>
      if HasSpace(s, s.clients[c]) { PutPiped(s.clients[c], Event(Current(s), s.next), s.capacity); }
      hide PipedClient;
    case Answer(c, _) =>
      if HasSpace(s, s.clients[c]) { PutPiped(s.clients[c], Other, s.capacity); }
      hide PipedClient;
    case Take(c) =>
      TakePiped(s.clients[c], s.capacity);
      hide PipedClient;
    case Wrote(c, _) => StopPiped(s.clients[c], s.capacity);
    case StopPump(c) => StopPiped(s.clients[c], s.capacity);
    case _ =>
  }

  /** Nothing this membership is judged by has changed, or it only stopped keeping up. */
  lemma StayUnmoved(s: State, t: State, c: ConnId, room: Room)
    requires Shape(s) && Shape(t) && (c, room) in s.stays && (c, room) in t.stays && t.stays[(c, room)] == s.stays[(c, room)]
    requires StayHolds(s, c, room)
    requires t.stream == s.stream && t.clients[c].queued == s.clients[c].queued
    requires Reached(t, c) == Reached(s, c) || (Reached(t, c) == Reached(s, c) + 1 && (s.stream[Reached(s, c)] != room || !Keeping(t, c)))
    requires Keeping(t, c) ==> Keeping(s, c)
    ensures StayHolds(t, c, room)
  {
  }

  lemma StayPut(s: State, t: State, c: ConnId, room: Room, frame: Frame)
    requires Shape(s) && Shape(t) && (c, room) in s.stays && (c, room) in t.stays && t.stays[(c, room)] == s.stays[(c, room)]
    requires StayHolds(s, c, room)
    requires t.stream == s.stream && t.clients[c].queued == s.clients[c].queued + [frame]
    requires if frame.Other? then Reached(t, c) == Reached(s, c) && (Keeping(t, c) ==> Keeping(s, c))
             else Reached(t, c) == Reached(s, c) + 1 && Keeping(s, c)
                  && frame.index == Reached(s, c) && frame.room == s.stream[frame.index]
    ensures StayHolds(t, c, room)
  {
    var stay := s.stays[(c, room)];
    var before := s.clients[c].queued[stay.from..];
    assert t.clients[c].queued[stay.from..] == before + [frame];
    EventsPut(before, frame, room);
  }

  lemma StayOffered(s: State, step: Step, c: ConnId, room: Room)
    requires Shape(s) && Enabled(s, step) && Shape(Do(s, step)) && step.Offer?
    requires (c, room) in s.stays && StayHolds(s, c, room)
    ensures StayHolds(Do(s, step), c, room)
  {
    hide StayHolds;
    var t := Do(s, step);
    if step.conn == c && !step.skip && HasSpace(s, s.clients[c]) {
      StayPut(s, t, c, room, Event(Current(s), s.next));
    } else {
      StayUnmoved(s, t, c, room);
    }
  }

  lemma StayAnswered(s: State, step: Step, c: ConnId, room: Room)
    requires Shape(s) && Enabled(s, step) && Shape(Do(s, step)) && step.Answer?
    requires (c, room) in s.stays && StayHolds(s, c, room)
    ensures StayHolds(Do(s, step), c, room)
  {
    hide StayHolds;
    var t := Do(s, step);
    if step.conn == c && t.clients[c].queued != s.clients[c].queued {
      StayPut(s, t, c, room, Other);
    } else {
      StayUnmoved(s, t, c, room);
    }
  }

  lemma StayKept(s: State, step: Step, c: ConnId, room: Room)
    requires Shape(s) && Enabled(s, step) && Shape(Do(s, step))
    requires (c, room) in Do(s, step).stays
    requires (c, room) in s.stays ==> StayHolds(s, c, room)
    ensures StayHolds(Do(s, step), c, room)
  {
    var t := Do(s, step);
    if (c, room) !in s.stays {
      assert t.clients[c].queued[t.stays[(c, room)].from..] == [];
      hide Shape;
    } else if step.Arrive? {
      PlacesStable(s.stream, step.room, room, s.stays[(c, room)].base, Reached(s, c));
      hide Shape;
    } else if step.Offer? {
      StayOffered(s, step, c, room);
    } else if step.Answer? {
      StayAnswered(s, step, c, room);
    } else {
      hide StayHolds;
      StayUnmoved(s, t, c, room);
    }
  }

  lemma QueueGrows(s: State, step: Step, c: ConnId)
    requires Enabled(s, step) && c in s.clients
    ensures c in Do(s, step).clients && s.clients[c].queued <= Do(s, step).clients[c].queued
    ensures s.next <= Do(s, step).next && s.stream <= Do(s, step).stream
  {
  }

  lemma EndedKept(s: State, step: Step, e: Ended)
    requires Shape(s) && Enabled(s, step) && Shape(Do(s, step)) && e in s.past && EndedHolds(s, e)
    ensures EndedHolds(Do(s, step), e)
  {
    var t := Do(s, step);
    QueueGrows(s, step, e.conn);
    assert t.clients[e.conn].queued[e.stay.from..e.to] == s.clients[e.conn].queued[e.stay.from..e.to];
    if step.Arrive? {
      PlacesStable(s.stream, step.room, e.room, e.stay.base, e.end);
    } else {
      assert t.stream == s.stream;
    }
    hide Shape;
  }

  ghost predicate Inv(s: State) {
    && Shape(s) && Covered(s) && Piped(s)
    && (forall c, room :: (c, room) in s.stays ==> StayHolds(s, c, room))
    && (forall e :: e in s.past ==> EndedHolds(s, e))
  }

  lemma JustEnded(s: State, c: ConnId, room: Room)
    requires Shape(s) && Enabled(s, Remove(c, room)) && StayHolds(s, c, room) && Shape(Do(s, Remove(c, room)))
    ensures var t := Do(s, Remove(c, room)); EndedHolds(t, t.past[|s.past|])
  {
    var from := s.stays[(c, room)].from;
    assert s.clients[c].queued[from..|s.clients[c].queued|] == s.clients[c].queued[from..];
  }

  lemma StepKeepsInv(s: State, step: Step)
    requires Inv(s) && Enabled(s, step)
    ensures Inv(Do(s, step))
  {
    var t := Do(s, step);
    ShapeKept(s, step);
    CoveredKept(s, step);
    PipedKept(s, step);
    assert forall e :: e in t.past ==> e in s.past || (step.Remove? && e == t.past[|s.past|]);
    if step.Remove? { JustEnded(s, step.conn, step.room); }
    hide Shape, Covered, Piped, StayHolds, EndedHolds, Do, Enabled;
    forall c, room | (c, room) in t.stays ensures StayHolds(t, c, room) {
      StayKept(s, step, c, room);
    }
    forall e | e in t.past ensures EndedHolds(t, e) {
      if e in s.past { EndedKept(s, step, e); }
    }
  }

  // --------------------------------------------------------------------- runs

  predicate Legal(s: State, steps: seq<Step>)
    decreases |steps|
  {
    steps == [] || (Enabled(s, steps[0]) && Legal(Do(s, steps[0]), steps[1..]))
  }

  function Run(s: State, steps: seq<Step>): State
    requires Legal(s, steps)
    decreases |steps|
  {
    if steps == [] then s else Run(Do(s, steps[0]), steps[1..])
  }

  lemma {:induction false} RunKeepsInv(s: State, steps: seq<Step>)
    requires Inv(s) && Legal(s, steps)
    ensures Inv(Run(s, steps))
    decreases |steps|
  {
    hide Inv, Do, Enabled;
    if steps != [] {
      StepKeepsInv(s, steps[0]);
      RunKeepsInv(Do(s, steps[0]), steps[1..]);
    }
  }

  /**
   * No silent gap: in every interleaving, the events queued on a connection
   * during one membership of a room are a run of that room's messages without a
   * gap from the moment of insertion, and between dispatches an open connection
   * has been queued every one of them.
   */
  lemma NoSilentGap(capacity: nat, steps: seq<Step>, c: ConnId, room: Room)
    requires Legal(Start(capacity), steps) && (c, room) in Run(Start(capacity), steps).stays
    ensures var s := Run(Start(capacity), steps); var stay := s.stays[(c, room)];
            && c in s.clients && stay.from <= |s.clients[c].queued|
            && stay.base <= Reached(s, c) <= |s.stream| && s.next <= |s.stream|
            && Events(s.clients[c].queued[stay.from..], room) <= Places(s.stream, room, stay.base, Reached(s, c))
            && (s.dispatch.Idle? && s.clients[c].closed.None? ==>
                  Events(s.clients[c].queued[stay.from..], room) == Places(s.stream, room, stay.base, s.next))
  {
    RunKeepsInv(Start(capacity), steps);
    var s := Run(Start(capacity), steps);
    assert StayHolds(s, c, room);
    hide Legal, Run, Covered, Piped;
  }

  /** The same of every membership that has ended: complete if the connection had kept up until then. */
  lemma NoGapInThePast(capacity: nat, steps: seq<Step>, e: Ended)
    requires Legal(Start(capacity), steps) && e in Run(Start(capacity), steps).past
    ensures var s := Run(Start(capacity), steps);
            && e.conn in s.clients && e.stay.from <= e.to <= |s.clients[e.conn].queued| && e.end <= |s.stream|
            && var events := Events(s.clients[e.conn].queued[e.stay.from..e.to], e.room);
               && events <= Places(s.stream, e.room, e.stay.base, e.end)
               && (e.kept ==> events == Places(s.stream, e.room, e.stay.base, e.end))
  {
    RunKeepsInv(Start(capacity), steps);
    assert EndedHolds(Run(Start(capacity), steps), e);
    hide Legal, Run, Covered, Piped, StayHolds;
  }

  /** What reaches the socket is a prefix of the queue, and the queue never outgrows its buffer. */
  lemma WireIsAPrefix(capacity: nat, steps: seq<Step>, c: ConnId)
    requires Legal(Start(capacity), steps) && c in Run(Start(capacity), steps).clients
    ensures var k := Run(Start(capacity), steps).clients[c];
            k.wire <= k.queued && |k.queued| - k.taken <= capacity
  {
    RunKeepsInv(Start(capacity), steps);
    SameCapacity(Start(capacity), steps);
    var k := Run(Start(capacity), steps).clients[c];
    assert PipedClient(k, capacity);
    hide Legal, Run, Covered, Shape, StayHolds, EndedHolds;
    assert k.queued == k.queued[..k.taken] + k.queued[k.taken..];
  }

  lemma {:induction false} SameCapacity(s: State, steps: seq<Step>)
    requires Legal(s, steps)
    ensures Run(s, steps).capacity == s.capacity
    decreases |steps|
  {
    if steps != [] {
      SameCapacity(Do(s, steps[0]), steps[1..]);
    }
  }

  /** A connection refused for a full buffer is closed before the next message is taken up. */
  lemma RefusedIsClosed(capacity: nat, steps: seq<Step>, c: ConnId)
    requires Legal(Start(capacity), steps)
    ensures var s := Run(Start(capacity), steps);
            s.dispatch.Idle? && c in s.refused ==> c in s.clients && s.clients[c].closed.Some?
  {
    RunKeepsInv(Start(capacity), steps);
  }

  lemma NoEventStep(s: State, step: Step, c: ConnId, room: Room)
    requires Inv(s) && Enabled(s, step) && c in s.refused
    ensures c in Do(s, step).refused && c in s.clients && c in Do(s, step).clients
    ensures Events(Do(s, step).clients[c].queued, room) == Events(s.clients[c].queued, room)
  {
    hide Covered, Piped, StayHolds, EndedHolds;
    if step.Answer? {
      EventsPut(s.clients[c].queued, Other, room);
    }
  }

  /** Once refused, a connection is never queued another event, in any continuation. */
  lemma {:induction false} NoEventAfterRefusal(s: State, steps: seq<Step>, c: ConnId, room: Room)
    requires Inv(s) && Legal(s, steps) && c in s.refused
    ensures c in s.clients && c in Run(s, steps).clients
    ensures Events(Run(s, steps).clients[c].queued, room) == Events(s.clients[c].queued, room)
    decreases |steps|
  {
    if steps == [] {
      hide Covered, Piped, StayHolds, EndedHolds, Events;
    } else {
      NoEventStep(s, steps[0], c, room);
      StepKeepsInv(s, steps[0]);
      hide Inv, Do, Enabled;
      NoEventAfterRefusal(Do(s, steps[0]), steps[1..], c, room);
    }
  }

  /** Fan-out queues an event only on a connection that is in the message's room. */
  lemma OnlyMembersAreSent(capacity: nat, steps: seq<Step>, c: ConnId, skip: bool)
    requires Legal(Start(capacity), steps) && Enabled(Run(Start(capacity), steps), Offer(c, skip))
    ensures var s := Run(Start(capacity), steps); (c, Current(s)) in s.stays
  {
    RunKeepsInv(Start(capacity), steps);
  }

  lemma StoppedStep(s: State, step: Step, c: ConnId)
    requires Enabled(s, step) && c in s.clients && s.clients[c].pump.Stopped?
    ensures var t := Do(s, step); c in t.clients && t.clients[c].pump.Stopped? && t.clients[c].wire == s.clients[c].wire
    ensures s.clients[c].closed.Some? ==> Do(s, step).clients[c].closed == s.clients[c].closed
  {
  }

  lemma {:induction false} StoppedRun(s: State, steps: seq<Step>, c: ConnId)
    requires Legal(s, steps) && c in s.clients && s.clients[c].pump.Stopped?
    ensures var t := Run(s, steps);
            && c in t.clients && t.clients[c].wire == s.clients[c].wire
            && (s.clients[c].closed.Some? ==> t.clients[c].closed == s.clients[c].closed)
    decreases |steps|
  {
    if steps != [] {
      StoppedStep(s, steps[0], c);
      hide Do, Enabled;
      StoppedRun(Do(s, steps[0]), steps[1..], c);
    }
  }

  /**
   * A write pump that stops has written its last, in any continuation; and a failed
   * write stops it and closes the connection, for that reason unless it had one.
   */
  lemma AFailedWriteIsTheLast(s: State, stop: Step, steps: seq<Step>, c: ConnId)
    requires Enabled(s, stop) && (stop == Wrote(c, false) || stop == StopPump(c)) && Legal(Do(s, stop), steps)
    ensures var t := Run(Do(s, stop), steps);
            && c in t.clients && t.clients[c].wire == s.clients[c].wire
            && (stop.Wrote? ==> t.clients[c].closed == if s.clients[c].closed.Some? then s.clients[c].closed else Some(InternalError))
  {
    StoppedRun(Do(s, stop), steps, c);
    hide Legal, Run;
  }

  // ------------------------------------------------------- the dispatcher goes on

  function Times(n: nat, each: nat): nat {
    if n == 0 then 0 else each + Times(n - 1, each)
  }

  predicate InStream(s: State) {
    s.next <= |s.stream| && (s.dispatch.Fanning? ==> s.next < |s.stream|)
  }

  /**
   * What a dispatcher can still do with `left` messages for `n` connections: each
   * is begun, looked at and offered to each, ended, each closed for being slow, and
   * ended again.
   */
  function Work(d: Dispatch, left: nat, n: nat): nat
    requires d.Fanning? ==> left > 0
  {
    match d
    case Idle => Times(left, 3 * n + 3)
    case Fanning(todo, offering, _) => 2 * |todo| + (if offering.Some? then 1 else 0) + n + 2 + Times(left - 1, 3 * n + 3)
    case Closing(slow) => |slow| + 1 + Times(left, 3 * n + 3)
  }

  /** What the dispatcher has left to do with what has arrived. */
  function Budget(s: State): nat
    requires InStream(s)
  {
    Work(s.dispatch, |s.stream| - s.next, |s.clients|)
  }

  predicate Dispatches(step: Step) {
    step.Begin? || step.Look? || step.Offer? || step.EndFanning? || step.CloseSlow? || step.EndClosing?
  }

  ghost predicate SlowKnown(s: State) {
    && (s.dispatch.Fanning? ==> s.dispatch.slow <= s.clients.Keys)
    && (s.dispatch.Closing? ==> s.dispatch.slow <= s.clients.Keys)
  }

  lemma SlowKnownKept(s: State, step: Step)
    requires Shape(s) && SlowKnown(s) && Enabled(s, step)
    ensures SlowKnown(Do(s, step))
  {
  }

  lemma SubsetCounts<T>(a: set<T>, b: set<T>)
    requires a <= b
    ensures |a| <= |b|
  {
    assert b == a + (b - a);
  }

  /** Everything but the dispatcher, an arrival and a connection leaves its work as it was. */
  lemma OthersLeaveTheBudget(s: State, step: Step)
    requires Enabled(s, step) && !Dispatches(step) && !step.Arrive? && !step.Connect?
    ensures var t := Do(s, step);
            t.stream == s.stream && t.next == s.next && t.dispatch == s.dispatch && t.clients.Keys == s.clients.Keys
  {
  }

  lemma DispatchStep(s: State, step: Step)
    requires Enabled(s, step) && Dispatches(step)
    ensures var t := Do(s, step);
            && t.stream == s.stream && t.clients.Keys == s.clients.Keys
            && match step
               case Begin => s.dispatch.Idle? && s.next < |s.stream| && t.next == s.next && t.dispatch.Fanning? && t.dispatch.todo <= s.clients.Keys && t.dispatch.offering.None?
               case Look(c) => s.dispatch.Fanning? && s.dispatch.offering.None? && c in s.dispatch.todo && t.next == s.next && t.dispatch.Fanning? && t.dispatch.todo == s.dispatch.todo - {c}
               case Offer(_, _) => s.dispatch.Fanning? && s.dispatch.offering.Some? && t.next == s.next && t.dispatch.Fanning? && t.dispatch.todo == s.dispatch.todo && t.dispatch.offering.None?
               case EndFanning => s.dispatch.Fanning? && s.dispatch.todo == {} && s.dispatch.offering.None? && t.next == s.next + 1 && t.dispatch == Closing(s.dispatch.slow)
               case CloseSlow(c) => s.dispatch.Closing? && c in s.dispatch.slow && t.next == s.next && t.dispatch == Closing(s.dispatch.slow - {c})
               case EndClosing => s.dispatch.Closing? && s.dispatch.slow == {} && t.next == s.next && t.dispatch == Idle
               case _ => true
  {
  }

  lemma FanningWork(d: Dispatch, e: Dispatch, left: nat, n: nat)
    requires e.Fanning? && left > 0
    requires || (d.Idle? && |e.todo| <= n && e.offering.None?)
             || (d.Fanning? && d.offering.None? && |e.todo| + 1 == |d.todo|)
             || (d.Fanning? && d.offering.Some? && e.todo == d.todo && e.offering.None?)
    ensures Work(e, left, n) + 1 <= Work(d, left, n)
  {
    TimesStep(left, 3 * n + 3);
    hide Times;
  }

  lemma ClosingWork(d: Dispatch, left: nat, n: nat)
    requires d.Fanning? && d.todo == {} && d.offering.None? && |d.slow| <= n && left > 0
    ensures Work(Closing(d.slow), left - 1, n) + 1 <= Work(d, left, n)
  {
    hide Times;
  }

  lemma ClosedWork(slow: set<ConnId>, c: ConnId, left: nat, n: nat)
    ensures c in slow ==> Work(Closing(slow - {c}), left, n) + 1 <= Work(Closing(slow), left, n)
    ensures Work(Idle, left, n) + 1 <= Work(Closing({}), left, n)
  {
    hide Times;
    if c in slow { assert |slow - {c}| == |slow| - 1; }
  }

  lemma SameSize(a: map<ConnId, Client>, b: map<ConnId, Client>)
    requires a.Keys == b.Keys
    ensures |a| == |b|
  {
    assert |a| == |a.Keys| && |b| == |b.Keys|;
  }

  lemma FanningBudget(s: State, step: Step)
    requires InStream(s) && Enabled(s, step) && InStream(Do(s, step)) && (step.Begin? || step.Look? || step.Offer?)
    ensures Budget(Do(s, step)) + 1 <= Budget(s)
  {
    DispatchStep(s, step);
    hide Do, Enabled, Times, Work;
    var t := Do(s, step);
    SameSize(s.clients, t.clients);
    if step.Begin? {
      SubsetCounts(t.dispatch.todo, s.clients.Keys);
    } else if step.Look? {
      assert |s.dispatch.todo - {step.conn}| == |s.dispatch.todo| - 1;
    }
    FanningWork(s.dispatch, t.dispatch, |s.stream| - s.next, |s.clients|);
  }

  lemma ClosingBudget(s: State, step: Step)
    requires InStream(s) && SlowKnown(s) && Enabled(s, step) && InStream(Do(s, step))
    requires step.EndFanning? || step.CloseSlow? || step.EndClosing?
    ensures Budget(Do(s, step)) + 1 <= Budget(s)
  {
    DispatchStep(s, step);
    hide Do, Enabled, Times, Work;
    SameSize(s.clients, Do(s, step).clients);
    if step.EndFanning? {
      SubsetCounts(s.dispatch.slow, s.clients.Keys);
      ClosingWork(s.dispatch, |s.stream| - s.next, |s.clients|);
    } else {
      ClosedWork(s.dispatch.slow, if step.CloseSlow? then step.conn else 0, |s.stream| - s.next, |s.clients|);
    }
  }

  lemma BudgetStep(s: State, step: Step)
    requires InStream(s) && SlowKnown(s) && Enabled(s, step) && InStream(Do(s, step)) && !step.Arrive? && !step.Connect?
    ensures Budget(Do(s, step)) + (if Dispatches(step) then 1 else 0) <= Budget(s)
  {
    hide Do, Enabled, Times, Work;
    if step.Begin? || step.Look? || step.Offer? {
      FanningBudget(s, step);
    } else if Dispatches(step) {
      ClosingBudget(s, step);
    } else {
      OthersLeaveTheBudget(s, step);
      SameSize(s.clients, Do(s, step).clients);
    }
  }

  lemma TimesStep(n: nat, each: nat)
    requires n > 0
    ensures Times(n, each) == each + Times(n - 1, each)
  {
  }

  predicate NothingArrives(steps: seq<Step>) {
    forall i :: 0 <= i < |steps| ==> !steps[i].Arrive? && !steps[i].Connect?
  }

  function Dispatched(steps: seq<Step>): nat {
    if steps == [] then 0 else (if Dispatches(steps[0]) then 1 else 0) + Dispatched(steps[1..])
  }

  lemma ShapeInStream(s: State)
    requires Shape(s)
    ensures InStream(s)
  {
  }

  lemma {:induction false} BudgetRun(s: State, steps: seq<Step>)
    requires Shape(s) && SlowKnown(s) && Legal(s, steps) && NothingArrives(steps)
    ensures Shape(Run(s, steps)) && SlowKnown(Run(s, steps)) && InStream(s) && InStream(Run(s, steps))
    ensures Budget(Run(s, steps)) + Dispatched(steps) <= Budget(s)
    decreases |steps|
  {
    ShapeInStream(s);
    if steps != [] {
      ShapeKept(s, steps[0]);
      ShapeInStream(Do(s, steps[0]));
      SlowKnownKept(s, steps[0]);
      BudgetStep(s, steps[0]);
      hide Do, Enabled, Shape, SlowKnown, Budget, Dispatches;
      BudgetRun(Do(s, steps[0]), steps[1..]);
    }
  }

  /** Until it is idle with nothing left, the dispatcher has a step to take. */
  lemma DispatcherCanGoOn(s: State)
    requires Shape(s) && SlowKnown(s) && !(s.dispatch.Idle? && s.next == |s.stream|)
    ensures exists step :: Dispatches(step) && Enabled(s, step)
  {
    match s.dispatch
    case Idle => assert Enabled(s, Begin);
    case Fanning(todo, offering, _) =>
      if offering.Some? {
        assert Enabled(s, Offer(offering.value, false));
      } else if c :| c in todo {
        assert Enabled(s, Look(c));
      } else {
        assert Enabled(s, EndFanning);
      }
    case Closing(slow) =>
      if c :| c in slow { assert Enabled(s, CloseSlow(c)); } else { assert Enabled(s, EndClosing); }
  }

  lemma {:induction false} SlowKnownRun(s: State, steps: seq<Step>)
    requires Shape(s) && SlowKnown(s) && Legal(s, steps)
    ensures SlowKnown(Run(s, steps)) && Shape(Run(s, steps))
    decreases |steps|
  {
    if steps != [] {
      ShapeKept(s, steps[0]);
      SlowKnownKept(s, steps[0]);
      hide Do, Enabled, Shape, SlowKnown;
      SlowKnownRun(Do(s, steps[0]), steps[1..]);
    }
  }

  /**
   * Delivery completes. Whatever joins, leaves, answers, closes and writes do
   * meanwhile, the dispatcher takes no more steps than its budget for what has
   * arrived and always has one to take until it has been through all of it; a
   * member that is open then has been queued every message of its room since it
   * was inserted.
   */
  lemma DeliveryCompletes(capacity: nat, steps: seq<Step>, more: seq<Step>)
    requires Legal(Start(capacity), steps) && Legal(Run(Start(capacity), steps), more) && NothingArrives(more)
    ensures var s := Run(Start(capacity), steps); var t := Run(s, more);
            && InStream(s) && Dispatched(more) <= Budget(s)
            && ((forall step :: Dispatches(step) ==> !Enabled(t, step)) ==>
                  && t.dispatch.Idle? && t.next == |t.stream| == |s.stream|
                  && forall c, room :: (c, room) in t.stays && c in t.clients && t.clients[c].closed.None? ==>
                       var stay := t.stays[(c, room)];
                       && stay.from <= |t.clients[c].queued|
                       && Events(t.clients[c].queued[stay.from..], room) == Places(t.stream, room, stay.base, |t.stream|))
  {
    var s := Run(Start(capacity), steps);
    SlowKnownRun(Start(capacity), steps);
    BudgetRun(s, more);
    StreamStays(s, more);
    RunConcat(Start(capacity), steps, more);
    var t := Run(s, more);
    if forall step :: Dispatches(step) ==> !Enabled(t, step) {
      if !(t.dispatch.Idle? && t.next == |t.stream|) { DispatcherCanGoOn(t); }
      forall c, room | (c, room) in t.stays && c in t.clients && t.clients[c].closed.None?
        ensures var stay := t.stays[(c, room)];
                && stay.from <= |t.clients[c].queued|
                && Events(t.clients[c].queued[stay.from..], room) == Places(t.stream, room, stay.base, |t.stream|)
      {
        NoSilentGap(capacity, steps + more, c, room);
      }
    }
  }

  lemma {:induction false} StreamStays(s: State, steps: seq<Step>)
    requires Legal(s, steps) && NothingArrives(steps)
    ensures Run(s, steps).stream == s.stream
    decreases |steps|
  {
    if steps != [] {
      StreamAfter(s, steps[0]);
      hide Do, Enabled;
      StreamStays(Do(s, steps[0]), steps[1..]);
    }
  }

  lemma StreamAfter(s: State, step: Step)
    requires Enabled(s, step)
    ensures Do(s, step).stream == s.stream + if step.Arrive? then [step.room] else []
  {
  }

  lemma {:induction false} RunConcat(s: State, first: seq<Step>, second: seq<Step>)
    requires Legal(s, first) && Legal(Run(s, first), second)
    ensures Legal(s, first + second) && Run(s, first + second) == Run(Run(s, first), second)
    decreases |first|
  {
    hide Enabled, Do;
    if first == [] {
      assert first + second == second;
    } else {
      assert (first + second)[1..] == first[1..] + second;
      RunConcat(Do(s, first[0]), first[1..], second);
    }
  }

  // ---------------------------------------------------------- what has happened

  function Arrived(steps: seq<Step>): seq<Room> {
    if steps == [] then []
    else Arrived(steps[..|steps| - 1]) + if steps[|steps| - 1].Arrive? then [steps[|steps| - 1].room] else []
  }

  /** Inserted and not removed since. */
  predicate IsIn(steps: seq<Step>, c: ConnId, room: Room) {
    steps != [] &&
    var last := steps[|steps| - 1];
    last == Insert(c, room) || (last != Remove(c, room) && IsIn(steps[..|steps| - 1], c, room))
  }

  /** Steps that close a connection whatever its state. */
  predicate Closes(step: Step, c: ConnId) {
    (step.Close? && step.conn == c) || step == CloseSlow(c) || step == Wrote(c, false)
  }

  /** How many frames were written to a connection. */
  function Writes(steps: seq<Step>, c: ConnId): nat {
    if steps == [] then 0 else Writes(steps[..|steps| - 1], c) + if steps[|steps| - 1] == Wrote(c, true) then 1 else 0
  }

  ghost predicate Told(s: State, steps: seq<Step>) {
    && s.stream == Arrived(steps)
    && (forall c :: c in s.clients <==> Connect(c) in steps)
    && (forall c: ConnId, room: Room :: (c, room) in s.stays <==> IsIn(steps, c, room))
    && (forall c :: c in s.clients ==> |s.clients[c].wire| == Writes(steps, c))
    && (forall c :: c !in s.clients ==> Writes(steps, c) == 0)
  }

  ghost predicate ClosedTold(s: State, steps: seq<Step>) {
    forall i, c :: 0 <= i < |steps| && Closes(steps[i], c) ==> c in s.clients && s.clients[c].closed.Some?
  }

  lemma ToldMore(steps: seq<Step>, step: Step)
    ensures forall x :: x in steps + [step] <==> x in steps || x == step
    ensures Arrived(steps + [step]) == Arrived(steps) + if step.Arrive? then [step.room] else []
    ensures forall c, room :: IsIn(steps + [step], c, room) <==> step == Insert(c, room) || (step != Remove(c, room) && IsIn(steps, c, room))
    ensures forall c :: Writes(steps + [step], c) == Writes(steps, c) + if step == Wrote(c, true) then 1 else 0
  {
    assert (steps + [step])[..|steps|] == steps;
  }

  lemma TellsClients(s: State, step: Step, c: ConnId)
    requires Enabled(s, step)
    ensures c in Do(s, step).clients <==> c in s.clients || step == Connect(c)
    ensures c in Do(s, step).clients ==>
              |Do(s, step).clients[c].wire| == (if c in s.clients then |s.clients[c].wire| else 0) + (if step == Wrote(c, true) then 1 else 0)
    ensures c !in s.clients ==> step != Wrote(c, true)
    ensures step == Connect(c) ==> c !in s.clients
  {
  }

  lemma TellsStays(s: State, step: Step, c: ConnId, room: Room)
    requires Enabled(s, step)
    ensures (c, room) in Do(s, step).stays <==> step == Insert(c, room) || (step != Remove(c, room) && (c, room) in s.stays)
  {
  }

  lemma Tells(s: State, past: seq<Step>, step: Step)
    requires Told(s, past) && Enabled(s, step)
    ensures Told(Do(s, step), past + [step])
  {
    hide Do, Enabled, Arrived, IsIn, Writes;
    ToldMore(past, step);
    StreamAfter(s, step);
    forall c { TellsClients(s, step, c); }
    forall c: ConnId, room: Room { TellsStays(s, step, c, room); }
  }

  lemma TellsClosed(s: State, step: Step, c: ConnId)
    requires Enabled(s, step)
    ensures Closes(step, c) || (c in s.clients && s.clients[c].closed.Some?) ==>
              c in Do(s, step).clients && Do(s, step).clients[c].closed.Some?
  {
  }

  lemma {:induction false} RunTells(s: State, past: seq<Step>, steps: seq<Step>)
    requires Legal(s, steps) && Told(s, past) && ClosedTold(s, past)
    ensures Told(Run(s, steps), past + steps) && ClosedTold(Run(s, steps), past + steps)
    decreases |steps|
  {
    hide Do, Enabled, Told, Closes;
    if steps == [] {
      assert past + steps == past;
    } else {
      Tells(s, past, steps[0]);
      var t, now := Do(s, steps[0]), past + [steps[0]];
      forall i, c | 0 <= i < |now| && Closes(now[i], c) ensures c in t.clients && t.clients[c].closed.Some? {
        TellsClosed(s, steps[0], c);
        if i < |past| { assert past[i] == now[i]; }
      }
      assert ClosedTold(t, now);
      hide ClosedTold;
      RunTells(t, now, steps[1..]);
      assert now + steps[1..] == past + steps;
    }
  }

  /**
   * Over every run, what has happened decides the state: the stream is what
   * arrived, in order; a connection is in a room from its insertion to its removal;
   * each successful write put one frame on the wire; and whatever was closed, found
   * slow or failed to be written to is closed.
   */
  lemma FanoutFollowsItsSteps(capacity: nat, steps: seq<Step>)
    requires Legal(Start(capacity), steps)
    ensures var s := Run(Start(capacity), steps); Told(s, steps) && ClosedTold(s, steps)
  {
    RunTells(Start(capacity), [], steps);
    assert [] + steps == steps;
  }

  /**
   * What becomes of a message offered to a member: queued if there is room, or the
   * member is found slow, remembered as refused, and closed before the next
   * message; a connection seen to be closed is passed over.
   */
  lemma OfferExactly(s: State, c: ConnId, skip: bool)
    requires Enabled(s, Offer(c, skip))
    ensures var k := s.clients[c]; var t := Do(s, Offer(c, skip));
            var full := |k.queued| - k.taken >= s.capacity;
            && (!skip && !full ==> t.clients[c].queued == k.queued + [Event(s.stream[s.next], s.next)])
            && (skip || full ==> t.clients == s.clients)
            && (t.refused == if !skip && full && k.closed.None? then s.refused + {c} else s.refused)
            && (t.dispatch.slow == if !skip && full && k.closed.None? then s.dispatch.slow + {c} else s.dispatch.slow)
  {
  }

  /** A frame of the connection's own: queued if there is room, or it is closed as slow; once closed only what raced the close is queued. */
  lemma AnswerExactly(s: State, c: ConnId, late: bool)
    requires Enabled(s, Answer(c, late))
    ensures var (k, after) := (s.clients[c], Do(s, Answer(c, late)).clients[c]);
            var full := |k.queued| - k.taken >= s.capacity;
            && after.taken == k.taken && after.wire == k.wire && after.pump == k.pump
            && (after.queued == if !full && (k.closed.None? || late) then k.queued + [Other] else k.queued)
            && (after.closed == if k.closed.None? && full then Some(SlowConsumer) else k.closed)
  {
  }

  /**
   * Messages arrive at any time, any connection can be closed at any time, a frame
   * is queued after a close only by one that had looked before it and found room,
   * and a write pump looks at its close only between writes.
   */
  lemma AroundTheDispatcher(s: State, room: Room, c: ConnId, status: Status)
    requires c in s.clients
    ensures Enabled(s, Arrive(room)) && Enabled(s, Close(c, status))
    ensures Enabled(s, Answer(c, false))
    ensures Enabled(s, Answer(c, true)) <==> s.clients[c].closed != None && |s.clients[c].queued| - s.clients[c].taken < s.capacity
    ensures Enabled(s, StopPump(c)) <==> s.clients[c].pump == Waiting
  {
  }
}
