/**
 * Every interleaving of connections joining, leaving, being re-authorized and
 * ending. A step is one locked section of the hub, one change to a connection's
 * own room set, or the transport call that follows a locked section.
 */
module HubRuns {
  import opened Wrappers
  import opened Rooms
  import opened Hub

  /** Where the read pump is in handling a subscribe. */
  datatype Reader =
    | Idle
    | Authorizing(room: Room)
    | Authorized(room: Room)
    | Cleared(room: Room)    // the hub was not closing
    | Counted(room: Room)    // counted, not yet in the map
    | Inserted(room: Room)   // in the map, not yet in the connection's own set

  /** Where a goroutine is in a leave; `forgot` says the own set is already done. */
  datatype Leaver =
    | NotLeaving
    | Removed(room: Room, forgot: bool)
    | Unsubscribing(room: Room, forgot: bool)
    | Forgetting(room: Room)

  datatype Phase = Serving | Cleaning | Finished

  datatype Client = Client(tenant: Uuid, phase: Phase, own: set<Room>, reader: Reader, pump: Leaver, sweep: Leaver)

  /** The two goroutines that may leave a room: the read pump, and the re-authorization sweep. */
  datatype Who = Pump | Sweep

  datatype State = State(
    hub: Registry,
    clients: map<ConnId, Client>,
    allowed: set<(ConnId, Uuid)>,   // every board an authorizer ever said yes to
    max: nat)                       // MaxRoomsPerConnection

  datatype Step =
    | Register(conn: ConnId, tenant: Uuid)
    | Ask(conn: ConnId, board: Uuid)
    | Authorize(conn: ConnId, yes: bool)
    | CheckOpen(conn: ConnId)
    | CountIt(conn: ConnId, reached: bool)
    | Insert(conn: ConnId)
    | Remember(conn: ConnId)
    | Remove(conn: ConnId, who: Who, room: Room, forgetting: bool)
    | Decrement(conn: ConnId, who: Who, unsubscribing: bool)
    | Unsubscribe(conn: ConnId, who: Who)
    | Forget(conn: ConnId, who: Who)
    | EndReading(conn: ConnId)
    | Deregister(conn: ConnId)
    | StartClosing

  function Start(max: nat): State {
    State(NewRegistry, map[], {}, max)
  }

  function LeaverOf(k: Client, who: Who): Leaver {
    if who.Pump? then k.pump else k.sweep
  }

  function WithLeaver(k: Client, who: Who, leaver: Leaver): Client {
    if who.Pump? then k.(pump := leaver) else k.(sweep := leaver)
  }

  predicate PumpIdle(k: Client) {
    k.reader.Idle? && k.pump.NotLeaving?
  }

  predicate Enabled(s: State, step: Step) {
    if step.StartClosing? then true
    else if step.Register? then step.conn !in s.clients
    else if step.conn !in s.clients then false
    else
      var k := s.clients[step.conn];
      match step
      case Register(_, _) => false
      case Ask(_, _) => k.phase.Serving? && PumpIdle(k)
      case Authorize(_, _) => k.reader.Authorizing?
      case CheckOpen(_) => k.reader.Authorized?
      case CountIt(_, _) => k.reader.Cleared?
      case Insert(_) => k.reader.Counted?
      case Remember(_) => k.reader.Inserted?
      case Remove(_, who, room, _) =>
        if who.Sweep? then k.phase.Serving? && k.sweep.NotLeaving?
        else !k.phase.Finished? && PumpIdle(k) && (k.phase.Serving? ==> room.tenant == k.tenant)
      case Decrement(_, who, _) => LeaverOf(k, who).Removed?
      case Unsubscribe(_, who) => LeaverOf(k, who).Unsubscribing?
      case Forget(_, who) => LeaverOf(k, who).Forgetting?
      case EndReading(_) => k.phase.Serving? && PumpIdle(k) && k.sweep.NotLeaving?
      case Deregister(_) => k.phase.Cleaning? && k.own == {} && PumpIdle(k)
      case StartClosing => true
  }

  function AfterLeave(leaver: Leaver): Leaver
    requires leaver.Removed? || leaver.Unsubscribing?
  {
    if leaver.forgot then NotLeaving else Forgetting(leaver.room)
  }

  /** `handleSubscribe` up to the authorizer: no board, already held, too many, or go on. */
  function Asked(s: State, k: Client, room: Room): Client {
    if room.board == Nil || room in k.own || |k.own| >= s.max then k else k.(reader := Authorizing(room))
  }

  function HubAfter(s: State, step: Step): Registry
    requires Enabled(s, step)
  {
    var h := s.hub;
    match step
    case Register(c, _) => if h.closing then h else h.(conns := h.conns + {c})
    case CountIt(c, reached) => Counting(h, s.clients[c].reader.room, reached)
    case Insert(c) => Inserting(h, s.clients[c].reader.room, c)
    case Remove(c, _, room, _) => Removing(h, room, c)
    case Decrement(c, who, unsubscribing) =>
      var room := LeaverOf(s.clients[c], who).room;
      if Last(h, room) && unsubscribing then Releasing(Decrementing(h, room), room) else Decrementing(h, room)
    case Unsubscribe(c, who) => Releasing(h, LeaverOf(s.clients[c], who).room)
    case Deregister(c) => h.(conns := h.conns - {c})
    case StartClosing => h.(closing := true)
    case _ => h
  }

  function ClientAfter(s: State, step: Step): Client
    requires Enabled(s, step) && !step.StartClosing?
  {
    if step.Register? then
      Client(step.tenant, if s.hub.closing then Finished else Serving, {}, Idle, NotLeaving, NotLeaving)
    else
      var k := s.clients[step.conn];
      match step
      case Register(_, _) => k
      case Ask(_, board) => Asked(s, k, Room(k.tenant, board))
      case Authorize(_, yes) => k.(reader := if yes then Authorized(k.reader.room) else Idle)
      case CheckOpen(_) => k.(reader := if Complete(k.reader.room) && !s.hub.closing then Cleared(k.reader.room) else Idle)
      case CountIt(_, reached) =>
        k.(reader := if Count(s.hub, k.reader.room) != 0 || reached then Counted(k.reader.room) else Idle)
      case Insert(_) => k.(reader := Inserted(k.reader.room))
      case Remember(_) => k.(own := k.own + {k.reader.room}, reader := Idle)
      case Remove(c, who, room, forgetting) =>
        var leaver :=
          if c in Members(s.hub, room) then Removed(room, forgetting)
          else if forgetting then NotLeaving else Forgetting(room);
        WithLeaver(if forgetting then k.(own := k.own - {room}) else k, who, leaver)
      case Decrement(_, who, unsubscribing) =>
        var leaver := LeaverOf(k, who);
        WithLeaver(k, who, if Last(s.hub, leaver.room) && !unsubscribing then Unsubscribing(leaver.room, leaver.forgot)
                           else AfterLeave(leaver))
      case Unsubscribe(_, who) => WithLeaver(k, who, AfterLeave(LeaverOf(k, who)))
      case Forget(_, who) => WithLeaver(k.(own := k.own - {LeaverOf(k, who).room}), who, NotLeaving)
      case EndReading(_) => k.(phase := Cleaning)
      case Deregister(_) => k.(phase := Finished)
      case StartClosing => k
  }

  function Do(s: State, step: Step): State
    requires Enabled(s, step)
  {
    if step.StartClosing? then s.(hub := HubAfter(s, step))
    else s.(
      hub := HubAfter(s, step),
      clients := s.clients[step.conn := ClientAfter(s, step)],
      allowed := s.allowed + if step.Authorize? && step.yes then {(step.conn, s.clients[step.conn].reader.room.board)} else {})
  }

  // ------------------------------------------------------------- the counting

  function Joins(s: State, room: Room): set<ConnId> {
    set c | c in s.clients && s.clients[c].reader == Counted(room)
  }

  predicate RemovedFrom(leaver: Leaver, room: Room) {
    leaver.Removed? && leaver.room == room
  }

  function Leaves(s: State, who: Who, room: Room): set<ConnId> {
    set c | c in s.clients && RemovedFrom(LeaverOf(s.clients[c], who), room)
  }

  /** Members, joins counted but not inserted, and leaves removed but not decremented. */
  function Owed(s: State, room: Room): nat {
    |Members(s.hub, room)| + |Joins(s, room)| + |Leaves(s, Pump, room)| + |Leaves(s, Sweep, room)|
  }

  /** The reference count of every room is exactly what is owed. */
  ghost predicate Conserved(s: State) {
    forall room :: Count(s.hub, room) == Owed(s, room)
  }

  /** A zero is never stored. */
  ghost predicate PositiveCounts(s: State) {
    forall room :: room in s.hub.subs ==> s.hub.subs[room] > 0
  }

  predicate Heading(reader: Reader, room: Room) {
    !reader.Idle? && !reader.Inserted? && reader.room == room
  }

  ghost predicate NoEmptyRoom(s: State) {
    forall room :: room in s.hub.rooms ==> s.hub.rooms[room] != {}
  }

  /** A member knows it: the room is in its own set, or about to be. */
  ghost predicate MembersKnow(s: State) {
    forall room, c :: c in Members(s.hub, room) ==>
      c in s.clients && (room in s.clients[c].own || s.clients[c].reader == Inserted(room))
  }

  ghost predicate JoinsHaveRoom(s: State) {
    && (forall c :: c in s.clients && !s.clients[c].reader.Idle? ==>
          && s.clients[c].reader.room !in s.clients[c].own && |s.clients[c].own| < s.max
          && s.clients[c].phase.Serving? && s.clients[c].pump.NotLeaving?)
    && (forall c :: c in s.clients ==> |s.clients[c].own| <= s.max)
  }

  ghost predicate JoinersAreOutside(s: State) {
    forall c, room :: c in s.clients && Heading(s.clients[c].reader, room) ==> c !in Members(s.hub, room)
  }

  ghost predicate EndedIsQuiet(s: State) {
    && (forall c :: c in s.clients && s.clients[c].phase.Finished? ==> s.clients[c].own == {} && PumpIdle(s.clients[c]))
    && (forall c :: c in s.clients && !s.clients[c].phase.Serving? ==> s.clients[c].sweep.NotLeaving?)
  }

  ghost predicate ConnsListed(s: State) {
    forall c :: c in s.hub.conns <==> c in s.clients && !s.clients[c].phase.Finished?
  }

  predicate Admitted(reader: Reader) {
    reader.Cleared? || reader.Counted? || reader.Inserted?
  }

  ghost predicate ReadersRouted(s: State) {
    forall c :: c in s.clients && !s.clients[c].reader.Idle? ==>
      && s.clients[c].reader.room.tenant == s.clients[c].tenant
      && (!s.clients[c].reader.Authorizing? ==> (c, s.clients[c].reader.room.board) in s.allowed)
      && (Admitted(s.clients[c].reader) ==> Complete(s.clients[c].reader.room))
  }

  predicate MemberRouted(s: State, room: Room, c: ConnId) {
    c in s.clients && s.clients[c].tenant == room.tenant && (c, room.board) in s.allowed && Complete(room)
  }

  ghost predicate MembersRouted(s: State) {
    forall room: Room, c: ConnId :: c in Members(s.hub, room) ==> MemberRouted(s, room, c)
  }

  /** Everything a connection holds or is being given is its own tenant's and was authorized. */
  ghost predicate Routed(s: State) {
    ReadersRouted(s) && MembersRouted(s)
  }

  /** What every interleaving keeps, however the steps of a leave are cut apart. */
  ghost predicate Sound(s: State) {
    Routed(s) && JoinsHaveRoom(s) && EndedIsQuiet(s) && ConnsListed(s) && NoEmptyRoom(s) && PositiveCounts(s)
  }

  /** A connection and the hub agree on membership, up to the insertion still to be remembered. */
  ghost predicate Coherent(s: State) {
    MembersKnow(s) && JoinersAreOutside(s)
  }

  /** The transport is subscribed exactly to the rooms that are counted. */
  ghost predicate Agreed(s: State) {
    forall room :: room in s.hub.live <==> room in s.hub.subs
  }

  /** `hub.leave` and the connection's own `forgetRoom` taken as one step. */
  predicate Paired(step: Step) {
    !step.Forget? && (step.Remove? ==> step.forgetting)
  }

  /** The last decrement and its unsubscribe taken as one step. */
  predicate Together(step: Step) {
    !step.Unsubscribe? && (step.Decrement? ==> step.unsubscribing)
  }

  // ---------------------------------------------------------------- one step

  function Target(s: State, step: Step): Option<Room>
    requires Enabled(s, step)
  {
    match step
    case Insert(c) => Some(s.clients[c].reader.room)
    case Remove(_, _, room, _) => Some(room)
    case _ => None
  }

  lemma MembersAfter(s: State, step: Step, room: Room)
    requires Enabled(s, step)
    ensures Members(Do(s, step).hub, room) ==
            if Target(s, step) != Some(room) then Members(s.hub, room)
            else if step.Insert? then Members(s.hub, room) + {step.conn}
            else Members(s.hub, room) - {step.conn}
    ensures NoEmptyRoom(s) ==> NoEmptyRoom(Do(s, step))
  {
    if step.Remove? && step.room == room {
      assert Members(s.hub, room) == {step.conn} ==> Members(s.hub, room) - {step.conn} == {};
    }
  }

  lemma ConnsAfter(s: State, step: Step)
    requires Enabled(s, step)
    ensures Do(s, step).hub.conns ==
            match step
            case Register(c, _) => if s.hub.closing then s.hub.conns else s.hub.conns + {c}
            case Deregister(c) => s.hub.conns - {c}
            case _ => s.hub.conns
  {
  }

  /** What a step may do to the one connection it is about. */
  lemma ClientStep(s: State, step: Step)
    requires JoinsHaveRoom(s) && EndedIsQuiet(s) && Enabled(s, step) && !step.StartClosing?
    ensures var k := ClientAfter(s, step);
            && (!k.reader.Idle? ==> k.reader.room !in k.own && |k.own| < s.max && k.phase.Serving? && k.pump.NotLeaving?)
            && |k.own| <= s.max
            && (k.phase.Finished? ==> k.own == {} && PumpIdle(k))
            && (!k.phase.Serving? ==> k.sweep.NotLeaving?)
  {
    var c := step.conn;
    if !step.Register? {
      var k := s.clients[c];
      match step
      case Remember(_) => assert |k.own + {k.reader.room}| == |k.own| + 1;
      case Remove(_, _, room, _) => Shrinks(k.own, room);
      case Forget(_, who) => Shrinks(k.own, LeaverOf(k, who).room);
      case _ =>
    }
  }

  lemma Shrinks(own: set<Room>, room: Room)
    ensures |own - {room}| <= |own|
  {
    if room in own {
      assert own == (own - {room}) + {room};
    } else {
      assert own - {room} == own;
    }
  }

  /** A forgetting, when it comes on its own, finds the room left, or about to be remembered. */
  predicate ForgetsInTime(s: State, step: Step)
    requires Enabled(s, step)
  {
    step.Forget? ==>
      var k := s.clients[step.conn];
      var room := LeaverOf(k, step.who).room;
      step.conn !in Members(s.hub, room) || k.reader == Inserted(room)
  }

  lemma MembersKnowKept(s: State, step: Step)
    requires MembersKnow(s) && Enabled(s, step) && ForgetsInTime(s, step)
    ensures MembersKnow(Do(s, step))
  {
    var t := Do(s, step);
    forall room, c | c in Members(t.hub, room)
      ensures c in t.clients && (room in t.clients[c].own || t.clients[c].reader == Inserted(room))
    {
      MembersAfter(s, step, room);
      if step.StartClosing? || step.conn != c {
        hide HubAfter, ClientAfter, Members;
        assert c in Members(s.hub, room);
      } else {
        hide HubAfter;
        MemberKnows(s, step, room);
      }
    }
  }

  lemma MemberKnows(s: State, step: Step, room: Room)
    requires MembersKnow(s) && Enabled(s, step) && ForgetsInTime(s, step) && !step.StartClosing?
    requires if step.Insert? && s.clients[step.conn].reader.room == room then true
             else step.conn in Members(s.hub, room) && !(step.Remove? && step.room == room)
    ensures var k := ClientAfter(s, step); room in k.own || k.reader == Inserted(room)
  {
    if step.Insert? && s.clients[step.conn].reader.room == room {
    } else {
      var k := s.clients[step.conn];
      assert room in k.own || k.reader == Inserted(room);
      hide Members, MembersKnow, Count, Last;
    }
  }

  lemma JoinersAreOutsideKept(s: State, step: Step)
    requires MembersKnow(s) && JoinersAreOutside(s) && Enabled(s, step)
    ensures JoinersAreOutside(Do(s, step))
  {
    var t := Do(s, step);
    forall c, room | c in t.clients && Heading(t.clients[c].reader, room) ensures c !in Members(t.hub, room) {
      MembersAfter(s, step, room);
      if step.StartClosing? || step.conn != c {
        hide HubAfter, ClientAfter, Members;
      } else {
        hide HubAfter;
        if step.Ask? {
          assert room !in s.clients[c].own && s.clients[c].reader.Idle?;
        } else if !step.Register? {
          assert Heading(s.clients[c].reader, room);
        }
      }
    }
  }

  lemma OneClientChanged(s: State, t: State, c: ConnId, k: Client)
    requires JoinsHaveRoom(s) && EndedIsQuiet(s) && t.clients == s.clients[c := k] && t.max == s.max
    requires !k.reader.Idle? ==> k.reader.room !in k.own && |k.own| < s.max && k.phase.Serving? && k.pump.NotLeaving?
    requires |k.own| <= s.max
    requires k.phase.Finished? ==> k.own == {} && PumpIdle(k)
    requires !k.phase.Serving? ==> k.sweep.NotLeaving?
    ensures JoinsHaveRoom(t) && EndedIsQuiet(t)
  {
  }

  lemma ClientsKept(s: State, step: Step)
    requires JoinsHaveRoom(s) && EndedIsQuiet(s) && Enabled(s, step)
    ensures JoinsHaveRoom(Do(s, step)) && EndedIsQuiet(Do(s, step))
  {
    hide JoinsHaveRoom, EndedIsQuiet, HubAfter, ClientAfter, Enabled, PumpIdle;
    var t := Do(s, step);
    if step.StartClosing? {
      SameClients(s, t);
    } else {
      ClientStep(s, step);
      OneClientChanged(s, t, step.conn, ClientAfter(s, step));
    }
  }

  lemma SameClients(s: State, t: State)
    requires JoinsHaveRoom(s) && EndedIsQuiet(s) && t.clients == s.clients && t.max == s.max
    ensures JoinsHaveRoom(t) && EndedIsQuiet(t)
  {
  }

  lemma CoherentKept(s: State, step: Step)
    requires Coherent(s) && Enabled(s, step) && ForgetsInTime(s, step)
    ensures Coherent(Do(s, step))
  {
    hide Members, Heading, Enabled, Do, MembersKnow, JoinersAreOutside, ForgetsInTime;
    MembersKnowKept(s, step);
    JoinersAreOutsideKept(s, step);
  }

  lemma ConnsListedKept(s: State, step: Step)
    requires ConnsListed(s) && Enabled(s, step)
    ensures ConnsListed(Do(s, step))
  {
    ConnsAfter(s, step);
    hide HubAfter, Members, Heading;
  }

  // ------------------------------------------------------------ conservation

  lemma OneChanged(before: set<ConnId>, after: set<ConnId>, c: ConnId)
    requires forall d :: d != c ==> (d in before <==> d in after)
    ensures |after| == |before| + (if c in after then 1 else 0) - (if c in before then 1 else 0)
  {
    if c in after && c !in before {
      assert after == before + {c};
    } else if c !in after && c in before {
      assert before == after + {c};
    } else {
      assert after == before;
    }
  }

  function One(b: bool): nat {
    if b then 1 else 0
  }

  function Weight(k: Client, room: Room): nat {
    One(k.reader == Counted(room)) + One(RemovedFrom(k.pump, room)) + One(RemovedFrom(k.sweep, room))
  }

  /** What one connection is owed of a room's count. */
  function Contribution(s: State, c: ConnId, room: Room): nat {
    One(c in Members(s.hub, room)) + if c in s.clients then Weight(s.clients[c], room) else 0
  }

  lemma LeavesAfter(s: State, t: State, c: ConnId, who: Who, room: Room)
    requires forall d :: d != c ==> (d in s.clients <==> d in t.clients)
    requires forall d :: d != c && d in s.clients ==> s.clients[d] == t.clients[d]
    ensures |Leaves(t, who, room)| == |Leaves(s, who, room)| + One(c in Leaves(t, who, room)) - One(c in Leaves(s, who, room))
  {
    hide RemovedFrom, LeaverOf;
    OneChanged(Leaves(s, who, room), Leaves(t, who, room), c);
  }

  lemma JoinsAfter(s: State, t: State, c: ConnId, room: Room)
    requires forall d :: d != c ==> (d in s.clients <==> d in t.clients)
    requires forall d :: d != c && d in s.clients ==> s.clients[d] == t.clients[d]
    ensures |Joins(t, room)| == |Joins(s, room)| + One(c in Joins(t, room)) - One(c in Joins(s, room))
  {
    OneChanged(Joins(s, room), Joins(t, room), c);
  }

  lemma OneClientSet(s: State, step: Step)
    requires Enabled(s, step) && !step.StartClosing?
    ensures Do(s, step).clients == s.clients[step.conn := ClientAfter(s, step)]
  {
  }

  lemma MemberCountAfter(s: State, step: Step, room: Room)
    requires Enabled(s, step) && !step.StartClosing?
    ensures var t, c := Do(s, step), step.conn;
            |Members(t.hub, room)| == |Members(s.hub, room)| + One(c in Members(t.hub, room)) - One(c in Members(s.hub, room))
  {
    MembersAfter(s, step, room);
    hide Do, Enabled, Members;
    OneChanged(Members(s.hub, room), Members(Do(s, step).hub, room), step.conn);
  }

  /** Only the connection a step is about changes what it is owed. */
  lemma OwedAfter(s: State, step: Step, room: Room)
    requires Enabled(s, step) && !step.StartClosing?
    ensures Owed(Do(s, step), room) == Owed(s, room) + Contribution(Do(s, step), step.conn, room) - Contribution(s, step.conn, room)
  {
    hide Do, ClientAfter, Enabled, RemovedFrom, Members, Joins, Leaves;
    var t, c := Do(s, step), step.conn;
    OneClientSet(s, step);
    MemberCountAfter(s, step, room);
    JoinsAfter(s, t, c, room);
    LeavesAfter(s, t, c, Pump, room);
    LeavesAfter(s, t, c, Sweep, room);
    OwesAsWeighed(s, c, room);
    OwesAsWeighed(t, c, room);
  }

  lemma OwesAsWeighed(s: State, c: ConnId, room: Room)
    ensures Contribution(s, c, room) == One(c in Members(s.hub, room)) + One(c in Joins(s, room))
                                        + One(c in Leaves(s, Pump, room)) + One(c in Leaves(s, Sweep, room))
  {
  }

  lemma OwedAtLeast(s: State, c: ConnId, room: Room)
    ensures Owed(s, room) >= Contribution(s, c, room)
  {
    hide RemovedFrom;
    Holding(Members(s.hub, room), c);
    Holding(Joins(s, room), c);
    Holding(Leaves(s, Pump, room), c);
    Holding(Leaves(s, Sweep, room), c);
  }

  lemma Holding(s: set<ConnId>, c: ConnId)
    ensures |s| >= One(c in s)
  {
  }

  lemma CountAfter(s: State, step: Step, room: Room)
    requires Enabled(s, step) && !step.StartClosing?
    ensures Count(Do(s, step).hub, room) ==
            if step.CountIt? && room == s.clients[step.conn].reader.room && (Count(s.hub, room) != 0 || step.reached) then
              Count(s.hub, room) + 1
            else if step.Decrement? && room == LeaverOf(s.clients[step.conn], step.who).room then
              if Last(s.hub, room) then 0 else Count(s.hub, room) - 1
            else Count(s.hub, room)
    ensures (forall r :: r in s.hub.subs ==> s.hub.subs[r] > 0) ==>
            (forall r :: r in Do(s, step).hub.subs ==> Do(s, step).hub.subs[r] > 0)
  {
    hide ClientAfter;
  }

  /** The connection being inserted is not in the room yet. */
  predicate InsertsNew(s: State, step: Step)
    requires Enabled(s, step)
  {
    step.Insert? ==> step.conn !in Members(s.hub, s.clients[step.conn].reader.room)
  }

  /** A member inserted again: one join of the room is used up and nothing is added to it. */
  function Twice(s: State, step: Step, room: Room): nat
    requires Enabled(s, step)
  {
    One(!InsertsNew(s, step) && s.clients[step.conn].reader.room == room)
  }

  /** A step adds to what its connection is owed exactly what it adds to the count, unless it inserts a member again. */
  lemma ContributionAfter(s: State, step: Step, room: Room)
    requires Routed(s) && Enabled(s, step) && !step.StartClosing?
    requires Count(s.hub, room) >= Contribution(s, step.conn, room)
    ensures Contribution(Do(s, step), step.conn, room) - Contribution(s, step.conn, room) ==
            Count(Do(s, step).hub, room) - Count(s.hub, room)
            - Twice(s, step, room)
  {
    var t, c := Do(s, step), step.conn;
    CountAfter(s, step, room);
    MembersAfter(s, step, room);
    assert t.clients[c] == ClientAfter(s, step);
    hide Do, HubAfter, Members, Count;
    if !step.Register? && !step.Remove? && !step.Insert? {
      WeightMoves(s, step, room);
    }
  }

  lemma WeightMoves(s: State, step: Step, room: Room)
    requires Enabled(s, step) && !step.StartClosing? && !step.Register? && !step.Remove? && !step.Insert?
    requires step.Decrement? && room == LeaverOf(s.clients[step.conn], step.who).room ==> Count(s.hub, room) >= 1
    ensures Weight(ClientAfter(s, step), room) - Weight(s.clients[step.conn], room) ==
            if step.CountIt? && room == s.clients[step.conn].reader.room && (Count(s.hub, room) != 0 || step.reached) then 1
            else if step.Decrement? && room == LeaverOf(s.clients[step.conn], step.who).room then -1
            else 0
  {
  }

  /** A step keeps the counts exactly if it inserts nobody who is a member already. */
  lemma ConservedStep(s: State, step: Step)
    requires Routed(s) && Conserved(s) && Enabled(s, step)
    ensures Conserved(Do(s, step)) <==> InsertsNew(s, step)
  {
    var t := Do(s, step);
    if step.StartClosing? {
      assert t.hub == s.hub.(closing := true) && t.clients == s.clients;
      forall room ensures Count(t.hub, room) == Owed(t, room) {
        assert Count(s.hub, room) == Owed(s, room);
        assert Joins(t, room) == Joins(s, room);
        assert Leaves(t, Pump, room) == Leaves(s, Pump, room);
        assert Leaves(t, Sweep, room) == Leaves(s, Sweep, room);
      }
    } else {
      hide Routed, Contribution, Owed, Do, Count, InsertsNew;
      forall room ensures Count(t.hub, room) - Owed(t, room)
                          == Twice(s, step, room) {
        OwedAtLeast(s, step.conn, room);
        ContributionAfter(s, step, room);
        OwedAfter(s, step, room);
      }
      if !InsertsNew(s, step) {
        assert Count(t.hub, s.clients[step.conn].reader.room) - Owed(t, s.clients[step.conn].reader.room) == 1;
      }
    }
  }

  /** Somebody heading for a room is outside it. */
  lemma CoherentInsertsNew(s: State, step: Step)
    requires Coherent(s) && Enabled(s, step)
    ensures InsertsNew(s, step)
  {
    if step.Insert? {
      assert Heading(s.clients[step.conn].reader, s.clients[step.conn].reader.room);
    }
  }

  // ----------------------------------------------------- routing and agreement

  lemma RoutedKept(s: State, step: Step)
    requires Routed(s) && Enabled(s, step)
    ensures Routed(Do(s, step))
  {
    hide Do, Enabled, ReadersRouted, MembersRouted;
    RoutedReaders(s, step);
    RoutedMembers(s, step);
  }

  lemma RoutedMember(s: State, step: Step, room: Room, c: ConnId)
    requires Routed(s) && Enabled(s, step) && c in Members(Do(s, step).hub, room)
    ensures MemberRouted(Do(s, step), room, c)
  {
    MembersAfter(s, step, room);
    if c in Members(s.hub, room) { assert MemberRouted(s, room, c); }
    hide HubAfter, Members;
  }

  lemma RoutedMembers(s: State, step: Step)
    requires Routed(s) && Enabled(s, step)
    ensures MembersRouted(Do(s, step))
  {
    hide Do, Enabled, Routed, Members, MemberRouted;
    forall room: Room, c: ConnId | c in Members(Do(s, step).hub, room) ensures MemberRouted(Do(s, step), room, c) {
      RoutedMember(s, step, room, c);
    }
  }

  lemma RoutedReaders(s: State, step: Step)
    requires Routed(s) && Enabled(s, step)
    ensures ReadersRouted(Do(s, step))
  {
    var t := Do(s, step);
    forall c | c in t.clients && !t.clients[c].reader.Idle?
      ensures t.clients[c].reader.room.tenant == t.clients[c].tenant
      ensures !t.clients[c].reader.Authorizing? ==> (c, t.clients[c].reader.room.board) in t.allowed
      ensures Admitted(t.clients[c].reader) ==> Complete(t.clients[c].reader.room)
    {
      hide HubAfter, Members;
      if step.StartClosing? || step.conn != c {
        hide ClientAfter;
      } else if !step.Register? {
        RoutedReader(s, step);
        hide ClientAfter;
      }
    }
  }

  lemma RoutedReader(s: State, step: Step)
    requires Routed(s) && Enabled(s, step) && !step.StartClosing? && !step.Register?
    ensures var t := Do(s, step); var k := t.clients[step.conn];
            && k.tenant == s.clients[step.conn].tenant
            && (!k.reader.Idle? ==>
                  && k.reader.room.tenant == k.tenant
                  && (!k.reader.Authorizing? ==> (step.conn, k.reader.room.board) in t.allowed)
                  && (Admitted(k.reader) ==> Complete(k.reader.room)))
  {
    hide HubAfter, Members;
  }

  lemma AgreedKept(s: State, step: Step)
    requires PositiveCounts(s) && Agreed(s) && Enabled(s, step) && Together(step)
    ensures Agreed(Do(s, step))
  {
    hide ClientAfter, Members;
    assert forall room :: room in s.hub.subs ==> Count(s.hub, room) > 0;
    var t := Do(s, step);
    match step
    case CountIt(c, reached) => assert t.hub == Counting(s.hub, s.clients[c].reader.room, reached);
    case Decrement(c, who, _) =>
      var room := LeaverOf(s.clients[c], who).room;
      assert t.hub == if Last(s.hub, room) then Releasing(Decrementing(s.hub, room), room) else Decrementing(s.hub, room);
    case Unsubscribe(_, _) =>
    case _ => assert t.hub.live == s.hub.live && t.hub.subs == s.hub.subs;
  }

  lemma PositiveKept(s: State, step: Step)
    requires PositiveCounts(s) && Enabled(s, step)
    ensures PositiveCounts(Do(s, step))
  {
    if step.StartClosing? {
      assert Do(s, step).hub.subs == s.hub.subs;
    } else {
      CountAfter(s, step, Room(Nil, Nil));
      hide Do;
    }
  }

  lemma SoundKept(s: State, step: Step)
    requires Sound(s) && Enabled(s, step)
    ensures Sound(Do(s, step))
  {
    hide Members, Enabled, Do, Routed, JoinsHaveRoom, EndedIsQuiet, ConnsListed, NoEmptyRoom, PositiveCounts;
    RoutedKept(s, step);
    ClientsKept(s, step);
    ConnsListedKept(s, step);
    MembersAfter(s, step, Room(Nil, Nil));
    PositiveKept(s, step);
  }

  // --------------------------------------------------------------------- runs

  predicate Legal(s: State, steps: seq<Step>)
    decreases |steps|
  {
    steps == [] || (Enabled(s, steps[0]) && Legal(Do(s, steps[0]), steps[1..]))
  }

  function Run(s: State, steps: seq<Step>): State
    requires Legal(s, steps)
    decreases |steps|
  {
    if steps == [] then s else Run(Do(s, steps[0]), steps[1..])
  }

  predicate AllPaired(steps: seq<Step>) {
    forall i :: 0 <= i < |steps| ==> Paired(steps[i])
  }

  predicate AllTogether(steps: seq<Step>) {
    forall i :: 0 <= i < |steps| ==> Together(steps[i])
  }

  lemma StartHolds(max: nat)
    ensures Sound(Start(max)) && Coherent(Start(max)) && Conserved(Start(max)) && Agreed(Start(max))
  {
    forall room ensures Owed(Start(max), room) == 0 {
      assert Joins(Start(max), room) == {};
      assert Leaves(Start(max), Pump, room) == {} && Leaves(Start(max), Sweep, room) == {};
    }
  }

  /** Every interleaving, whatever is paired with what. */
  lemma {:induction false} RunKeepsSound(s: State, steps: seq<Step>)
    requires Sound(s) && Legal(s, steps)
    ensures Sound(Run(s, steps)) && Run(s, steps).max == s.max
    ensures Agreed(s) && AllTogether(steps) ==> Agreed(Run(s, steps))
    decreases |steps|
  {
    hide Routed, JoinsHaveRoom, EndedIsQuiet, ConnsListed, NoEmptyRoom, PositiveCounts, Agreed, Enabled, Together, HubAfter, ClientAfter;
    if steps != [] {
      SoundKept(s, steps[0]);
      if Agreed(s) && AllTogether(steps) { AgreedKept(s, steps[0]); }
      RunKeepsSound(Do(s, steps[0]), steps[1..]);
    }
  }

  lemma {:induction false} RunKeepsCoherent(s: State, steps: seq<Step>)
    requires Sound(s) && Coherent(s) && Conserved(s) && Legal(s, steps) && AllPaired(steps)
    ensures Coherent(Run(s, steps)) && Conserved(Run(s, steps))
    decreases |steps|
  {
    if steps != [] {
      assert ForgetsInTime(s, steps[0]);
      hide Sound, Coherent, Conserved, Enabled, Paired, HubAfter, ClientAfter, ForgetsInTime, InsertsNew;
      SoundKept(s, steps[0]);
      CoherentInsertsNew(s, steps[0]);
      assert Routed(s) by { SoundIsRouted(s); }
      ConservedStep(s, steps[0]);
      CoherentKept(s, steps[0]);
      RunKeepsCoherent(Do(s, steps[0]), steps[1..]);
    }
  }

  lemma SoundIsRouted(s: State)
    requires Sound(s)
    ensures Routed(s)
  {
  }

  /**
   * Reference-count conservation: at every interleaving point a room's count is
   * its members, plus the joins counted but not inserted, plus the leaves removed
   * but not decremented; it is absent exactly when that sum is zero.
   */
  lemma ReferenceCountsAreConserved(max: nat, steps: seq<Step>, room: Room)
    requires Legal(Start(max), steps) && AllPaired(steps)
    ensures var s := Run(Start(max), steps);
            && Count(s.hub, room) == Owed(s, room)
            && (room in s.hub.subs <==> Owed(s, room) > 0)
  {
    StartHolds(max);
    RunKeepsSound(Start(max), steps);
    RunKeepsCoherent(Start(max), steps);
  }

  /**
   * Subscription agreement: with the last decrement and its unsubscribe one step,
   * the transport is subscribed to a room exactly when its count is positive.
   */
  lemma SubscriptionsAgree(max: nat, steps: seq<Step>, room: Room)
    requires Legal(Start(max), steps) && AllTogether(steps)
    ensures var s := Run(Start(max), steps); room in s.hub.live <==> Count(s.hub, room) > 0
  {
    StartHolds(max);
    RunKeepsSound(Start(max), steps);
  }

  /** With the sweep's leave and its forgetting one step too, a connection is in a room's map only while that subscription is live. */
  lemma MembersAreSubscribed(max: nat, steps: seq<Step>, room: Room)
    requires Legal(Start(max), steps) && AllPaired(steps) && AllTogether(steps)
    ensures var s := Run(Start(max), steps); Members(s.hub, room) != {} ==> room in s.hub.live
  {
    ReferenceCountsAreConserved(max, steps, room);
    SubscriptionsAgree(max, steps, room);
    var s := Run(Start(max), steps);
    if c :| c in Members(s.hub, room) { Holding(Members(s.hub, room), c); }
  }

  /**
   * In every interleaving: nobody is in a room of another tenant, of a board no
   * authorizer allowed them before they were inserted, or with half its address
   * missing; no connection holds more than its cap; one that has finished holds
   * nothing, and the hub lists exactly the others.
   */
  lemma MembershipIsAuthorized(max: nat, steps: seq<Step>, room: Room, c: ConnId)
    requires Legal(Start(max), steps)
    ensures var s := Run(Start(max), steps);
            && (c in Members(s.hub, room) ==>
                  c in s.clients && s.clients[c].tenant == room.tenant && (c, room.board) in s.allowed && Complete(room))
            && (c in s.clients ==> |s.clients[c].own| <= max)
            && (c in s.clients && s.clients[c].phase.Finished? ==> s.clients[c].own == {})
            && (c in s.hub.conns <==> c in s.clients && !s.clients[c].phase.Finished?)
  {
    StartHolds(max);
    RunKeepsSound(Start(max), steps);
  }

  /**
   * With the sweep's leave and its forgetting one step, a member knows the room it
   * is in, up to the insertion still to be remembered, so one that has finished
   * is in no room at all.
   */
  lemma MembersKnowTheirRooms(max: nat, steps: seq<Step>, room: Room, c: ConnId)
    requires Legal(Start(max), steps) && AllPaired(steps)
    ensures var s := Run(Start(max), steps);
            c in Members(s.hub, room) ==>
              && c in s.clients && !s.clients[c].phase.Finished?
              && (room in s.clients[c].own || s.clients[c].reader == Inserted(room))
  {
    StartHolds(max);
    RunKeepsSound(Start(max), steps);
    RunKeepsCoherent(Start(max), steps);
  }

  // -------------------------------------------------------------- when closing

  /** Everybody past the closing check at the end had passed it before, for the same room. */
  ghost predicate NobodyNew(s: State, t: State) {
    && (forall c :: c in t.clients && Admitted(t.clients[c].reader) ==>
          c in s.clients && Admitted(s.clients[c].reader) && s.clients[c].reader.room == t.clients[c].reader.room)
    && (forall room, c :: c in Members(t.hub, room) ==>
          || c in Members(s.hub, room)
          || (c in s.clients && Admitted(s.clients[c].reader) && s.clients[c].reader.room == room))
    && (forall c :: c in t.hub.conns ==> c in s.hub.conns)
  }

  lemma ClosingReader(s: State, step: Step, c: ConnId)
    requires s.hub.closing && Enabled(s, step) && c in Do(s, step).clients && Admitted(Do(s, step).clients[c].reader)
    ensures c in s.clients && Admitted(s.clients[c].reader) && s.clients[c].reader.room == Do(s, step).clients[c].reader.room
  {
    hide HubAfter, Members, Count, Complete;
  }

  lemma ClosingStep(s: State, step: Step)
    requires s.hub.closing && Enabled(s, step)
    ensures Do(s, step).hub.closing && NobodyNew(s, Do(s, step))
  {
    hide ClientAfter, Members;
    var t := Do(s, step);
    ConnsAfter(s, step);
    forall c | c in t.clients && Admitted(t.clients[c].reader)
      ensures c in s.clients && Admitted(s.clients[c].reader) && s.clients[c].reader.room == t.clients[c].reader.room
    {
      ClosingReader(s, step, c);
    }
    forall room, c | c in Members(t.hub, room)
      ensures c in Members(s.hub, room) || (c in s.clients && Admitted(s.clients[c].reader) && s.clients[c].reader.room == room)
    {
      MembersAfter(s, step, room);
      if step.Insert? && step.conn == c { assert Admitted(s.clients[c].reader) by { InsertingIsAdmitted(s, step); } }
    }
  }

  lemma InsertingIsAdmitted(s: State, step: Step)
    requires Enabled(s, step) && step.Insert?
    ensures Admitted(s.clients[step.conn].reader)
  {
  }

  lemma NobodyNewTwice(s: State, t: State, u: State)
    requires NobodyNew(s, t) && NobodyNew(t, u)
    ensures NobodyNew(s, u)
  {
    hide Members, Admitted;
  }

  lemma {:induction false} ClosingRun(s: State, steps: seq<Step>)
    requires s.hub.closing && Legal(s, steps)
    ensures Run(s, steps).hub.closing && NobodyNew(s, Run(s, steps))
    decreases |steps|
  {
    if steps != [] {
      ClosingStep(s, steps[0]);
      hide Do, Enabled, NobodyNew;
      ClosingRun(Do(s, steps[0]), steps[1..]);
      NobodyNewTwice(s, Do(s, steps[0]), Run(s, steps));
    }
  }

  /**
   * The hub can start closing at any point, and from then on it lets no join
   * through and registers nobody: whoever is joining or joined at any later point
   * had passed the check before.
   */
  lemma ClosingAdmitsNobody(s: State, steps: seq<Step>)
    requires Enabled(s, StartClosing) ==> Legal(Do(s, StartClosing), steps)
    ensures Enabled(s, StartClosing)
    ensures var t := Run(Do(s, StartClosing), steps); t.hub.closing && NobodyNew(s, t)
  {
    ClosingRun(Do(s, StartClosing), steps);
    hide Run, Legal;
  }

  /** While it serves, a client leaves rooms of its own tenant only: it names a board, and the room is made for it. */
  lemma UnsubscribesStayInTheTenant(s: State, c: ConnId, room: Room, forgetting: bool)
    requires Enabled(s, Remove(c, Pump, room, forgetting))
    ensures c in s.clients && (s.clients[c].phase == Serving ==> room.tenant == s.clients[c].tenant)
  {
  }

  // -------------------------------------------------------- what was authorized

  /** The boards an authorizer said yes to in a run, each to the connection that was asking for it. */
  function Yeses(s: State, steps: seq<Step>): set<(ConnId, Uuid)>
    requires Legal(s, steps)
    decreases |steps|
  {
    if steps == [] then {}
    else
      (if steps[0].Authorize? && steps[0].yes then {(steps[0].conn, s.clients[steps[0].conn].reader.room.board)} else {})
      + Yeses(Do(s, steps[0]), steps[1..])
  }

  lemma {:induction false} AllowedIsAYes(s: State, steps: seq<Step>)
    requires Legal(s, steps)
    ensures Run(s, steps).allowed == s.allowed + Yeses(s, steps)
    decreases |steps|
  {
    if steps != [] {
      hide HubAfter, ClientAfter;
      AllowedIsAYes(Do(s, steps[0]), steps[1..]);
    }
  }

  /** In every interleaving a member of a room was said yes to for its board, while it was asking for it. */
  lemma MembersWereSaidYesTo(max: nat, steps: seq<Step>, room: Room, c: ConnId)
    requires Legal(Start(max), steps) && c in Members(Run(Start(max), steps).hub, room)
    ensures (c, room.board) in Yeses(Start(max), steps)
  {
    MembershipIsAuthorized(max, steps, room, c);
    AllowedIsAYes(Start(max), steps);
  }

  // ------------------------------------------------------- what was begun ends

  function LeaverRank(leaver: Leaver): nat {
    match leaver
    case NotLeaving => 0
    case Forgetting(_) => 1
    case Unsubscribing(_, _) => 2
    case Removed(_, _) => 3
  }

  function ReaderRank(reader: Reader): nat {
    match reader
    case Idle => 0
    case Inserted(_) => 1
    case Counted(_) => 2
    case Cleared(_) => 3
    case Authorized(_) => 4
    case Authorizing(_) => 5
  }

  /** The steps a connection still has to take to be done with what it has begun. */
  function Begun(k: Client): nat {
    ReaderRank(k.reader) + LeaverRank(k.pump) + LeaverRank(k.sweep)
  }

  /** A step that carries on with a join or a leave. */
  predicate CarriesOn(step: Step) {
    step.Authorize? || step.CheckOpen? || step.CountIt? || step.Insert? || step.Remember?
    || step.Decrement? || step.Unsubscribe? || step.Forget?
  }

  lemma CarryingOnEnds(s: State, step: Step)
    requires Enabled(s, step) && CarriesOn(step)
    ensures Begun(Do(s, step).clients[step.conn]) < Begun(s.clients[step.conn])
    ensures forall c :: c != step.conn ==> (c in Do(s, step).clients <==> c in s.clients)
    ensures forall c :: c in s.clients && c != step.conn ==> Do(s, step).clients[c] == s.clients[c]
  {
    hide HubAfter, Members, Count, Complete;
  }

  /** Whatever a connection has begun, it can carry on with: a join or a leave is never stuck. */
  lemma NothingBegunIsStuck(s: State, c: ConnId)
    requires c in s.clients && Begun(s.clients[c]) > 0
    ensures exists step :: CarriesOn(step) && step.conn == c && Enabled(s, step)
  {
    var k := s.clients[c];
    if k.reader.Authorizing? { assert Enabled(s, Authorize(c, true)); }
    else if k.reader.Authorized? { assert Enabled(s, CheckOpen(c)); }
    else if k.reader.Cleared? { assert Enabled(s, CountIt(c, true)); }
    else if k.reader.Counted? { assert Enabled(s, Insert(c)); }
    else if k.reader.Inserted? { assert Enabled(s, Remember(c)); }
    else {
      var who := if k.pump.NotLeaving? then Sweep else Pump;
      assert !LeaverOf(k, who).NotLeaving?;
      assert Enabled(s, Decrement(c, who, true)) || Enabled(s, Unsubscribe(c, who)) || Enabled(s, Forget(c, who));
    }
  }
}
