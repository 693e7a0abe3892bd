/**
 * One process's registry of connections: who is in which room, how often each
 * room is wanted, and what the transport has been told. Each function is one
 * section under one of the hub's two locks.
 */
module Hub {
  import opened Wrappers
  import opened Rooms

  type ConnId = nat

  datatype Error = HubClosed | SubscribeFailed | IncompleteRoom

  datatype Registry = Registry(
    rooms: map<Room, set<ConnId>>,
    conns: set<ConnId>,
    closing: bool,
    subs: map<Room, int>,
    live: set<Room>)          // what the transport is subscribed to

  const NewRegistry: Registry := Registry(map[], {}, false, map[], {})

  function Members(h: Registry, room: Room): set<ConnId> {
    if room in h.rooms then h.rooms[room] else {}
  }

  function Count(h: Registry, room: Room): int {
    if room in h.subs then h.subs[room] else 0
  }

  /** The section of `join` under the subscription lock: subscribe on the first, count on all. */
  function Counting(h: Registry, room: Room, subscribed: bool): Registry {
    if Count(h, room) == 0 then
      if subscribed then h.(subs := h.subs[room := 1], live := h.live + {room}) else h
    else h.(subs := h.subs[room := Count(h, room) + 1])
  }

  function Inserting(h: Registry, room: Room, conn: ConnId): Registry {
    h.(rooms := h.rooms[room := Members(h, room) + {conn}])
  }

  function Removing(h: Registry, room: Room, conn: ConnId): Registry {
    if conn !in Members(h, room) then h
    else if Members(h, room) == {conn} then h.(rooms := h.rooms - {room})
    else h.(rooms := h.rooms[room := Members(h, room) - {conn}])
  }

  predicate Last(h: Registry, room: Room) {
    Count(h, room) - 1 <= 0
  }

  function Decrementing(h: Registry, room: Room): Registry {
    if Last(h, room) then h.(subs := h.subs - {room}) else h.(subs := h.subs[room := Count(h, room) - 1])
  }

  function Releasing(h: Registry, room: Room): Registry {
    h.(live := h.live - {room})
  }

  /** A whole `join` with nothing in between. */
  function Joined(h: Registry, room: Room, conn: ConnId): Registry {
    Inserting(Counting(h, room, true), room, conn)
  }

  /** A whole `leave` with nothing in between. */
  function Left(h: Registry, room: Room, conn: ConnId): Registry {
    if conn !in Members(h, room) then h
    else
      var removed := Removing(h, room, conn);
      var decremented := Decrementing(removed, room);
      if Last(removed, room) then Releasing(decremented, room) else decremented
  }

  function LeftAll(h: Registry, rooms: seq<Room>, conn: ConnId): Registry {
    if rooms == [] then h else Left(LeftAll(h, rooms[..|rooms| - 1], conn), rooms[|rooms| - 1], conn)
  }

  /** Between calls: counts are member counts, and what is counted is what is subscribed. */
  ghost predicate Settled(h: Registry) {
    && (forall room :: room in h.rooms ==> h.rooms[room] != {})
    && (forall room :: Count(h, room) == |Members(h, room)|)
    && (forall room :: room in h.subs ==> h.subs[room] > 0)
    && (forall room :: room in h.live <==> room in h.subs)
  }

  lemma JoinKeepsSettled(h: Registry, room: Room, conn: ConnId)
    requires Settled(h) && conn !in Members(h, room)
    ensures Settled(Joined(h, room, conn))
    ensures forall r :: Members(Joined(h, room, conn), r) == if r == room then Members(h, r) + {conn} else Members(h, r)
  {
    var j := Joined(h, room, conn);
    assert Members(j, room) == Members(h, room) + {conn};
    assert forall r :: r != room ==> Members(j, r) == Members(h, r) && Count(j, r) == Count(h, r);
    assert Count(j, room) == Count(h, room) + 1;
  }

  lemma RemovingUndoesInserting(h: Registry, room: Room, conn: ConnId)
    requires conn !in Members(h, room) && (room in h.rooms ==> h.rooms[room] != {})
    ensures Removing(Inserting(h, room, conn), room, conn) == h
  {
    assert Members(h, room) + {conn} - {conn} == Members(h, room);
    assert Removing(Inserting(h, room, conn), room, conn).rooms == h.rooms;
  }

  /** Joining and then leaving undoes everything. */
  lemma JoinThenLeave(h: Registry, room: Room, conn: ConnId)
    requires Settled(h) && conn !in Members(h, room)
    ensures Left(Joined(h, room, conn), room, conn) == h
  {
    var c := Counting(h, room, true);
    RemovingUndoesInserting(c, room, conn);
    assert conn in Members(Joined(h, room, conn), room);
    SettledAt(h, room);
    hide Settled, Removing, Inserting;
    assert Decrementing(c, room).subs == h.subs;
  }

  lemma SettledAt(h: Registry, room: Room)
    requires Settled(h)
    ensures Count(h, room) == |Members(h, room)| && (room in h.subs <==> Count(h, room) > 0) && (room in h.live <==> room in h.subs)
  {
  }

  lemma LeaveKeepsSettled(h: Registry, room: Room, conn: ConnId)
    requires Settled(h)
    ensures Settled(Left(h, room, conn))
    ensures forall r :: Members(Left(h, room, conn), r) == if r == room then Members(h, r) - {conn} else Members(h, r)
  {
    var l := Left(h, room, conn);
    assert forall r :: r != room ==> Members(l, r) == Members(h, r) && Count(l, r) == Count(h, r);
    assert Members(l, room) == Members(h, room) - {conn};
  }

  class Hub {
    var rooms: map<Room, set<ConnId>>
    var conns: set<ConnId>
    var closing: bool
    var subs: map<Room, int>
    var live: set<Room>

    function Value(): Registry
      reads this
    {
      Registry(rooms, conns, closing, subs, live)
    }

    constructor ()
      ensures Value() == NewRegistry
    {
      rooms, conns, closing, subs, live := map[], {}, false, map[], {};
    }

    method Register(conn: ConnId) returns (r: Result<(), Error>)
      modifies this`conns
      ensures r == if closing then Failure(HubClosed) else Success(())
      ensures conns == if closing then old(conns) else old(conns) + {conn}
    {
      if closing { return Failure(HubClosed); }
      conns := conns + {conn};
      return Success(());
    }

    /** The first lock of `join`. `reached` is what the transport answers when asked. */
    method CountJoin(room: Room, reached: bool) returns (ok: bool)
      modifies this`subs, this`live
      ensures Value() == Counting(old(Value()), room, reached)
      ensures ok == (old(Count(Value(), room)) != 0 || reached)
    {
      var wanted := if room in subs then subs[room] else 0;
      if wanted == 0 {
        if !reached { return false; }
        live := live + {room};
      }
      subs := subs[room := wanted + 1];
      return true;
    }

    method InsertMember(room: Room, conn: ConnId)
      modifies this`rooms
      ensures Value() == Inserting(old(Value()), room, conn)
    {
      if room !in rooms { rooms := rooms[room := {}]; }
      rooms := rooms[room := rooms[room] + {conn}];
    }

    method Join(room: Room, conn: ConnId, reached: bool) returns (r: Result<(), Error>)
      modifies this
      ensures r.Success? <==> Complete(room) && !old(closing) && (old(Count(Value(), room)) != 0 || reached)
      ensures Value() == if r.Success? then Joined(old(Value()), room, conn) else old(Value())
    {
      if !Complete(room) { return Failure(IncompleteRoom); }
      if closing { return Failure(HubClosed); }
      var ok := CountJoin(room, reached);
      if !ok { return Failure(SubscribeFailed); }
      InsertMember(room, conn);
      return Success(());
    }

    method RemoveMember(room: Room, conn: ConnId) returns (member: bool)
      modifies this`rooms
      ensures member == (conn in old(Members(Value(), room)))
      ensures Value() == Removing(old(Value()), room, conn)
    {
      if room !in rooms { return false; }
      var members := rooms[room];
      if conn !in members { return false; }
      members := members - {conn};
      if |members| == 0 {
        assert rooms[room] == {conn} + members;
        rooms := rooms - {room};
      } else {
        rooms := rooms[room := members];
      }
      return true;
    }

    method Decrement(room: Room) returns (last: bool)
      modifies this`subs
      ensures last == old(Last(Value(), room))
      ensures Value() == Decrementing(old(Value()), room)
    {
      var left := (if room in subs then subs[room] else 0) - 1;
      last := left <= 0;
      subs := if last then subs - {room} else subs[room := left];
    }

    method Leave(room: Room, conn: ConnId)
      modifies this
      ensures Value() == Left(old(Value()), room, conn)
    {
      var member := RemoveMember(room, conn);
      if !member { return; }
      var last := Decrement(room);
      if !last { return; }
      live := live - {room};
    }

    /** The cleanup of a connection that ended: it leaves every room it holds. */
    method Remove(held: seq<Room>, conn: ConnId)
      modifies this
      ensures Value() == LeftAll(old(Value()), held, conn).(conns := old(conns) - {conn})
    {
      for i := 0 to |held|
        invariant Value() == LeftAll(old(Value()), held[..i], conn) && conns == old(conns)
      {
        Leave(held[i], conn);
        assert held[..i + 1][..i] == held[..i];
      }
      assert held[..|held|] == held;
      conns := conns - {conn};
    }
  }

  /** After the cleanup the connection is in none of the rooms it held, nobody else moved, and counts still match. */
  lemma {:induction false} RemoveForgets(h: Registry, held: seq<Room>, conn: ConnId)
    requires Settled(h)
    ensures var after := LeftAll(h, held, conn);
            && Settled(after) && after.conns == h.conns && after.closing == h.closing
            && (forall room :: Members(after, room) == if room in held then Members(h, room) - {conn} else Members(h, room))
  {
    hide Settled, Left;
    if held != [] {
      var last := |held| - 1;
      RemoveForgets(h, held[..last], conn);
      LeaveKeepsSettled(LeftAll(h, held[..last], conn), held[last], conn);
      LeaveKeepsRest(LeftAll(h, held[..last], conn), held[last], conn);
      assert forall room :: room in held <==> room in held[..last] || room == held[last];
    }
  }

  lemma LeaveKeepsRest(h: Registry, room: Room, conn: ConnId)
    ensures Left(h, room, conn).conns == h.conns && Left(h, room, conn).closing == h.closing
  {
  }
}
