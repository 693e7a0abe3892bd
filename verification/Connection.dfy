/**
 * One client's connection as the hub sees it: a bounded queue nothing blocks on,
 * a close whose first reason stands, and the fan-out of one message to a room.
 */
module Connection {
  import opened Wrappers

  datatype Status =
    | Normal
    | GoingAway
    | UnsupportedData
    | InternalError
    | TokenExpired
    | SlowConsumer
    | MembershipRevoked

  /** What a connection holds: frames not yet written, and why it closed, if it did. */
  datatype Value<P> = Value(queue: seq<P>, closed: Option<Status>)

  function Closed<P>(v: Value<P>, status: Status): Value<P> {
    if v.closed.Some? then v else v.(closed := Some(status))
  }

  /** A queueing attempt that is not raced by a close. */
  function Tried<P>(v: Value<P>, capacity: nat, payload: P): (Value<P>, bool) {
    if v.closed.Some? then (v, true)
    else if |v.queue| < capacity then (v.(queue := v.queue + [payload]), true)
    else (v, false)
  }

  /** A frame that must arrive or end the connection: an event, an acknowledgement, a warning. */
  function Sent<P>(v: Value<P>, capacity: nat, payload: P): Value<P> {
    var (after, ok) := Tried(v, capacity, payload);
    if ok then after else Closed(after, SlowConsumer)
  }

  /** What a drain does to one connection. */
  function Drained<P>(v: Value<P>, capacity: nat, warning: P): Value<P> {
    Closed(Sent(v, capacity, warning), GoingAway)
  }

  /**
   * An open connection either takes the frame or is closed for being slow, never
   * neither; a closed one keeps its reason and its queue. The queue stays bounded.
   */
  lemma SentOrClosed<P>(v: Value<P>, capacity: nat, payload: P)
    requires |v.queue| <= capacity
    ensures var w := Sent(v, capacity, payload);
            && |w.queue| <= capacity
            && (v.closed.Some? ==> w == v)
            && (v.closed.None? ==> (w.queue == v.queue + [payload] <==> w.closed.None?))
            && (w.queue != v.queue + [payload] ==> w.queue == v.queue && w.closed == (if v.closed.Some? then v.closed else Some(SlowConsumer)))
  {
  }

  /** A queueing attempt is refused exactly by an open connection whose buffer is full; a closed one swallows the frame. */
  lemma RefusedExactly<P>(v: Value<P>, capacity: nat, payload: P)
    ensures var (after, taken) := Tried(v, capacity, payload);
            && (!taken <==> v.closed.None? && |v.queue| >= capacity)
            && (v.closed.None? && |v.queue| < capacity ==> after == Value(v.queue + [payload], None))
            && (v.closed.Some? || |v.queue| >= capacity ==> after == v)
  {
  }

  /** A drain closes every connection, and never renames a reason already given. */
  lemma DrainKeepsTheFirstReason<P>(v: Value<P>, capacity: nat, warning: P)
    ensures var w := Drained(v, capacity, warning);
            && w.closed.Some?
            && (v.closed.Some? ==> w == v)
            && (v.closed.None? && |v.queue| < capacity ==> w.queue == v.queue + [warning] && w.closed == Some(GoingAway))
            && (v.closed.None? && |v.queue| >= capacity ==> w.queue == v.queue && w.closed == Some(SlowConsumer))
  {
  }

  class Conn<P> {
    const capacity: nat
    var queue: seq<P>
    var closed: bool
    var status: Status

    function Now(): Value<P>
      reads this
    {
      Value(queue, if closed then Some(status) else None)
    }

    constructor (capacity: nat)
      ensures this.capacity == capacity && Now() == Value([], None) && status == Normal
    {
      this.capacity := capacity;
      queue, closed, status := [], false, Normal;
    }

    /** The first caller wins. */
    method Close(status: Status)
      modifies this`closed, this`status
      ensures Now() == Closed(old(Now()), status)
    {
      if closed { return; }
      this.status := status;
      closed := true;
    }

    method TrySend(payload: P) returns (ok: bool)
      modifies this`queue
      ensures (Now(), ok) == Tried(old(Now()), capacity, payload)
    {
      if closed { return true; }
      if |queue| < capacity {
        queue := queue + [payload];
        return true;
      }
      return false;
    }

    method SendFrame(payload: P)
      modifies this
      ensures Now() == Sent(old(Now()), capacity, payload)
    {
      var ok := TrySend(payload);
      if !ok { Close(SlowConsumer); }
    }

    /** The write pump takes the oldest frame. */
    method Take() returns (payload: P)
      requires queue != []
      modifies this`queue
      ensures [payload] + queue == old(queue)
    {
      payload := queue[0];
      queue := queue[1..];
    }
  }

  /** Fan-out under the read lock, then the slow ones are closed after it is released. */
  method Deliver<P>(members: set<Conn<P>>, payload: P)
    modifies members
    ensures forall c :: c in members ==> c.Now() == Sent(old(c.Now()), c.capacity, payload)
  {
    var todo := members;
    var slow: set<Conn<P>> := {};
    while todo != {}
      invariant todo <= members && slow <= members - todo
      invariant forall c :: c in todo ==> c.Now() == old(c.Now())
      invariant forall c :: c in members - todo ==> c.Now() == Tried(old(c.Now()), c.capacity, payload).0
      invariant forall c :: c in members - todo ==> (c in slow <==> !Tried(old(c.Now()), c.capacity, payload).1)
      decreases |todo|
    {
      var conn :| conn in todo;
      var ok := conn.TrySend(payload);
      if !ok { slow := slow + {conn}; }
      todo := todo - {conn};
    }
    CloseAll(slow, SlowConsumer);
  }

  method CloseAll<P>(conns: set<Conn<P>>, status: Status)
    modifies conns
    ensures forall c :: c in conns ==> c.Now() == Closed(old(c.Now()), status)
  {
    var todo := conns;
    while todo != {}
      invariant todo <= conns
      invariant forall c :: c in todo ==> c.Now() == old(c.Now())
      invariant forall c :: c in conns - todo ==> c.Now() == Closed(old(c.Now()), status)
      decreases |todo|
    {
      var conn :| conn in todo;
      conn.Close(status);
      todo := todo - {conn};
    }
  }

  /** The two passes of a drain over the connections it found. */
  method DrainAll<P>(live: set<Conn<P>>, warning: P)
    modifies live
    ensures forall c :: c in live ==> c.Now() == Drained(old(c.Now()), c.capacity, warning)
  {
    var todo := live;
    while todo != {}
      invariant todo <= live
      invariant forall c :: c in todo ==> c.Now() == old(c.Now())
      invariant forall c :: c in live - todo ==> c.Now() == Sent(old(c.Now()), c.capacity, warning)
      decreases |todo|
    {
      var conn :| conn in todo;
      conn.SendFrame(warning);
      todo := todo - {conn};
    }
    CloseAll(live, GoingAway);
  }
}
