/** From a publish on one instance to the connections it reaches on another. */
module Routing {
  import opened Wrappers
  import opened Rooms
  import opened Hub
  import opened HubRuns
  import RedisBroker

  /** Whom a message read from the shared transport is handed to on this instance. */
  function Reached<P>(s: State, received: RedisBroker.Received<P>): set<ConnId> {
    match RedisBroker.Forwarded(received)
    case Some(message) => Members(s.hub, message.room)
    case None => {}
  }

  /**
   * Routing across instances, in every interleaving: whatever was read on a room's channel, it reaches
   * only connections of that room's tenant, each authorized for that board before
   * it was inserted; and what was published to a room is what they are handed.
   */
  lemma ReachesOnlyItsRoom<P>(max: nat, steps: seq<Step>, received: RedisBroker.Received<P>, room: Room, c: ConnId)
    requires Legal(Start(max), steps)
    requires received.channel == Channel(room) && c in Reached(Run(Start(max), steps), received)
    ensures var s := Run(Start(max), steps);
            && c in s.clients && s.clients[c].tenant == room.tenant && (c, room.board) in s.allowed
            && (forall payload :: RedisBroker.Published(room, payload) == Some(received) ==>
                  RedisBroker.Forwarded(received) == Some(Message(room, payload)))
  {
    RedisBroker.RoutedToItsChannelOnly(received, room);
    MembershipIsAuthorized(max, steps, room, c);
    forall payload | RedisBroker.Published(room, payload) == Some(received)
      ensures RedisBroker.Forwarded(received) == Some(Message(room, payload))
    {
      RedisBroker.PublishedArrives(room, payload);
    }
  }

  /** A publish reaches every connection in the room, here as everywhere. */
  lemma PublishReachesTheRoom<P>(s: State, room: Room, payload: P)
    ensures match RedisBroker.Published(room, payload)
            case Some(received) => received.channel == Channel(room) && Reached(s, received) == Members(s.hub, room)
            case None => !Complete(room)
  {
    RedisBroker.PublishedArrives(room, payload);
  }
}
