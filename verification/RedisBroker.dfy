/**
 * The shared transport: which received messages reach the hub, and the waiters
 * that hold a subscribe call until its confirmation has been read.
 */
module RedisBroker {
  import opened Wrappers
  import opened Rooms

  // ------------------------------------------------------------------ routing

  datatype Envelope<Payload> = Envelope(tenant: Uuid, board: Uuid, payload: Payload)

  /** What arrives on a channel; `None` is a body that does not decode. */
  datatype Received<Payload> = Received(channel: string, body: Option<Envelope<Payload>>)

  function EnvelopeRoom<P>(e: Envelope<P>): Room {
    Room(e.tenant, e.board)
  }

  /** What `Publish` puts on the wire, or its refusal of an incomplete room. */
  function Published<P>(room: Room, payload: P): Option<Received<P>> {
    if Complete(room) then Some(Received(Channel(room), Some(Envelope(room.tenant, room.board, payload)))) else None
  }

  /** What the reader forwards to the hub. */
  function Forwarded<P>(received: Received<P>): Option<Message<P>> {
    if received.body.None? then None
    else
      var room := EnvelopeRoom(received.body.value);
      if !Complete(room) || Channel(room) != received.channel then None
      else Some(Message(room, received.body.value.payload))
  }

  /** A published message arrives carrying exactly the room and payload it was published with. */
  lemma PublishedArrives<P>(room: Room, payload: P)
    ensures match Published(room, payload)
            case Some(received) => Forwarded(received) == Some(Message(room, payload)) && Complete(room)
            case None => !Complete(room)
  {
  }

  /**
   * Whatever is on the wire, a message is dispatched only to the one complete
   * room whose channel it arrived on; a mismatched envelope reaches nobody.
   */
  lemma RoutedToItsChannelOnly<P>(received: Received<P>, room: Room)
    requires received.channel == Channel(room)
    ensures match Forwarded(received)
            case Some(message) => message.room == room && Complete(room) && EnvelopeRoom(received.body.value) == room
            case None => received.body.None? || EnvelopeRoom(received.body.value) != room || !Complete(room)
  {
    if received.body.Some? {
      ChannelInjective(EnvelopeRoom(received.body.value), room);
    }
  }

  // ------------------------------------------------------------------ waiters

  function Dropped<T(==)>(s: seq<T>, x: T): (r: seq<T>)
    ensures (forall y :: y in r ==> y in s && y != x) && (forall y :: y in s && y != x ==> y in r)
    ensures |r| <= |s|
    ensures x !in s ==> r == s
  {
    if s == [] then [] else Dropped(s[..|s| - 1], x) + if s[|s| - 1] == x then [] else [s[|s| - 1]]
  }

  ghost predicate Unique<T>(s: seq<T>) {
    forall i, j :: 0 <= i < j < |s| ==> s[i] != s[j]
  }

  lemma {:induction false} DroppedUnique<T>(s: seq<T>, x: T)
    requires Unique(s)
    ensures Unique(Dropped(s, x))
  {
    if s != [] {
      var last := |s| - 1;
      DroppedUnique(s[..last], x);
      forall i | 0 <= i < last ensures s[i] != s[last] {}
      AppendUnique(Dropped(s[..last], x), s[last]);
    }
  }

  lemma AppendUnique<T>(s: seq<T>, x: T)
    requires Unique(s) && x !in s
    ensures Unique(s + [x])
  {
    forall i, j | 0 <= i < j < |s + [x]| ensures (s + [x])[i] != (s + [x])[j] {
      assert (s + [x])[i] == s[i] && s[i] in s;
    }
  }

  /** A channel of no values: closing it is the signal, closing it twice is a crash. */
  class Signal {
    var closed: bool

    constructor ()
      ensures !closed
    {
      closed := false;
    }

    method Close()
      requires !closed
      modifies this
      ensures closed
    {
      closed := true;
    }
  }

  class Waiters {
    var waiters: map<string, seq<Signal>>

    /** Every registered waiter is open and registered once, and no list is empty. */
    ghost predicate Valid()
      reads this, set c, w | c in waiters && w in waiters[c] :: w
    {
      && (forall c :: c in waiters ==> waiters[c] != [] && Unique(waiters[c]))
      && (forall c, w :: c in waiters && w in waiters[c] ==> !w.closed)
      && (forall c, d, w :: c in waiters && d in waiters && w in waiters[c] && w in waiters[d] ==> c == d)
    }

    function At(channel: string): seq<Signal>
      reads this
    {
      if channel in waiters then waiters[channel] else []
    }

    constructor ()
      ensures Valid() && waiters == map[]
    {
      waiters := map[];
    }

    method AddWaiter(channel: string) returns (waiter: Signal)
      requires Valid()
      modifies this
      ensures Valid() && fresh(waiter) && !waiter.closed
      ensures waiters == old(waiters)[channel := old(At(channel)) + [waiter]]
    {
      waiter := new Signal();
      assert forall c, w :: c in waiters && w in waiters[c] ==> w != waiter;
      waiters := waiters[channel := At(channel) + [waiter]];
    }

    /** Drops a waiter nobody waits on any more, and only that one. */
    method RemoveWaiter(channel: string, waiter: Signal)
      requires Valid()
      modifies this
      ensures Valid()
      ensures waiters == if Dropped(old(At(channel)), waiter) == [] then old(waiters) - {channel}
                         else old(waiters)[channel := Dropped(old(At(channel)), waiter)]
    {
      var candidates := At(channel);
      var remaining: seq<Signal> := [];
      for i := 0 to |candidates|
        invariant remaining == Dropped(candidates[..i], waiter)
      {
        assert candidates[..i + 1][..i] == candidates[..i];
        if candidates[i] != waiter { remaining := remaining + [candidates[i]]; }
      }
      assert candidates[..|candidates|] == candidates;
      DroppedUnique(candidates, waiter);
      if remaining == [] {
        waiters := waiters - {channel};
        return;
      }
      waiters := waiters[channel := remaining];
    }

    /** A confirmation was read: everybody waiting on the channel is woken, each once. */
    method HandleSubscription(kind: string, channel: string)
      requires Valid()
      modifies this, At(channel)
      ensures Valid()
      ensures kind != "subscribe" ==> waiters == old(waiters) && forall w :: w in old(At(channel)) ==> !w.closed
      ensures kind == "subscribe" ==> waiters == old(waiters) - {channel} && forall w :: w in old(At(channel)) ==> w.closed
    {
      if kind != "subscribe" { return; }
      var woken := At(channel);
      ghost var others := set c, w | c in waiters && c != channel && w in waiters[c] :: w;
      waiters := waiters - {channel};
      for i := 0 to |woken|
        invariant waiters == old(waiters) - {channel}
        invariant forall k :: 0 <= k < i ==> woken[k].closed
        invariant forall k :: i <= k < |woken| ==> !woken[k].closed
        invariant forall w :: w in others ==> !w.closed
      {
        woken[i].Close();
      }
    }
  }

  // ------------------------------------------------- interleaved subscriptions

  datatype Outcome = Confirmed | Failed | Cancelled | BrokerClosed

  /** One Subscribe call. Its waiter is named by its place in `calls`. */
  datatype Phase = Registered | Asked | Leaving(outcome: Outcome) | Returned(outcome: Outcome)

  datatype Call = Call(channel: string, registeredAt: nat, phase: Phase)

  datatype State = State(
    calls: seq<Call>,
    waiters: map<string, seq<nat>>,
    woken: seq<nat>,              // taken out of the map by the reader, still to be closed
    closed: set<nat>,
    confirmations: seq<string>,   // every confirmation the reader has read
    done: bool,
    crashed: bool)

  const Start: State := State([], map[], [], {}, [], false, false)

  datatype Step =
    | Register(channel: string)
    | Ask(call: nat, sent: bool)
    | Confirm(channel: string)      // the reader takes the channel's waiters
    | Wake                          // the reader closes the next one
    | SeeSignal(call: nat)
    | SeeCancel(call: nat)
    | SeeClosed(call: nat)
    | Remove(call: nat)
    | CloseBroker

  function WaitersOf(s: State, channel: string): seq<nat> {
    if channel in s.waiters then s.waiters[channel] else []
  }

  predicate Enabled(s: State, step: Step) {
    match step
    case Register(_) => true
    case Ask(c, _) => c < |s.calls| && s.calls[c].phase.Registered?
    case Confirm(_) => s.woken == []
    case Wake => s.woken != []
    case SeeSignal(c) => c < |s.calls| && s.calls[c].phase.Asked? && c in s.closed
    case SeeCancel(c) => c < |s.calls| && s.calls[c].phase.Asked?
    case SeeClosed(c) => c < |s.calls| && s.calls[c].phase.Asked? && s.done
    case Remove(c) => c < |s.calls| && s.calls[c].phase.Leaving?
    case CloseBroker => true
  }

  function Advance(s: State, c: nat, phase: Phase): State
    requires c < |s.calls|
  {
    s.(calls := s.calls[c := s.calls[c].(phase := phase)])
  }

  function Do(s: State, step: Step): State
    requires Enabled(s, step)
  {
    match step
    case Register(channel) =>
      s.(calls := s.calls + [Call(channel, |s.confirmations|, Registered)],
         waiters := s.waiters[channel := WaitersOf(s, channel) + [|s.calls|]])
    case Ask(c, sent) => Advance(s, c, if sent then Asked else Leaving(Failed))
    case Confirm(channel) =>
      s.(woken := WaitersOf(s, channel), waiters := s.waiters - {channel}, confirmations := s.confirmations + [channel])
    case Wake => s.(woken := s.woken[1..], closed := s.closed + {s.woken[0]}, crashed := s.crashed || s.woken[0] in s.closed)
    case SeeSignal(c) => Advance(s, c, Leaving(Confirmed))
    case SeeCancel(c) => Advance(s, c, Leaving(Cancelled))
    case SeeClosed(c) => Advance(s, c, Leaving(BrokerClosed))
    case Remove(c) =>
      var left := Dropped(WaitersOf(s, s.calls[c].channel), c);
      Advance(s, c, Returned(s.calls[c].phase.outcome)).(
        waiters := if left == [] then s.waiters - {s.calls[c].channel} else s.waiters[s.calls[c].channel := left])
    case CloseBroker => s.(done := true)
  }

  predicate ConfirmedSince(s: State, c: nat)
    requires c < |s.calls|
  {
    exists k :: s.calls[c].registeredAt <= k < |s.confirmations| && s.confirmations[k] == s.calls[c].channel
  }

  /** Each waiter is in the map, with the reader or closed, and in only one of the three. */
  ghost predicate Placed(s: State) {
    && (forall c, w {:trigger w in WaitersOf(s, c)} :: w in WaitersOf(s, c) ==>
          w < |s.calls| && s.calls[w].channel == c && w !in s.woken && w !in s.closed && !s.calls[w].phase.Returned?)
    && (forall c :: c in s.waiters ==> s.waiters[c] != [])
    && (forall c :: Unique(WaitersOf(s, c)))
    && Unique(s.woken)
    && (forall w :: w in s.woken ==> w < |s.calls| && w !in s.closed)
    && (forall w :: w in s.closed ==> w < |s.calls|)
  }

  ghost predicate Told(s: State) {
    && (forall w :: (w in s.woken || w in s.closed) && w < |s.calls| ==> ConfirmedSince(s, w))
    && (forall c :: 0 <= c < |s.calls| ==>
          && (s.calls[c].phase.Leaving? && s.calls[c].phase.outcome.Confirmed? ==> c in s.closed)
          && (s.calls[c].phase.Returned? && s.calls[c].phase.outcome.Confirmed? ==> c in s.closed)
          && s.calls[c].registeredAt <= |s.confirmations|)
  }

  /** A call that has not left is still going to be woken. */
  ghost predicate Wakeable(s: State) {
    forall c :: 0 <= c < |s.calls| && (s.calls[c].phase.Registered? || s.calls[c].phase.Asked?) ==>
      c in s.closed || c in s.woken || c in WaitersOf(s, s.calls[c].channel)
  }

  ghost predicate Inv(s: State) {
    Placed(s) && Told(s) && Wakeable(s) && !s.crashed
  }

  lemma PlacedKept(s: State, step: Step)
    requires Placed(s) && Enabled(s, step)
    ensures Placed(Do(s, step))
  {
    match step
    case Register(channel) => RegisterPlaced(s, channel);
    case Confirm(channel) =>
      assert forall d :: WaitersOf(Do(s, step), d) == if d == channel then [] else WaitersOf(s, d);
    case Wake => WakePlaced(s);
    case Remove(c) => RemovePlaced(s, c);
    case Ask(c, _) => assert forall d :: WaitersOf(Do(s, step), d) == WaitersOf(s, d);
    case SeeSignal(c) => assert forall d :: WaitersOf(Do(s, step), d) == WaitersOf(s, d);
    case SeeCancel(c) => assert forall d :: WaitersOf(Do(s, step), d) == WaitersOf(s, d);
    case SeeClosed(c) => assert forall d :: WaitersOf(Do(s, step), d) == WaitersOf(s, d);
    case CloseBroker => assert forall d :: WaitersOf(Do(s, step), d) == WaitersOf(s, d);
  }

  lemma RegisterPlaced(s: State, channel: string)
    requires Placed(s)
    ensures Placed(Do(s, Register(channel)))
  {
    var t := Do(s, Register(channel));
    assert forall d :: WaitersOf(t, d) == WaitersOf(s, d) + if d == channel then [|s.calls|] else [];
    forall c, w | w in WaitersOf(t, c)
      ensures w < |t.calls| && t.calls[w].channel == c && w !in t.woken && w !in t.closed && !t.calls[w].phase.Returned?
    {
      if w != |s.calls| { assert w in WaitersOf(s, c); }
    }
    forall d ensures Unique(WaitersOf(t, d)) {
      assert Unique(WaitersOf(s, d));
      AppendUnique(WaitersOf(s, d), |s.calls|);
    }
  }

  lemma WakePlaced(s: State)
    requires Placed(s) && s.woken != []
    ensures Placed(Do(s, Wake))
  {
    var t := Do(s, Wake);
    assert forall c :: WaitersOf(t, c) == WaitersOf(s, c);
    assert s.woken[0] in s.woken;
    forall w | w in t.woken ensures w in s.woken && w != s.woken[0] {
      var i :| 0 <= i < |t.woken| && t.woken[i] == w;
      assert s.woken[i + 1] == w;
    }
    forall i, j | 0 <= i < j < |t.woken| ensures t.woken[i] != t.woken[j] {
      assert s.woken[i + 1] != s.woken[j + 1];
    }
  }

  lemma RemovePlaced(s: State, c: nat)
    requires Placed(s) && Enabled(s, Remove(c))
    ensures Placed(Do(s, Remove(c)))
  {
    var t := Do(s, Remove(c));
    var channel := s.calls[c].channel;
    DroppedUnique(WaitersOf(s, channel), c);
    assert forall d :: WaitersOf(t, d) == if d == channel then Dropped(WaitersOf(s, channel), c) else WaitersOf(s, d);
    forall d, w | w in WaitersOf(t, d)
      ensures w < |t.calls| && t.calls[w].channel == d && w !in t.woken && w !in t.closed && !t.calls[w].phase.Returned?
    {
      assert w in WaitersOf(s, d) && w != c;
    }
  }

  lemma ToldKept(s: State, step: Step)
    requires Placed(s) && Told(s) && Enabled(s, step)
    ensures Told(Do(s, step))
  {
    var t := Do(s, step);
    forall w | (w in t.woken || w in t.closed) && w < |t.calls| ensures ConfirmedSince(t, w) {
      if w in s.woken || w in s.closed {
        var k :| s.calls[w].registeredAt <= k < |s.confirmations| && s.confirmations[k] == s.calls[w].channel;
        assert t.confirmations[k] == t.calls[w].channel;
      } else {
        assert t.confirmations[|s.confirmations|] == t.calls[w].channel;
      }
    }
  }

  lemma WakeableKept(s: State, step: Step)
    requires Placed(s) && Wakeable(s) && Enabled(s, step)
    ensures Wakeable(Do(s, step))
  {
    if step.Wake? {
      assert s.woken == [s.woken[0]] + s.woken[1..];
    }
  }

  lemma StepKeepsInv(s: State, step: Step)
    requires Inv(s) && Enabled(s, step)
    ensures Inv(Do(s, step))
  {
    hide Told, Wakeable;
    PlacedKept(s, step);
    ToldKept(s, step);
    WakeableKept(s, step);
  }

  predicate Legal(s: State, steps: seq<Step>)
    decreases |steps|
  {
    steps == [] || (Enabled(s, steps[0]) && Legal(Do(s, steps[0]), steps[1..]))
  }

  function Run(s: State, steps: seq<Step>): State
    requires Legal(s, steps)
    decreases |steps|
  {
    if steps == [] then s else Run(Do(s, steps[0]), steps[1..])
  }

  lemma {:induction false} RunKeepsInv(s: State, steps: seq<Step>)
    requires Inv(s) && Legal(s, steps)
    ensures Inv(Run(s, steps))
    decreases |steps|
  {
    hide Inv, Do;
    if steps != [] {
      StepKeepsInv(s, steps[0]);
      RunKeepsInv(Do(s, steps[0]), steps[1..]);
    }
  }

  /**
   * In every interleaving of subscribe calls with the reader: no waiter is closed
   * twice, a call that succeeds has had its channel confirmed after it registered,
   * a call still waiting will be woken by the next confirmation of its channel,
   * and a call that has returned has left nothing in the map.
   */
  lemma SubscribeWaitsForItsConfirmation(steps: seq<Step>)
    requires Legal(Start, steps)
    ensures var s := Run(Start, steps);
            && !s.crashed
            && (forall c :: 0 <= c < |s.calls| && s.calls[c].phase == Returned(Confirmed) ==> ConfirmedSince(s, c))
            && (forall c :: 0 <= c < |s.calls| && s.calls[c].phase.Asked? ==>
                  c in s.closed || c in s.woken || c in WaitersOf(s, s.calls[c].channel))
            && (forall c, w {:trigger w in WaitersOf(s, c)} :: w in WaitersOf(s, c) ==> w < |s.calls| && !s.calls[w].phase.Returned?)
  {
    RunKeepsInv(Start, steps);
    hide Do, ConfirmedSince;
    assert Placed(Run(Start, steps));
  }

  // ---------------------------------------------------------- what has happened

  function RegisteredIn(steps: seq<Step>): seq<string> {
    if steps == [] then []
    else RegisteredIn(steps[..|steps| - 1]) + if steps[|steps| - 1].Register? then [steps[|steps| - 1].channel] else []
  }

  function ConfirmedIn(steps: seq<Step>): seq<string> {
    if steps == [] then []
    else ConfirmedIn(steps[..|steps| - 1]) + if steps[|steps| - 1].Confirm? then [steps[|steps| - 1].channel] else []
  }

  /** What a call's select came to, or that asking failed. */
  function OutcomeOf(step: Step, c: nat): Option<Outcome> {
    if step == Ask(c, false) then Some(Failed)
    else if step == SeeSignal(c) then Some(Confirmed)
    else if step == SeeCancel(c) then Some(Cancelled)
    else if step == SeeClosed(c) then Some(BrokerClosed)
    else None
  }

  function OutcomeIn(steps: seq<Step>, c: nat): Option<Outcome> {
    if steps == [] then None
    else if OutcomeIn(steps[..|steps| - 1], c).Some? then OutcomeIn(steps[..|steps| - 1], c)
    else OutcomeOf(steps[|steps| - 1], c)
  }

  predicate AskedIn(steps: seq<Step>, c: nat) {
    Ask(c, true) in steps || Ask(c, false) in steps
  }

  ghost predicate CallTold(phase: Phase, steps: seq<Step>, c: nat) {
    && (!AskedIn(steps, c) ==> OutcomeIn(steps, c).None?)
    && (OutcomeIn(steps, c).None? ==> Remove(c) !in steps)
    && phase == if !AskedIn(steps, c) then Registered
                else if OutcomeIn(steps, c).None? then Asked
                else if Remove(c) !in steps then Leaving(OutcomeIn(steps, c).value)
                else Returned(OutcomeIn(steps, c).value)
  }

  ghost predicate CallsTold(s: State, steps: seq<Step>) {
    && |s.calls| == |RegisteredIn(steps)|
    && (forall c :: 0 <= c < |s.calls| ==> s.calls[c].channel == RegisteredIn(steps)[c] && CallTold(s.calls[c].phase, steps, c))
    && (forall c: nat :: c >= |s.calls| ==> !AskedIn(steps, c) && OutcomeIn(steps, c).None? && Remove(c) !in steps)
  }

  ghost predicate ReaderTold(s: State, steps: seq<Step>) {
    s.confirmations == ConfirmedIn(steps) && (s.done <==> CloseBroker in steps)
  }

  lemma StepsMore(steps: seq<Step>, step: Step)
    ensures forall x :: x in steps + [step] <==> x in steps || x == step
    ensures RegisteredIn(steps + [step]) == RegisteredIn(steps) + if step.Register? then [step.channel] else []
    ensures ConfirmedIn(steps + [step]) == ConfirmedIn(steps) + if step.Confirm? then [step.channel] else []
    ensures forall c: nat :: OutcomeIn(steps + [step], c) == if OutcomeIn(steps, c).Some? then OutcomeIn(steps, c) else OutcomeOf(step, c)
  {
    assert (steps + [step])[..|steps|] == steps;
  }

  lemma CallAfter(s: State, step: Step, c: nat)
    requires Enabled(s, step) && c < |s.calls|
    ensures c < |Do(s, step).calls| && Do(s, step).calls[c].channel == s.calls[c].channel
    ensures Do(s, step).calls[c].phase ==
            if step == Ask(c, true) then Asked
            else if OutcomeOf(step, c).Some? then Leaving(OutcomeOf(step, c).value)
            else if step == Remove(c) then Returned(s.calls[c].phase.outcome)
            else s.calls[c].phase
    ensures step == Ask(c, true) || step == Ask(c, false) ==> s.calls[c].phase.Registered?
    ensures OutcomeOf(step, c).Some? && step != Ask(c, false) ==> s.calls[c].phase.Asked?
    ensures step == Remove(c) ==> s.calls[c].phase.Leaving?
  {
    hide WaitersOf, Dropped;
  }

  lemma CallTells(s: State, past: seq<Step>, step: Step, c: nat)
    requires CallsTold(s, past) && Enabled(s, step) && c < |s.calls|
    ensures c < |Do(s, step).calls| && CallTold(Do(s, step).calls[c].phase, past + [step], c)
  {
    StepsMore(past, step);
    CallAfter(s, step, c);
    assert CallTold(s.calls[c].phase, past, c);
    hide Do, Enabled, RegisteredIn, ConfirmedIn, OutcomeIn;
  }

  lemma SizeAfter(s: State, step: Step)
    requires Enabled(s, step)
    ensures |Do(s, step).calls| == |s.calls| + if step.Register? then 1 else 0
    ensures step.Register? ==> Do(s, step).calls[|s.calls|].channel == step.channel && Do(s, step).calls[|s.calls|].phase == Registered
    ensures forall c: nat :: c >= |s.calls| ==> step != Ask(c, true) && OutcomeOf(step, c).None? && step != Remove(c)
    ensures Do(s, step).confirmations == s.confirmations + if step.Confirm? then [step.channel] else []
    ensures Do(s, step).done <==> s.done || step == CloseBroker
  {
    hide WaitersOf, Dropped;
  }

  lemma Tells(s: State, past: seq<Step>, step: Step)
    requires CallsTold(s, past) && ReaderTold(s, past) && Enabled(s, step)
    ensures CallsTold(Do(s, step), past + [step]) && ReaderTold(Do(s, step), past + [step])
  {
    hide Do, Enabled, RegisteredIn, ConfirmedIn, OutcomeIn, OutcomeOf;
    var t, now := Do(s, step), past + [step];
    StepsMore(past, step);
    SizeAfter(s, step);
    forall c | 0 <= c < |t.calls| ensures t.calls[c].channel == RegisteredIn(now)[c] && CallTold(t.calls[c].phase, now, c) {
      if c < |s.calls| {
        CallAfter(s, step, c);
        CallTells(s, past, step, c);
      }
    }
    forall c: nat | c >= |t.calls| ensures step != Ask(c, false) {
      if step == Ask(c, false) { AskIsKnown(s, c); }
    }
  }

  lemma AskIsKnown(s: State, c: nat)
    requires Enabled(s, Ask(c, false))
    ensures c < |s.calls|
  {
  }

  lemma {:induction false} RunTells(s: State, past: seq<Step>, steps: seq<Step>)
    requires Legal(s, steps) && CallsTold(s, past) && ReaderTold(s, past)
    ensures CallsTold(Run(s, steps), past + steps) && ReaderTold(Run(s, steps), past + steps)
    decreases |steps|
  {
    hide Do, Enabled, CallsTold, ReaderTold;
    if steps == [] {
      assert past + steps == past;
    } else {
      Tells(s, past, steps[0]);
      RunTells(Do(s, steps[0]), past + [steps[0]], steps[1..]);
      assert past + [steps[0]] + steps[1..] == past + steps;
    }
  }

  /** Nobody is told the broker is closed while it is not. */
  ghost predicate ClosesAreSeen(s: State) {
    forall c :: 0 <= c < |s.calls| && (s.calls[c].phase == Leaving(BrokerClosed) || s.calls[c].phase == Returned(BrokerClosed)) ==> s.done
  }

  lemma ClosesSeenStep(s: State, step: Step)
    requires Enabled(s, step) && ClosesAreSeen(s)
    ensures ClosesAreSeen(Do(s, step))
  {
    hide WaitersOf, Dropped;
  }

  lemma {:induction false} ClosesSeenRun(s: State, steps: seq<Step>)
    requires Legal(s, steps) && ClosesAreSeen(s)
    ensures ClosesAreSeen(Run(s, steps))
    decreases |steps|
  {
    hide Do, Enabled, ClosesAreSeen;
    if steps != [] {
      ClosesSeenStep(s, steps[0]);
      ClosesSeenRun(Do(s, steps[0]), steps[1..]);
    }
  }

  /**
   * Over every run, what has happened decides what each call answers: a failure if
   * the request could not be sent, and otherwise whatever its select saw first, the
   * confirmation, the caller's cancellation, or the broker's close once it was closed.
   */
  lemma SubscribeAnswersWhatItSaw(steps: seq<Step>)
    requires Legal(Start, steps)
    ensures var s := Run(Start, steps); CallsTold(s, steps) && ReaderTold(s, steps) && ClosesAreSeen(s)
  {
    RunTells(Start, [], steps);
    assert [] + steps == steps;
    ClosesSeenRun(Start, steps);
  }

  /** What a waiting call's select can see, and that it can always be closed on. */
  lemma SelectExactly(s: State, c: nat)
    requires c < |s.calls| && s.calls[c].phase.Asked?
    ensures Enabled(s, SeeSignal(c)) <==> c in s.closed
    ensures Enabled(s, SeeClosed(c)) <==> s.done
    ensures Enabled(s, SeeCancel(c)) && Enabled(s, CloseBroker)
  {
  }

  /** A second close of a waiter would be fatal, and only that. */
  lemma CrashesExactly(s: State, step: Step)
    requires !s.crashed && Enabled(s, step)
    ensures Do(s, step).crashed <==> step.Wake? && s.woken[0] in s.closed
  {
  }
}
