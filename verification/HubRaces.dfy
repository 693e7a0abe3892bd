/**
 * The three windows between the hub's locked sections in which a guarantee can
 * be lost, each with a run that loses it and with exactly which runs keep it.
 */
module HubRaces {
  import opened Wrappers
  import opened Rooms
  import opened Hub
  import opened HubRuns

  // ------------------------------------- the unsubscribe outside the lock

  /** Whatever is counted is subscribed at the transport. */
  ghost predicate CountedIsLive(s: State) {
    forall room :: room in s.hub.subs ==> room in s.hub.live
  }

  /** An unsubscribe on its own finds nobody counted again since the last decrement. */
  predicate InTime(s: State, step: Step)
    requires Enabled(s, step)
  {
    step.Unsubscribe? ==> Count(s.hub, LeaverOf(s.clients[step.conn], step.who).room) == 0
  }

  lemma InTimeStep(s: State, step: Step)
    requires PositiveCounts(s) && CountedIsLive(s) && Enabled(s, step)
    ensures CountedIsLive(Do(s, step)) <==> InTime(s, step)
  {
    hide ClientAfter, Members;
    var t := Do(s, step);
    assert forall room :: room in s.hub.subs <==> Count(s.hub, room) != 0;
    if step.Unsubscribe? {
      var room := LeaverOf(s.clients[step.conn], step.who).room;
      assert t.hub == Releasing(s.hub, room);
      assert room !in t.hub.live && t.hub.subs == s.hub.subs;
    }
  }

  ghost predicate AlwaysCountedIsLive(s: State, steps: seq<Step>)
    requires Legal(s, steps)
    decreases |steps|
  {
    CountedIsLive(s) && (steps != [] ==> AlwaysCountedIsLive(Do(s, steps[0]), steps[1..]))
  }

  predicate AllInTime(s: State, steps: seq<Step>)
    requires Legal(s, steps)
    decreases |steps|
  {
    steps != [] ==> InTime(s, steps[0]) && AllInTime(Do(s, steps[0]), steps[1..])
  }

  /** Every counted room stays subscribed throughout a run if and only if no unsubscribe comes late. */
  lemma {:induction false} LiveExactlyWhenInTime(s: State, steps: seq<Step>)
    requires PositiveCounts(s) && CountedIsLive(s) && Legal(s, steps)
    ensures AlwaysCountedIsLive(s, steps) <==> AllInTime(s, steps)
    decreases |steps|
  {
    hide PositiveCounts, Enabled, HubAfter, ClientAfter, Do, InTime;
    if steps != [] {
      InTimeStep(s, steps[0]);
      PositiveKept(s, steps[0]);
      var t := Do(s, steps[0]);
      if CountedIsLive(t) {
        LiveExactlyWhenInTime(t, steps[1..]);
      }
    }
  }

  // --------------------------------------- remembered after being revoked

  predicate WillForget(leaver: Leaver, room: Room) {
    match leaver
    case NotLeaving => false
    case Removed(r, forgot) => r == room && !forgot
    case Unsubscribing(r, forgot) => r == room && !forgot
    case Forgetting(r) => r == room
  }

  /** A leave under way will still take the room out of the connection's own set. */
  predicate BeingForgotten(k: Client, room: Room) {
    WillForget(k.pump, room) || WillForget(k.sweep, room)
  }

  /** Every room a connection holds, and is not giving up, is one the hub delivers to it. */
  ghost predicate HeldIsDelivered(s: State) {
    forall c, room :: c in s.clients && room in s.clients[c].own && !BeingForgotten(s.clients[c], room) ==>
      c in Members(s.hub, room)
  }

  /** A room is remembered while the insertion still stands, or while it is being given up. */
  predicate StillIn(s: State, step: Step)
    requires Enabled(s, step)
  {
    step.Remember? ==>
      var k := s.clients[step.conn];
      step.conn in Members(s.hub, k.reader.room) || BeingForgotten(k, k.reader.room)
  }

  lemma StillInStep(s: State, step: Step)
    requires HeldIsDelivered(s) && Enabled(s, step)
    ensures HeldIsDelivered(Do(s, step)) <==> StillIn(s, step)
  {
    var t := Do(s, step);
    if !StillIn(s, step) {
      var room := s.clients[step.conn].reader.room;
      MembersAfter(s, step, room);
      assert room in t.clients[step.conn].own && !BeingForgotten(t.clients[step.conn], room);
    } else {
      forall c, room | c in t.clients && room in t.clients[c].own && !BeingForgotten(t.clients[c], room)
        ensures c in Members(t.hub, room)
      {
        StillDelivered(s, step, c, room);
      }
    }
  }

  lemma StillDelivered(s: State, step: Step, c: ConnId, room: Room)
    requires HeldIsDelivered(s) && Enabled(s, step) && StillIn(s, step)
    requires var t := Do(s, step); c in t.clients && room in t.clients[c].own && !BeingForgotten(t.clients[c], room)
    ensures c in Members(Do(s, step).hub, room)
  {
    MembersAfter(s, step, room);
    hide HubAfter, Members;
    if step.StartClosing? || step.conn != c {
      hide ClientAfter;
    }
  }

  ghost predicate AlwaysHeldIsDelivered(s: State, steps: seq<Step>)
    requires Legal(s, steps)
    decreases |steps|
  {
    HeldIsDelivered(s) && (steps != [] ==> AlwaysHeldIsDelivered(Do(s, steps[0]), steps[1..]))
  }

  predicate AllStillIn(s: State, steps: seq<Step>)
    requires Legal(s, steps)
    decreases |steps|
  {
    steps != [] ==> StillIn(s, steps[0]) && AllStillIn(Do(s, steps[0]), steps[1..])
  }

  /** A connection is delivered every room it holds and is not giving up, throughout a run, if and only if no insertion is undone before it is remembered. */
  lemma {:induction false} DeliveredExactlyWhenStillIn(s: State, steps: seq<Step>)
    requires HeldIsDelivered(s) && Legal(s, steps)
    ensures AlwaysHeldIsDelivered(s, steps) <==> AllStillIn(s, steps)
    decreases |steps|
  {
    hide HeldIsDelivered, Enabled, HubAfter, ClientAfter, Do, StillIn;
    if steps != [] {
      StillInStep(s, steps[0]);
      var t := Do(s, steps[0]);
      if HeldIsDelivered(t) {
        DeliveredExactlyWhenStillIn(t, steps[1..]);
      }
    }
  }

  // ----------------------------------------- forgotten after being rejoined

  lemma ForgetsInTimeStep(s: State, step: Step)
    requires MembersKnow(s) && Enabled(s, step)
    ensures MembersKnow(Do(s, step)) <==> ForgetsInTime(s, step)
  {
    if ForgetsInTime(s, step) {
      MembersKnowKept(s, step);
    } else {
      var k := s.clients[step.conn];
      var room := LeaverOf(k, step.who).room;
      MembersAfter(s, step, room);
      var k' := Do(s, step).clients[step.conn];
      assert room !in k'.own && k'.reader == k.reader;
    }
  }

  ghost predicate AlwaysKnown(s: State, steps: seq<Step>)
    requires Legal(s, steps)
    decreases |steps|
  {
    MembersKnow(s) && (steps != [] ==> AlwaysKnown(Do(s, steps[0]), steps[1..]))
  }

  predicate AllForgetInTime(s: State, steps: seq<Step>)
    requires Legal(s, steps)
    decreases |steps|
  {
    steps != [] ==> ForgetsInTime(s, steps[0]) && AllForgetInTime(Do(s, steps[0]), steps[1..])
  }

  /**
   * Every member knows its room throughout a run, whatever is paired with what, if
   * and only if every forgetting finds the room left, or about to be remembered.
   */
  lemma {:induction false} KnownExactlyWhenForgottenInTime(s: State, steps: seq<Step>)
    requires MembersKnow(s) && Legal(s, steps)
    ensures AlwaysKnown(s, steps) <==> AllForgetInTime(s, steps)
    decreases |steps|
  {
    hide MembersKnow, Enabled, Do, ForgetsInTime;
    if steps != [] {
      ForgetsInTimeStep(s, steps[0]);
      var t := Do(s, steps[0]);
      if MembersKnow(t) {
        KnownExactlyWhenForgottenInTime(t, steps[1..]);
      }
    }
  }

  /** The counts are conserved at every point of a run. */
  ghost predicate AlwaysConserved(s: State, steps: seq<Step>)
    requires Legal(s, steps)
    decreases |steps|
  {
    Conserved(s) && (steps != [] ==> AlwaysConserved(Do(s, steps[0]), steps[1..]))
  }

  predicate AllInsertNew(s: State, steps: seq<Step>)
    requires Legal(s, steps)
    decreases |steps|
  {
    steps != [] ==> InsertsNew(s, steps[0]) && AllInsertNew(Do(s, steps[0]), steps[1..])
  }

  /** The counts are conserved throughout a run, whatever is paired with what, if and only if nobody is inserted who is a member already. */
  lemma {:induction false} ConservedExactlyWhenInsertionsAreNew(s: State, steps: seq<Step>)
    requires Routed(s) && Conserved(s) && Legal(s, steps)
    ensures AlwaysConserved(s, steps) <==> AllInsertNew(s, steps)
    decreases |steps|
  {
    hide Routed, Conserved, Enabled, Do, InsertsNew;
    if steps != [] {
      ConservedStep(s, steps[0]);
      RoutedKept(s, steps[0]);
      var t := Do(s, steps[0]);
      if Conserved(t) {
        ConservedExactlyWhenInsertionsAreNew(t, steps[1..]);
      }
    }
  }

  /** Forgetting in time is enough for both. */
  lemma {:induction false} InTimeForgettingInsertsNew(s: State, steps: seq<Step>)
    requires Coherent(s) && Legal(s, steps) && AllForgetInTime(s, steps)
    ensures AllInsertNew(s, steps)
    decreases |steps|
  {
    hide Coherent, Enabled, Do, InsertsNew, ForgetsInTime;
    if steps != [] {
      CoherentInsertsNew(s, steps[0]);
      CoherentKept(s, steps[0]);
      InTimeForgettingInsertsNew(Do(s, steps[0]), steps[1..]);
    }
  }

  // ------------------------------------------------------------ lost in a run

  lemma {:induction false} RunConcat(s: State, first: seq<Step>, second: seq<Step>)
    requires Legal(s, first) && Legal(Run(s, first), second)
    ensures Legal(s, first + second) && Run(s, first + second) == Run(Run(s, first), second)
    decreases |first|
  {
    hide Enabled, Do;
    if first == [] {
      assert first + second == second;
    } else {
      assert (first + second)[1..] == first[1..] + second;
      RunConcat(Do(s, first[0]), first[1..], second);
    }
  }

  lemma RunOne(s: State, step: Step)
    requires Enabled(s, step)
    ensures Legal(s, [step]) && Run(s, [step]) == Do(s, step)
  {
    hide Enabled, Do;
    assert [step][1..] == [];
  }

  /** The script grows by one enabled step. */
  lemma Then(s: State, steps: seq<Step>, step: Step)
    requires Legal(s, steps) && Enabled(Run(s, steps), step)
    ensures Legal(s, steps + [step]) && Run(s, steps + [step]) == Do(Run(s, steps), step)
  {
    RunOne(Run(s, steps), step);
    RunConcat(s, steps, [step]);
  }

  function Joining(c: ConnId, board: Uuid): seq<Step> {
    [Ask(c, board), Authorize(c, true), CheckOpen(c), CountIt(c, true), Insert(c)]
  }

  function Subscribing(c: ConnId, board: Uuid): seq<Step> {
    Joining(c, board) + [Remember(c)]
  }

  predicate MaySubscribe(s: State, c: ConnId, board: Uuid) {
    && c in s.clients && s.clients[c].phase.Serving? && PumpIdle(s.clients[c]) && |s.clients[c].own| < s.max
    && Room(s.clients[c].tenant, board) !in s.clients[c].own && Complete(Room(s.clients[c].tenant, board)) && !s.hub.closing
  }

  function InsertedInto(s: State, c: ConnId, board: Uuid): State
    requires c in s.clients
  {
    var room := Room(s.clients[c].tenant, board);
    s.(hub := Joined(s.hub, room, c),
       clients := s.clients[c := s.clients[c].(reader := Inserted(room))],
       allowed := s.allowed + {(c, board)})
  }

  function Subscribed(s: State, c: ConnId, board: Uuid): State
    requires c in s.clients
  {
    var room := Room(s.clients[c].tenant, board);
    s.(hub := Joined(s.hub, room, c),
       clients := s.clients[c := s.clients[c].(own := s.clients[c].own + {room})],
       allowed := s.allowed + {(c, board)})
  }

  lemma WholeJoin(s: State, c: ConnId, board: Uuid)
    requires MaySubscribe(s, c, board)
    ensures Legal(s, Joining(c, board)) && Run(s, Joining(c, board)) == InsertedInto(s, c, board)
  {
    var room := Room(s.clients[c].tenant, board);
    var k := s.clients[c];
    var s1 := s.(clients := s.clients[c := k.(reader := Authorizing(room))]);
    var s2 := s.(clients := s.clients[c := k.(reader := Authorized(room))], allowed := s.allowed + {(c, board)});
    var s3 := s2.(clients := s.clients[c := k.(reader := Cleared(room))]);
    var s4 := s2.(clients := s.clients[c := k.(reader := Counted(room))], hub := Counting(s.hub, room, true));
    assert Do(s, Ask(c, board)) == s1 by { assert s.allowed + {} == s.allowed; }
    assert Do(s1, Authorize(c, true)) == s2;
    assert Do(s2, CheckOpen(c)) == s3 by { assert s2.allowed + {} == s2.allowed; }
    assert Do(s3, CountIt(c, true)) == s4 by { assert s3.allowed + {} == s3.allowed; }
    assert Do(s4, Insert(c)) == InsertedInto(s, c, board) by { assert s4.allowed + {} == s4.allowed; }
    assert Enabled(s, Ask(c, board)) && Enabled(s1, Authorize(c, true)) && Enabled(s2, CheckOpen(c))
           && Enabled(s3, CountIt(c, true)) && Enabled(s4, Insert(c));
    hide Do, Enabled, InsertedInto;
    var p := [Ask(c, board)];
    RunOne(s, Ask(c, board));
    Then(s, p, Authorize(c, true));
    p := p + [Authorize(c, true)];
    Then(s, p, CheckOpen(c));
    p := p + [CheckOpen(c)];
    Then(s, p, CountIt(c, true));
    p := p + [CountIt(c, true)];
    Then(s, p, Insert(c));
    assert Joining(c, board) == p + [Insert(c)];
  }

  /** A subscribe with nothing in between: authorized, joined and remembered. */
  lemma WholeSubscribe(s: State, c: ConnId, board: Uuid)
    requires MaySubscribe(s, c, board)
    ensures Legal(s, Subscribing(c, board)) && Run(s, Subscribing(c, board)) == Subscribed(s, c, board)
  {
    WholeJoin(s, c, board);
    var t := InsertedInto(s, c, board);
    assert Do(t, Remember(c)) == Subscribed(s, c, board) by { assert t.allowed + {} == t.allowed; }
    assert Enabled(t, Remember(c));
    hide Do, Enabled, Subscribed, InsertedInto;
    Then(s, Joining(c, board), Remember(c));
  }

  /** One connection of the tenant, registered and serving. */
  function Newcomer(tenant: Uuid): Client {
    Client(tenant, Serving, {}, Idle, NotLeaving, NotLeaving)
  }

  /** Two connections of one tenant watching at most one board each. */
  function Pair(tenant: Uuid, h: Registry, one: Client, two: Client, allowed: set<(ConnId, Uuid)>): State {
    State(h.(conns := {1, 2}, closing := false), map[1 := one, 2 := two], allowed, 1)
  }

  lemma PairRegisters(tenant: Uuid)
    ensures var steps := [Register(1, tenant), Register(2, tenant)];
            Legal(Start(1), steps) && Run(Start(1), steps) == Pair(tenant, NewRegistry, Newcomer(tenant), Newcomer(tenant), {})
  {
    var s := Start(1);
    var s1 := Do(s, Register(1, tenant));
    assert s1.clients == map[1 := Newcomer(tenant)] && s1.hub.conns == {1} && s1.allowed == {};
    var s2 := Do(s1, Register(2, tenant));
    assert s2.clients == map[1 := Newcomer(tenant), 2 := Newcomer(tenant)] && s2.hub.conns == {1, 2} && s2.allowed == {};
    hide Do, Enabled;
    RunOne(s, Register(1, tenant));
    Then(s, [Register(1, tenant)], Register(2, tenant));
    assert [Register(1, tenant)] + [Register(2, tenant)] == [Register(1, tenant), Register(2, tenant)];
  }

  /** Alone in its room, then out of it with the unsubscribe still to come, while a second one joins. */
  function LateUnsubscribeScript(tenant: Uuid, board: Uuid): seq<Step> {
    ([Register(1, tenant), Register(2, tenant)] + Subscribing(1, board))
    + ([Remove(1, Pump, Room(tenant, board), true), Decrement(1, Pump, false)] + Subscribing(2, board) + [Unsubscribe(1, Pump)])
  }

  function FirstIn(tenant: Uuid, board: Uuid): State {
    var room := Room(tenant, board);
    Pair(tenant, Registry(map[room := {1}], {}, false, map[room := 1], {room}),
         Newcomer(tenant).(own := {room}), Newcomer(tenant), {(1, board)})
  }

  lemma FirstJoins(tenant: Uuid, board: Uuid)
    requires tenant != Nil && board != Nil
    ensures var steps := [Register(1, tenant), Register(2, tenant)] + Subscribing(1, board);
            Legal(Start(1), steps) && Run(Start(1), steps) == FirstIn(tenant, board)
  {
    var room := Room(tenant, board);
    PairRegisters(tenant);
    var s := Pair(tenant, NewRegistry, Newcomer(tenant), Newcomer(tenant), {});
    WholeSubscribe(s, 1, board);
    assert Subscribed(s, 1, board) == FirstIn(tenant, board) by {
      assert {} + {1} == {1} && {} + {room} == {room};
      assert Joined(s.hub, room, 1) == FirstIn(tenant, board).hub;
    }
    hide Subscribed, FirstIn, Pair;
    RunConcat(Start(1), [Register(1, tenant), Register(2, tenant)], Subscribing(1, board));
  }

  function FirstLeaving(tenant: Uuid, board: Uuid): State {
    var room := Room(tenant, board);
    Pair(tenant, Registry(map[], {}, false, map[], {room}),
         Newcomer(tenant).(pump := Unsubscribing(room, true)), Newcomer(tenant), {(1, board)})
  }

  lemma FirstLeaves(tenant: Uuid, board: Uuid)
    ensures var steps := [Remove(1, Pump, Room(tenant, board), true), Decrement(1, Pump, false)];
            Legal(FirstIn(tenant, board), steps) && Run(FirstIn(tenant, board), steps) == FirstLeaving(tenant, board)
  {
    var room := Room(tenant, board);
    var s := FirstIn(tenant, board);
    var s1 := Do(s, Remove(1, Pump, room, true));
    assert s1.hub == s.hub.(rooms := map[]) && s1.allowed == s.allowed;
    assert s1.clients == s.clients[1 := Newcomer(tenant).(own := {room} - {room}, pump := Removed(room, true))];
    var s2 := Do(s1, Decrement(1, Pump, false));
    assert s2.hub == s1.hub.(subs := map[]) && s2.allowed == s1.allowed;
    assert {room} - {room} == {};
    assert s2.clients == s.clients[1 := Newcomer(tenant).(pump := Unsubscribing(room, true))];
    assert s2 == FirstLeaving(tenant, board);
    assert Enabled(s, Remove(1, Pump, room, true)) && Enabled(s1, Decrement(1, Pump, false));
    hide Do, Enabled, FirstIn, FirstLeaving;
    RunOne(s, Remove(1, Pump, room, true));
    Then(s, [Remove(1, Pump, room, true)], Decrement(1, Pump, false));
    assert [Remove(1, Pump, room, true)] + [Decrement(1, Pump, false)] == [Remove(1, Pump, room, true), Decrement(1, Pump, false)];
  }

  lemma SecondJoins(tenant: Uuid, board: Uuid)
    requires tenant != Nil && board != Nil
    ensures var steps := Subscribing(2, board) + [Unsubscribe(1, Pump)]; var room := Room(tenant, board);
            && Legal(FirstLeaving(tenant, board), steps)
            && 2 in Members(Run(FirstLeaving(tenant, board), steps).hub, room)
            && room !in Run(FirstLeaving(tenant, board), steps).hub.live
  {
    var s := FirstLeaving(tenant, board);
    WholeSubscribe(s, 2, board);
    var s1 := Subscribed(s, 2, board);
    var s2 := Do(s1, Unsubscribe(1, Pump));
    assert 2 in Members(s2.hub, Room(tenant, board)) && Room(tenant, board) !in s2.hub.live;
    assert Enabled(s1, Unsubscribe(1, Pump));
    hide Do, Enabled, Subscribed, FirstLeaving, Members;
    Then(s, Subscribing(2, board), Unsubscribe(1, Pump));
  }

  /**
   * A leave that unsubscribes after releasing the lock can undo a join that came
   * in between: the second connection is in the room and the transport is silent.
   */
  lemma LateUnsubscribeSilencesARoom(tenant: Uuid, board: Uuid)
    requires tenant != Nil && board != Nil
    ensures var steps := LateUnsubscribeScript(tenant, board); var room := Room(tenant, board);
            && Legal(Start(1), steps) && AllPaired(steps)
            && 2 in Members(Run(Start(1), steps).hub, room) && room !in Run(Start(1), steps).hub.live
  {
    hide Legal, Run, FirstIn, FirstLeaving, Members;
    FirstJoins(tenant, board);
    FirstLeaves(tenant, board);
    SecondJoins(tenant, board);
    var leave := [Remove(1, Pump, Room(tenant, board), true), Decrement(1, Pump, false)];
    RunConcat(FirstIn(tenant, board), leave, Subscribing(2, board) + [Unsubscribe(1, Pump)]);
    assert leave + (Subscribing(2, board) + [Unsubscribe(1, Pump)]) == leave + Subscribing(2, board) + [Unsubscribe(1, Pump)];
    RunConcat(Start(1), [Register(1, tenant), Register(2, tenant)] + Subscribing(1, board),
              leave + Subscribing(2, board) + [Unsubscribe(1, Pump)]);
  }

  // One connection, its own two goroutines.

  function Solo(h: Registry, k: Client, board: Uuid): State {
    State(h.(conns := {1}, closing := false), map[1 := k], {(1, board)}, 1)
  }

  function Occupied(room: Room): Registry {
    Registry(map[room := {1}], {1}, false, map[room := 1], {room})
  }

  /** Registered and watching its one board. */
  lemma SoloSubscribes(tenant: Uuid, board: Uuid)
    requires tenant != Nil && board != Nil
    ensures var steps := [Register(1, tenant)] + Subscribing(1, board); var room := Room(tenant, board);
            Legal(Start(1), steps) && Run(Start(1), steps) == Solo(Occupied(room), Newcomer(tenant).(own := {room}), board)
  {
    var room := Room(tenant, board);
    var s := Do(Start(1), Register(1, tenant));
    assert s == State(Registry(map[], {1}, false, map[], {}), map[1 := Newcomer(tenant)], {}, 1);
    RunOne(Start(1), Register(1, tenant));
    WholeSubscribe(s, 1, board);
    assert Subscribed(s, 1, board) == Solo(Occupied(room), Newcomer(tenant).(own := {room}), board) by {
      assert {} + {1} == {1} && {} + {room} == {room};
    }
    hide Do, Enabled, Subscribed;
    RunConcat(Start(1), [Register(1, tenant)], Subscribing(1, board));
  }

  /** Joining again from an empty hub, whatever the sweep is doing. */
  lemma SoloRejoins(k: Client, board: Uuid)
    requires k.tenant != Nil && board != Nil && k.phase.Serving? && PumpIdle(k) && k.own == {}
    ensures var s := Solo(NewRegistry, k, board); var room := Room(k.tenant, board);
            && Legal(s, Joining(1, board))
            && Run(s, Joining(1, board)) == Solo(Occupied(room), k.(reader := Inserted(room)), board)
  {
    var s, room := Solo(NewRegistry, k, board), Room(k.tenant, board);
    WholeJoin(s, 1, board);
    assert {} + {1} == {1} && {} + {room} == {room} && s.allowed + {(1, board)} == s.allowed;
  }

  /** A leave by one goroutine of the room's only member. */
  lemma SoloLeaves(k: Client, who: Who, board: Uuid, forgetting: bool)
    requires k.phase.Serving? && LeaverOf(k, who).NotLeaving? && (who.Pump? ==> k.reader.Idle?)
    ensures var room := Room(k.tenant, board); var s := Solo(Occupied(room), k, board);
            var steps := [Remove(1, who, room, forgetting), Decrement(1, who, true)];
            && Legal(s, steps)
            && Run(s, steps) == Solo(NewRegistry,
                 WithLeaver(if forgetting then k.(own := k.own - {room}) else k, who,
                            if forgetting then NotLeaving else Forgetting(room)), board)
  {
    var room := Room(k.tenant, board);
    var s := Solo(Occupied(room), k, board);
    var left := if forgetting then k.(own := k.own - {room}) else k;
    var s1 := Do(s, Remove(1, who, room, forgetting));
    assert s1 == Solo(Occupied(room).(rooms := map[]), WithLeaver(left, who, Removed(room, forgetting)), board);
    var s2 := Do(s1, Decrement(1, who, true));
    assert s2.hub.live == {} by { assert {room} - {room} == {}; }
    assert s2 == Solo(NewRegistry, WithLeaver(left, who, if forgetting then NotLeaving else Forgetting(room)), board);
    hide Do, Solo;
    RunOne(s, Remove(1, who, room, forgetting));
    Then(s, [Remove(1, who, room, forgetting)], Decrement(1, who, true));
    assert [Remove(1, who, room, forgetting)] + [Decrement(1, who, true)] == [Remove(1, who, room, forgetting), Decrement(1, who, true)];
  }

  function Leaving(who: Who, room: Room, forgetting: bool): seq<Step> {
    [Remove(1, who, room, forgetting), Decrement(1, who, true)]
  }

  lemma Chain(s0: State, s1: State, s2: State, s3: State, s4: State, s5: State,
              a: seq<Step>, b: seq<Step>, c: seq<Step>, d: seq<Step>, e: seq<Step>)
    requires Legal(s0, a) && Run(s0, a) == s1
    requires Legal(s1, b) && Run(s1, b) == s2
    requires Legal(s2, c) && Run(s2, c) == s3
    requires Legal(s3, d) && Run(s3, d) == s4
    requires Legal(s4, e) && Run(s4, e) == s5
    ensures Legal(s0, a + (b + (c + (d + e)))) && Run(s0, a + (b + (c + (d + e)))) == s5
  {
    hide Legal, Run;
    RunConcat(s3, d, e);
    RunConcat(s2, c, d + e);
    RunConcat(s1, b, c + (d + e));
    RunConcat(s0, a, b + (c + (d + e)));
  }

  function DeafScript(tenant: Uuid, board: Uuid): seq<Step> {
    var room := Room(tenant, board);
    ([Register(1, tenant)] + Subscribing(1, board)) + (Leaving(Pump, room, true)
    + (Joining(1, board) + (Leaving(Sweep, room, true) + [Remember(1)])))
  }

  lemma DeafEnds(tenant: Uuid, board: Uuid)
    ensures var room := Room(tenant, board);
            var s := Solo(NewRegistry, Newcomer(tenant).(reader := Inserted(room)), board);
            && Legal(s, [Remember(1)])
            && var t := Run(s, [Remember(1)]);
               1 in t.clients && room in t.clients[1].own && !BeingForgotten(t.clients[1], room) && 1 !in Members(t.hub, room)
  {
    var room := Room(tenant, board);
    var s := Solo(NewRegistry, Newcomer(tenant).(reader := Inserted(room)), board);
    RunOne(s, Remember(1));
  }

  /**
   * A sweep that decided on an older subscription can revoke a new one between
   * its insertion and its being remembered. The connection then holds a room it
   * is never delivered, and asking again is answered "already subscribed".
   */
  lemma RevokedBeforeRemembered(tenant: Uuid, board: Uuid)
    requires tenant != Nil && board != Nil
    ensures var steps := DeafScript(tenant, board); var room := Room(tenant, board);
            && Legal(Start(1), steps) && AllPaired(steps) && AllTogether(steps)
            && var s := Run(Start(1), steps);
               1 in s.clients && room in s.clients[1].own && !BeingForgotten(s.clients[1], room) && 1 !in Members(s.hub, room)
  {
    var room := Room(tenant, board);
    var newcomer := Newcomer(tenant);
    assert {room} - {room} == {} && {} - {room} == {};
    SoloSubscribes(tenant, board);
    SoloLeaves(newcomer.(own := {room}), Pump, board, true);
    SoloRejoins(newcomer, board);
    SoloLeaves(newcomer.(reader := Inserted(room)), Sweep, board, true);
    DeafEnds(tenant, board);
    var s := Solo(NewRegistry, newcomer.(reader := Inserted(room)), board);
    hide Solo, Do, Enabled, Joining, Subscribing, Members, Legal, Run, Leaving;
    Chain(Start(1), Solo(Occupied(room), newcomer.(own := {room}), board), Solo(NewRegistry, newcomer, board),
          Solo(Occupied(room), newcomer.(reader := Inserted(room)), board), s, Run(s, [Remember(1)]),
          [Register(1, tenant)] + Subscribing(1, board), Leaving(Pump, room, true), Joining(1, board),
          Leaving(Sweep, room, true), [Remember(1)]);
    DeafScriptIsPaired(tenant, board);
  }

  lemma DeafScriptIsPaired(tenant: Uuid, board: Uuid)
    ensures AllPaired(DeafScript(tenant, board)) && AllTogether(DeafScript(tenant, board))
  {
  }

  function LeakScript(tenant: Uuid, board: Uuid): seq<Step> {
    var room := Room(tenant, board);
    ([Register(1, tenant)] + Subscribing(1, board)) + (Leaving(Sweep, room, false) + ([Remove(1, Pump, room, true)]
    + (Joining(1, board) + LeakEnd())))
  }

  function LeakEnd(): seq<Step> {
    [Remember(1), Forget(1, Sweep), EndReading(1), Deregister(1)]
  }

  lemma LeakEnds(tenant: Uuid, board: Uuid)
    ensures var room := Room(tenant, board);
            var s := Solo(Occupied(room), Newcomer(tenant).(sweep := Forgetting(room), reader := Inserted(room)), board);
            && Legal(s, LeakEnd())
            && var t := Run(s, LeakEnd()); 1 in t.clients && t.clients[1].phase.Finished? && 1 in Members(t.hub, room)
  {
    var room := Room(tenant, board);
    var k := Newcomer(tenant).(sweep := Forgetting(room), reader := Inserted(room));
    var s := Solo(Occupied(room), k, board);
    var s1 := Do(s, Remember(1));
    assert s1 == Solo(Occupied(room), k.(own := {room}, reader := Idle), board) by { assert {} + {room} == {room}; }
    var s2 := Do(s1, Forget(1, Sweep));
    assert s2 == Solo(Occupied(room), Newcomer(tenant), board) by { assert {room} - {room} == {}; }
    var s3 := Do(s2, EndReading(1));
    assert s3 == Solo(Occupied(room), Newcomer(tenant).(phase := Cleaning), board);
    var s4 := Do(s3, Deregister(1));
    assert 1 in Members(s4.hub, room) && s4.clients[1].phase.Finished?;
    assert Enabled(s, Remember(1)) && Enabled(s1, Forget(1, Sweep)) && Enabled(s2, EndReading(1)) && Enabled(s3, Deregister(1));
    hide Do, Enabled, Solo, Members;
    var p := [Remember(1)];
    RunOne(s, Remember(1));
    Then(s, p, Forget(1, Sweep));
    p := p + [Forget(1, Sweep)];
    Then(s, p, EndReading(1));
    p := p + [EndReading(1)];
    Then(s, p, Deregister(1));
    assert LeakEnd() == p + [Deregister(1)];
  }

  /**
   * With the sweep's leave and its forgetting apart, an unsubscribe and a new
   * subscribe fit in between: the forgetting then hits the new subscription, so
   * the cleanup never leaves that room and the finished connection stays in it.
   */
  lemma SplitForgettingLeaksAMember(tenant: Uuid, board: Uuid)
    requires tenant != Nil && board != Nil
    ensures var steps := LeakScript(tenant, board); var room := Room(tenant, board);
            && Legal(Start(1), steps) && AllTogether(steps)
            && var s := Run(Start(1), steps);
               1 in s.clients && s.clients[1].phase.Finished? && 1 in Members(s.hub, room)
  {
    var room := Room(tenant, board);
    var newcomer := Newcomer(tenant);
    var split := newcomer.(own := {room}, sweep := Forgetting(room));
    SoloSubscribes(tenant, board);
    SoloLeaves(newcomer.(own := {room}), Sweep, board, false);
    var s := Solo(NewRegistry, split, board);
    RunOne(s, Remove(1, Pump, room, true));
    assert Do(s, Remove(1, Pump, room, true)) == Solo(NewRegistry, newcomer.(sweep := Forgetting(room)), board) by {
      assert {room} - {room} == {};
      assert s.allowed + {} == s.allowed;
    }
    SoloRejoins(newcomer.(sweep := Forgetting(room)), board);
    LeakEnds(tenant, board);
    var rejoined := Solo(Occupied(room), newcomer.(sweep := Forgetting(room), reader := Inserted(room)), board);
    hide Solo, Do, Enabled, Joining, Subscribing, Members, LeakEnd, Legal, Run, Leaving;
    Chain(Start(1), Solo(Occupied(room), newcomer.(own := {room}), board), s,
          Solo(NewRegistry, newcomer.(sweep := Forgetting(room)), board), rejoined, Run(rejoined, LeakEnd()),
          [Register(1, tenant)] + Subscribing(1, board), Leaving(Sweep, room, false), [Remove(1, Pump, room, true)],
          Joining(1, board), LeakEnd());
    LeakScriptIsTogether(tenant, board);
  }

  lemma LeakScriptIsTogether(tenant: Uuid, board: Uuid)
    ensures AllTogether(LeakScript(tenant, board))
  {
  }
}
