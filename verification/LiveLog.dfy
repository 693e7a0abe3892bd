/**
 * The client's live layer: a log of events over the last full read, retired by
 * counting the reads this client has started, with one coalescing timer.
 */
module LiveLog {
  import opened Wrappers
  import opened Ordering
  import opened Board
  import opened Replica
  import opened ReplicaProofs

  /** What a frame for this board announces. */
  datatype Change = Shape(event: Event) | BoardRenamed | BoardGone

  /** One logged event, and how many reads had been started when it arrived. */
  datatype LiveEntry = LiveEntry(id: nat, event: Event, readsStarted: nat)

  datatype LiveState = LiveState(base: Snapshot, entries: seq<LiveEntry>, readsStarted: nat, timer: bool)

  /** What a callback asks of the router, besides changing the state. */
  datatype Effect = Quiet | Refresh

  function Fresh(base: Snapshot): LiveState {
    LiveState(base, [], 0, false)
  }

  function Started(s: LiveState): LiveState {
    s.(readsStarted := s.readsStarted + 1)
  }

  predicate IsCreate(event: Event) {
    event.CardCreated? || event.ColumnCreated?
  }

  function Framed(s: LiveState, id: nat, change: Change, pending: bool): (LiveState, Effect) {
    match change
    case BoardGone => (Started(s), Refresh)
    case BoardRenamed => (s.(timer := true), Quiet)
    case Shape(event) =>
      if IsCreate(event) && pending then (s.(timer := true), Quiet)
      else (s.(entries := s.entries + [LiveEntry(id, event, s.readsStarted)], timer := true), Quiet)
  }

  function Fired(s: LiveState): (LiveState, Effect) {
    (Started(s).(timer := false), Refresh)
  }

  function Resubscribed(s: LiveState): (LiveState, Effect) {
    (Started(s.(entries := [])), Refresh)
  }

  function Kept(entries: seq<LiveEntry>, readsStarted: nat): (r: seq<LiveEntry>)
    ensures forall e :: e in r <==> e in entries && e.readsStarted >= readsStarted
  {
    if entries == [] then []
    else (if entries[0].readsStarted >= readsStarted then [entries[0]] else []) + Kept(entries[1..], readsStarted)
  }

  /** A new snapshot retires what a read started since is known to include. */
  function Rendered(s: LiveState, snapshot: Snapshot): LiveState {
    s.(base := snapshot, entries := Kept(s.entries, s.readsStarted))
  }

  function Events(entries: seq<LiveEntry>): (r: seq<Event>)
    ensures |r| == |entries|
  {
    seq(|entries|, i requires 0 <= i < |entries| => entries[i].event)
  }

  /** The board on screen. */
  function Screen(s: LiveState): Snapshot {
    ApplyLog(s.base, Events(s.entries))
  }

  /** The hook itself: its state, its timer, and the refreshes it has asked for. */
  class BoardLive {
    var base: Snapshot
    var entries: seq<LiveEntry>
    var readsStarted: nat
    var timer: bool
    var refreshes: nat

    function State(): LiveState
      reads this
    {
      LiveState(base, entries, readsStarted, timer)
    }

    constructor (snapshot: Snapshot)
      ensures State() == Fresh(snapshot) && refreshes == 0
    {
      base, entries, readsStarted, timer, refreshes := snapshot, [], 0, false, 0;
    }

    method StartRead()
      modifies this`readsStarted, this`refreshes
      ensures State() == Started(old(State())) && refreshes == old(refreshes) + 1
    {
      readsStarted := readsStarted + 1;
      refreshes := refreshes + 1;
    }

    method ScheduleRead()
      modifies this`timer
      ensures State() == old(State()).(timer := true)
    {
      if timer { return; }
      timer := true;
    }

    method TimerFired()
      requires timer
      modifies this
      ensures (State(), Refresh) == Fired(old(State())) && refreshes == old(refreshes) + 1
    {
      timer := false;
      StartRead();
    }

    method OnFrame(id: nat, change: Change, pending: bool)
      modifies this
      ensures State() == Framed(old(State()), id, change, pending).0
      ensures refreshes == old(refreshes) + if Framed(old(State()), id, change, pending).1.Refresh? then 1 else 0
    {
      if change.BoardGone? {
        StartRead();
        return;
      }
      if change.BoardRenamed? {
        ScheduleRead();
        return;
      }
      if !(IsCreate(change.event) && pending) {
        entries := entries + [LiveEntry(id, change.event, readsStarted)];
      }
      ScheduleRead();
    }

    method OnResubscribed()
      modifies this
      ensures (State(), Refresh) == Resubscribed(old(State())) && refreshes == old(refreshes) + 1
    {
      entries := [];
      StartRead();
    }

    /** The adjustment made during render when the snapshot prop changes. */
    method Render(snapshot: Snapshot)
      modifies this
      ensures State() == Rendered(old(State()), snapshot) && refreshes == old(refreshes)
    {
      var kept: seq<LiveEntry> := [];
      var i := |entries|;
      while i > 0
        invariant 0 <= i <= |entries| && entries == old(entries) && readsStarted == old(readsStarted)
        invariant kept == Kept(entries[i..], readsStarted)
        invariant base == old(base) && timer == old(timer) && refreshes == old(refreshes)
      {
        i := i - 1;
        assert entries[i..][1..] == entries[i + 1..];
        if entries[i].readsStarted >= readsStarted { kept := [entries[i]] + kept; }
      }
      assert entries[0..] == entries;
      base, entries := snapshot, kept;
    }
  }

  // ------------------------------------------------------- the world around it

  /** A read in flight: who asked, and how many writes had committed by then. */
  datatype Pending = Pending(own: bool, floor: nat)

  datatype World = World(
    commits: nat,           // writes durable so far, in commit order
    seen: set<nat>,         // every event this client has observed
    live: LiveState,
    version: nat,           // how many writes the base snapshot includes
    inFlight: seq<Pending>, // reads in flight, in the order they started
    lastOwn: nat)           // writes durable when this hook last started a read

  datatype Step =
    | Commit
    | Observe(id: nat, pending: bool)
    | TimerFires
    | Resubscribe
    | OtherRefresh
    | Arrive(version: nat)

  function DrawChange(s: Snapshot, change: Change): Snapshot {
    if change.Shape? then Apply(s, change.event) else s
  }

  /** The board once the given writes have committed. */
  function After(start: Snapshot, history: seq<Change>): Snapshot
    decreases |history|
  {
    if history == [] then start
    else DrawChange(After(start, history[..|history| - 1]), history[|history| - 1])
  }

  function At(start: Snapshot, history: seq<Change>, version: nat): Snapshot {
    After(start, if version <= |history| then history[..version] else history)
  }

  /** An event is only ever seen after its write; snapshots arrive in start order. */
  predicate Enabled(w: World, history: seq<Change>, step: Step) {
    match step
    case Commit => w.commits < |history|
    case Observe(id, _) => id < w.commits <= |history|
    case TimerFires => w.live.timer
    case Resubscribe => true
    case OtherRefresh => true
    case Arrive(version) => w.inFlight != [] && w.inFlight[0].floor <= version <= w.commits
  }

  function Asked(w: World, result: (LiveState, Effect)): World {
    if result.1.Quiet? then w.(live := result.0)
    else w.(live := result.0, inFlight := w.inFlight + [Pending(true, w.commits)], lastOwn := w.commits)
  }

  function Do(w: World, start: Snapshot, history: seq<Change>, step: Step): World
    requires Enabled(w, history, step)
  {
    match step
    case Commit => w.(commits := w.commits + 1)
    case Observe(id, pending) => Asked(w.(seen := w.seen + {id}), Framed(w.live, id, history[id], pending))
    case TimerFires => Asked(w, Fired(w.live))
    case Resubscribe => Asked(w, Resubscribed(w.live))
    case OtherRefresh => w.(inFlight := w.inFlight + [Pending(false, w.commits)])
    case Arrive(version) =>
      w.(live := Rendered(w.live, At(start, history, version)), version := version, inFlight := w.inFlight[1..])
  }

  function Initial(start: Snapshot, version: nat, history: seq<Change>): World {
    World(version, {}, Fresh(At(start, history, version)), version, [], 0)
  }

  /** The last read this hook started has arrived. */
  predicate OwnReadsArrived(w: World) {
    forall i :: 0 <= i < |w.inFlight| ==> !w.inFlight[i].own
  }

  predicate NoOwnFrom(pending: seq<Pending>, i: nat) {
    forall k :: i <= k < |pending| ==> !pending[k].own
  }

  ghost predicate Inv(w: World, start: Snapshot, history: seq<Change>) {
    && w.version <= w.commits <= |history| && w.lastOwn <= w.commits
    && w.live.base == At(start, history, w.version)
    // Every observed event is covered by a pending timer or by the last own read.
    && (forall id :: id in w.seen ==> id < w.commits && (w.live.timer || id < w.lastOwn))
    // Reads behind the last own one started no earlier than it did.
    && (forall i :: 0 <= i < |w.inFlight| ==> w.inFlight[i].floor <= w.commits)
    && (forall i :: 0 <= i < |w.inFlight| && NoOwnFrom(w.inFlight, i + 1) ==> w.inFlight[i].floor >= w.lastOwn)
    && (OwnReadsArrived(w) ==> w.version >= w.lastOwn)
    && (forall e :: e in w.live.entries ==> e.readsStarted <= w.live.readsStarted)
    // Entries not yet due for retirement imply a timer that will start the read retiring them.
    && (forall e :: e in w.live.entries ==> w.live.timer || e.readsStarted < w.live.readsStarted)
    && (!w.live.timer && OwnReadsArrived(w) ==> w.live.entries == [])
  }

  lemma InitialInv(start: Snapshot, version: nat, history: seq<Change>)
    requires version <= |history|
    ensures Inv(Initial(start, version, history), start, history)
  {
  }

  lemma AskedKeepsInv(w: World, start: Snapshot, history: seq<Change>, result: (LiveState, Effect))
    requires w.version <= w.commits <= |history|
    requires forall i :: 0 <= i < |w.inFlight| ==> w.inFlight[i].floor <= w.commits
    requires forall id :: id in w.seen ==> id < w.commits
    requires forall e :: e in result.0.entries ==> e.readsStarted <= result.0.readsStarted
    requires result.1.Refresh? && result.0.base == w.live.base == At(start, history, w.version)
    requires forall e :: e in result.0.entries ==> e.readsStarted < result.0.readsStarted || result.0.timer
    ensures Inv(Asked(w, result), start, history)
  {
    var v := Asked(w, result);
    assert v.inFlight[|w.inFlight|].own;
    forall i | 0 <= i < |v.inFlight| && NoOwnFrom(v.inFlight, i + 1) ensures v.inFlight[i].floor >= v.lastOwn {
      assert i == |w.inFlight|;
    }
  }

  lemma ArriveKeepsInv(w: World, start: Snapshot, history: seq<Change>, version: nat)
    requires Inv(w, start, history) && Enabled(w, history, Arrive(version))
    ensures Inv(Do(w, start, history, Arrive(version)), start, history)
  {
    var v := Do(w, start, history, Arrive(version));
    assert forall i :: 0 <= i < |v.inFlight| ==> v.inFlight[i] == w.inFlight[i + 1];
    forall i | 0 <= i < |v.inFlight| && NoOwnFrom(v.inFlight, i + 1) ensures v.inFlight[i].floor >= v.lastOwn {
      forall k | i + 2 <= k < |w.inFlight| ensures !w.inFlight[k].own {
        assert w.inFlight[k] == v.inFlight[k - 1];
      }
      assert NoOwnFrom(w.inFlight, (i + 1) + 1);
    }
    if OwnReadsArrived(v) {
      forall k | 1 <= k < |w.inFlight| ensures !w.inFlight[k].own {
        assert w.inFlight[k] == v.inFlight[k - 1];
      }
      assert NoOwnFrom(w.inFlight, 0 + 1);
      assert forall e :: e in v.live.entries ==> v.live.timer;
      assert v.live.entries == [] || v.live.entries[0] in v.live.entries;
    }
  }

  lemma OtherRefreshKeepsInv(w: World, start: Snapshot, history: seq<Change>)
    requires Inv(w, start, history)
    ensures Inv(Do(w, start, history, OtherRefresh), start, history)
  {
    var v := Do(w, start, history, OtherRefresh);
    forall i | 0 <= i < |v.inFlight| && NoOwnFrom(v.inFlight, i + 1) ensures v.inFlight[i].floor >= v.lastOwn {
      if i < |w.inFlight| {
        forall k | i + 1 <= k < |w.inFlight| ensures !w.inFlight[k].own { assert w.inFlight[k] == v.inFlight[k]; }
        assert NoOwnFrom(w.inFlight, i + 1);
      }
    }
    if OwnReadsArrived(v) {
      forall k | 0 <= k < |w.inFlight| ensures !w.inFlight[k].own { assert w.inFlight[k] == v.inFlight[k]; }
    }
  }

  lemma ObserveKeepsInv(w: World, start: Snapshot, history: seq<Change>, id: nat, pending: bool)
    requires Inv(w, start, history) && Enabled(w, history, Observe(id, pending))
    ensures Inv(Do(w, start, history, Observe(id, pending)), start, history)
  {
    if history[id].BoardGone? {
      hide At, Apply, ApplyLog;
      AskedKeepsInv(w.(seen := w.seen + {id}), start, history, Framed(w.live, id, history[id], pending));
    }
  }

  lemma StepKeepsInv(w: World, start: Snapshot, history: seq<Change>, step: Step)
    requires Inv(w, start, history) && Enabled(w, history, step)
    ensures Inv(Do(w, start, history, step), start, history)
  {
    match step
    case Commit =>
    case Observe(id, pending) => ObserveKeepsInv(w, start, history, id, pending);
    case TimerFires => AskedKeepsInv(w, start, history, Fired(w.live));
    case Resubscribe => AskedKeepsInv(w, start, history, Resubscribed(w.live));
    case OtherRefresh => OtherRefreshKeepsInv(w, start, history);
    case Arrive(version) => ArriveKeepsInv(w, start, history, version);
  }

  predicate Legal(w: World, start: Snapshot, history: seq<Change>, steps: seq<Step>)
    decreases |steps|
  {
    steps == [] || (Enabled(w, history, steps[0]) && Legal(Do(w, start, history, steps[0]), start, history, steps[1..]))
  }

  function Run(w: World, start: Snapshot, history: seq<Change>, steps: seq<Step>): World
    requires Legal(w, start, history, steps)
    decreases |steps|
  {
    if steps == [] then w else Run(Do(w, start, history, steps[0]), start, history, steps[1..])
  }

  lemma {:induction false} RunKeepsInv(w: World, start: Snapshot, history: seq<Change>, steps: seq<Step>)
    requires Inv(w, start, history) && Legal(w, start, history, steps)
    ensures Inv(Run(w, start, history, steps), start, history)
    decreases |steps|
  {
    hide Inv, Do;
    if steps != [] {
      StepKeepsInv(w, start, history, steps[0]);
      RunKeepsInv(Do(w, start, history, steps[0]), start, history, steps[1..]);
    }
  }

  /** No coalescing timer is pending and the last read this hook started has arrived. */
  predicate Quiescent(w: World) {
    !w.live.timer && OwnReadsArrived(w)
  }

  /**
   * Live-log convergence. In every run, whenever the hook is quiescent its log is
   * empty and what it shows is a full read that includes every event it ever
   * observed: the creates it skipped, and the entries a resubscribe threw away.
   */
  lemma LiveLogConverges(start: Snapshot, first: nat, history: seq<Change>, steps: seq<Step>)
    requires first <= |history| && Legal(Initial(start, first, history), start, history, steps)
    ensures var w := Run(Initial(start, first, history), start, history, steps);
            Quiescent(w) ==>
              && w.live.entries == []
              && Screen(w.live) == At(start, history, w.version)
              && (forall id :: id in w.seen ==> id < w.version)
              && w.version <= w.commits
  {
    InitialInv(start, first, history);
    RunKeepsInv(Initial(start, first, history), start, history, steps);
  }

  // -------------------------------------------------- against the real board

  function Shapes(events: seq<Event>): (r: seq<Change>)
    ensures |r| == |events| && forall i :: 0 <= i < |r| ==> r[i] == Shape(events[i])
  {
    seq(|events|, i requires 0 <= i < |events| => Shape(events[i]))
  }

  lemma {:induction false} ApplyLogLast(s: Snapshot, log: seq<Event>, event: Event)
    ensures ApplyLog(s, log + [event]) == Apply(ApplyLog(s, log), event)
    decreases |log|
  {
    hide Apply;
    if log != [] {
      assert (log + [event])[1..] == log[1..] + [event];
      ApplyLogLast(Apply(s, log[0]), log[1..], event);
    } else {
      assert (log + [event])[1..] == [];
    }
  }

  lemma {:induction false} AfterShapes(s: Snapshot, events: seq<Event>)
    ensures After(s, Shapes(events)) == ApplyLog(s, events)
    decreases |events|
  {
    hide Apply;
    if events != [] {
      var n := |events| - 1;
      assert Shapes(events)[..n] == Shapes(events[..n]);
      AfterShapes(s, events[..n]);
      ApplyLogLast(s, events[..n], events[n]);
      assert events[..n] + [events[n]] == events;
    }
  }

  /**
   * End to end. A client that reads the board, follows its room through any
   * schedule of frames, timers, resubscribes and overlapping reads, and has
   * observed the last event, shows the server's rank-sorted board as soon as it
   * is quiescent.
   */
  lemma QuiescentScreenIsTheServer(db: Db, calls: seq<Call>, board: Id, first: nat, steps: seq<Step>)
    requires Valid(db) && ReplicaProofs.Legal(db, calls)
    requires var history := Shapes(Room(db, calls, board));
             first <= |history| && Legal(Initial(Read(db, board), first, history), Read(db, board), history, steps)
    ensures var history := Shapes(Room(db, calls, board));
            var w := Run(Initial(Read(db, board), first, history), Read(db, board), history, steps);
            Quiescent(w) && history != [] && |history| - 1 in w.seen ==>
              Screen(w.live) == Read(ServeAll(db, calls), board)
  {
    hide Read, After, Apply, ApplyLog, Run, Legal, Initial, Screen, Quiescent, ReplicaProofs.Legal, ServeAll, Room, Shapes;
    var events := Room(db, calls, board);
    CaughtUp(Read(db, board), first, Shapes(events), steps);
    AfterShapes(Read(db, board), events);
    ReplicaFollowsServer(db, calls, board);
  }

  /** Having seen the last event, a quiescent client shows the board with every write in it. */
  lemma CaughtUp(start: Snapshot, first: nat, history: seq<Change>, steps: seq<Step>)
    requires first <= |history| && Legal(Initial(start, first, history), start, history, steps)
    ensures var w := Run(Initial(start, first, history), start, history, steps);
            Quiescent(w) && history != [] && |history| - 1 in w.seen ==> Screen(w.live) == After(start, history)
  {
    hide After, Run, Legal, Initial;
    LiveLogConverges(start, first, history, steps);
    WithinHistory(start, first, history, steps);
    assert history[..|history|] == history;
  }

  lemma WithinHistory(start: Snapshot, first: nat, history: seq<Change>, steps: seq<Step>)
    requires first <= |history| && Legal(Initial(start, first, history), start, history, steps)
    ensures Run(Initial(start, first, history), start, history, steps).commits <= |history|
  {
    InitialInv(start, first, history);
    RunKeepsInv(Initial(start, first, history), start, history, steps);
  }

  // ------------------------------------------------------- what is on screen

  lemma EventsAppend(entries: seq<LiveEntry>, e: LiveEntry)
    ensures Events(entries + [e]) == Events(entries) + [e.event]
  {
  }

  /**
   * A live change is drawn as it arrives, over everything already on screen: all
   * but a create this client is itself waiting for. Either way a read is due. News
   * of the board itself draws nothing and is read for, a deletion at once.
   */
  lemma FramesAreDrawn(s: LiveState, id: nat, change: Change, pending: bool)
    ensures var (t, effect) := Framed(s, id, change, pending);
            match change
            case Shape(event) =>
              && Screen(t) == (if (event.CardCreated? || event.ColumnCreated?) && pending then Screen(s) else Apply(Screen(s), event))
              && t.timer && effect == Quiet
            case BoardRenamed => Screen(t) == Screen(s) && t.timer && effect == Quiet
            case BoardGone => Screen(t) == Screen(s) && effect == Refresh
  {
    hide Apply;
    if change.Shape? && !(IsCreate(change.event) && pending) {
      EventsAppend(s.entries, LiveEntry(id, change.event, s.readsStarted));
      ApplyLogLast(s.base, Events(s.entries), change.event);
    }
  }

  /** The two lists the counting stands for: what is drawn, and what came since this hook last started a read. */
  datatype Lists = Lists(drawn: seq<Event>, since: seq<Event>)

  function Listed(lists: Lists, history: seq<Change>, step: Step): Lists
    requires step.Observe? ==> step.id < |history|
  {
    match step
    case Observe(id, pending) =>
      (match history[id]
       case Shape(event) =>
         if (event.CardCreated? || event.ColumnCreated?) && pending then lists
         else Lists(lists.drawn + [event], lists.since + [event])
       case BoardRenamed => lists
       case BoardGone => lists.(since := []))
    case TimerFires => lists.(since := [])
    case Resubscribe => Lists([], [])
    case Arrive(_) => lists.(drawn := lists.since)
    case _ => lists
  }

  predicate ObservesHistory(history: seq<Change>, steps: seq<Step>) {
    forall i :: 0 <= i < |steps| && steps[i].Observe? ==> steps[i].id < |history|
  }

  function ListedAll(lists: Lists, history: seq<Change>, steps: seq<Step>): Lists
    requires ObservesHistory(history, steps)
    decreases |steps|
  {
    if steps == [] then lists else ListedAll(Listed(lists, history, steps[0]), history, steps[1..])
  }

  ghost predicate Counts(live: LiveState, lists: Lists) {
    && Events(live.entries) == lists.drawn
    && Events(Kept(live.entries, live.readsStarted)) == lists.since
    && (forall e :: e in live.entries ==> e.readsStarted <= live.readsStarted)
  }

  lemma {:induction false} KeptAppend(entries: seq<LiveEntry>, e: LiveEntry, n: nat)
    ensures Kept(entries + [e], n) == Kept(entries, n) + if e.readsStarted >= n then [e] else []
  {
    if entries == [] {
      assert entries + [e] == [e] && [e][1..] == [];
    } else {
      assert (entries + [e])[1..] == entries[1..] + [e] && (entries + [e])[0] == entries[0];
      KeptAppend(entries[1..], e, n);
    }
  }

  lemma {:induction false} KeptTwice(entries: seq<LiveEntry>, n: nat)
    ensures Kept(Kept(entries, n), n) == Kept(entries, n)
  {
    if entries != [] {
      KeptTwice(entries[1..], n);
      var rest := Kept(entries[1..], n);
      assert ([entries[0]] + rest)[1..] == rest;
      assert [] + rest == rest;
    }
  }

  lemma {:induction false} NoneKept(entries: seq<LiveEntry>, n: nat)
    requires forall e :: e in entries ==> e.readsStarted < n
    ensures Kept(entries, n) == []
  {
    if entries != [] { NoneKept(entries[1..], n); }
  }

  lemma CountsLogged(live: LiveState, lists: Lists, id: nat, event: Event)
    requires Counts(live, lists)
    ensures Counts(live.(entries := live.entries + [LiveEntry(id, event, live.readsStarted)], timer := true),
                   Lists(lists.drawn + [event], lists.since + [event]))
  {
    hide Events, Kept;
    var e := LiveEntry(id, event, live.readsStarted);
    EventsAppend(live.entries, e);
    KeptAppend(live.entries, e, live.readsStarted);
    EventsAppend(Kept(live.entries, live.readsStarted), e);
  }

  lemma CountsStarted(live: LiveState, lists: Lists, timer: bool)
    requires Counts(live, lists)
    ensures Counts(Started(live).(timer := timer), lists.(since := []))
    ensures Counts(Started(live.(entries := [])), Lists([], []))
    ensures Counts(live.(timer := timer), lists)
  {
    NoneKept(live.entries, live.readsStarted + 1);
    assert Kept([], live.readsStarted + 1) == [];
    hide Kept;
  }

  lemma CountsArrived(live: LiveState, lists: Lists, snapshot: Snapshot)
    requires Counts(live, lists)
    ensures Counts(Rendered(live, snapshot), lists.(drawn := lists.since))
  {
    hide Events, Kept;
    KeptTwice(live.entries, live.readsStarted);
  }

  lemma CountsStep(w: World, lists: Lists, start: Snapshot, history: seq<Change>, step: Step)
    requires Counts(w.live, lists) && Enabled(w, history, step)
    ensures Counts(Do(w, start, history, step).live, Listed(lists, history, step))
  {
    hide At, Counts, Rendered, Kept;
    CountsStarted(w.live, lists, w.live.timer);
    CountsStarted(w.live, lists, false);
    CountsStarted(w.live, lists, true);
    match step
    case Observe(id, _) => if history[id].Shape? { CountsLogged(w.live, lists, id, history[id].event); }
    case Arrive(version) => CountsArrived(w.live, lists, At(start, history, version));
    case _ =>
  }

  lemma {:induction false} CountsRun(w: World, lists: Lists, start: Snapshot, history: seq<Change>, steps: seq<Step>)
    requires Counts(w.live, lists) && Legal(w, start, history, steps)
    ensures ObservesHistory(history, steps)
    ensures Counts(Run(w, start, history, steps).live, ListedAll(lists, history, steps))
    decreases |steps|
  {
    hide Counts, Do;
    if steps != [] {
      CountsStep(w, lists, start, history, steps[0]);
      CountsRun(Do(w, start, history, steps[0]), Listed(lists, history, steps[0]), start, history, steps[1..]);
      assert forall i :: 0 < i < |steps| ==> steps[i] == steps[1..][i - 1];
    }
  }

  /**
   * Counting reads is keeping two lists: over every run the board on screen is the
   * last snapshot with, in the order they were observed, the changes observed
   * since the start of the last read this hook had started when that snapshot
   * arrived, and those observed after; none from before a resubscribe.
   */
  lemma ScreenIsWhatCameSince(start: Snapshot, first: nat, history: seq<Change>, steps: seq<Step>)
    requires first <= |history| && Legal(Initial(start, first, history), start, history, steps)
    ensures ObservesHistory(history, steps)
    ensures var w := Run(Initial(start, first, history), start, history, steps);
            && Screen(w.live) == ApplyLog(At(start, history, w.version), ListedAll(Lists([], []), history, steps).drawn)
            && (forall v: Snapshot :: Screen(Rendered(w.live, v)) == ApplyLog(v, ListedAll(Lists([], []), history, steps).since))
  {
    InitialInv(start, first, history);
    RunKeepsInv(Initial(start, first, history), start, history, steps);
    CountsRun(Initial(start, first, history), Lists([], []), start, history, steps);
  }

  // ------------------------------------------------------------ it comes to rest

  /** What is still to happen when nothing more is announced: the timer, the read it starts, the reads in flight. */
  function Due(w: World): nat {
    (if w.live.timer then 2 else 0) + |w.inFlight|
  }

  predicate Rests(step: Step) {
    step.TimerFires? || step.Arrive?
  }

  lemma DueStep(w: World, start: Snapshot, history: seq<Change>, step: Step)
    requires Enabled(w, history, step) && Rests(step)
    ensures Due(Do(w, start, history, step)) + 1 == Due(w)
  {
    hide At, Kept;
  }

  lemma {:induction false} DueRun(w: World, start: Snapshot, history: seq<Change>, steps: seq<Step>)
    requires Legal(w, start, history, steps) && forall i :: 0 <= i < |steps| ==> Rests(steps[i])
    ensures Due(Run(w, start, history, steps)) + |steps| == Due(w)
    decreases |steps|
  {
    hide Do, Enabled, Due;
    if steps != [] {
      DueStep(w, start, history, steps[0]);
      DueRun(Do(w, start, history, steps[0]), start, history, steps[1..]);
    }
  }

  /**
   * It comes to rest: from any point of a run, if nothing more is announced, the
   * timer fires at most once and the reads in flight arrive, in exactly so many
   * steps, one of which can be taken until the hook is quiescent with nothing in flight.
   */
  lemma LiveLogComesToRest(start: Snapshot, first: nat, history: seq<Change>, steps: seq<Step>, more: seq<Step>)
    requires first <= |history| && Legal(Initial(start, first, history), start, history, steps)
    requires Legal(Run(Initial(start, first, history), start, history, steps), start, history, more)
    requires forall i :: 0 <= i < |more| ==> Rests(more[i])
    ensures var w := Run(Initial(start, first, history), start, history, steps); var v := Run(w, start, history, more);
            && |more| <= Due(w)
            && ((exists step :: Rests(step) && Enabled(v, history, step)) <==> |more| < Due(w))
            && (|more| == Due(w) ==> Quiescent(v) && v.inFlight == [] && v.live.entries == [])
  {
    hide Legal, Run, Initial, Inv, Due, Quiescent, Enabled, Rests;
    InitialInv(start, first, history);
    RunKeepsInv(Initial(start, first, history), start, history, steps);
    var w := Run(Initial(start, first, history), start, history, steps);
    RunKeepsInv(w, start, history, more);
    DueRun(w, start, history, more);
    DueExactly(Run(w, start, history, more), start, history);
  }

  /** Something is due exactly while it can happen; otherwise the hook is at rest. */
  lemma DueExactly(w: World, start: Snapshot, history: seq<Change>)
    requires Inv(w, start, history)
    ensures (exists step :: Rests(step) && Enabled(w, history, step)) <==> Due(w) > 0
    ensures Due(w) == 0 ==> Quiescent(w) && w.inFlight == [] && w.live.entries == []
  {
    hide At;
    if w.live.timer {
      assert Rests(TimerFires) && Enabled(w, history, TimerFires);
    } else if w.inFlight != [] {
      assert w.inFlight[0].floor <= w.commits;
      assert Rests(Arrive(w.commits)) && Enabled(w, history, Arrive(w.commits));
    }
  }

  /** At first nothing is due, and the screen is the snapshot. */
  lemma AtFirstNothingIsDue(start: Snapshot, first: nat, history: seq<Change>)
    ensures var w := Initial(start, first, history); Due(w) == 0 && Quiescent(w) && Screen(w.live) == At(start, history, first)
  {
  }

  function Commits(steps: seq<Step>): nat {
    if steps == [] then 0 else Commits(steps[..|steps| - 1]) + if steps[|steps| - 1].Commit? then 1 else 0
  }

  predicate Observed(steps: seq<Step>, id: nat) {
    exists pending :: Observe(id, pending) in steps
  }

  lemma {:induction false} SeenRun(w: World, start: Snapshot, history: seq<Change>, past: seq<Step>, steps: seq<Step>, first: nat)
    requires Legal(w, start, history, steps) && w.commits == first + Commits(past)
    requires forall id :: id in w.seen <==> Observed(past, id)
    ensures var v := Run(w, start, history, steps);
            v.commits == first + Commits(past + steps) && forall id :: id in v.seen <==> Observed(past + steps, id)
    decreases |steps|
  {
    if steps == [] {
      assert past + steps == past;
    } else {
      var v, now := Do(w, start, history, steps[0]), past + [steps[0]];
      SeenStep(w, start, history, steps[0]);
      assert now[..|past|] == past;
      forall id ensures id in v.seen <==> Observed(now, id) {
        if step :| step in now && step.Observe? && step.id == id { assert Observe(id, step.pending) in now; }
        if Observed(past, id) {
          var pending :| Observe(id, pending) in past;
          assert Observe(id, pending) in now;
        }
      }
      hide Do, Enabled, Observed;
      SeenRun(v, start, history, now, steps[1..], first);
      assert now + steps[1..] == past + steps;
    }
  }

  lemma SeenStep(w: World, start: Snapshot, history: seq<Change>, step: Step)
    requires Enabled(w, history, step)
    ensures Do(w, start, history, step).commits == w.commits + if step.Commit? then 1 else 0
    ensures Do(w, start, history, step).seen == w.seen + if step.Observe? then {step.id} else {}
  {
    hide At, Kept;
  }

  /** What is counted as committed and as seen is what the run committed and what it observed. */
  lemma SeenIsWhatWasObserved(start: Snapshot, first: nat, history: seq<Change>, steps: seq<Step>)
    requires Legal(Initial(start, first, history), start, history, steps)
    ensures var w := Run(Initial(start, first, history), start, history, steps);
            w.commits == first + Commits(steps) && forall id :: id in w.seen <==> Observed(steps, id)
  {
    hide At;
    SeenRun(Initial(start, first, history), start, history, [], steps, first);
    assert [] + steps == steps;
  }

  /** A read somebody else started leaves the hook as it was: it retires nothing and quiesces nothing. */
  lemma OtherReadsAreNotCounted(w: World, start: Snapshot, history: seq<Change>)
    ensures Enabled(w, history, OtherRefresh)
    ensures var v := Do(w, start, history, OtherRefresh);
            v.live == w.live && |v.inFlight| == |w.inFlight| + 1 && (OwnReadsArrived(v) <==> OwnReadsArrived(w))
  {
    var v := Do(w, start, history, OtherRefresh);
    assert forall i :: 0 <= i < |w.inFlight| ==> v.inFlight[i] == w.inFlight[i];
  }

  /** A read that includes the first so many writes shows the board with exactly those drawn. */
  lemma AReadIsAPrefix(start: Snapshot, events: seq<Event>, version: nat)
    requires version <= |events|
    ensures At(start, Shapes(events), version) == ApplyLog(start, events[..version])
  {
    AfterShapes(start, events[..version]);
    assert Shapes(events)[..version] == Shapes(events[..version]);
    hide After, ApplyLog;
  }

  /**
   * What the world around the hook can do: writes commit while there are any, an
   * event is observed any time after its write, the stream resubscribes and others
   * refresh at any time, and a read that arrives includes at least what had
   * committed when it started.
   */
  lemma AroundTheHook(w: World, history: seq<Change>, id: nat, pending: bool, version: nat)
    requires w.commits <= |history|
    ensures Enabled(w, history, Commit) <==> w.commits < |history|
    ensures Enabled(w, history, Observe(id, pending)) <==> id < w.commits
    ensures Enabled(w, history, Resubscribe) && Enabled(w, history, OtherRefresh)
    ensures Enabled(w, history, TimerFires) <==> w.live.timer
    ensures w.inFlight != [] ==> (Enabled(w, history, Arrive(version)) <==> w.inFlight[0].floor <= version <= w.commits)
  {
  }
}
