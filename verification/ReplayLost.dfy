/**
 * Logs a server does publish that do not replay freely: two moves of which the
 * later moves the anchor of the earlier; one move, behind a column that is deleted
 * later; and moves through a column that is deleted later, which lose a card.
 */
module ReplayLost {
  import opened Wrappers
  import opened Ordering
  import opened Ranks
  import opened RankedList
  import opened Board
  import opened BoardRefinement
  import opened Replica
  import opened Replay
  import opened Outlines
  import opened SteadyLogs
  import opened SteadyReplay
  import P = ReplicaProofs

  /** A full read taken after all of a run, with the run's own log folded over it again. */
  ghost predicate ReplaysFreely(db: Db, calls: seq<P.Call>, board: Id) {
    ApplyLog(Read(P.ServeAll(db, calls), board), P.Room(db, calls, board)) == Read(P.ServeAll(db, calls), board)
  }

  /** The order of a board's columns, through an event. */
  function Reorder(order: seq<Id>, event: Event): seq<Id> {
    match event
    case ColumnCreated(column) => if column.id in order then order else order + [column.id]
    case ColumnMoved(column, after) =>
      if column.id in order && (after.Some? ==> after.value in Without(order, column.id))
      then PlaceAfter(Without(order, column.id), after, column.id) else order
    case ColumnDeleted(column) => Without(order, column)
    case _ => order
  }

  function ReorderAll(order: seq<Id>, log: seq<Event>): seq<Id>
    decreases |log|
  {
    if log == [] then order else ReorderAll(Reorder(order, log[0]), log[1..])
  }

  lemma ReorderFirst(order: seq<Id>, event: Event, log: seq<Event>, end: seq<Id>)
    requires ReorderAll(Reorder(order, event), log) == end
    ensures ReorderAll(order, [event] + log) == end
  {
    assert ([event] + log)[1..] == log;
  }

  lemma {:induction false} OrderDrawn(o: Outline, log: seq<Event>)
    ensures DrawAll(o, log).order == ReorderAll(o.order, log)
    decreases |log|
  {
    hide PlaceAfter, Without;
    if log != [] { OrderDrawn(Draw(o, log[0]), log[1..]); }
  }

  /** A replay that leaves the columns in another order is not free. */
  lemma OrderTells(db: Db, calls: seq<P.Call>, board: Id)
    requires ReorderAll(ColumnList(P.ServeAll(db, calls), board), P.Room(db, calls, board)) != ColumnList(P.ServeAll(db, calls), board)
    ensures !ReplaysFreely(db, calls, board)
  {
    var read, log := P.ServeAll(db, calls), P.Room(db, calls, board);
    hide Read, OutlineOf, Tidy, ReorderAll, P.ServeAll, P.Room, ColumnList;
    ReadIsTidy(read, board);
    ReadOutline(read, board);
    LogDrawsOutline(Read(read, board), log);
    OrderDrawn(OutlineOf(Read(read, board)), log);
  }

  // --------------------------------------------------------- lists of columns

  function Row(rank: int): ColumnRow { ColumnRow(0, "", Whole(rank)) }

  /** One board with these columns, unnamed, and no cards. */
  function ColumnsOf(order: seq<Id>): Db {
    Db({0}, {}, map k | k in order :: Row(IndexOf(order, k) + 1), map[])
  }

  function Body(k: Id): Column { Column(k, 0, "") }

  lemma RanksOf(order: seq<Id>)
    requires NoDuplicates(order)
    ensures ColumnRanks(ColumnsOf(order), 0).Keys == set k | k in order
    ensures forall i :: 0 <= i < |order| ==> order[i] in order && ColumnRanks(ColumnsOf(order), 0)[order[i]].value == (i + 1) as real
  {
    forall i | 0 <= i < |order| ensures order[i] in order && IndexOf(order, order[i]) == i { IndexIs(order, i); }
  }

  lemma ColumnMoveGoes(db: Db, x: Id, after: Option<Id>)
    requires Valid(db) && x in db.columns
    requires after.Some? ==> after.value in Without(ColumnList(db, db.columns[x].board), x)
    ensures DoMoveColumn(db, x, after).Success?
  {
    var ranks := ColumnRanks(db, db.columns[x].board);
    RemovalKeepsOrder(Sorted(ranks), ranks, x);
    assert forall k :: k in Keys(ranks - {x}) <==> k in Without(ColumnList(db, db.columns[x].board), x);
    hide Allocate, Renumbered;
  }

  /** One board, its columns unnamed and in this order. */
  ghost predicate Board0(db: Db, order: seq<Id>) {
    && Valid(db) && db.boards == {0} && ColumnList(db, 0) == order && NoDuplicates(order)
    && (forall k :: k in db.columns <==> k in order)
    && (forall k :: k in db.columns ==> ColumnBody(db, k) == Body(k))
  }

  lemma ListedInOrder(order: seq<Id>, ranks: RankMap)
    requires ranks.Keys == set k | k in order
    requires forall i :: 0 <= i < |order| ==> order[i] in ranks && ranks[order[i]].value == (i + 1) as real
    ensures Sorted(ranks) == order
  {
    forall i | 0 <= i < |order| ensures order[i] in Keys(ranks) { assert order[i] in ranks; }
    forall x | x in Keys(ranks) ensures x in order { assert x in ranks.Keys; }
    hide Sorted;
    SortedIsTheListing(order, ranks);
  }

  lemma StandsValid(order: seq<Id>)
    requires NoDuplicates(order)
    ensures Valid(ColumnsOf(order))
  {
    var db := ColumnsOf(order);
    RanksOf(order);
    DistinctInOrder(order, ColumnRanks(db, 0));
    forall board ensures Distinct(ColumnRanks(db, board)) {
      if board != 0 { assert ColumnRanks(db, board) == map[]; }
    }
    forall column ensures Distinct(CardRanks(db, column)) { assert CardRanks(db, column) == map[]; }
  }

  lemma Stands(order: seq<Id>)
    requires NoDuplicates(order)
    ensures Valid(ColumnsOf(order)) && Board0(ColumnsOf(order), order)
  {
    StandsValid(order);
    RanksOf(order);
    ListedInOrder(order, ColumnRanks(ColumnsOf(order), 0));
    hide Valid, NoDuplicates, ColumnRanks;
  }

  lemma DistinctInOrder(order: seq<Id>, ranks: RankMap)
    requires ranks.Keys == set k | k in order
    requires forall i :: 0 <= i < |order| ==> order[i] in ranks && ranks[order[i]].value == (i + 1) as real
    ensures Distinct(ranks)
  {
    forall x, y | x in ranks && y in ranks && x != y ensures ranks[x].value != ranks[y].value {
      var i :| 0 <= i < |order| && order[i] == x;
      var j :| 0 <= j < |order| && order[j] == y;
    }
  }

  /** What a request did, and said. */
  ghost predicate Does(db: Db, request: Request, event: Event, next: Db) {
    FreshId(db, request) && Handle(db, request) == Success(Done(next, Published(0, event)))
  }

  lemma Moves(db: Db, order: seq<Id>, x: Id, after: Option<Id>, moved: seq<Id>) returns (next: Db)
    requires Board0(db, order) && x in order && (after.Some? ==> after.value in Without(order, x))
    requires PlaceAfter(Without(order, x), after, x) == moved
    ensures Board0(next, moved) && Does(db, MoveColumn(x, after), ColumnMoved(Body(x), after), next)
  {
    hide ColumnList, DoMoveColumn, Valid, PlaceAfter, Without, NoDuplicates;
    assert db.columns[x].board == 0 by { assert ColumnBody(db, x) == Body(x); }
    ColumnMoveGoes(db, x, after);
    P.MoveColumnSucceeds(db, x, after);
    MoveColumnRefines(db, x, after);
    next := DoMoveColumn(db, x, after).value.db;
    WithoutIs(order, x);
    PlaceAfterIs(Without(order, x), after, x);
  }

  lemma CreatesRow(db: Db, x: Id)
    requires 0 in db.boards
    ensures var r := DoCreateColumn(db, 0, "", x);
            && r.Success? && r.value.published == Published(0, ColumnCreated(Body(x)))
            && r.value.db.boards == db.boards && r.value.db.columns.Keys == db.columns.Keys + {x}
            && ColumnBody(r.value.db, x) == Body(x)
            && forall k :: k in db.columns && k != x ==> r.value.db.columns[k] == db.columns[k]
  {
    hide Next, ColumnRanks;
  }

  lemma Creates(db: Db, order: seq<Id>, x: Id) returns (next: Db)
    requires Board0(db, order) && x !in order
    ensures Board0(next, order + [x]) && Does(db, CreateColumn(0, "", x), ColumnCreated(Body(x)), next)
  {
    hide ColumnList, Valid, DoCreateColumn;
    CreateColumnRefines(db, 0, "", x) by { CreatesRow(db, x); }
    CreatesRow(db, x);
    next := DoCreateColumn(db, 0, "", x).value.db;
    assert forall k :: k in next.columns ==> ColumnBody(next, k) == Body(k);
  }

  lemma Deletes(db: Db, order: seq<Id>, x: Id) returns (next: Db)
    requires Board0(db, order) && x in order
    ensures Board0(next, Without(order, x)) && Does(db, DeleteColumn(x), ColumnDeleted(x), next)
  {
    hide ColumnList, Valid, Without, NoDuplicates;
    assert db.columns[x].board == 0 by { assert ColumnBody(db, x) == Body(x); }
    DeleteColumnRefines(db, x);
    next := DoDeleteColumn(db, x).value.db;
    WithoutIs(order, x);
    assert forall k :: k in next.columns ==> ColumnBody(next, k) == ColumnBody(db, k);
  }

  /** A script of calls that all commit, with its log and where it ends. */
  ghost predicate Scripted(db: Db, calls: seq<P.Call>, log: seq<Event>, end: Db) {
    P.Legal(db, calls) && P.Room(db, calls, 0) == log && P.ServeAll(db, calls) == end
  }

  lemma OneMore(db: Db, request: Request, event: Event, next: Db, rest: seq<P.Call>, log: seq<Event>, end: Db)
    requires Does(db, request, event, next) && Scripted(next, rest, log, end)
    ensures Scripted(db, [P.Call(request, true)] + rest, [event] + log, end)
  {
    hide Handle, FreshId;
    assert ([P.Call(request, true)] + rest)[1..] == rest;
  }

  lemma NoMore(db: Db)
    ensures Scripted(db, [], [], db)
  {
  }

  // ------------------------------------------------- an anchor moved afterwards

  const TwoMoves: seq<P.Call> := [P.Call(MoveColumn(3, Some(1)), true)] + ([P.Call(MoveColumn(1, Some(2)), true)] + [])

  const TwoMovesLog: seq<Event> := [ColumnMoved(Body(3), Some(1))] + ([ColumnMoved(Body(1), Some(2))] + [])

  /** Lifting one out of three or four and putting it behind another. */
  lemma LiftAndPlace(order: seq<Id>, a: seq<Id>, x: Id, b: seq<Id>, c: seq<Id>, p: Id, d: seq<Id>)
    requires NoDuplicates(order) && order == a + [x] + b && a + b == c + [p] + d
    ensures p in Without(order, x) && PlaceAfter(Without(order, x), Some(p), x) == c + [p] + [x] + d
  {
    WithoutMiddle(a, x, b);
    WithoutIs(order, x);
    Behind(c, p, d, x);
  }

  lemma ThirdBehindFirst()
    ensures 1 in Without([1, 2, 3], 3) && PlaceAfter(Without([1, 2, 3], 3), Some(1), 3) == [1, 3, 2]
  {
    hide PlaceAfter, Without;
    assert [1, 2] + [3] + [] == [1, 2, 3] && [1, 2] + [] == [] + [1] + [2];
    LiftAndPlace([1, 2, 3], [1, 2], 3, [], [], 1, [2]);
    assert [] + [1] + [3] + [2] == [1, 3, 2];
  }

  lemma FirstBehindLast()
    ensures 2 in Without([1, 3, 2], 1) && PlaceAfter(Without([1, 3, 2], 1), Some(2), 1) == [3, 2, 1]
  {
    hide PlaceAfter, Without;
    assert [] + [1] + [3, 2] == [1, 3, 2] && [] + [3, 2] == [3] + [2] + [];
    LiftAndPlace([1, 3, 2], [], 1, [3, 2], [3], 2, []);
    assert [3] + [2] + [1] + [] == [3, 2, 1];
  }

  lemma TwoMovesRun() returns (end: Db)
    ensures Scripted(ColumnsOf([1, 2, 3]), TwoMoves, TwoMovesLog, end) && Board0(end, [3, 2, 1])
  {
    hide Board0, Does, Scripted, PlaceAfter, Without;
    Stands([1, 2, 3]);
    ThirdBehindFirst();
    var next := Moves(ColumnsOf([1, 2, 3]), [1, 2, 3], 3, Some(1), [1, 3, 2]);
    FirstBehindLast();
    end := Moves(next, [1, 3, 2], 1, Some(2), [3, 2, 1]);
    NoMore(end);
    OneMore(next, MoveColumn(1, Some(2)), ColumnMoved(Body(1), Some(2)), end, [], [], end);
    OneMore(ColumnsOf([1, 2, 3]), MoveColumn(3, Some(1)), ColumnMoved(Body(3), Some(1)), next,
            [P.Call(MoveColumn(1, Some(2)), true)] + [], [ColumnMoved(Body(1), Some(2))] + [], end);
  }

  lemma TwoMovesReordered()
    ensures ReorderAll([3, 2, 1], TwoMovesLog) == [2, 1, 3]
  {
    hide PlaceAfter, Without;
    ThirdBehindLast();
    FirstStays();
    assert Reorder([3, 2, 1], ColumnMoved(Body(3), Some(1))) == [2, 1, 3];
    assert Reorder([2, 1, 3], ColumnMoved(Body(1), Some(2))) == [2, 1, 3];
    assert ReorderAll([2, 1, 3], []) == [2, 1, 3];
    hide Reorder, ReorderAll;
    ReorderFirst([2, 1, 3], ColumnMoved(Body(1), Some(2)), [], [2, 1, 3]);
    ReorderFirst([3, 2, 1], ColumnMoved(Body(3), Some(1)), [ColumnMoved(Body(1), Some(2))] + [], [2, 1, 3]);
  }

  lemma ThirdBehindLast()
    ensures 1 in Without([3, 2, 1], 3) && PlaceAfter(Without([3, 2, 1], 3), Some(1), 3) == [2, 1, 3]
  {
    hide PlaceAfter, Without;
    assert [] + [3] + [2, 1] == [3, 2, 1] && [] + [2, 1] == [2] + [1] + [];
    LiftAndPlace([3, 2, 1], [], 3, [2, 1], [2], 1, []);
    assert [2] + [1] + [3] + [] == [2, 1, 3];
  }

  lemma FirstStays()
    ensures 2 in Without([2, 1, 3], 1) && PlaceAfter(Without([2, 1, 3], 1), Some(2), 1) == [2, 1, 3]
  {
    hide PlaceAfter, Without;
    assert [2] + [1] + [3] == [2, 1, 3] && [2] + [3] == [] + [2] + [3];
    LiftAndPlace([2, 1, 3], [2], 1, [3], [], 2, [3]);
    assert [] + [2] + [1] + [3] == [2, 1, 3];
  }

  lemma ScriptsAndOrders(db: Db, calls: seq<P.Call>, log: seq<Event>, end: Db, order: seq<Id>)
    requires Scripted(db, calls, log, end) && Board0(end, order) && ReorderAll(order, log) != order
    ensures P.Legal(db, calls) && P.Room(db, calls, 0) == log && !ReplaysFreely(db, calls, 0)
  {
    hide ReplaysFreely, ReorderAll, ColumnList;
    OrderTells(db, calls, 0);
  }

  /** Two column moves, the second of the first one's anchor: the replay reorders the columns. */
  lemma AMovedAnchorIsLost()
    ensures Valid(ColumnsOf([1, 2, 3])) && P.Legal(ColumnsOf([1, 2, 3]), TwoMoves) && P.Room(ColumnsOf([1, 2, 3]), TwoMoves, 0) == TwoMovesLog
    ensures !ReplaysFreely(ColumnsOf([1, 2, 3]), TwoMoves, 0)
  {
    hide P.Legal, P.Room, ReplaysFreely, ReorderAll, Scripted, Reorder, Valid, ColumnList;
    Stands([1, 2, 3]);
    var end := TwoMovesRun();
    TwoMovesReordered();
    assert [3, 2, 1][0] != [2, 1, 3][0];
    ScriptsAndOrders(ColumnsOf([1, 2, 3]), TwoMoves, TwoMovesLog, end, [3, 2, 1]);
  }

  // ------------------------------------------------------ of any longer length

  /** A column given the name it has, any number of times first. */
  function Renaming(n: nat, calls: seq<P.Call>): seq<P.Call> {
    if n == 0 then calls else [P.Call(RenameColumn(1, ""), true)] + Renaming(n - 1, calls)
  }

  function RenamingLog(n: nat, log: seq<Event>): (r: seq<Event>)
    ensures |r| == n + |log|
  {
    if n == 0 then log else [ColumnUpdated(Body(1))] + RenamingLog(n - 1, log)
  }

  lemma Renames(db: Db, order: seq<Id>)
    requires Board0(db, order) && 1 in order
    ensures Does(db, RenameColumn(1, ""), ColumnUpdated(Body(1)), db)
  {
    hide Valid, ColumnList;
    assert ColumnBody(db, 1) == Body(1);
    assert db.columns[1 := db.columns[1].(name := "")] == db.columns;
  }

  lemma {:induction false} RenamedFirst(db: Db, order: seq<Id>, calls: seq<P.Call>, log: seq<Event>, end: Db, n: nat)
    requires Board0(db, order) && 1 in order && Scripted(db, calls, log, end)
    ensures Scripted(db, Renaming(n, calls), RenamingLog(n, log), end)
  {
    hide Board0, Scripted, Does;
    if n > 0 {
      RenamedFirst(db, order, calls, log, end, n - 1);
      Renames(db, order);
      OneMore(db, RenameColumn(1, ""), ColumnUpdated(Body(1)), db, Renaming(n - 1, calls), RenamingLog(n - 1, log), end);
    }
  }

  lemma ALongerRunIsLost(n: nat)
    ensures Valid(ColumnsOf([1, 2, 3])) && P.Legal(ColumnsOf([1, 2, 3]), Renaming(n, TwoMoves))
    ensures |P.Room(ColumnsOf([1, 2, 3]), Renaming(n, TwoMoves), 0)| == n + 2
    ensures !ReplaysFreely(ColumnsOf([1, 2, 3]), Renaming(n, TwoMoves), 0)
  {
    hide P.Legal, P.Room, ReplaysFreely, ReorderAll, Scripted, Reorder, Valid, ColumnList;
    Stands([1, 2, 3]);
    var end := TwoMovesRun();
    assert 1 in [1, 2, 3] && 1 in [3, 2, 1];
    RenamedFirst(ColumnsOf([1, 2, 3]), [1, 2, 3], TwoMoves, TwoMovesLog, end, n);
    ReorderedThrough([3, 2, 1], n, TwoMovesLog);
    TwoMovesReordered();
    assert [3, 2, 1][0] != [2, 1, 3][0];
    ScriptsAndOrders(ColumnsOf([1, 2, 3]), Renaming(n, TwoMoves), RenamingLog(n, TwoMovesLog), end, [3, 2, 1]);
  }

  lemma {:induction false} ReorderedThrough(order: seq<Id>, n: nat, log: seq<Event>)
    ensures ReorderAll(order, RenamingLog(n, log)) == ReorderAll(order, log)
  {
    if n > 0 {
      ReorderedThrough(order, n - 1, log);
      hide ReorderAll;
      ReorderFirst(order, ColumnUpdated(Body(1)), RenamingLog(n - 1, log), ReorderAll(order, log));
    }
  }

  /** Every run whose log has this length replays freely over the read it leads to. */
  ghost predicate EveryRunReplays(k: nat) {
    forall db: Db, calls: seq<P.Call>, board: Id ::
      Valid(db) && P.Legal(db, calls) && |P.Room(db, calls, board)| == k ==> ReplaysFreely(db, calls, board)
  }

  /** By its length alone a log a server published is known to replay freely exactly up to one event. */
  lemma ReplayIsFreeExactlyUpToOne(k: nat)
    ensures EveryRunReplays(k) <==> k <= 1
  {
    if k <= 1 {
      forall db: Db, calls: seq<P.Call>, board: Id | Valid(db) && P.Legal(db, calls) && |P.Room(db, calls, board)| == k
        ensures ReplaysFreely(db, calls, board)
      {
        AtMostOneReplays(db, calls, board);
      }
    } else {
      hide Valid, P.Legal, P.Room, ReplaysFreely;
      ALongerRunIsLost(k - 2);
    }
  }

  lemma AtMostOneReplays(db: Db, calls: seq<P.Call>, board: Id)
    requires Valid(db) && P.Legal(db, calls) && |P.Room(db, calls, board)| <= 1
    ensures ReplaysFreely(db, calls, board)
  {
    hide Read, Valid, P.Legal, P.Room, P.ServeAll, ApplyLog;
    var log := P.Room(db, calls, board);
    P.ReplicaFollowsServer(db, calls, board);
    ReadOutline(db, board);
    UpToOneEventAgrees(Read(db, board), log, |log|);
    assert log[..|log|] == log;
  }

  // ----------------------------------------------- an anchor deleted afterwards

  const OneMove: seq<P.Call> :=
    [P.Call(CreateColumn(0, "", 3), true)] + ([P.Call(MoveColumn(2, Some(3)), true)]
    + ([P.Call(CreateColumn(0, "", 4), true)] + ([P.Call(DeleteColumn(3), true)] + [])))

  const OneMoveLog: seq<Event> :=
    [ColumnCreated(Body(3))] + ([ColumnMoved(Body(2), Some(3))] + ([ColumnCreated(Body(4))] + ([ColumnDeleted(3)] + [])))

  lemma SecondBehindThird()
    ensures 3 in Without([1, 2, 3], 2) && PlaceAfter(Without([1, 2, 3], 2), Some(3), 2) == [1, 3, 2]
  {
    hide PlaceAfter, Without;
    assert [1] + [2] + [3] == [1, 2, 3] && [1] + [3] == [1] + [3] + [];
    LiftAndPlace([1, 2, 3], [1], 2, [3], [1], 3, []);
    assert [1] + [3] + [2] + [] == [1, 3, 2];
  }

  lemma ThirdGoes()
    ensures Without([1, 3, 2, 4], 3) == [1, 2, 4]
  {
    hide PlaceAfter, Without;
    assert [1] + [3] + [2, 4] == [1, 3, 2, 4] && [1] + [2, 4] == [1, 2, 4];
    WithoutMiddle([1], 3, [2, 4]);
  }

  lemma OneMoveRun() returns (end: Db)
    ensures Scripted(ColumnsOf([1, 2]), OneMove, OneMoveLog, end) && Board0(end, [1, 2, 4])
  {
    hide Board0, Does, Scripted, PlaceAfter, Without;
    Stands([1, 2]);
    var a := Creates(ColumnsOf([1, 2]), [1, 2], 3);
    assert [1, 2] + [3] == [1, 2, 3];
    SecondBehindThird();
    var b := Moves(a, [1, 2, 3], 2, Some(3), [1, 3, 2]);
    var c := Creates(b, [1, 3, 2], 4);
    assert [1, 3, 2] + [4] == [1, 3, 2, 4];
    ThirdGoes();
    end := Deletes(c, [1, 3, 2, 4], 3);
    NoMore(end);
    OneMore(c, DeleteColumn(3), ColumnDeleted(3), end, [], [], end);
    OneMore(b, CreateColumn(0, "", 4), ColumnCreated(Body(4)), c,
            [P.Call(DeleteColumn(3), true)] + [], [ColumnDeleted(3)] + [], end);
    OneMore(a, MoveColumn(2, Some(3)), ColumnMoved(Body(2), Some(3)), b,
            [P.Call(CreateColumn(0, "", 4), true)] + ([P.Call(DeleteColumn(3), true)] + []),
            [ColumnCreated(Body(4))] + ([ColumnDeleted(3)] + []), end);
    OneMore(ColumnsOf([1, 2]), CreateColumn(0, "", 3), ColumnCreated(Body(3)), a,
            [P.Call(MoveColumn(2, Some(3)), true)] + ([P.Call(CreateColumn(0, "", 4), true)] + ([P.Call(DeleteColumn(3), true)] + [])),
            [ColumnMoved(Body(2), Some(3))] + ([ColumnCreated(Body(4))] + ([ColumnDeleted(3)] + [])), end);
  }

  lemma SecondBehindLast()
    ensures 3 in Without([1, 2, 4, 3], 2) && PlaceAfter(Without([1, 2, 4, 3], 2), Some(3), 2) == [1, 4, 3, 2]
  {
    hide PlaceAfter, Without;
    assert [1] + [2] + [4, 3] == [1, 2, 4, 3] && [1] + [4, 3] == [1, 4] + [3] + [];
    LiftAndPlace([1, 2, 4, 3], [1], 2, [4, 3], [1, 4], 3, []);
    assert [1, 4] + [3] + [2] + [] == [1, 4, 3, 2];
  }

  lemma ThirdGoesAgain()
    ensures Without([1, 4, 3, 2], 3) == [1, 4, 2]
  {
    hide Without;
    assert [1, 4] + [3] + [2] == [1, 4, 3, 2] && [1, 4] + [2] == [1, 4, 2];
    WithoutMiddle([1, 4], 3, [2]);
  }

  lemma OneMoveReordered()
    ensures ReorderAll([1, 2, 4], OneMoveLog) == [1, 4, 2]
  {
    hide PlaceAfter, Without;
    SecondBehindLast();
    ThirdGoesAgain();
    assert [1, 2, 4] + [3] == [1, 2, 4, 3];
    assert Reorder([1, 2, 4], ColumnCreated(Body(3))) == [1, 2, 4, 3];
    assert Reorder([1, 2, 4, 3], ColumnMoved(Body(2), Some(3))) == [1, 4, 3, 2];
    assert Reorder([1, 4, 3, 2], ColumnCreated(Body(4))) == [1, 4, 3, 2] by { assert [1, 4, 3, 2][1] == 4; }
    assert Reorder([1, 4, 3, 2], ColumnDeleted(3)) == [1, 4, 2];
    assert ReorderAll([1, 4, 2], []) == [1, 4, 2];
    hide Reorder, ReorderAll;
    ReorderFirst([1, 4, 3, 2], ColumnDeleted(3), [], [1, 4, 2]);
    ReorderFirst([1, 4, 3, 2], ColumnCreated(Body(4)), [ColumnDeleted(3)] + [], [1, 4, 2]);
    ReorderFirst([1, 2, 4, 3], ColumnMoved(Body(2), Some(3)), [ColumnCreated(Body(4))] + ([ColumnDeleted(3)] + []), [1, 4, 2]);
    ReorderFirst([1, 2, 4], ColumnCreated(Body(3)),
                 [ColumnMoved(Body(2), Some(3))] + ([ColumnCreated(Body(4))] + ([ColumnDeleted(3)] + [])), [1, 4, 2]);
  }

  /** A single move, behind a column that is deleted later: one move a list is not enough. */
  lemma ADeletedAnchorIsLost()
    ensures Valid(ColumnsOf([1, 2])) && P.Legal(ColumnsOf([1, 2]), OneMove) && P.Room(ColumnsOf([1, 2]), OneMove, 0) == OneMoveLog
    ensures !ReplaysFreely(ColumnsOf([1, 2]), OneMove, 0)
  {
    hide P.Legal, P.Room, ReplaysFreely, ReorderAll, Scripted, Reorder, Valid, ColumnList;
    Stands([1, 2]);
    var end := OneMoveRun();
    OneMoveReordered();
    assert [1, 2, 4][1] != [1, 4, 2][1];
    ScriptsAndOrders(ColumnsOf([1, 2]), OneMove, OneMoveLog, end, [1, 2, 4]);
  }

  // ------------------------------------------ through a column deleted afterwards

  const Blank: Details := Details("", "", None, None)

  function CardAt(c: Id, k: Id): Card { Card(c, 0, k, Blank) }

  /** One board, its columns, and blank cards in these columns. */
  ghost predicate Cards0(db: Db, columns: set<Id>, place: map<Id, Id>) {
    && Valid(db) && db.boards == {0}
    && (forall k :: k in db.columns <==> k in columns)
    && (forall k :: k in db.columns ==> ColumnBody(db, k) == Body(k))
    && (forall c :: c in db.cards <==> c in place)
    && (forall c :: c in place && c in db.cards ==> CardBody(db, c) == CardAt(c, place[c]))
  }

  lemma CardMoveGoes(db: Db, card: Id, column: Id, after: Option<Id>)
    requires card in db.cards && column in db.columns && db.cards[card].board == db.columns[column].board
    requires after.Some? ==> after.value != card && after.value in db.cards && db.cards[after.value].column == column
    ensures DoMoveCard(db, card, column, after).Success?
  {
    hide Allocate, Renumbered;
  }

  lemma MovesCard(db: Db, columns: set<Id>, place: map<Id, Id>, card: Id, k: Id, after: Option<Id>) returns (next: Db)
    requires Cards0(db, columns, place) && card in place && k in columns
    requires after.Some? ==> after.value != card && after.value in place && place[after.value] == k
    ensures Cards0(next, columns, place[card := k])
    ensures Does(db, MoveCard(card, k, after), CardMoved(CardAt(card, k), place[card], after), next)
  {
    hide DoMoveCard, Valid, CardList, ColumnList, Without, PlaceAfter;
    assert CardBody(db, card) == CardAt(card, place[card]) && ColumnBody(db, k) == Body(k);
    if after.Some? { assert CardBody(db, after.value) == CardAt(after.value, k); }
    CardMoveGoes(db, card, k, after);
    P.MoveCardSucceeds(db, card, k, after);
    MoveCardRefines(db, card, k, after);
    next := DoMoveCard(db, card, k, after).value.db;
  }

  lemma CreatesOnBoard(db: Db, columns: set<Id>, place: map<Id, Id>, x: Id) returns (next: Db)
    requires Cards0(db, columns, place) && x !in columns
    ensures Cards0(next, columns + {x}, place) && Does(db, CreateColumn(0, "", x), ColumnCreated(Body(x)), next)
  {
    hide Valid, DoCreateColumn, CardList, ColumnList;
    CreatesRow(db, x);
    CreateColumnRefines(db, 0, "", x);
    next := DoCreateColumn(db, 0, "", x).value.db;
    assert forall k :: k in next.columns ==> ColumnBody(next, k) == Body(k);
    forall c | c in place && c in next.cards ensures CardBody(next, c) == CardAt(c, place[c]) {
      assert CardBody(db, c) == CardAt(c, place[c]);
    }
  }

  lemma DeletesOnBoard(db: Db, columns: set<Id>, place: map<Id, Id>, x: Id) returns (next: Db)
    requires Cards0(db, columns, place) && x in columns && forall c :: c in place ==> place[c] != x
    ensures Cards0(next, columns - {x}, place) && Does(db, DeleteColumn(x), ColumnDeleted(x), next)
  {
    hide Valid, CardList, ColumnList, Without;
    assert ColumnBody(db, x) == Body(x);
    DeleteColumnRefines(db, x);
    next := DoDeleteColumn(db, x).value.db;
    assert forall k :: k in next.columns ==> ColumnBody(next, k) == ColumnBody(db, k);
    forall c | c in place && c in db.cards ensures db.cards[c].column != x { assert CardBody(db, c) == CardAt(c, place[c]); }
    forall c | c in place && c in next.cards ensures CardBody(next, c) == CardAt(c, place[c]) {
      assert CardBody(db, c) == CardAt(c, place[c]);
    }
  }

  /** Columns 1 and 2; cards 10 and 11 in column 1. */
  const TwoCards: Db := Db({0}, {}, map[1 := Row(1), 2 := Row(2)],
                           map[10 := CardRow(0, 1, Blank, Whole(1)), 11 := CardRow(0, 1, Blank, Whole(2))])

  lemma TwoCardsStand()
    ensures Cards0(TwoCards, {1, 2}, map[10 := 1, 11 := 1])
  {
    forall column ensures Distinct(CardRanks(TwoCards, column)) {}
    forall board ensures Distinct(ColumnRanks(TwoCards, board)) {}
  }

  const Detour: seq<P.Call> :=
    [P.Call(CreateColumn(0, "", 3), true)] + ([P.Call(MoveCard(10, 3, None), true)]
    + ([P.Call(MoveCard(10, 1, Some(11)), true)] + ([P.Call(DeleteColumn(3), true)]
    + ([P.Call(MoveCard(11, 2, None), true)] + ([P.Call(MoveCard(10, 1, None), true)] + [])))))

  const DetourLog: seq<Event> :=
    [ColumnCreated(Body(3))] + ([CardMoved(CardAt(10, 3), 1, None)]
    + ([CardMoved(CardAt(10, 1), 3, Some(11))] + ([ColumnDeleted(3)]
    + ([CardMoved(CardAt(11, 2), 1, None)] + ([CardMoved(CardAt(10, 1), 1, None)] + [])))))

  lemma DetourRun() returns (end: Db)
    ensures Scripted(TwoCards, Detour, DetourLog, end) && Cards0(end, {1, 2}, map[10 := 1, 11 := 2])
  {
    hide Cards0, Does, Scripted;
    TwoCardsStand();
    var a := CreatesOnBoard(TwoCards, {1, 2}, map[10 := 1, 11 := 1], 3);
    assert {1, 2} + {3} == {1, 2, 3};
    var b := MovesCard(a, {1, 2, 3}, map[10 := 1, 11 := 1], 10, 3, None);
    assert map[10 := 1, 11 := 1][10 := 3] == map[10 := 3, 11 := 1];
    var c := MovesCard(b, {1, 2, 3}, map[10 := 3, 11 := 1], 10, 1, Some(11));
    assert map[10 := 3, 11 := 1][10 := 1] == map[10 := 1, 11 := 1];
    var d := DeletesOnBoard(c, {1, 2, 3}, map[10 := 1, 11 := 1], 3);
    assert {1, 2, 3} - {3} == {1, 2};
    var e := MovesCard(d, {1, 2}, map[10 := 1, 11 := 1], 11, 2, None);
    assert map[10 := 1, 11 := 1][11 := 2] == map[10 := 1, 11 := 2];
    end := MovesCard(e, {1, 2}, map[10 := 1, 11 := 2], 10, 1, None);
    assert map[10 := 1, 11 := 2][10 := 1] == map[10 := 1, 11 := 2];
    NoMore(end);
    DetourLogged(a, b, c, d, e, end);
  }

  lemma DetourLogged(a: Db, b: Db, c: Db, d: Db, e: Db, end: Db)
    requires Does(TwoCards, CreateColumn(0, "", 3), ColumnCreated(Body(3)), a)
    requires Does(a, MoveCard(10, 3, None), CardMoved(CardAt(10, 3), 1, None), b)
    requires Does(b, MoveCard(10, 1, Some(11)), CardMoved(CardAt(10, 1), 3, Some(11)), c)
    requires Does(c, DeleteColumn(3), ColumnDeleted(3), d)
    requires Does(d, MoveCard(11, 2, None), CardMoved(CardAt(11, 2), 1, None), e)
    requires Does(e, MoveCard(10, 1, None), CardMoved(CardAt(10, 1), 1, None), end)
    ensures Scripted(TwoCards, Detour, DetourLog, end)
  {
    hide Does, Scripted;
    NoMore(end);
    var calls: seq<P.Call>, log: seq<Event> := [], [];
    OneMore(e, MoveCard(10, 1, None), CardMoved(CardAt(10, 1), 1, None), end, calls, log, end);
    calls, log := [P.Call(MoveCard(10, 1, None), true)] + calls, [CardMoved(CardAt(10, 1), 1, None)] + log;
    OneMore(d, MoveCard(11, 2, None), CardMoved(CardAt(11, 2), 1, None), e, calls, log, end);
    calls, log := [P.Call(MoveCard(11, 2, None), true)] + calls, [CardMoved(CardAt(11, 2), 1, None)] + log;
    OneMore(c, DeleteColumn(3), ColumnDeleted(3), d, calls, log, end);
    calls, log := [P.Call(DeleteColumn(3), true)] + calls, [ColumnDeleted(3)] + log;
    OneMore(b, MoveCard(10, 1, Some(11)), CardMoved(CardAt(10, 1), 3, Some(11)), c, calls, log, end);
    calls, log := [P.Call(MoveCard(10, 1, Some(11)), true)] + calls, [CardMoved(CardAt(10, 1), 3, Some(11))] + log;
    OneMore(a, MoveCard(10, 3, None), CardMoved(CardAt(10, 3), 1, None), b, calls, log, end);
    calls, log := [P.Call(MoveCard(10, 3, None), true)] + calls, [CardMoved(CardAt(10, 3), 1, None)] + log;
    OneMore(TwoCards, CreateColumn(0, "", 3), ColumnCreated(Body(3)), a, calls, log, end);
  }

  /** Card 10 where the replay finds it, with its anchor already gone to column 2. */
  ghost predicate Apart(o: Outline, k: Id) {
    && Regular(o) && 1 in o.lines && k in o.lines && 10 in o.lines[k] && 2 in o.lines && 11 in o.lines[2]
  }

  lemma NotBack(o: Outline)
    requires Apart(o, 3)
    ensures Draw(o, CardMoved(CardAt(10, 1), 3, Some(11))) == o
  {
    hide Holds;
    WithoutIs(o.lines[1], 10);
  }

  lemma AndOut(o: Outline)
    requires Apart(o, 1) && 3 !in o.lines
    ensures Apart(Draw(Draw(o, ColumnCreated(Body(3))), CardMoved(CardAt(10, 3), 1, None)), 3)
  {
    var o1 := Draw(o, ColumnCreated(Body(3)));
    RegularKept(o, ColumnCreated(Body(3)));
    assert Apart(o1, 1) && 3 in o1.lines;
    var moved := CardMoved(CardAt(10, 3), 1, None);
    assert Placeable(o1, 10, 3, None) by { assert 10 in o1.lines[1]; }
    RegularKept(o1, moved);
    hide Draw, Regular;
    CardAfter(o1, moved, 10, 3);
    CardAfter(o1, moved, 11, 2);
    ColumnAfter(o1, moved, 1);
    LinesOfOrder(o1, 1);
    LinesOfOrder(Draw(o1, moved), 1);
  }

  lemma LinesOfOrder(o: Outline, k: Id)
    requires Regular(o)
    ensures k in o.lines <==> k in o.order
  {
  }

  lemma DeletedThere(o: Outline)
    requires Apart(o, 3)
    ensures Regular(Draw(o, ColumnDeleted(3))) && !Holds(Draw(o, ColumnDeleted(3)), 10)
  {
    var next := Draw(o, ColumnDeleted(3));
    RegularKept(o, ColumnDeleted(3));
    hide Draw, Regular;
    forall k | k in next.lines ensures 10 !in next.lines[k] {
      CardAfter(o, ColumnDeleted(3), 10, k);
      OnlyThere(o, 3, k, 10);
    }
  }

  lemma StaysLost(o: Outline)
    requires Regular(o) && !Holds(o, 10)
    ensures !Holds(DrawAll(o, [CardMoved(CardAt(11, 2), 1, None)] + ([CardMoved(CardAt(10, 1), 1, None)] + [])), 10)
  {
    hide Regular, Holds, Draw, DrawAll;
    var later := [CardMoved(CardAt(11, 2), 1, None)] + ([CardMoved(CardAt(10, 1), 1, None)] + []);
    assert later[1..] == [CardMoved(CardAt(10, 1), 1, None)] + [] && later[1..][1..] == [];
    assert CreatedCards(later[1..]) == {} && CreatedCards(later) == {};
    StaysAway(o, later, 10);
  }

  lemma LosesTheCard(o: Outline)
    requires Apart(o, 1) && 3 !in o.lines
    ensures !Holds(DrawAll(o, DetourLog), 10)
  {
    hide Holds, Apart, Regular, Draw, DrawAll;
    var o1 := Draw(o, ColumnCreated(Body(3)));
    var o2 := Draw(o1, CardMoved(CardAt(10, 3), 1, None));
    AndOut(o);
    NotBack(o2);
    DeletedThere(o2);
    StaysLost(Draw(o2, ColumnDeleted(3)));
    var later := [CardMoved(CardAt(11, 2), 1, None)] + ([CardMoved(CardAt(10, 1), 1, None)] + []);
    DrawFirst(o2, ColumnDeleted(3), later);
    DrawFirst(o2, CardMoved(CardAt(10, 1), 3, Some(11)), [ColumnDeleted(3)] + later);
    DrawFirst(o1, CardMoved(CardAt(10, 3), 1, None), [CardMoved(CardAt(10, 1), 3, Some(11))] + ([ColumnDeleted(3)] + later));
    DrawFirst(o, ColumnCreated(Body(3)),
              [CardMoved(CardAt(10, 3), 1, None)] + ([CardMoved(CardAt(10, 1), 3, Some(11))] + ([ColumnDeleted(3)] + later)));
  }

  lemma OnlyThere(o: Outline, j: Id, k: Id, c: Id)
    requires Regular(o) && j in o.lines && c in o.lines[j]
    ensures k in o.lines && c in o.lines[k] ==> k == j
  {
  }

  lemma DrawFirst(o: Outline, event: Event, log: seq<Event>)
    ensures DrawAll(o, [event] + log) == DrawAll(Draw(o, event), log)
  {
    assert ([event] + log)[1..] == log;
  }

  lemma DetourEndsApart(end: Db)
    requires Cards0(end, {1, 2}, map[10 := 1, 11 := 2])
    ensures Apart(OutlineOf(Read(end, 0)), 1) && 3 !in OutlineOf(Read(end, 0)).lines
  {
    hide OutlineOf, Read, Valid, CardList, ColumnList;
    ReadIsTidy(end, 0);
    TidyParts(Read(end, 0));
    ReadOutline(end, 0);
    assert ColumnBody(end, 1) == Body(1) && ColumnBody(end, 2) == Body(2);
    assert CardBody(end, 10) == CardAt(10, 1) && CardBody(end, 11) == CardAt(11, 2);
    ColumnIsListed(end, 0, 1);
    ColumnIsListed(end, 0, 2);
    ColumnIsListed(end, 0, 3);
    CardIsListed(end, 1, 10);
    CardIsListed(end, 2, 11);
  }

  /**
   * A card that passed through a column deleted later, and came back behind an
   * anchor that has moved on: the replay leaves it in the column and deletes it there.
   */
  lemma ADetourLosesTheCard()
    ensures Valid(TwoCards) && P.Legal(TwoCards, Detour) && P.Room(TwoCards, Detour, 0) == DetourLog
    ensures var read := Read(P.ServeAll(TwoCards, Detour), 0);
            FindCard(read.columns, 10).Some? && FindCard(ApplyLog(read, DetourLog).columns, 10).None?
  {
    hide P.Legal, P.Room, P.ServeAll, Read, FindCard, Tidy, OutlineOf, ApplyLog, DrawAll, UniqueColumns;
    TwoCardsStand();
    var end := DetourRun();
    DetourEndsApart(end);
    LosesTheCard(OutlineOf(Read(end, 0)));
    ReadIsTidy(end, 0);
    LogDrawsOutline(Read(end, 0), DetourLog);
    TidyIsUnique(Read(end, 0));
    TidyIsUnique(ApplyLog(Read(end, 0), DetourLog));
    HoldsDrawn(Read(end, 0), 10);
    HoldsDrawn(ApplyLog(Read(end, 0), DetourLog), 10);
  }

  lemma TidyIsUnique(s: Snapshot)
    requires Tidy(s)
    ensures UniqueColumns(s)
  {
  }
}
