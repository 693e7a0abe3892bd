/** The shortest logs that need not replay freely, two moves of columns, and exactly when they do. */
module TwoMoves {
  import opened Wrappers
  import opened Ordering
  import opened RankedList
  import opened Board
  import opened BoardRefinement
  import opened Replica
  import opened Replay
  import opened Outlines
  import opened SteadyLogs
  import opened SteadyReplay
  import opened ReplayLost
  import P = ReplicaProofs

  predicate RightBehind(list: seq<Id>, y: Id, x: Id) {
    exists i :: 0 < i < |list| && list[i - 1] == y && list[i] == x
  }

  /** At this place, and right behind its anchor, or first. */
  predicate At(list: seq<Id>, i: nat, y: Id, after: Option<Id>) {
    i < |list| && list[i] == y && (if after.Some? then i > 0 && list[i - 1] == after.value else i == 0)
  }

  lemma PlacedIsAt(ids: seq<Id>, after: Option<Id>, y: Id) returns (i: nat)
    requires after.Some? ==> after.value in ids
    ensures At(PlaceAfter(ids, after, y), i, y, after)
  {
    i := if after.Some? then IndexOf(ids, after.value) + 1 else 0;
  }

  /** Lifting something else out leaves it right behind its anchor. */
  lemma StillAt(t: seq<Id>, j: nat, y: Id, b: Option<Id>, x: Id) returns (k: nat)
    requires NoDuplicates(t) && At(t, j, y, b) && x in t && x != y && b != Some(x)
    ensures At(Without(t, x), k, y, b)
  {
    var m := IndexOf(t, x);
    var rest := t[..m] + t[m + 1..];
    assert Without(t, x) == rest;
    hide Without, NoDuplicates;
    k := if m < j then j - 1 else j;
    assert rest[k] == y;
    if b.Some? { assert rest[k - 1] == b.value; }
  }

  /** `x` behind `y` and then `y` behind its own anchor, on a list where it is there already. */
  lemma AgainAt(t: seq<Id>, j: nat, x: Id, y: Id, b: Option<Id>)
    requires NoDuplicates(t) && At(t, j, y, b) && x in t && x != y && b != Some(x)
    ensures y in Without(t, x)
    ensures var once := PlaceAfter(Without(t, x), Some(y), x);
            && RightBehind(once, y, x) && y in once && (b.Some? ==> b.value in Without(once, y))
            && PlaceAfter(Without(once, y), b, y) == once
  {
    hide Without;
    var k := StillAt(t, j, y, b, x);
    WithoutIs(t, x);
    var rest := Without(t, x);
    IndexIs(rest, k);
    PlaceAfterIs(rest, Some(y), x);
    var once := PlaceAfter(rest, Some(y), x);
    assert once == rest[..k + 1] + [x] + rest[k + 1..];
    hide PlaceAfter, NoDuplicates;
    assert once[k] == y && once[k + 1 - 1] == y && once[k + 1] == x && RightBehind(once, y, x);
    if b.Some? { assert once[k - 1] == b.value; }
    PlacedAt(once, k, b);
  }

  lemma BehindIsPlaced(t: seq<Id>, y: Id, x: Id)
    requires NoDuplicates(t) && RightBehind(t, y, x)
    ensures y in Without(t, x) && PlaceAfter(Without(t, x), Some(y), x) == t
  {
    var i :| 0 < i < |t| && t[i - 1] == y && t[i] == x;
    PlacedAt(t, i, Some(y));
  }

  lemma Swap(a: seq<Id>, x: Id, y: Id, d: seq<Id>)
    requires NoDuplicates(a + [x] + [y] + d)
    ensures var t := a + [x] + [y] + d;
            && y in Without(t, x) && PlaceAfter(Without(t, x), Some(y), x) == a + [y] + [x] + d
            && NoDuplicates(a + [y] + [x] + d) && x in t
  {
    var t := a + [x] + [y] + d;
    assert t == a + [x] + ([y] + d) && t[|a|] == x && a + ([y] + d) == a + [y] + d;
    hide Without, PlaceAfter, NoDuplicates;
    WithoutIs(t, x);
    WithoutMiddle(a, x, [y] + d);
    Behind(a, y, d, x);
    PlaceAfterIs(a + [y] + d, Some(y), x);
  }

  /** Each behind the other: the second of the two stands. */
  lemma EachBehindTheOther(t: seq<Id>, j: nat, x: Id, y: Id)
    requires NoDuplicates(t) && At(t, j, y, Some(x)) && x != y
    ensures y in Without(t, x)
    ensures var once := PlaceAfter(Without(t, x), Some(y), x);
            y in once && x in Without(once, y) && PlaceAfter(Without(once, y), Some(x), y) == t
  {
    hide Without, PlaceAfter, NoDuplicates;
    var a, d := t[..j - 1], t[j + 1..];
    assert t == a + [x] + [y] + d;
    Swap(a, x, y, d);
    Swap(a, y, x, d);
  }

  // ------------------------------------------------------------------ on orders

  function TwoLog(x: Column, a: Option<Id>, y: Column, b: Option<Id>): seq<Event> {
    [ColumnMoved(x, a)] + ([ColumnMoved(y, b)] + [])
  }

  lemma TwiceReordered(t: seq<Id>, x: Column, y: Column, b: Option<Id>)
    requires NoDuplicates(t) && x.id in t && x.id != y.id && (exists j: nat :: At(t, j, y.id, b))
    ensures ReorderAll(t, TwoLog(x, Some(y.id), y, b)) == t <==> b == Some(x.id) || RightBehind(t, y.id, x.id)
  {
    hide Without, PlaceAfter, NoDuplicates;
    var j: nat :| At(t, j, y.id, b);
    var log := TwoLog(x, Some(y.id), y, b);
    assert log[1..] == [ColumnMoved(y, b)] + [] && log[1..][1..] == [];
    if b == Some(x.id) {
      EachBehindTheOther(t, j, x.id, y.id);
    } else {
      AgainAt(t, j, x.id, y.id, b);
      if RightBehind(t, y.id, x.id) { BehindIsPlaced(t, y.id, x.id); }
    }
    var once := PlaceAfter(Without(t, x.id), Some(y.id), x.id);
    assert Reorder(t, log[0]) == once;
    assert ReorderAll(t, log) == ReorderAll(once, log[1..]) == ReorderAll(Reorder(once, ColumnMoved(y, b)), []);
  }

  // ------------------------------------------------------------------ on boards

  /** Boards of the same entries in the same order. */
  lemma SameEntriesSameOrder(s: Snapshot, t: Snapshot)
    requires UniqueColumns(s) && s.unplaced == t.unplaced && OrderOf(t.columns) == OrderOf(s.columns)
    requires forall e :: e in t.columns ==> e in s.columns
    ensures t == s
  {
    forall i | 0 <= i < |t.columns| ensures i < |s.columns| && t.columns[i] == s.columns[i] {
      assert t.columns[i] in t.columns;
      var j :| 0 <= j < |s.columns| && s.columns[j] == t.columns[i];
      assert OrderOf(t.columns)[i] == OrderOf(s.columns)[i];
    }
    assert |OrderOf(t.columns)| == |OrderOf(s.columns)|;
    assert t.columns == s.columns;
  }

  lemma TwoMovesKeepEntries(s: Snapshot, x: Column, a: Option<Id>, y: Column, b: Option<Id>)
    ensures var t := ApplyLog(s, TwoLog(x, a, y, b));
            t.unplaced == s.unplaced && forall e :: e in t.columns ==> e in s.columns
  {
    hide PlaceColumnIn;
    var log := TwoLog(x, a, y, b);
    assert log[1..] == [ColumnMoved(y, b)] + [] && log[1..][1..] == [];
    var once := Apply(s, log[0]);
    P.PlaceColumnKeepsEntries(s.columns, x.id, a);
    P.PlaceColumnKeepsEntries(once.columns, y.id, b);
    assert ApplyLog(s, log) == ApplyLog(once, log[1..]) == ApplyLog(Apply(once, ColumnMoved(y, b)), []);
  }

  /** Where a run of two moves leaves the columns. */
  lemma TwoMovesEnd(o: Outline, x: Column, a: Option<Id>, y: Column, b: Option<Id>)
    requires Regular(o) && AllFound(o, TwoLog(x, a, y, b))
    ensures var t := DrawAll(o, TwoLog(x, a, y, b)).order;
            NoDuplicates(t) && x.id in t && exists j: nat :: At(t, j, y.id, b)
  {
    var log := TwoLog(x, a, y, b);
    assert log[1..] == [ColumnMoved(y, b)] + [] && log[1..][1..] == [];
    var o1 := Draw(o, log[0]);
    RegularKept(o, log[0]);
    ColumnAfter(o, log[0], x.id);
    RegularKept(o1, log[1]);
    ColumnAfter(o1, log[1], x.id);
    assert Found(o1, log[1]);
    var t := Draw(o1, log[1]);
    assert DrawAll(o, log) == DrawAll(o1, log[1..]) == DrawAll(t, []);
    hide Without, PlaceAfter, Regular;
    var j := PlacedIsAt(Without(o1.order, y.id), b, y.id);
    OrderOnce(t);
  }

  /**
   * A run whose log is two column moves replays freely over the read it leads to
   * if and only if they move the same column, or the second does not move the
   * first one's anchor, or moves it right behind the first, or the first is right
   * behind its anchor there all the same.
   */
  lemma TwoMovesReplayExactly(db: Db, calls: seq<P.Call>, board: Id, x: Column, a: Option<Id>, y: Column, b: Option<Id>)
    requires Valid(db) && P.Legal(db, calls) && P.Room(db, calls, board) == TwoLog(x, a, y, b)
    ensures ReplaysFreely(db, calls, board) <==>
            x.id == y.id || a != Some(y.id) || b == Some(x.id)
            || RightBehind(ColumnList(P.ServeAll(db, calls), board), y.id, x.id)
  {
    hide Valid, P.Legal, P.Room, P.ServeAll, Read, ColumnList, OutlineOf, ApplyLog, DrawAll, ReorderAll, AllFound, Tidy, RightBehind, At, TwoLog;
    var log, read := TwoLog(x, a, y, b), Read(P.ServeAll(db, calls), board);
    if x.id == y.id || a != Some(y.id) {
      NoMore(P.ServeAll(db, calls));
      IsSteady(x, a, y, b);
      SteadyReplayIsFree(db, calls, [], board);
      NothingSince(db, calls, board, log);
    } else {
      RoomIsFound(db, calls, board);
      P.ReplicaFollowsServer(db, calls, board);
      ReadIsTidy(db, board);
      TidyParts(Read(db, board));
      LogDrawsOutline(Read(db, board), log);
      TwoMovesEnd(OutlineOf(Read(db, board)), x, a, y, b);
      ReadOutline(P.ServeAll(db, calls), board);
      var t := ColumnList(P.ServeAll(db, calls), board);
      TwiceReordered(t, x, y, b);
      if ReorderAll(t, log) == t {
        OrderSettles(db, calls, board, x, a, y, b);
      } else {
        OrderTells(db, calls, board);
      }
    }
  }

  lemma IsSteady(x: Column, a: Option<Id>, y: Column, b: Option<Id>)
    requires x.id == y.id || a != Some(y.id)
    ensures Steady(TwoLog(x, a, y, b))
  {
    var log := TwoLog(x, a, y, b);
    assert log[1..] == [ColumnMoved(y, b)] + [] && log[1..][1..] == [];
    assert MovedColumns([]) == {} && DeletedColumns([]) == {} && CreatedColumns([]) == {};
    assert MovedColumns(log[1..]) == {y.id} && DeletedColumns(log[1..]) == {} && CreatedColumns(log[1..]) == {};
  }

  lemma NothingSince(db: Db, calls: seq<P.Call>, board: Id, log: seq<Event>)
    requires P.Room(db, calls, board) == log
    requires var read := P.ServeAll(db, calls);
             ApplyLog(Read(read, board), log + P.Room(read, [], board)) == Read(P.ServeAll(read, []), board)
    ensures ReplaysFreely(db, calls, board)
  {
    assert log + [] == log;
  }

  lemma OrderSettles(db: Db, calls: seq<P.Call>, board: Id, x: Column, a: Option<Id>, y: Column, b: Option<Id>)
    requires P.Room(db, calls, board) == TwoLog(x, a, y, b)
    requires ReorderAll(ColumnList(P.ServeAll(db, calls), board), TwoLog(x, a, y, b)) == ColumnList(P.ServeAll(db, calls), board)
    ensures ReplaysFreely(db, calls, board)
  {
    hide Read, OutlineOf, Tidy, ReorderAll, P.ServeAll, P.Room, ColumnList, ApplyLog, TwoLog;
    var read, log := Read(P.ServeAll(db, calls), board), TwoLog(x, a, y, b);
    ReadIsTidy(P.ServeAll(db, calls), board);
    ReadOutline(P.ServeAll(db, calls), board);
    LogDrawsOutline(read, log);
    OrderDrawn(OutlineOf(read), log);
    TidyParts(read);
    TidyParts(ApplyLog(read, log));
    TwoMovesKeepEntries(read, x, a, y, b);
    SameEntriesSameOrder(read, ApplyLog(read, log));
  }
}
