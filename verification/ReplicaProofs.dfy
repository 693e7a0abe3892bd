/**
 * Replica correctness: a client that starts from a full read and applies only the
 * published anchor events, in commit order, always holds the server's rank-sorted
 * board: its columns, their order and names, and their cards, in place, with their
 * details. When each was last updated is the subject of module Stamps.
 */
module ReplicaProofs {
  import opened Wrappers
  import opened Ordering
  import opened RankedList
  import opened Board
  import opened BoardRefinement
  import opened Replica

  // ------------------------------------------------------------ primitives

  lemma FilterStep(cards: seq<Card>, id: Id)
    requires cards != []
    ensures FilterOut(cards, id) == (if cards[0].id == id then [] else [cards[0]]) + FilterOut(cards[1..], id)
  {
  }

  lemma {:induction false} FilterAt(cards: seq<Card>, k: nat, id: Id)
    requires k < |cards|
    requires forall i :: 0 <= i < |cards| ==> (cards[i].id == id <==> i == k)
    ensures FilterOut(cards, id) == cards[..k] + cards[k + 1..]
    decreases k
  {
    var rest := cards[1..];
    FilterStep(cards, id);
    if k == 0 {
      FilterAbsent(rest, id);
      hide FilterOut;
    } else {
      hide FilterOut;
      assert forall i :: 0 <= i < |rest| ==> rest[i] == cards[i + 1];
      FilterAt(rest, k - 1, id);
      assert cards[..k] + cards[k + 1..] == [cards[0]] + (rest[..k - 1] + rest[k..]);
    }
  }

  lemma CardListHasNoDuplicates(db: Db, column: Id)
    ensures NoDuplicates(CardList(db, column))
  {
    ListingHasNoDuplicates(CardList(db, column), Keys(CardRanks(db, column)));
  }

  /** Filtering the drawn cards is lifting the id out of the list. */
  lemma FilterIsWithout(db: Db, column: Id, id: Id)
    ensures forall c :: c in Without(CardList(db, column), id) ==> c in db.cards && c != id
    ensures FilterOut(CardsOf(db, column), id) == Bodies(db, Without(CardList(db, column), id))
  {
    hide CardList, ColumnList, FilterOut, FindIn, FindCard, IndexOfCard, IndexOfColumn, FilterColumns;
    var ids, cards := CardList(db, column), CardsOf(db, column);
    CardListHasNoDuplicates(db, column);
    WithoutIsElsewhere(ids, id);
    if id in ids {
      var k := IndexOf(ids, id);
      hide IndexOf;
      forall i | 0 <= i < |cards| ensures cards[i].id == id <==> i == k {
        assert cards[i].id == ids[i];
      }
      FilterAt(cards, k, id);
      assert Without(ids, id) == ids[..k] + ids[k + 1..];
      hide Without;
      assert Bodies(db, ids[..k] + ids[k + 1..]) == cards[..k] + cards[k + 1..];
    } else {
      forall i | 0 <= i < |cards| ensures cards[i].id != id {
        assert cards[i].id == ids[i];
      }
      FilterAbsent(cards, id);
    }
  }

  lemma WithoutIsElsewhere(ids: seq<Id>, id: Id)
    requires NoDuplicates(ids)
    ensures forall c :: c in Without(ids, id) ==> c in ids && c != id
  {
  }

  lemma IndexOfBody(db: Db, ids: seq<Id>, id: Id)
    requires forall i :: 0 <= i < |ids| ==> ids[i] in db.cards
    ensures IndexOfCard(Bodies(db, ids), id) == if id in ids then IndexOf(ids, id) else -1
  {
    var k := IndexOf(ids, id);
    assert id in ids ==> id !in ids[..k] && ids[k] == id;
    assert forall i :: 0 <= i < k ==> ids[i] in ids[..k];
  }

  lemma IndexOfEntry(db: Db, board: Id, id: Id)
    ensures IndexOfColumn(Read(db, board).columns, id)
         == if id in ColumnList(db, board) then IndexOf(ColumnList(db, board), id) else -1
  {
    var ids := ColumnList(db, board);
    var k := IndexOf(ids, id);
    assert forall i :: 0 <= i < k ==> ids[i] in ids[..k];
  }

  /** Looking a card up on a drawn board finds its row's body, on its board only. */
  lemma FindDrawn(db: Db, board: Id, card: Id)
    requires ForeignKeys(db)
    ensures FindCard(Read(db, board).columns, card)
         == if card in db.cards && db.cards[card].board == board then Some(CardBody(db, card)) else None
  {
    hide CardList, ColumnList, FilterOut, FindIn, FindCard, IndexOfCard, IndexOfColumn, FilterColumns;
    var columns := Read(db, board).columns;
    if card in db.cards && db.cards[card].board == board {
      var column := db.cards[card].column;
      ColumnIsListed(db, board, column);
      CardIsListed(db, column, card);
      var i := IndexOf(ColumnList(db, board), column);
      var j := IndexOf(CardList(db, column), card);
      assert columns[i].cards == CardsOf(db, column) && columns[i].cards[j] == CardBody(db, card);
      assert columns[i] in columns && columns[i].cards[j] in columns[i].cards;
    } else {
      forall e, c | e in columns && c in e.cards ensures c.id != card {
        var i :| 0 <= i < |columns| && columns[i] == e;
        assert ColumnList(db, board)[i] in ColumnList(db, board);
        ColumnIsListed(db, board, ColumnList(db, board)[i]);
      }
    }
  }

  // ----------------------------------------------------------- one request

  /** What a watcher of `board` does with a published event. */
  function Deliver(s: Snapshot, published: Published, board: Id): Snapshot {
    if published.board == board then Apply(s, published.event) else s
  }

  ghost predicate Agrees(db: Db, done: Done, board: Id) {
    Deliver(Read(db, board), done.published, board) == Read(done.db, board)
  }

  /** A drawn column is unchanged when its list and its rows are. */
  lemma SameEntry(db: Db, db': Db, column: Id)
    requires column in db.columns && column in db'.columns
    requires ColumnBody(db', column) == ColumnBody(db, column)
    requires CardList(db', column) == CardList(db, column)
    requires forall c :: c in CardList(db, column) && c in db.cards && c in db'.cards ==> CardBody(db', c) == CardBody(db, c)
    ensures EntryOf(db', column) == EntryOf(db, column)
  {
    var a, b := CardsOf(db, column), CardsOf(db', column);
    forall i | 0 <= i < |a| ensures a[i] == b[i] {
      assert CardList(db, column)[i] in CardList(db, column);
    }
  }

  lemma CreateCardAgrees(db: Db, column: Id, details: Details, newId: Id, board: Id)
    requires Valid(db) && newId !in db.cards && DoCreateCard(db, column, details, newId).Success?
    ensures Agrees(db, DoCreateCard(db, column, details, newId).value, board)
  {
    hide CardList, ColumnList, FilterOut, FindIn, FindCard, IndexOfCard, IndexOfColumn, FilterColumns;
    var done := DoCreateCard(db, column, details, newId).value;
    var db', s := done.db, Read(db, board);
    CreateCardRefines(db, column, details, newId);
    FindDrawn(db, board, newId);
    var drawn := Deliver(s, done.published, board).columns;
    forall i | 0 <= i < |drawn| ensures drawn[i] == EntryOf(db', ColumnList(db, board)[i]) {
      var c := ColumnList(db, board)[i];
      assert c in ColumnList(db, board);
      ColumnIsListed(db, board, c);
      if c == column {
        assert drawn[i].cards == CardsOf(db, c) + [CardBody(db', newId)];
        assert drawn[i].cards == CardsOf(db', c);
      } else {
        SameEntry(db, db', c);
      }
    }
    assert drawn == Read(db', board).columns;
  }

  lemma UpdateCardAgrees(db: Db, card: Id, patch: Patch, board: Id)
    requires Valid(db) && DoUpdateCard(db, card, patch).Success?
    ensures Agrees(db, DoUpdateCard(db, card, patch).value, board)
  {
    hide CardList, ColumnList, FilterOut, FindIn, FindCard, IndexOfCard, IndexOfColumn, FilterColumns;
    var done := DoUpdateCard(db, card, patch).value;
    var db' := done.db;
    EditsKeepOrder(db, UpdateCard(card, patch));
    var drawn := Deliver(Read(db, board), done.published, board).columns;
    forall i | 0 <= i < |drawn| ensures drawn[i] == EntryOf(db', ColumnList(db, board)[i]) {
      var c := ColumnList(db, board)[i];
      assert c in ColumnList(db, board);
      ColumnIsListed(db, board, c);
      forall j | 0 <= j < |CardList(db, c)| ensures drawn[i].cards[j] == CardsOf(db', c)[j] {
        assert CardsOf(db, c)[j] in CardsOf(db, c);
      }
      assert drawn[i].cards == CardsOf(db', c);
    }
    assert drawn == Read(db', board).columns;
  }

  lemma DeleteCardAgrees(db: Db, card: Id, board: Id)
    requires Valid(db) && DoDeleteCard(db, card).Success?
    ensures Agrees(db, DoDeleteCard(db, card).value, board)
  {
    hide CardList, ColumnList, FilterOut, FindIn, FindCard, IndexOfCard, IndexOfColumn, FilterColumns;
    var done := DoDeleteCard(db, card).value;
    var db' := done.db;
    DeleteCardRefines(db, card);
    var drawn := Deliver(Read(db, board), done.published, board).columns;
    forall i | 0 <= i < |drawn| ensures drawn[i] == EntryOf(db', ColumnList(db, board)[i]) {
      var c := ColumnList(db, board)[i];
      assert c in ColumnList(db, board);
      ColumnIsListed(db, board, c);
      FilterIsWithout(db, c, card);
      CardIsListed(db, c, card);
      assert CardsOf(db', c) == Bodies(db, Without(CardList(db, c), card));
    }
    assert drawn == Read(db', board).columns;
  }

  // ------------------------------------------------------------------ moves

  lemma MoveCardSucceeds(db: Db, card: Id, column: Id, after: Option<Id>)
    requires DoMoveCard(db, card, column, after).Success?
    ensures card in db.cards && column in db.columns && db.cards[card].board == db.columns[column].board
    ensures var done := DoMoveCard(db, card, column, after).value;
            && done.published.board == db.cards[card].board
            && done.published.event == CardMoved(CardBody(db, card).(column := column), db.cards[card].column, after)
  {
  }

  /** Bodies of a list with one row inserted. */
  lemma BodiesInserted(db: Db, db': Db, rest: seq<Id>, at: nat, card: Id)
    requires at <= |rest| && card in db'.cards
    requires forall x :: x in rest ==> x in db.cards && x in db'.cards && CardBody(db', x) == CardBody(db, x)
    ensures Bodies(db', rest[..at] + [card] + rest[at..])
         == Bodies(db, rest)[..at] + [CardBody(db', card)] + Bodies(db, rest)[at..]
    ensures Bodies(db', rest) == Bodies(db, rest)
  {
    assert forall i :: 0 <= i < |rest| ==> rest[i] in rest;
  }

  /** The drawn cards of one column after a move: what the reducer computes for it. */
  lemma PlaceCardEntry(db: Db, card: Id, column: Id, after: Option<Id>, c: Id)
    requires Valid(db) && DoMoveCard(db, card, column, after).Success? && c in db.columns
    ensures var db' := DoMoveCard(db, card, column, after).value.db;
            var rest := FilterOut(CardsOf(db, c), card);
            var at := if after.None? then 0 else IndexOfCard(rest, after.value) + 1;
            CardsOf(db', c) == if c == column then rest[..at] + [CardBody(db, card).(column := column)] + rest[at..]
                               else rest
    ensures after.Some? ==> IndexOfCard(FilterOut(CardsOf(db, column), card), after.value) >= 0
  {
    hide CardList, ColumnList, FilterOut, IndexOfCard, DoMoveCard, Without, Valid, IndexOf;
    FilterIsWithout(db, c, card);
    FilterIsWithout(db, column, card);
    MoveCardRefines(db, card, column, after);
    MoveCardSucceeds(db, card, column, after);
    var db' := DoMoveCard(db, card, column, after).value.db;
    var rest, into := Without(CardList(db, c), card), Without(CardList(db, column), card);
    var at := if after.Some? then IndexOf(into, after.value) + 1 else 0;
    if after.Some? {
      IndexOfBody(db, into, after.value);
    }
    BodiesInserted(db, db', rest, if c == column then at else 0, card);
    assert CardsOf(db', c) == Bodies(db', CardList(db', c));
  }

  /** A move on one board leaves every other board's full read alone. */
  lemma MoveCardElsewhere(db: Db, card: Id, column: Id, after: Option<Id>, c: Id)
    requires Valid(db) && DoMoveCard(db, card, column, after).Success?
    requires c in db.columns && db.columns[c].board != db.columns[column].board
    ensures CardsOf(DoMoveCard(db, card, column, after).value.db, c) == CardsOf(db, c)
  {
    hide CardList, ColumnList, FilterOut, IndexOfCard;
    PlaceCardEntry(db, card, column, after, c);
    FilterIsWithout(db, c, card);
    CardIsListed(db, c, card);
  }

  /** What the reducer's own reading of the drawn board comes to: the card, and where it goes. */
  lemma MoveIsFound(db: Db, card: Id, column: Id, after: Option<Id>, board: Id)
    requires Valid(db) && DoMoveCard(db, card, column, after).Success? && db.columns[column].board == board
    ensures var columns := Read(db, board).columns;
            && FindCard(columns, card) == Some(CardBody(db, card))
            && IndexOfColumn(columns, column) >= 0
            && (after.Some? ==> IndexOfCard(FilterOut(CardsOf(db, column), card), after.value) >= 0)
            && 0 <= IndexOf(ColumnList(db, board), column) < |columns|
            && columns[IndexOf(ColumnList(db, board), column)] == EntryOf(db, column)
            && IndexOfColumn(columns, column) == IndexOf(ColumnList(db, board), column)
  {
    hide CardList, ColumnList, FilterOut, FindIn, FindCard, IndexOfCard, IndexOfColumn, DoMoveCard, Without, Valid, CardsOf;
    MoveCardSucceeds(db, card, column, after);
    FindDrawn(db, board, card) by { assert ForeignKeys(db) by { ValidKeys(db); } }
    IndexOfEntry(db, board, column);
    ColumnIsListed(db, board, column);
    PlaceCardEntry(db, card, column, after, column);
  }

  /** What the reducer draws once it has found the card, the column and the anchor. */
  lemma PlaceCardInAt(columns: seq<Entry>, moving: Card, column: Id, after: Option<Id>, target: nat)
    requires FindCard(columns, moving.id) == Some(moving)
    requires target < |columns| && IndexOfColumn(columns, column) == target
    requires after.Some? ==> IndexOfCard(FilterOut(columns[target].cards, moving.id), after.value) >= 0
    ensures var drawn := PlaceCardIn(columns, moving.id, column, after);
            var rest := FilterOut(columns[target].cards, moving.id);
            var at := if after.None? then 0 else IndexOfCard(rest, after.value) + 1;
            && |drawn| == |columns|
            && forall i :: 0 <= i < |columns| ==>
                 drawn[i] == Entry(columns[i].column, if columns[i].column.id == column
                                                      then rest[..at] + [moving.(column := column)] + rest[at..]
                                                      else FilterOut(columns[i].cards, moving.id))
  {
    hide FilterOut, FindCard, IndexOfCard, IndexOfColumn;
  }

  /** One column as the reducer draws it is the column as the rows now read. */
  lemma DrawnColumn(db: Db, card: Id, column: Id, after: Option<Id>, c: Id)
    requires Valid(db) && DoMoveCard(db, card, column, after).Success? && c in db.columns
    ensures var db' := DoMoveCard(db, card, column, after).value.db;
            var target := FilterOut(CardsOf(db, column), card);
            var at := if after.None? then 0 else IndexOfCard(target, after.value) + 1;
            && card in db.cards && c in db'.columns && 0 <= at <= |target|
            && EntryOf(db', c) == Entry(EntryOf(db, c).column, if c == column
                                                              then target[..at] + [CardBody(db, card).(column := column)] + target[at..]
                                                              else FilterOut(EntryOf(db, c).cards, card))
  {
    hide CardList, ColumnList, FilterOut, IndexOfCard, DoMoveCard, Without, Valid, CardsOf, PlaceAfter;
    MoveCardSucceeds(db, card, column, after);
    MoveCardRefines(db, card, column, after);
    PlaceCardEntry(db, card, column, after, c);
    PlaceCardEntry(db, card, column, after, column);
  }

  lemma DrawMove(db: Db, card: Id, column: Id, after: Option<Id>, board: Id)
    requires Valid(db) && DoMoveCard(db, card, column, after).Success? && db.columns[column].board == board
    ensures var columns, db' := Read(db, board).columns, DoMoveCard(db, card, column, after).value.db;
            var drawn := PlaceCardIn(columns, card, column, after);
            && |drawn| == |columns|
            && forall i :: 0 <= i < |columns| ==>
                 ColumnList(db, board)[i] in db'.columns && drawn[i] == EntryOf(db', ColumnList(db, board)[i])
  {
    hide CardList, ColumnList, FilterOut, FindIn, FindCard, IndexOfCard, IndexOfColumn, DoMoveCard, Without, Valid, CardsOf,
         IndexOf, PlaceCardIn;
    var columns := Read(db, board).columns;
    MoveIsFound(db, card, column, after, board);
    PlaceCardInAt(columns, CardBody(db, card), column, after, IndexOf(ColumnList(db, board), column));
    forall i | 0 <= i < |columns| ensures
      var c, db' := ColumnList(db, board)[i], DoMoveCard(db, card, column, after).value.db;
      c in db'.columns && PlaceCardIn(columns, card, column, after)[i] == EntryOf(db', c)
    {
      DrawnColumn(db, card, column, after, ColumnList(db, board)[i]);
    }
  }

  lemma ValidKeys(db: Db)
    requires Valid(db)
    ensures ForeignKeys(db)
  {
  }

  lemma MoveCardAgrees(db: Db, card: Id, column: Id, after: Option<Id>, board: Id)
    requires Valid(db) && DoMoveCard(db, card, column, after).Success?
    ensures Agrees(db, DoMoveCard(db, card, column, after).value, board)
  {
    hide CardList, ColumnList, PlaceCardIn, DoMoveCard, Without, Valid, CardsOf;
    MoveCardSucceeds(db, card, column, after);
    MoveCardRefines(db, card, column, after);
    var db', columns := DoMoveCard(db, card, column, after).value.db, Read(db, board).columns;
    if db.columns[column].board == board {
      DrawMove(db, card, column, after, board);
      assert PlaceCardIn(columns, card, column, after) == Read(db', board).columns;
    } else {
      forall i | 0 <= i < |columns| ensures columns[i] == Read(db', board).columns[i] {
        var c := ColumnList(db, board)[i];
        assert c in ColumnList(db, board);
        ColumnIsListed(db, board, c);
        MoveCardElsewhere(db, card, column, after, c);
      }
      assert columns == Read(db', board).columns;
    }
  }

  // ---------------------------------------------------------------- columns

  lemma CreateColumnAgrees(db: Db, to: Id, name: string, newId: Id, board: Id)
    requires Valid(db) && newId !in db.columns && DoCreateColumn(db, to, name, newId).Success?
    ensures Agrees(db, DoCreateColumn(db, to, name, newId).value, board)
  {
    hide CardList, ColumnList, IndexOfColumn, CardsOf;
    var done := DoCreateColumn(db, to, name, newId).value;
    var db', columns := done.db, Read(db, board).columns;
    CreateColumnRefines(db, to, name, newId);
    IndexOfEntry(db, board, newId);
    ColumnIsListed(db, board, newId);
    var drawn := Deliver(Read(db, board), done.published, board).columns;
    forall i | 0 <= i < |columns| ensures columns[i] == EntryOf(db', ColumnList(db, board)[i]) {
      SameEntry(db, db', ColumnList(db, board)[i]);
    }
    assert CardsOf(db', newId) == [];
    assert drawn == Read(db', board).columns;
  }

  lemma RenameColumnAgrees(db: Db, column: Id, name: string, board: Id)
    requires Valid(db) && DoRenameColumn(db, column, name).Success?
    ensures Agrees(db, DoRenameColumn(db, column, name).value, board)
  {
    hide CardList, ColumnList;
    var done := DoRenameColumn(db, column, name).value;
    var db', columns := done.db, Read(db, board).columns;
    EditsKeepOrder(db, RenameColumn(column, name));
    var drawn := Deliver(Read(db, board), done.published, board).columns;
    forall i | 0 <= i < |columns| ensures drawn[i] == EntryOf(db', ColumnList(db, board)[i]) {
      var c := ColumnList(db, board)[i];
      assert c in ColumnList(db, board);
      ColumnIsListed(db, board, c);
      assert CardsOf(db', c) == CardsOf(db, c);
    }
    assert drawn == Read(db', board).columns;
  }

  lemma {:induction false} FilterColumnsAbsent(columns: seq<Entry>, id: Id)
    requires forall e :: e in columns ==> e.column.id != id
    ensures FilterColumns(columns, id) == columns
  {
    if columns != [] { FilterColumnsAbsent(columns[1..], id); }
  }

  lemma FilterColumnsStep(columns: seq<Entry>, id: Id)
    requires columns != []
    ensures FilterColumns(columns, id) == (if columns[0].column.id == id then [] else [columns[0]]) + FilterColumns(columns[1..], id)
  {
  }

  lemma {:induction false} FilterColumnsAt(columns: seq<Entry>, k: nat, id: Id)
    requires k < |columns|
    requires forall i :: 0 <= i < |columns| ==> (columns[i].column.id == id <==> i == k)
    ensures FilterColumns(columns, id) == columns[..k] + columns[k + 1..]
    decreases k
  {
    var rest := columns[1..];
    FilterColumnsStep(columns, id);
    if k == 0 {
      FilterColumnsAbsent(rest, id);
      hide FilterColumns;
    } else {
      hide FilterColumns;
      assert forall i :: 0 <= i < |rest| ==> rest[i] == columns[i + 1];
      FilterColumnsAt(rest, k - 1, id);
      assert columns[..k] + columns[k + 1..] == [columns[0]] + (rest[..k - 1] + rest[k..]);
    }
  }

  lemma ColumnListHasNoDuplicates(db: Db, board: Id)
    ensures NoDuplicates(ColumnList(db, board))
  {
    ListingHasNoDuplicates(ColumnList(db, board), Keys(ColumnRanks(db, board)));
  }

  /** The drawn columns without the deleted one. */
  lemma DrawDeleted(db: Db, column: Id, board: Id)
    ensures var drawn, ids := FilterColumns(Read(db, board).columns, column), Without(ColumnList(db, board), column);
            |drawn| == |ids| && forall i :: 0 <= i < |ids| ==> ids[i] in db.columns && ids[i] != column && drawn[i] == EntryOf(db, ids[i])
  {
    hide CardList, ColumnList, FilterColumns, CardsOf;
    var columns, ids := Read(db, board).columns, ColumnList(db, board);
    ColumnListHasNoDuplicates(db, board);
    if column in ids {
      FilterColumnsAt(columns, IndexOf(ids, column), column);
    } else {
      FilterColumnsAbsent(columns, column);
    }
  }

  lemma DeleteColumnAgrees(db: Db, column: Id, board: Id)
    requires Valid(db) && DoDeleteColumn(db, column).Success?
    ensures Agrees(db, DoDeleteColumn(db, column).value, board)
  {
    hide CardList, ColumnList, FilterColumns, CardsOf, Without, Valid;
    var done := DoDeleteColumn(db, column).value;
    var db', ids := done.db, Without(ColumnList(db, board), column);
    DeleteColumnRefines(db, column);
    DrawDeleted(db, column, board);
    ColumnIsListed(db, board, column);
    if column !in ColumnList(db, board) { DeletedElsewhere(db, column, board); }
    var drawn := Deliver(Read(db, board), done.published, board).columns;
    forall i | 0 <= i < |ids| ensures drawn[i] == EntryOf(db', ids[i]) {
      SameEntry(db, db', ids[i]);
    }
    assert drawn == Read(db', board).columns;
  }

  /** A column of another board is not in this one's list to begin with. */
  lemma DeletedElsewhere(db: Db, column: Id, board: Id)
    requires column !in ColumnList(db, board)
    ensures Without(ColumnList(db, board), column) == ColumnList(db, board)
  {
  }

  lemma MoveColumnSucceeds(db: Db, column: Id, after: Option<Id>)
    requires DoMoveColumn(db, column, after).Success?
    ensures column in db.columns
    ensures var done := DoMoveColumn(db, column, after).value;
            done.published == Published(db.columns[column].board, ColumnMoved(ColumnBody(db, column), after))
  {
  }

  lemma IndexInRest(columns: seq<Entry>, ids: seq<Id>, id: Id)
    requires |columns| == |ids| && forall i :: 0 <= i < |ids| ==> columns[i].column.id == ids[i]
    ensures IndexOfColumn(columns, id) == if id in ids then IndexOf(ids, id) else -1
  {
    hide IndexOfColumn;
    var k := IndexOf(ids, id);
    assert forall i :: 0 <= i < k ==> ids[i] in ids[..k];
  }

  lemma DrawColumnMove(db: Db, column: Id, after: Option<Id>, board: Id)
    requires Valid(db) && DoMoveColumn(db, column, after).Success? && db.columns[column].board == board
    ensures var columns, db' := Read(db, board).columns, DoMoveColumn(db, column, after).value.db;
            var drawn := PlaceColumnIn(columns, column, after);
            && |drawn| == |ColumnList(db', board)|
            && forall i :: 0 <= i < |drawn| ==>
                 drawn[i] in columns && drawn[i].column.id == ColumnList(db', board)[i]
  {
    hide CardList, ColumnList, IndexOfColumn, CardsOf, DoMoveColumn, Valid;
    MoveColumnSucceeds(db, column, after);
    MoveColumnRefines(db, column, after);
    ColumnIsListed(db, board, column);
    IndexOfEntry(db, board, column);
    var columns := Read(db, board).columns;
    PlaceColumnIds(columns, ColumnList(db, board), column, after);
    PlaceColumnKeepsEntries(columns, column, after);
    var drawn := PlaceColumnIn(columns, column, after);
    assert forall i :: 0 <= i < |drawn| ==> drawn[i] in drawn;
  }

  ghost predicate Mirrors(columns: seq<Entry>, ids: seq<Id>) {
    |columns| == |ids| && forall i :: 0 <= i < |ids| ==> columns[i].column.id == ids[i]
  }

  lemma MirrorsInserted(columns: seq<Entry>, ids: seq<Id>, at: nat, e: Entry)
    requires Mirrors(columns, ids) && at <= |ids|
    ensures Mirrors(columns[..at] + [e] + columns[at..], ids[..at] + [e.column.id] + ids[at..])
  {
  }

  /** Re-inserting an entry is re-inserting its id. */
  lemma PlaceColumnIds(columns: seq<Entry>, ids: seq<Id>, column: Id, after: Option<Id>)
    requires Mirrors(columns, ids)
    requires column in ids && (after.Some? ==> after.value in Without(ids, column))
    ensures Mirrors(PlaceColumnIn(columns, column, after), PlaceAfter(Without(ids, column), after, column))
  {
    hide IndexOfColumn, IndexOf, PlaceColumnIn;
    IndexInRest(columns, ids, column);
    PlacedColumn(columns, column, after);
    var k := IndexOf(ids, column);
    var rest, less := columns[..k] + columns[k + 1..], Without(ids, column);
    assert Mirrors(rest, less);
    hide Without;
    var at := if after.Some? then IndexOf(less, after.value) + 1 else 0;
    if after.Some? { IndexInRest(rest, less, after.value); }
    MirrorsInserted(rest, less, at, columns[k]);
  }

  lemma PlaceColumnKeepsEntries(columns: seq<Entry>, column: Id, after: Option<Id>)
    ensures forall e :: e in PlaceColumnIn(columns, column, after) ==> e in columns
  {
    hide IndexOfColumn;
  }

  lemma MoveColumnAgrees(db: Db, column: Id, after: Option<Id>, board: Id)
    requires Valid(db) && DoMoveColumn(db, column, after).Success?
    ensures Agrees(db, DoMoveColumn(db, column, after).value, board)
  {
    hide CardList, ColumnList, PlaceColumnIn, DoMoveColumn, Without, Valid, CardsOf;
    MoveColumnSucceeds(db, column, after);
    MoveColumnRefines(db, column, after);
    var db', columns := DoMoveColumn(db, column, after).value.db, Read(db, board).columns;
    forall c | c in db.columns ensures EntryOf(db', c) == EntryOf(db, c) {
      SameCardLists(db, db', c);
      SameEntry(db, db', c);
    }
    if db.columns[column].board == board {
      DrawColumnMove(db, column, after, board);
      assert PlaceColumnIn(columns, column, after) == Read(db', board).columns;
    } else {
      assert columns == Read(db', board).columns;
    }
  }

  lemma SameCardLists(db: Db, db': Db, c: Id)
    requires db'.cards == db.cards
    ensures CardList(db', c) == CardList(db, c)
  {
    assert CardRanks(db', c) == CardRanks(db, c);
  }

  // --------------------------------------------------------- the whole story

  /** One committed request: the watcher's board follows the server's. */
  lemma RequestAgrees(db: Db, request: Request, board: Id)
    requires Valid(db) && FreshId(db, request) && Handle(db, request).Success?
    ensures Deliver(Read(db, board), Handle(db, request).value.published, board)
         == Read(Handle(db, request).value.db, board)
  {
    match request
    case CreateCard(column, details, newId) => CreateCardAgrees(db, column, details, newId, board);
    case UpdateCard(card, patch) => UpdateCardAgrees(db, card, patch, board);
    case MoveCard(card, column, after) => MoveCardAgrees(db, card, column, after, board);
    case DeleteCard(card) => DeleteCardAgrees(db, card, board);
    case CreateColumn(to, name, newId) => CreateColumnAgrees(db, to, name, newId, board);
    case RenameColumn(column, name) => RenameColumnAgrees(db, column, name, board);
    case MoveColumn(column, after) => MoveColumnAgrees(db, column, after, board);
    case DeleteColumn(column) => DeleteColumnAgrees(db, column, board);
  }

  /** One call of `tenantScopedPublish`: the body, and whether its transaction commits. */
  datatype Call = Call(request: Request, commits: bool)

  /** Nothing is described, and so nothing published, unless the commit happened. */
  ghost function Serve(db: Db, call: Call): (Db, Option<Published>) {
    var answer := Handle(db, call.request);
    if answer.Failure? || !call.commits then (db, None)
    else (answer.value.db, Some(answer.value.published))
  }

  ghost predicate Legal(db: Db, calls: seq<Call>)
    decreases |calls|
  {
    calls == [] || (FreshId(db, calls[0].request) && Legal(Serve(db, calls[0]).0, calls[1..]))
  }

  ghost function ServeAll(db: Db, calls: seq<Call>): Db
    decreases |calls|
  {
    if calls == [] then db else ServeAll(Serve(db, calls[0]).0, calls[1..])
  }

  /** The events of one board's room, in commit order. */
  ghost function Room(db: Db, calls: seq<Call>, board: Id): seq<Event>
    decreases |calls|
  {
    if calls == [] then []
    else
      var (db', published) := Serve(db, calls[0]);
      (if published.Some? && published.value.board == board then [published.value.event] else [])
      + Room(db', calls[1..], board)
  }

  /**
   * Replica correctness. Over every serial run of creates, edits, moves with or
   * without a renumbering, deletes, refusals and rollbacks, on any boards: a full
   * read taken before, with the room's events folded over it, is the full read
   * taken after, in columns, order, placement and details.
   */
  lemma {:induction false} ReplicaFollowsServer(db: Db, calls: seq<Call>, board: Id)
    requires Valid(db) && Legal(db, calls)
    ensures Valid(ServeAll(db, calls))
    ensures ApplyLog(Read(db, board), Room(db, calls, board)) == Read(ServeAll(db, calls), board)
    decreases |calls|
  {
    hide Read, Handle, Apply, Valid;
    if calls != [] {
      var call := calls[0];
      var (db', published) := Serve(db, call);
      if published.Some? {
        RequestAgrees(db, call.request, board);
        HandleKeepsValid(db, call.request);
      }
      ReplicaFollowsServer(db', calls[1..], board);
      var later := Room(db', calls[1..], board);
      if published.Some? && published.value.board == board {
        assert Room(db, calls, board) == [published.value.event] + later;
        assert ([published.value.event] + later)[1..] == later;
      } else {
        assert Room(db, calls, board) == later;
      }
    }
  }

  /** Over the same runs every rank stays exact and short. */
  lemma {:induction false} RanksStayPrecise(db: Db, calls: seq<Call>)
    requires PreciseRows(db) && Legal(db, calls)
    ensures PreciseRows(ServeAll(db, calls))
    decreases |calls|
  {
    if calls != [] {
      if Serve(db, calls[0]).1.Some? { HandleKeepsPrecision(db, calls[0].request); }
      RanksStayPrecise(Serve(db, calls[0]).0, calls[1..]);
    }
  }
}
