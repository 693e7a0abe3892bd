/**
 * The full read: two flat lists in the API's order, crossed into a board without
 * comparing any two cards.
 */
module FullRead {
  import opened Wrappers
  import opened Ordering
  import opened Ranks
  import opened RankedList
  import opened Board
  import opened BoardRefinement
  import opened Replica

  /** The cards naming one column, in the order they were sent. */
  function InColumn(cards: seq<Card>, column: Id): seq<Card>
    decreases |cards|
  {
    if cards == [] then []
    else
      var last := cards[|cards| - 1];
      InColumn(cards[..|cards| - 1], column) + (if last.column == column then [last] else [])
  }

  /** The cards naming a column that was not sent. */
  function Unplaced(cards: seq<Card>, known: set<Id>): seq<Card>
    decreases |cards|
  {
    if cards == [] then []
    else
      var last := cards[|cards| - 1];
      Unplaced(cards[..|cards| - 1], known) + (if last.column in known then [] else [last])
  }

  function ColumnIds(columns: seq<Column>): set<Id> {
    set i | 0 <= i < |columns| :: columns[i].id
  }

  /** `groupCardsIntoColumns`: one pass to bucket, one pass to emit. */
  method GroupCardsIntoColumns(columns: seq<Column>, cards: seq<Card>) returns (s: Snapshot)
    ensures |s.columns| == |columns|
    ensures forall i :: 0 <= i < |columns| ==> s.columns[i] == Entry(columns[i], InColumn(cards, columns[i].id))
    ensures s.unplaced == Unplaced(cards, ColumnIds(columns))
  {
    var buckets: map<Id, seq<Card>> := map[];
    for i := 0 to |columns|
      invariant buckets.Keys == ColumnIds(columns[..i])
      invariant forall c :: c in buckets ==> buckets[c] == []
    {
      buckets := buckets[columns[i].id := []];
      assert columns[..i + 1] == columns[..i] + [columns[i]];
    }
    assert columns[..|columns|] == columns;
    var unplaced: seq<Card> := [];
    for k := 0 to |cards|
      invariant buckets.Keys == ColumnIds(columns)
      invariant forall c :: c in buckets ==> buckets[c] == InColumn(cards[..k], c)
      invariant unplaced == Unplaced(cards[..k], ColumnIds(columns))
    {
      assert cards[..k + 1][..k] == cards[..k];
      var card := cards[k];
      if card.column !in buckets {
        unplaced := unplaced + [card];
      } else {
        buckets := buckets[card.column := buckets[card.column] + [card]];
      }
    }
    assert cards[..|cards|] == cards;
    s := Snapshot(seq(|columns|, i requires 0 <= i < |columns| =>
      Entry(columns[i], if columns[i].id in buckets then buckets[columns[i].id] else [])), unplaced);
  }

  // ------------------------------------------------------- what the API sends

  function BoardKeys(db: Db, board: Id): (keys: map<Id, Key>)
    ensures Keyed(keys) && forall c :: c in keys <==> c in db.cards && db.cards[c].board == board
  {
    map c | c in db.cards && db.cards[c].board == board :: Key(db.cards[c].column, db.cards[c].rank.value, c)
  }

  /** `ORDER BY column_id, position, id`. */
  ghost function ListCardsByBoard(db: Db, board: Id): seq<Card> {
    var ids := OrderBy(BoardKeys(db, board));
    assert forall i :: 0 <= i < |ids| ==> ids[i] in BoardKeys(db, board);
    Bodies(db, ids)
  }

  ghost function ListColumnsByBoard(db: Db, board: Id): (r: seq<Column>)
    ensures |r| == |ColumnList(db, board)|
    ensures forall i :: 0 <= i < |r| ==> ColumnList(db, board)[i] in db.columns && r[i] == ColumnBody(db, ColumnList(db, board)[i])
  {
    var ids := ColumnList(db, board);
    assert forall i :: 0 <= i < |ids| ==> ids[i] in Keys(ColumnRanks(db, board));
    seq(|ids|, i requires 0 <= i < |ids| => ColumnBody(db, ids[i]))
  }

  ghost predicate Drawn(db: Db, cards: seq<Card>, keys: map<Id, Key>) {
    && (forall i :: 0 <= i < |cards| ==> cards[i].id in keys && cards[i].id in db.cards && cards[i] == CardBody(db, cards[i].id))
    && (forall i, j :: 0 <= i < j < |cards| ==> Less(keys[cards[i].id], keys[cards[j].id]))
  }

  /** A column's bucket is drawn from the list, in the list's order, and misses nothing. */
  lemma {:induction false} BucketIsDrawn(db: Db, cards: seq<Card>, keys: map<Id, Key>, column: Id)
    requires Drawn(db, cards, keys)
    ensures Drawn(db, InColumn(cards, column), keys)
    ensures forall c :: c in InColumn(cards, column) <==> c in cards && c.column == column
    decreases |cards|
  {
    if cards != [] {
      var n := |cards| - 1;
      var front, last := cards[..n], cards[n];
      BucketIsDrawn(db, front, keys, column);
      var bucket := InColumn(front, column);
      assert cards == front + [last];
      forall i | 0 <= i < |bucket| ensures Less(keys[bucket[i].id], keys[last.id]) {
        assert bucket[i] in bucket;
        var j :| 0 <= j < |front| && front[j] == bucket[i];
        assert cards[j] == bucket[i];
      }
    }
  }

  lemma BucketIsTheColumn(db: Db, board: Id, column: Id)
    requires ForeignKeys(db) && column in db.columns && db.columns[column].board == board
    ensures InColumn(ListCardsByBoard(db, board), column) == CardsOf(db, column)
  {
    var keys := BoardKeys(db, board);
    var ids, cards := OrderBy(keys), ListCardsByBoard(db, board);
    assert Drawn(db, cards, keys);
    BucketIsDrawn(db, cards, keys, column);
    var bucket := InColumn(cards, column);
    var picked := seq(|bucket|, i requires 0 <= i < |bucket| => bucket[i].id);
    var narrow := Keys(CardRanks(db, column));
    forall i | 0 <= i < |bucket| ensures picked[i] in narrow && bucket[i] == CardBody(db, picked[i]) {
      assert bucket[i] in bucket;
    }
    forall x | x in narrow ensures x in picked {
      assert x in keys;
      var i :| 0 <= i < |ids| && ids[i] == x;
      assert cards[i] in cards && cards[i] == CardBody(db, x);
      var j :| 0 <= j < |bucket| && bucket[j] == cards[i];
      assert picked[j] == x;
    }
    forall i, j | 0 <= i < j < |picked| ensures Less(narrow[picked[i]], narrow[picked[j]]) {
      assert Less(keys[bucket[i].id], keys[bucket[j].id]);
    }
    SortedIsTheListing(picked, CardRanks(db, column));
  }

  lemma {:induction false} NothingUnplaced(cards: seq<Card>, known: set<Id>)
    requires forall c :: c in cards ==> c.column in known
    ensures Unplaced(cards, known) == []
    decreases |cards|
  {
    if cards != [] { NothingUnplaced(cards[..|cards| - 1], known); }
  }

  /** Crossing the API's two lists gives every column exactly its rank-sorted cards. */
  lemma GroupedReadIsTheBoard(db: Db, board: Id, s: Snapshot)
    requires ForeignKeys(db)
    requires var columns, cards := ListColumnsByBoard(db, board), ListCardsByBoard(db, board);
             && |s.columns| == |columns|
             && (forall i :: 0 <= i < |columns| ==> s.columns[i] == Entry(columns[i], InColumn(cards, columns[i].id)))
             && s.unplaced == Unplaced(cards, ColumnIds(columns))
    ensures s == Read(db, board)
  {
    hide CardList, ColumnList, InColumn, Unplaced, CardsOf;
    var columns, cards, ids := ListColumnsByBoard(db, board), ListCardsByBoard(db, board), ColumnList(db, board);
    forall i | 0 <= i < |columns| ensures s.columns[i] == EntryOf(db, ids[i]) {
      assert ids[i] in ids;
      ColumnIsListed(db, board, ids[i]);
      BucketIsTheColumn(db, board, ids[i]);
    }
    assert s.columns == Read(db, board).columns;
    SentCardsAreOnTheBoard(db, board);
    forall c | c in cards ensures c.column in ColumnIds(columns) {
      ColumnIsListed(db, board, c.column);
      var i :| 0 <= i < |ids| && ids[i] == c.column;
      assert columns[i].id == c.column;
    }
    NothingUnplaced(cards, ColumnIds(columns));
  }

  lemma SentCardsAreOnTheBoard(db: Db, board: Id)
    requires ForeignKeys(db)
    ensures forall c :: c in ListCardsByBoard(db, board) ==>
      c.column in db.columns && db.columns[c.column].board == board
  {
    var keys := BoardKeys(db, board);
    assert forall i :: 0 <= i < |OrderBy(keys)| ==> OrderBy(keys)[i] in keys;
  }
}
