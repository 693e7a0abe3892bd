/**
 * The move handlers in the form the server runs them: a transaction that changes
 * rows statement by statement, and a broadcast only on the far side of the commit.
 */
module TenantStore {
  import opened Wrappers
  import opened Ordering
  import opened Ranks
  import opened RankedList
  import opened Board
  import opened ReplicaProofs

  /** `min(position)` by one scan of the rows. */
  method LowestRow(ranks: RankMap) returns (row: Option<Id>)
    ensures row.None? <==> ranks == map[]
    ensures row.Some? ==> row.value in ranks
    ensures row.Some? ==> forall x :: x in ranks && x != row.value ==> Less(Keys(ranks)[row.value], Keys(ranks)[x])
  {
    row := None;
    var left := ranks.Keys;
    while left != {}
      invariant left <= ranks.Keys
      invariant row.None? <==> left == ranks.Keys
      invariant row.Some? ==> row.value in ranks && row.value !in left
      invariant row.Some? ==> forall x :: x in ranks && x !in left && x != row.value ==>
                  Less(Keys(ranks)[row.value], Keys(ranks)[x])
      decreases |left|
    {
      var x :| x in left;
      left := left - {x};
      if row.None? || Less(Key(0, ranks[x].value, x), Key(0, ranks[row.value].value, row.value)) {
        row := Some(x);
      }
    }
  }

  lemma HeadIsLeast(s: seq<Id>, keys: map<Id, Key>, i: nat)
    requires IsListing(s, keys) && i < |s|
    ensures s[0] == s[i] || Less(keys[s[0]], keys[s[i]])
  {
  }

  lemma LowestRowIsLowest(ranks: RankMap, row: Id)
    requires row in ranks
    requires forall x :: x in ranks && x != row ==> Less(Keys(ranks)[row], Keys(ranks)[x])
    ensures Sorted(ranks) != [] && Sorted(ranks)[0] == row && Lowest(ranks) == Some(ranks[row])
  {
    var s, keys := Sorted(ranks), Keys(ranks);
    assert row in keys;
    var i :| 0 <= i < |s| && s[i] == row;
    assert s[0] in keys;
    HeadIsLeast(s, keys, i);
  }

  /** The rank written by a move, from the anchor's row and one scan for the next one. */
  method AllocateRank(siblings: RankMap, after: Option<Id>) returns (r: Rank)
    requires after.Some? ==> after.value in siblings
    ensures r == Allocate(siblings, after)
  {
    var lower := if after.Some? then Some(siblings[after.value]) else None;
    var above := Above(siblings, lower);
    var row := LowestRow(above);
    var upper := None;
    if row.Some? {
      LowestRowIsLowest(above, row.value);
      upper := Some(above[row.value]);
    }
    r := Between(lower, upper);
  }

  /** `row_number()`: the rows taken in order, numbered from one. */
  method NumberRows(ranks: RankMap) returns (more: RankMap)
    ensures more == Renumbered(ranks)
  {
    hide Row, Keys;
    more := map[];
    var left: RankMap, n: nat := ranks, 0;
    while left != map[]
      invariant left == RowsFrom(ranks, n)
      invariant forall x :: x in more <==> x in ranks && Row(ranks, x) < n
      invariant forall x :: x in more ==> more[x] == Whole(Row(ranks, x) + 1)
      decreases left.Keys
    {
      var row := LowestRow(left);
      NextInOrder(ranks, left, n, row.value);
      more := more[row.value := Whole(n + 1)];
      left := left - {row.value};
      n := n + 1;
    }
    assert forall x :: x in ranks ==> x !in left;
    NumberedByRow(ranks, more);
  }

  lemma NumberedByRow(ranks: RankMap, more: RankMap)
    requires more.Keys == ranks.Keys && forall x :: x in more ==> more[x] == Whole(Row(ranks, x) + 1)
    ensures more == Renumbered(ranks)
  {
  }

  ghost function RowsFrom(ranks: RankMap, n: nat): (left: RankMap)
    ensures n == 0 ==> left == ranks
  {
    map x | x in ranks && Row(ranks, x) >= n :: ranks[x]
  }

  /** Where a row comes in the order. */
  ghost function Row(ranks: RankMap, x: Id): nat {
    IndexOf(Sorted(ranks), x)
  }

  lemma NextInOrder(ranks: RankMap, left: RankMap, n: nat, row: Id)
    requires left == RowsFrom(ranks, n)
    requires row in left && forall x :: x in left && x != row ==> Less(Keys(left)[row], Keys(left)[x])
    ensures Row(ranks, row) == n
    ensures forall x :: x in ranks && x != row ==> Row(ranks, x) != n
  {
    var order, keys := Sorted(ranks), Keys(ranks);
    forall x | x in ranks ensures x in order { assert x in keys; }
    var x := order[n];
    assert x in keys && IndexOf(order, x) <= n;
    ListingHasNoDuplicates(order, keys);
    assert x in left;
    OrderIsPosition(order, keys, x, row);
    assert Keys(left)[x] == keys[x] && Keys(left)[row] == keys[row];
  }

  class TenantRows {
    var boards: set<Id>
    var members: set<Id>
    var columns: map<Id, ColumnRow>
    var cards: map<Id, CardRow>

    ghost function Value(): Db
      reads this
    {
      Db(boards, members, columns, cards)
    }

    /** The UPDATE of a card move; no row is written when the anchor does not fit. */
    method PlaceCardRow(card: Id, column: Id, after: Option<Id>) returns (written: bool)
      requires card in cards && column in columns && columns[column].board == cards[card].board
      modifies this`cards
      ensures written == PlaceCard(old(Value()), card, column, after).Some?
      ensures Value() == if written then PlaceCard(old(Value()), card, column, after).value else old(Value())
    {
      var siblings: RankMap := map c | c in cards && cards[c].column == column && c != card :: cards[c].rank;
      assert siblings == CardRanks(Value(), column) - {card};
      written := after.None? || after.value in siblings;
      if written {
        var r := AllocateRank(siblings, after);
        cards := cards[card := cards[card].(column := column, rank := r)];
      }
    }

    method RebalanceColumn(column: Id)
      modifies this`cards
      ensures Value() == RebalanceColumnCards(old(Value()), column)
    {
      var ranks: RankMap := map c | c in cards && cards[c].column == column :: cards[c].rank;
      assert ranks == CardRanks(Value(), column);
      var more := NumberRows(ranks);
      cards := map c | c in cards :: if cards[c].column == column then cards[c].(rank := more[c]) else cards[c];
    }

    /** `moveCard`: lock the column, read the card, write one row, renumber under pressure. */
    method MoveCard(card: Id, column: Id, after: Option<Id>) returns (r: Result<Published, Error>)
      modifies this`cards
      ensures match DoMoveCard(old(Value()), card, column, after)
              case Failure(e) => r == Failure(e) && Value() == old(Value())
              case Success(done) => r == Success(done.published) && Value() == done.db
    {
      if column !in columns { return Failure(NotFound(ColumnSubject)); }
      var target := columns[column];
      if card !in cards { return Failure(NotFound(CardSubject)); }
      var current := cards[card];
      if current.board != target.board { return Failure(CrossBoardColumn); }
      var written := PlaceCardRow(card, column, after);
      if !written { return Failure(StaleAnchor); }
      var moved := cards[card];
      if moved.rank.scale > RebalanceScale {
        RebalanceColumn(column);
      }
      r := Success(Published(moved.board,
        CardMoved(Card(card, moved.board, moved.column, moved.details), current.column, after)));
    }

    method PlaceColumnRow(column: Id, board: Id, after: Option<Id>) returns (written: bool)
      requires column in columns && columns[column].board == board
      modifies this`columns
      ensures written == PlaceColumn(old(Value()), column, board, after).Some?
      ensures Value() == if written then PlaceColumn(old(Value()), column, board, after).value else old(Value())
    {
      var siblings: RankMap := map c | c in columns && columns[c].board == board && c != column :: columns[c].rank;
      assert siblings == ColumnRanks(Value(), board) - {column};
      written := after.None? || after.value in siblings;
      if written {
        var r := AllocateRank(siblings, after);
        columns := columns[column := columns[column].(rank := r)];
      }
    }

    method RebalanceBoard(board: Id)
      modifies this`columns
      ensures Value() == RebalanceBoardColumns(old(Value()), board)
    {
      var ranks: RankMap := map c | c in columns && columns[c].board == board :: columns[c].rank;
      assert ranks == ColumnRanks(Value(), board);
      var more := NumberRows(ranks);
      columns := map c | c in columns :: if columns[c].board == board then columns[c].(rank := more[c]) else columns[c];
    }

    method MoveColumn(column: Id, after: Option<Id>) returns (r: Result<Published, Error>)
      modifies this`columns
      ensures match DoMoveColumn(old(Value()), column, after)
              case Failure(e) => r == Failure(e) && Value() == old(Value())
              case Success(done) => r == Success(done.published) && Value() == done.db
    {
      if column !in columns { return Failure(NotFound(ColumnSubject)); }
      var board := columns[column].board;
      if board !in boards { return Failure(NotFound(BoardSubject)); }
      var written := PlaceColumnRow(column, board, after);
      if !written { return Failure(StaleAnchor); }
      var moved := columns[column];
      if moved.rank.scale > RebalanceScale {
        RebalanceBoard(board);
      }
      r := Success(Published(board, ColumnMoved(Column(column, moved.board, moved.name), after)));
    }

    /**
     * `tenantScopedPublish` around a card move. The event is described only after
     * the commit; a refusal or a failed commit restores every row and says nothing.
     */
    method MoveCardAndPublish(card: Id, column: Id, after: Option<Id>, commits: bool)
      returns (published: Option<Published>)
      modifies this`cards
      ensures (Value(), published) == Serve(old(Value()), Call(Request.MoveCard(card, column, after), commits))
    {
      var before := cards;
      var r := MoveCard(card, column, after);
      if r.Failure? || !commits {
        cards := before;
        return None;
      }
      published := Some(r.value);
    }
  }
}
