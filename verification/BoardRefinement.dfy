/**
 * Rank-sorted rows refine plain lists: for every request, what happens to each
 * sorted list of cards and columns, and that the row invariant is kept.
 */
module BoardRefinement {
  import opened Wrappers
  import opened Ordering
  import opened Ranks
  import opened RankedList
  import opened Board

  /** A column is listed on its own board and on no other. */
  lemma ColumnIsListed(db: Db, board: Id, column: Id)
    ensures column in ColumnList(db, board) <==> column in db.columns && db.columns[column].board == board
  {
    assert column in ColumnList(db, board) <==> column in Keys(ColumnRanks(db, board));
  }

  lemma CardIsListed(db: Db, column: Id, card: Id)
    ensures card in CardList(db, column) <==> card in db.cards && db.cards[card].column == column
  {
    assert card in CardList(db, column) <==> card in Keys(CardRanks(db, column));
  }

  // ------------------------------------------------- ranks after a statement

  lemma PlacedCardRanks(db: Db, card: Id, column: Id, after: Option<Id>, column': Id)
    requires PlaceCard(db, card, column, after).Some?
    ensures var db' := PlaceCard(db, card, column, after).value;
            var siblings := CardRanks(db, column) - {card};
            && (column' == column ==> CardRanks(db', column') == siblings[card := Allocate(siblings, after)])
            && (column' != column ==> CardRanks(db', column') == CardRanks(db, column') - {card})
  {
  }

  lemma RebalancedCardRanks(db: Db, column: Id, column': Id)
    ensures CardRanks(RebalanceColumnCards(db, column), column')
         == if column' == column then Renumbered(CardRanks(db, column)) else CardRanks(db, column')
  {
  }

  lemma PlacedColumnRanks(db: Db, column: Id, board: Id, after: Option<Id>, board': Id)
    requires PlaceColumn(db, column, board, after).Some?
    ensures var db' := PlaceColumn(db, column, board, after).value;
            var siblings := ColumnRanks(db, board) - {column};
            && (board' == board ==> ColumnRanks(db', board') == siblings[column := Allocate(siblings, after)])
            && (board' != board ==> ColumnRanks(db', board') == ColumnRanks(db, board'))
  {
  }

  lemma RebalancedColumnRanks(db: Db, board: Id, board': Id)
    ensures ColumnRanks(RebalanceBoardColumns(db, board), board')
         == if board' == board then Renumbered(ColumnRanks(db, board)) else ColumnRanks(db, board')
  {
  }

  // ------------------------------------------------------- one list at a time

  lemma RemovalKeepsRanks(ranks: RankMap, x: Id)
    requires Distinct(ranks)
    ensures Distinct(ranks - {x})
    ensures Sorted(ranks - {x}) == Without(Sorted(ranks), x)
  {
    RemovalKeepsOrder(Sorted(ranks), ranks, x);
    SortedIsTheListing(Without(Sorted(ranks), x), ranks - {x});
  }

  /** A move into a list: put after the anchor, then renumbered if the rank grew long. */
  lemma MoveIntoList(ranks: RankMap, x: Id, after: Option<Id>)
    requires Distinct(ranks) && (after.Some? ==> after.value in ranks - {x})
    ensures after.Some? ==> after.value in Without(Sorted(ranks), x)
    ensures var siblings := ranks - {x};
            var moved := siblings[x := Allocate(siblings, after)];
            var settled := if moved[x].scale > RebalanceScale then Renumbered(moved) else moved;
            && Distinct(settled)
            && Sorted(settled) == PlaceAfter(Without(Sorted(ranks), x), after, x)
  {
    var siblings := ranks - {x};
    RemovalKeepsRanks(ranks, x);
    var s := Without(Sorted(ranks), x);
    AllocatePlaces(s, siblings, after, x);
    var moved := siblings[x := Allocate(siblings, after)];
    var t := PlaceAfter(s, after, x);
    if moved[x].scale > RebalanceScale {
      RenumberedKeepsOrder(t, moved);
      SortedIsTheListing(t, Renumbered(moved));
    } else {
      SortedIsTheListing(t, moved);
    }
  }

  lemma AppendToList(ranks: RankMap, x: Id)
    requires Distinct(ranks) && x !in ranks
    ensures Distinct(ranks[x := Next(ranks)])
    ensures Sorted(ranks[x := Next(ranks)]) == Sorted(ranks) + [x]
  {
    NextAppends(Sorted(ranks), ranks, x);
    SortedIsTheListing(Sorted(ranks) + [x], ranks[x := Next(ranks)]);
  }

  // -------------------------------------------------------- rank refinement

  lemma MoveCardList(db: Db, card: Id, column: Id, after: Option<Id>, c: Id)
    requires Valid(db) && DoMoveCard(db, card, column, after).Success?
    ensures after.Some? ==> after.value in Without(CardList(db, column), card)
    ensures var db' := DoMoveCard(db, card, column, after).value.db;
            && Distinct(CardRanks(db', c))
            && CardList(db', c) == if c == column then PlaceAfter(Without(CardList(db, c), card), after, card)
                                   else Without(CardList(db, c), card)
  {
    var placed := PlaceCard(db, card, column, after).value;
    MoveIntoList(CardRanks(db, column), card, after);
    PlacedCardRanks(db, card, column, after, c);
    RebalancedCardRanks(placed, column, c);
    RemovalKeepsRanks(CardRanks(db, c), card);
  }

  lemma PlacedCardRows(db: Db, card: Id, column: Id, after: Option<Id>)
    requires PlaceCard(db, card, column, after).Some?
    ensures var db' := PlaceCard(db, card, column, after).value;
            && db'.columns == db.columns && db'.boards == db.boards && db'.members == db.members
            && db'.cards.Keys == db.cards.Keys
            && (forall c :: c in db.cards ==>
                  CardBody(db', c) == if c == card then CardBody(db, c).(column := column) else CardBody(db, c))
  {
    hide CardRanks, Allocate;
  }

  lemma RebalancedCardRows(db: Db, column: Id)
    ensures var db' := RebalanceColumnCards(db, column);
            && db'.columns == db.columns && db'.boards == db.boards && db'.members == db.members
            && db'.cards.Keys == db.cards.Keys
            && (forall c :: c in db.cards ==> CardBody(db', c) == CardBody(db, c))
  {
    hide CardRanks, Renumbered;
  }

  lemma MoveCardRows(db: Db, card: Id, column: Id, after: Option<Id>)
    requires DoMoveCard(db, card, column, after).Success?
    ensures var db' := DoMoveCard(db, card, column, after).value.db;
            && db'.columns == db.columns && db'.boards == db.boards && db'.members == db.members
            && db'.cards.Keys == db.cards.Keys
            && (forall c :: c in db.cards ==>
                  CardBody(db', c) == if c == card then CardBody(db, c).(column := column) else CardBody(db, c))
  {
    hide PlaceCard, RebalanceColumnCards, CardBody;
    PlacedCardRows(db, card, column, after);
    RebalancedCardRows(PlaceCard(db, card, column, after).value, column);
  }

  lemma SameColumnLists(db: Db, db': Db)
    requires db'.columns == db.columns
    ensures forall b :: ColumnRanks(db', b) == ColumnRanks(db, b) && ColumnList(db', b) == ColumnList(db, b)
  {
    forall b ensures ColumnRanks(db', b) == ColumnRanks(db, b) {}
  }

  /**
   * A successful card move: the target column's order is remove-then-insert after
   * the anchor; every other column only loses the card; nothing else about any
   * row changes, renumbered or not.
   */
  lemma MoveCardRefines(db: Db, card: Id, column: Id, after: Option<Id>)
    requires Valid(db) && DoMoveCard(db, card, column, after).Success?
    ensures var db' := DoMoveCard(db, card, column, after).value.db;
            && Valid(db')
            && db'.columns == db.columns && db'.boards == db.boards && db'.members == db.members
            && db'.cards.Keys == db.cards.Keys
            && (forall c :: c in db.cards ==>
                  CardBody(db', c) == if c == card then CardBody(db, c).(column := column) else CardBody(db, c))
            && (after.Some? ==> after.value in Without(CardList(db, column), card))
            && CardList(db', column) == PlaceAfter(Without(CardList(db, column), card), after, card)
            && (forall c :: c != column ==> CardList(db', c) == Without(CardList(db, c), card))
            && (forall b :: ColumnList(db', b) == ColumnList(db, b))
  {
    hide DoMoveCard, CardRanks, CardList, ColumnRanks, ColumnList, Without, PlaceAfter, Distinct, Valid, CardBody;
    MoveCardRows(db, card, column, after);
    var db' := DoMoveCard(db, card, column, after).value.db;
    forall c ensures Distinct(CardRanks(db', c))
      && (c != column ==> CardList(db', c) == Without(CardList(db, c), card))
    {
      MoveCardList(db, card, column, after, c);
    }
    MoveCardList(db, card, column, after, column);
    MovedCardsValid(db, db', card, column, after);
    SameColumnLists(db, db');
  }

  lemma MovedCardsValid(db: Db, db': Db, card: Id, column: Id, after: Option<Id>)
    requires Valid(db) && DoMoveCard(db, card, column, after).Success?
    requires db'.columns == db.columns && db'.boards == db.boards && db'.cards.Keys == db.cards.Keys
    requires forall c :: c in db.cards ==>
                  CardBody(db', c) == if c == card then CardBody(db, c).(column := column) else CardBody(db, c)
    requires forall c :: Distinct(CardRanks(db', c))
    ensures Valid(db')
  {
    forall c | c in db'.cards ensures db'.cards[c].column in db'.columns
      && db'.cards[c].board == db'.columns[db'.cards[c].column].board
    {
      assert CardBody(db', c).board == CardBody(db, c).board;
    }
    forall b ensures Distinct(ColumnRanks(db', b)) {
      assert ColumnRanks(db', b) == ColumnRanks(db, b);
    }
  }

  lemma MoveColumnList(db: Db, column: Id, after: Option<Id>, b: Id)
    requires Valid(db) && DoMoveColumn(db, column, after).Success?
    ensures var db', board := DoMoveColumn(db, column, after).value.db, db.columns[column].board;
            && Distinct(ColumnRanks(db', b))
            && (after.Some? ==> after.value in Without(ColumnList(db, board), column))
            && ColumnList(db', b) == if b == board then PlaceAfter(Without(ColumnList(db, b), column), after, column)
                                     else ColumnList(db, b)
  {
    var board := db.columns[column].board;
    MoveIntoList(ColumnRanks(db, board), column, after);
    PlacedColumnRanks(db, column, board, after, b);
    RebalancedColumnRanks(PlaceColumn(db, column, board, after).value, board, b);
  }

  lemma PlacedColumnRows(db: Db, column: Id, board: Id, after: Option<Id>)
    requires PlaceColumn(db, column, board, after).Some?
    ensures var db' := PlaceColumn(db, column, board, after).value;
            && db'.cards == db.cards && db'.boards == db.boards && db'.members == db.members
            && db'.columns.Keys == db.columns.Keys
            && (forall c :: c in db.columns ==> ColumnBody(db', c) == ColumnBody(db, c))
  {
    hide ColumnRanks, Allocate;
  }

  lemma RebalancedColumnRows(db: Db, board: Id)
    ensures var db' := RebalanceBoardColumns(db, board);
            && db'.cards == db.cards && db'.boards == db.boards && db'.members == db.members
            && db'.columns.Keys == db.columns.Keys
            && (forall c :: c in db.columns ==> ColumnBody(db', c) == ColumnBody(db, c))
  {
    hide ColumnRanks, Renumbered;
  }

  lemma MoveColumnRows(db: Db, column: Id, after: Option<Id>)
    requires DoMoveColumn(db, column, after).Success?
    ensures var db' := DoMoveColumn(db, column, after).value.db;
            && db'.cards == db.cards && db'.boards == db.boards && db'.members == db.members
            && db'.columns.Keys == db.columns.Keys
            && (forall c :: c in db.columns ==> ColumnBody(db', c) == ColumnBody(db, c))
  {
    hide PlaceColumn, RebalanceBoardColumns, ColumnBody;
    var board := db.columns[column].board;
    PlacedColumnRows(db, column, board, after);
    RebalancedColumnRows(PlaceColumn(db, column, board, after).value, board);
  }

  /** A successful column move does to the board's columns what a card move does to cards. */
  lemma MoveColumnRefines(db: Db, column: Id, after: Option<Id>)
    requires Valid(db) && DoMoveColumn(db, column, after).Success?
    ensures var db' := DoMoveColumn(db, column, after).value.db;
            var board := db.columns[column].board;
            && Valid(db')
            && db'.cards == db.cards && db'.boards == db.boards && db'.members == db.members
            && db'.columns.Keys == db.columns.Keys
            && (forall c :: c in db.columns ==> ColumnBody(db', c) == ColumnBody(db, c))
            && (after.Some? ==> after.value in Without(ColumnList(db, board), column))
            && ColumnList(db', board) == PlaceAfter(Without(ColumnList(db, board), column), after, column)
            && (forall b :: b != board ==> ColumnList(db', b) == ColumnList(db, b))
  {
    var db' := DoMoveColumn(db, column, after).value.db;
    MoveColumnRows(db, column, after);
    forall b ensures Distinct(ColumnRanks(db', b))
      && (b != db.columns[column].board ==> ColumnList(db', b) == ColumnList(db, b))
    {
      MoveColumnList(db, column, after, b);
    }
    MoveColumnList(db, column, after, db.columns[column].board);
    forall c | c in db'.columns ensures db'.columns[c].board in db'.boards {
      assert ColumnBody(db', c).board == ColumnBody(db, c).board;
    }
    SameCardsValid(db, db');
  }

  lemma SameCardsValid(db: Db, db': Db)
    requires Valid(db) && db'.cards == db.cards && db'.boards == db.boards && db.columns.Keys <= db'.columns.Keys
    requires forall c :: c in db.columns ==> ColumnBody(db', c) == ColumnBody(db, c)
    requires forall c :: c in db'.columns ==> db'.columns[c].board in db'.boards
    requires forall b :: Distinct(ColumnRanks(db', b))
    ensures Valid(db') && forall c :: CardList(db', c) == CardList(db, c)
  {
    forall c ensures CardRanks(db', c) == CardRanks(db, c) {}
    assert forall c :: c in db.columns ==> ColumnBody(db', c).board == ColumnBody(db, c).board;
  }

  lemma SameColumnsValid(db: Db, db': Db)
    requires Valid(db) && db'.columns == db.columns && db'.boards == db.boards
    requires forall c :: c in db'.cards ==>
      db'.cards[c].column in db'.columns && db'.cards[c].board == db'.columns[db'.cards[c].column].board
    requires forall c :: Distinct(CardRanks(db', c))
    ensures Valid(db') && forall b :: ColumnList(db', b) == ColumnList(db, b)
  {
    forall b ensures ColumnRanks(db', b) == ColumnRanks(db, b) {}
  }

  lemma CreatedCardRanks(db: Db, column: Id, details: Details, newId: Id, c: Id)
    requires newId !in db.cards && DoCreateCard(db, column, details, newId).Success?
    ensures var db', ranks := DoCreateCard(db, column, details, newId).value.db, CardRanks(db, column);
            CardRanks(db', c) == if c == column then ranks[newId := Next(ranks)] else CardRanks(db, c)
  {
  }

  /** A created card is the last of its column; no other list changes. */
  lemma CreateCardRefines(db: Db, column: Id, details: Details, newId: Id)
    requires Valid(db) && newId !in db.cards && DoCreateCard(db, column, details, newId).Success?
    ensures var db' := DoCreateCard(db, column, details, newId).value.db;
            && Valid(db')
            && db'.columns == db.columns
            && CardList(db', column) == CardList(db, column) + [newId]
            && (forall c :: c != column ==> CardList(db', c) == CardList(db, c))
            && (forall b :: ColumnList(db', b) == ColumnList(db, b))
  {
    var db' := DoCreateCard(db, column, details, newId).value.db;
    AppendToList(CardRanks(db, column), newId);
    forall c ensures Distinct(CardRanks(db', c)) && (c != column ==> CardList(db', c) == CardList(db, c)) {
      CreatedCardRanks(db, column, details, newId, c);
    }
    CreatedCardRanks(db, column, details, newId, column);
    SameColumnsValid(db, db');
  }

  lemma CreatedColumnRanks(db: Db, board: Id, name: string, newId: Id, b: Id)
    requires newId !in db.columns && DoCreateColumn(db, board, name, newId).Success?
    ensures var db', ranks := DoCreateColumn(db, board, name, newId).value.db, ColumnRanks(db, board);
            ColumnRanks(db', b) == if b == board then ranks[newId := Next(ranks)] else ColumnRanks(db, b)
  {
  }

  /** A created column is the last of its board and starts empty. */
  lemma CreateColumnRefines(db: Db, board: Id, name: string, newId: Id)
    requires Valid(db) && newId !in db.columns && DoCreateColumn(db, board, name, newId).Success?
    ensures var db' := DoCreateColumn(db, board, name, newId).value.db;
            && Valid(db')
            && db'.cards == db.cards
            && ColumnList(db', board) == ColumnList(db, board) + [newId]
            && (forall b :: b != board ==> ColumnList(db', b) == ColumnList(db, b))
            && (forall c :: CardList(db', c) == CardList(db, c))
            && CardList(db', newId) == []
  {
    var db' := DoCreateColumn(db, board, name, newId).value.db;
    AppendToList(ColumnRanks(db, board), newId);
    forall b ensures Distinct(ColumnRanks(db', b)) && (b != board ==> ColumnList(db', b) == ColumnList(db, b)) {
      CreatedColumnRanks(db, board, name, newId, b);
    }
    CreatedColumnRanks(db, board, name, newId, board);
    SameCardsValid(db, db');
    EmptyList(db, newId);
  }

  lemma EmptyList(db: Db, column: Id)
    requires ForeignKeys(db) && column !in db.columns
    ensures CardList(db, column) == []
  {
    assert CardRanks(db, column) == map[];
    SortedIsTheListing([], map[]);
  }

  lemma DeleteCardRefines(db: Db, card: Id)
    requires Valid(db) && DoDeleteCard(db, card).Success?
    ensures var db' := DoDeleteCard(db, card).value.db;
            && Valid(db')
            && db'.columns == db.columns
            && (forall c :: CardList(db', c) == Without(CardList(db, c), card))
            && (forall b :: ColumnList(db', b) == ColumnList(db, b))
  {
    var db' := DoDeleteCard(db, card).value.db;
    forall c ensures CardRanks(db', c) == CardRanks(db, c) - {card} && Distinct(CardRanks(db', c))
      && CardList(db', c) == Without(CardList(db, c), card)
    {
      assert CardRanks(db', c) == CardRanks(db, c) - {card};
      RemovalKeepsRanks(CardRanks(db, c), card);
    }
    forall b ensures ColumnRanks(db', b) == ColumnRanks(db, b) {}
  }

  /** A deleted column takes exactly its own cards with it. */
  lemma DeleteColumnRefines(db: Db, column: Id)
    requires Valid(db) && DoDeleteColumn(db, column).Success?
    ensures var db' := DoDeleteColumn(db, column).value.db;
            && Valid(db')
            && (forall c :: c in db'.cards <==> c in db.cards && db.cards[c].column != column)
            && (forall b :: ColumnList(db', b) == Without(ColumnList(db, b), column))
            && (forall c :: c != column ==> CardList(db', c) == CardList(db, c))
  {
    var db' := DoDeleteColumn(db, column).value.db;
    forall b ensures Distinct(ColumnRanks(db', b)) && ColumnList(db', b) == Without(ColumnList(db, b), column) {
      assert ColumnRanks(db', b) == ColumnRanks(db, b) - {column};
      RemovalKeepsRanks(ColumnRanks(db, b), column);
    }
    forall c ensures CardRanks(db', c) == if c == column then map[] else CardRanks(db, c) {}
  }

  /** Edits of a body touch no order. */
  lemma EditsKeepOrder(db: Db, request: Request)
    requires Valid(db) && (request.UpdateCard? || request.RenameColumn?) && Handle(db, request).Success?
    ensures var db' := Handle(db, request).value.db;
            && Valid(db')
            && (forall b :: ColumnList(db', b) == ColumnList(db, b))
            && (forall c :: CardList(db', c) == CardList(db, c))
  {
    var db' := Handle(db, request).value.db;
    forall b ensures ColumnRanks(db', b) == ColumnRanks(db, b) {}
    forall c ensures CardRanks(db', c) == CardRanks(db, c) {}
  }

  /** Every request keeps the row invariant; a refusal has no new rows to speak of. */
  lemma HandleKeepsValid(db: Db, request: Request)
    requires Valid(db) && FreshId(db, request) && Handle(db, request).Success?
    ensures Valid(Handle(db, request).value.db)
  {
    match request
    case CreateCard(column, details, newId) => CreateCardRefines(db, column, details, newId);
    case UpdateCard(card, patch) => EditsKeepOrder(db, request);
    case MoveCard(card, column, after) => MoveCardRefines(db, card, column, after);
    case DeleteCard(card) => DeleteCardRefines(db, card);
    case CreateColumn(board, name, newId) => CreateColumnRefines(db, board, name, newId);
    case RenameColumn(column, name) => EditsKeepOrder(db, request);
    case MoveColumn(column, after) => MoveColumnRefines(db, column, after);
    case DeleteColumn(column) => DeleteColumnRefines(db, column);
  }

  /** A card move is refused exactly for the four stated reasons, in that order. */
  lemma MoveCardRefusals(db: Db, card: Id, column: Id, after: Option<Id>)
    requires Valid(db)
    ensures var r := DoMoveCard(db, card, column, after);
            && (r == Failure(NotFound(ColumnSubject)) <==> column !in db.columns)
            && (r == Failure(NotFound(CardSubject)) <==> column in db.columns && card !in db.cards)
            && (r == Failure(CrossBoardColumn) <==>
                  column in db.columns && card in db.cards && db.cards[card].board != db.columns[column].board)
            && (r == Failure(StaleAnchor) <==>
                  column in db.columns && card in db.cards && db.cards[card].board == db.columns[column].board
                  && after.Some? && after.value !in Without(CardList(db, column), card))
  {
    var ranks := CardRanks(db, column);
    RemovalKeepsOrder(Sorted(ranks), ranks, card);
    assert forall x :: x in Keys(ranks - {card}) <==> x in Without(CardList(db, column), card);
  }

  // ---------------------------------------------------------------- precision

  lemma RebalancedCardsPrecise(db: Db, column: Id)
    requires forall c :: c in db.cards && db.cards[c].column != column ==> Precise(Some(db.cards[c].rank), RebalanceScale)
    ensures forall c :: c in RebalanceColumnCards(db, column).cards ==>
              Precise(Some(RebalanceColumnCards(db, column).cards[c].rank), RebalanceScale)
  {
    var ranks := CardRanks(db, column);
    RenumberedFits(ranks);
    forall c | c in db.cards ensures Precise(Some(RebalanceColumnCards(db, column).cards[c].rank), RebalanceScale) {
      if c in ranks {
        assert Precise(Some(Renumbered(ranks)[c]), 0);
      }
    }
  }

  lemma PlacedCardsPrecise(db: Db, card: Id, column: Id, after: Option<Id>)
    requires PreciseRows(db) && PlaceCard(db, card, column, after).Some?
    ensures var placed := PlaceCard(db, card, column, after).value;
            && Precise(Some(placed.cards[card].rank), RebalanceScale + 1) && placed.columns == db.columns
            && placed.cards[card].column == column
            && (forall c :: c in placed.cards && c != card ==> Precise(Some(placed.cards[c].rank), RebalanceScale))
  {
    AllocateFits(CardRanks(db, column) - {card}, after, RebalanceScale);
    hide Allocate, Precise, CardRanks;
  }

  lemma MoveCardKeepsPrecision(db: Db, card: Id, column: Id, after: Option<Id>)
    requires PreciseRows(db) && DoMoveCard(db, card, column, after).Success?
    ensures PreciseRows(DoMoveCard(db, card, column, after).value.db)
  {
    hide PlaceCard, CardRanks, RebalanceColumnCards, CardBody;
    var placed := PlaceCard(db, card, column, after).value;
    PlacedCardsPrecise(db, card, column, after);
    RebalancedCardsPrecise(placed, column);
    RebalancedCardRows(placed, column);
  }

  lemma RebalancedColumnsPrecise(db: Db, board: Id)
    requires forall c :: c in db.columns && db.columns[c].board != board ==> Precise(Some(db.columns[c].rank), RebalanceScale)
    ensures forall c :: c in RebalanceBoardColumns(db, board).columns ==>
              Precise(Some(RebalanceBoardColumns(db, board).columns[c].rank), RebalanceScale)
  {
    var ranks := ColumnRanks(db, board);
    RenumberedFits(ranks);
    forall c | c in db.columns ensures Precise(Some(RebalanceBoardColumns(db, board).columns[c].rank), RebalanceScale) {
      if c in ranks {
        assert Precise(Some(Renumbered(ranks)[c]), 0);
      }
    }
  }

  lemma MoveColumnKeepsPrecision(db: Db, column: Id, after: Option<Id>)
    requires PreciseRows(db) && DoMoveColumn(db, column, after).Success?
    ensures PreciseRows(DoMoveColumn(db, column, after).value.db)
  {
    var board := db.columns[column].board;
    AllocateFits(ColumnRanks(db, board) - {column}, after, RebalanceScale);
    RebalancedColumnsPrecise(PlaceColumn(db, column, board, after).value, board);
    hide Allocate, Renumbered, ColumnRanks, RebalanceBoardColumns;
  }

  /**
   * No committed rank is ever rounded and none needs more than 100 decimal
   * places, however many moves nest into one gap: the renumbering threshold is
   * never outrun.
   */
  lemma HandleKeepsPrecision(db: Db, request: Request)
    requires PreciseRows(db) && Handle(db, request).Success?
    ensures PreciseRows(Handle(db, request).value.db)
  {
    match request
    case CreateCard(column, details, newId) => NextFits(CardRanks(db, column), RebalanceScale);
    case MoveCard(card, column, after) => MoveCardKeepsPrecision(db, card, column, after);
    case CreateColumn(board, name, newId) => NextFits(ColumnRanks(db, board), RebalanceScale);
    case MoveColumn(column, after) => MoveColumnKeepsPrecision(db, column, after);
    case UpdateCard(_, _) =>
    case DeleteCard(_) =>
    case RenameColumn(_, _) =>
    case DeleteColumn(_) =>
  }
}
