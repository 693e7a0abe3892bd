/**
 * One tenant's boards as rows: what each write statement of the CRUD surface does
 * to the rows, what it refuses, and the event it describes once committed.
 */
module Board {
  import opened Wrappers
  import opened Ordering
  import opened Ranks
  import opened RankedList

  datatype Details = Details(title: string, description: string, assignee: Option<Id>, due: Option<int>)

  datatype ColumnRow = ColumnRow(board: Id, name: string, rank: Rank)

  datatype CardRow = CardRow(board: Id, column: Id, details: Details, rank: Rank)

  datatype Db = Db(boards: set<Id>, members: set<Id>, columns: map<Id, ColumnRow>, cards: map<Id, CardRow>)

  /** The wire bodies: no rank is ever published. */
  datatype Column = Column(id: Id, board: Id, name: string)

  datatype Card = Card(id: Id, board: Id, column: Id, details: Details)

  datatype Event =
    | CardCreated(card: Card)
    | CardUpdated(card: Card)
    | CardMoved(card: Card, from: Id, after: Option<Id>)
    | CardDeleted(cardId: Id, columnId: Id)
    | ColumnCreated(column: Column)
    | ColumnUpdated(column: Column)
    | ColumnMoved(column: Column, afterColumn: Option<Id>)
    | ColumnDeleted(columnId: Id)

  datatype Published = Published(board: Id, event: Event)

  datatype Subject = BoardSubject | ColumnSubject | CardSubject

  datatype Error =
    | NotFound(subject: Subject)
    | CrossBoardColumn
    | StaleAnchor
    | AssigneeNotMember

  /** A PATCH: each field is left alone or written; assignee and due may be cleared. */
  datatype Patch = Patch(
    title: Option<string>,
    description: Option<string>,
    assignee: Option<Option<Id>>,
    due: Option<Option<int>>)

  datatype Request =
    | CreateCard(column: Id, details: Details, newId: Id)
    | UpdateCard(card: Id, patch: Patch)
    | MoveCard(card: Id, column: Id, after: Option<Id>)
    | DeleteCard(card: Id)
    | CreateColumn(board: Id, name: string, newId: Id)
    | RenameColumn(column: Id, name: string)
    | MoveColumn(column: Id, after: Option<Id>)
    | DeleteColumn(column: Id)

  datatype Done = Done(db: Db, published: Published)

  type Answer = Result<Done, Error>

  // ------------------------------------------------------------ row queries

  function CardRanks(db: Db, column: Id): (r: RankMap)
    ensures forall c :: c in r <==> c in db.cards && db.cards[c].column == column
  {
    map c | c in db.cards && db.cards[c].column == column :: db.cards[c].rank
  }

  function ColumnRanks(db: Db, board: Id): (r: RankMap)
    ensures forall c :: c in r <==> c in db.columns && db.columns[c].board == board
  {
    map c | c in db.columns && db.columns[c].board == board :: db.columns[c].rank
  }

  /** `ListCardsByColumn` and `ListColumnsByBoard`, as ids. */
  ghost function CardList(db: Db, column: Id): seq<Id> { Sorted(CardRanks(db, column)) }

  ghost function ColumnList(db: Db, board: Id): seq<Id> { Sorted(ColumnRanks(db, board)) }

  function CardBody(db: Db, c: Id): Card
    requires c in db.cards
  {
    var row := db.cards[c];
    Card(c, row.board, row.column, row.details)
  }

  function ColumnBody(db: Db, c: Id): Column
    requires c in db.columns
  {
    Column(c, db.columns[c].board, db.columns[c].name)
  }

  // -------------------------------------------------------------- statements

  /** `MoveCard`'s UPDATE: no row when the card, the board or the anchor does not fit. */
  ghost function PlaceCard(db: Db, card: Id, column: Id, after: Option<Id>): Option<Db> {
    var siblings := CardRanks(db, column) - {card};
    if card !in db.cards then None
    else if column !in db.columns || db.columns[column].board != db.cards[card].board then None
    else if after.Some? && after.value !in siblings then None
    else Some(db.(cards := db.cards[card := db.cards[card].(column := column, rank := Allocate(siblings, after))]))
  }

  /** `MoveColumn`'s UPDATE. */
  ghost function PlaceColumn(db: Db, column: Id, board: Id, after: Option<Id>): Option<Db> {
    var siblings := ColumnRanks(db, board) - {column};
    if column !in db.columns || db.columns[column].board != board then None
    else if after.Some? && after.value !in siblings then None
    else Some(db.(columns := db.columns[column := db.columns[column].(rank := Allocate(siblings, after))]))
  }

  ghost function RebalanceColumnCards(db: Db, column: Id): Db {
    var ranks := Renumbered(CardRanks(db, column));
    db.(cards := map c | c in db.cards ::
      if db.cards[c].column == column then db.cards[c].(rank := ranks[c]) else db.cards[c])
  }

  ghost function RebalanceBoardColumns(db: Db, board: Id): Db {
    var ranks := Renumbered(ColumnRanks(db, board));
    db.(columns := map c | c in db.columns ::
      if db.columns[c].board == board then db.columns[c].(rank := ranks[c]) else db.columns[c])
  }

  function Patched(details: Details, patch: Patch): Details {
    Details(
      if patch.title.Some? then patch.title.value else details.title,
      if patch.description.Some? then patch.description.value else details.description,
      if patch.assignee.Some? then patch.assignee.value else details.assignee,
      if patch.due.Some? then patch.due.value else details.due)
  }

  predicate AssigneeAllowed(db: Db, assignee: Option<Id>) {
    assignee.Some? ==> assignee.value in db.members
  }

  // ---------------------------------------------------------------- handlers

  ghost function DoCreateCard(db: Db, column: Id, details: Details, newId: Id): Answer {
    if column !in db.columns then Failure(NotFound(ColumnSubject))
    else if !AssigneeAllowed(db, details.assignee) then Failure(AssigneeNotMember)
    else
      var board := db.columns[column].board;
      var row := CardRow(board, column, details, Next(CardRanks(db, column)));
      var db' := db.(cards := db.cards[newId := row]);
      Success(Done(db', Published(board, CardCreated(CardBody(db', newId)))))
  }

  function DoUpdateCard(db: Db, card: Id, patch: Patch): Answer {
    if patch.assignee.Some? && !AssigneeAllowed(db, patch.assignee.value) then Failure(AssigneeNotMember)
    else if card !in db.cards then Failure(NotFound(CardSubject))
    else
      var row := db.cards[card];
      var db' := db.(cards := db.cards[card := row.(details := Patched(row.details, patch))]);
      Success(Done(db', Published(row.board, CardUpdated(CardBody(db', card)))))
  }

  ghost function DoMoveCard(db: Db, card: Id, column: Id, after: Option<Id>): Answer {
    if column !in db.columns then Failure(NotFound(ColumnSubject))
    else if card !in db.cards then Failure(NotFound(CardSubject))
    else if db.cards[card].board != db.columns[column].board then Failure(CrossBoardColumn)
    else match PlaceCard(db, card, column, after)
      case None => Failure(StaleAnchor)
      case Some(placed) =>
        var db' := if placed.cards[card].rank.scale > RebalanceScale
                   then RebalanceColumnCards(placed, column) else placed;
        Success(Done(db', Published(placed.cards[card].board,
                                    CardMoved(CardBody(placed, card), db.cards[card].column, after))))
  }

  function DoDeleteCard(db: Db, card: Id): Answer {
    if card !in db.cards then Failure(NotFound(CardSubject))
    else
      var row := db.cards[card];
      Success(Done(db.(cards := db.cards - {card}), Published(row.board, CardDeleted(card, row.column))))
  }

  ghost function DoCreateColumn(db: Db, board: Id, name: string, newId: Id): Answer {
    if board !in db.boards then Failure(NotFound(BoardSubject))
    else
      var db' := db.(columns := db.columns[newId := ColumnRow(board, name, Next(ColumnRanks(db, board)))]);
      Success(Done(db', Published(board, ColumnCreated(ColumnBody(db', newId)))))
  }

  function DoRenameColumn(db: Db, column: Id, name: string): Answer {
    if column !in db.columns then Failure(NotFound(ColumnSubject))
    else
      var db' := db.(columns := db.columns[column := db.columns[column].(name := name)]);
      Success(Done(db', Published(db.columns[column].board, ColumnUpdated(ColumnBody(db', column)))))
  }

  ghost function DoMoveColumn(db: Db, column: Id, after: Option<Id>): Answer {
    if column !in db.columns then Failure(NotFound(ColumnSubject))
    else
      var board := db.columns[column].board;
      if board !in db.boards then Failure(NotFound(BoardSubject))
      else match PlaceColumn(db, column, board, after)
        case None => Failure(StaleAnchor)
        case Some(placed) =>
          var db' := if placed.columns[column].rank.scale > RebalanceScale
                     then RebalanceBoardColumns(placed, board) else placed;
          Success(Done(db', Published(board, ColumnMoved(ColumnBody(placed, column), after))))
  }

  /** The composite foreign key cascades: the column's cards go in the same statement. */
  function DoDeleteColumn(db: Db, column: Id): Answer {
    if column !in db.columns then Failure(NotFound(ColumnSubject))
    else
      var kept := map c | c in db.cards && db.cards[c].column != column :: db.cards[c];
      Success(Done(db.(columns := db.columns - {column}, cards := kept),
                   Published(db.columns[column].board, ColumnDeleted(column))))
  }

  ghost function Handle(db: Db, request: Request): Answer {
    match request
    case CreateCard(column, details, newId) => DoCreateCard(db, column, details, newId)
    case UpdateCard(card, patch) => DoUpdateCard(db, card, patch)
    case MoveCard(card, column, after) => DoMoveCard(db, card, column, after)
    case DeleteCard(card) => DoDeleteCard(db, card)
    case CreateColumn(board, name, newId) => DoCreateColumn(db, board, name, newId)
    case RenameColumn(column, name) => DoRenameColumn(db, column, name)
    case MoveColumn(column, after) => DoMoveColumn(db, column, after)
    case DeleteColumn(column) => DoDeleteColumn(db, column)
  }

  /** A generated id names nothing yet. */
  ghost predicate FreshId(db: Db, request: Request) {
    && (request.CreateCard? ==> request.newId !in db.cards)
    && (request.CreateColumn? ==> request.newId !in db.columns)
  }

  // --------------------------------------------------------------- invariant

  ghost predicate ForeignKeys(db: Db) {
    && (forall c :: c in db.columns ==> db.columns[c].board in db.boards)
    && (forall c :: c in db.cards ==>
          db.cards[c].column in db.columns && db.cards[c].board == db.columns[db.cards[c].column].board)
  }

  /** Every card is on its column's board, and within one list no two ranks are equal. */
  ghost predicate Valid(db: Db) {
    && ForeignKeys(db)
    && (forall column :: Distinct(CardRanks(db, column)))
    && (forall board :: Distinct(ColumnRanks(db, board)))
  }

  /** Every committed rank is exact within the renumbering threshold. */
  ghost predicate PreciseRows(db: Db) {
    && (forall c :: c in db.cards ==> Precise(Some(db.cards[c].rank), RebalanceScale))
    && (forall c :: c in db.columns ==> Precise(Some(db.columns[c].rank), RebalanceScale))
  }
}
