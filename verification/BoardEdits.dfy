/**
 * What each request writes into the rows, when it is refused, and how what it
 * wrote reads back on the board: field by field, for everything that is not order.
 */
module BoardEdits {
  import opened Wrappers
  import opened Ordering
  import opened Ranks
  import opened RankedList
  import opened Board
  import opened BoardRefinement
  import opened Replica
  import R = ReplicaProofs

  /** A field of a PATCH against the row before and after: as named, or as it was. */
  predicate Reads<T(==)>(named: Option<T>, before: T, after: T) {
    match named
    case Some(value) => after == value
    case None => after == before
  }

  /** An assignee somebody asks for, and who is not a member. */
  predicate Outsider(db: Db, assignee: Option<Id>) {
    assignee.Some? && assignee.value !in db.members
  }

  /** Everything but one card stays as it was. */
  ghost predicate OnlyCard(db: Db, db': Db, card: Id) {
    && db'.boards == db.boards && db'.members == db.members && db'.columns == db.columns
    && (forall c :: c in db.cards && c != card ==> c in db'.cards && db'.cards[c] == db.cards[c])
    && (forall c :: c in db'.cards && c != card ==> c in db.cards)
  }

  ghost predicate OnlyColumn(db: Db, db': Db, column: Id) {
    && db'.boards == db.boards && db'.members == db.members && db'.cards == db.cards
    && (forall c :: c in db.columns && c != column ==> c in db'.columns && db'.columns[c] == db.columns[c])
    && (forall c :: c in db'.columns && c != column ==> c in db.columns)
  }

  /**
   * A PATCH writes each field it names as it names it, clearing an assignee or a
   * due date included, and leaves every other field, card and column alone; the
   * event carries the whole card as it now is.
   */
  lemma UpdateWritesWhatItNames(db: Db, card: Id, patch: Patch)
    ensures var r := Handle(db, UpdateCard(card, patch));
            && (r == Failure(AssigneeNotMember) <==> patch.assignee.Some? && Outsider(db, patch.assignee.value))
            && (r == Failure(NotFound(CardSubject)) <==>
                  card !in db.cards && !(patch.assignee.Some? && Outsider(db, patch.assignee.value)))
            && (r.Success? <==> card in db.cards && !(patch.assignee.Some? && Outsider(db, patch.assignee.value)))
            && (r.Success? ==>
                  var db' := r.value.db;
                  && OnlyCard(db, db', card) && card in db'.cards
                  && var (before, after) := (db.cards[card], db'.cards[card]);
                     && after.board == before.board && after.column == before.column && after.rank == before.rank
                     && Reads(patch.title, before.details.title, after.details.title)
                     && Reads(patch.description, before.details.description, after.details.description)
                     && Reads(patch.assignee, before.details.assignee, after.details.assignee)
                     && Reads(patch.due, before.details.due, after.details.due)
                     && r.value.published == Published(before.board, CardUpdated(Card(card, before.board, before.column, after.details))))
  {
  }

  /** A created card is stored as it was asked for, on its column's board. */
  lemma CreateWritesWhatItNames(db: Db, column: Id, details: Details, newId: Id)
    requires FreshId(db, CreateCard(column, details, newId))
    ensures var r := Handle(db, CreateCard(column, details, newId));
            && (r == Failure(NotFound(ColumnSubject)) <==> column !in db.columns)
            && (r == Failure(AssigneeNotMember) <==> column in db.columns && Outsider(db, details.assignee))
            && (r.Success? <==> column in db.columns && !Outsider(db, details.assignee))
            && (r.Success? ==>
                  var (db', board) := (r.value.db, db.columns[column].board);
                  && OnlyCard(db, db', newId) && newId in db'.cards
                  && CardBody(db', newId) == Card(newId, board, column, details)
                  && r.value.published == Published(board, CardCreated(Card(newId, board, column, details))))
  {
    hide Next, CardRanks;
  }

  /** A rename writes the name and nothing else. */
  lemma RenameWritesTheName(db: Db, column: Id, name: string)
    ensures var r := Handle(db, RenameColumn(column, name));
            && (r == Failure(NotFound(ColumnSubject)) <==> column !in db.columns)
            && (r.Success? <==> column in db.columns)
            && (r.Success? ==>
                  var (db', before) := (r.value.db, db.columns[column]);
                  && OnlyColumn(db, db', column) && column in db'.columns
                  && db'.columns[column] == ColumnRow(before.board, name, before.rank)
                  && r.value.published == Published(before.board, ColumnUpdated(Column(column, before.board, name))))
  {
  }

  /** A created column is stored under its name, on the board asked for. */
  lemma CreateColumnWritesTheName(db: Db, board: Id, name: string, newId: Id)
    requires FreshId(db, CreateColumn(board, name, newId))
    ensures var r := Handle(db, CreateColumn(board, name, newId));
            && (r == Failure(NotFound(BoardSubject)) <==> board !in db.boards)
            && (r.Success? <==> board in db.boards)
            && (r.Success? ==>
                  var db' := r.value.db;
                  && OnlyColumn(db, db', newId) && newId in db'.columns
                  && ColumnBody(db', newId) == Column(newId, board, name)
                  && r.value.published == Published(board, ColumnCreated(Column(newId, board, name))))
  {
    hide Next, ColumnRanks;
  }

  /** Deleting a card takes its row and says from which column. */
  lemma DeleteTakesTheCard(db: Db, card: Id)
    ensures var r := Handle(db, DeleteCard(card));
            && (r == Failure(NotFound(CardSubject)) <==> card !in db.cards)
            && (r.Success? <==> card in db.cards)
            && (r.Success? ==>
                  && OnlyCard(db, r.value.db, card) && card !in r.value.db.cards
                  && r.value.published == Published(db.cards[card].board, CardDeleted(card, db.cards[card].column)))
  {
  }

  /** Deleting a column takes its row and its cards' rows, and no other. */
  lemma DeleteTakesTheColumn(db: Db, column: Id)
    ensures var r := Handle(db, DeleteColumn(column));
            && (r == Failure(NotFound(ColumnSubject)) <==> column !in db.columns)
            && (r.Success? <==> column in db.columns)
            && (r.Success? ==>
                  var db' := r.value.db;
                  && db'.boards == db.boards && db'.members == db.members
                  && (forall c :: c in db'.columns <==> c in db.columns && c != column)
                  && (forall c :: c in db'.columns ==> db'.columns[c] == db.columns[c])
                  && (forall c :: c in db'.cards <==> c in db.cards && db.cards[c].column != column)
                  && (forall c :: c in db'.cards ==> db'.cards[c] == db.cards[c])
                  && r.value.published == Published(db.columns[column].board, ColumnDeleted(column)))
  {
  }

  /** A column move is refused exactly for a missing column, a missing board, or an anchor that is not another column of its board. */
  lemma MoveColumnRefusals(db: Db, column: Id, after: Option<Id>)
    ensures var r := Handle(db, MoveColumn(column, after));
            var placed := column in db.columns && db.columns[column].board in db.boards;
            && (r == Failure(NotFound(ColumnSubject)) <==> column !in db.columns)
            && (r == Failure(NotFound(BoardSubject)) <==> column in db.columns && db.columns[column].board !in db.boards)
            && (r == Failure(StaleAnchor) <==>
                  placed && after.Some?
                  && (after.value == column || after.value !in db.columns
                      || db.columns[after.value].board != db.columns[column].board))
            && (r.Success? <==> placed && r != Failure(StaleAnchor))
            && (r.Success? ==> r.value.published == Published(db.columns[column].board, ColumnMoved(ColumnBody(db, column), after)))
  {
    hide Allocate, Renumbered;
  }

  /** The statement of a card move writes a row exactly if the card is there, the column is on its board, and the anchor is another card of the column. */
  lemma PlacesExactly(db: Db, card: Id, column: Id, after: Option<Id>)
    ensures PlaceCard(db, card, column, after).Some? <==>
            && card in db.cards && column in db.columns && db.columns[column].board == db.cards[card].board
            && (after.Some? ==> after.value != card && after.value in db.cards && db.cards[after.value].column == column)
  {
    hide Allocate, Renumbered;
  }

  /** What a card move announces: the card as it is, in its new column, where from, and the anchor it was asked to follow. */
  lemma MoveCardAnnounces(db: Db, card: Id, column: Id, after: Option<Id>)
    ensures var r := Handle(db, MoveCard(card, column, after));
            r.Success? ==>
              && card in db.cards
              && r.value.published == Published(db.cards[card].board,
                   CardMoved(Card(card, db.cards[card].board, column, db.cards[card].details), db.cards[card].column, after))
  {
    hide Allocate, Renumbered;
  }

  // ------------------------------------------------------------ as it reads back

  /** A full read taken after a PATCH shows the card with what the PATCH named. */
  lemma UpdateReadsBack(db: Db, card: Id, patch: Patch)
    requires Valid(db) && Handle(db, UpdateCard(card, patch)).Success?
    ensures card in db.cards
    ensures var (before, db') := (db.cards[card], Handle(db, UpdateCard(card, patch)).value.db);
            var found := FindCard(Read(db', before.board).columns, card);
            && found.Some? && found.value.board == before.board && found.value.column == before.column
            && Reads(patch.title, before.details.title, found.value.details.title)
            && Reads(patch.description, before.details.description, found.value.details.description)
            && Reads(patch.assignee, before.details.assignee, found.value.details.assignee)
            && Reads(patch.due, before.details.due, found.value.details.due)
  {
    hide Handle, Valid, Read, FindCard;
    var db' := Handle(db, UpdateCard(card, patch)).value.db;
    UpdateWritesWhatItNames(db, card, patch);
    HandleKeepsValid(db, UpdateCard(card, patch));
    R.ValidKeys(db');
    R.FindDrawn(db', db.cards[card].board, card);
  }

  /** A full read taken after a create shows the card as it was asked for. */
  lemma CreateReadsBack(db: Db, column: Id, details: Details, newId: Id)
    requires Valid(db) && FreshId(db, CreateCard(column, details, newId)) && Handle(db, CreateCard(column, details, newId)).Success?
    ensures column in db.columns
    ensures var (board, db') := (db.columns[column].board, Handle(db, CreateCard(column, details, newId)).value.db);
            FindCard(Read(db', board).columns, newId) == Some(Card(newId, board, column, details))
  {
    hide Handle, Valid, Read, FindCard;
    var db' := Handle(db, CreateCard(column, details, newId)).value.db;
    CreateWritesWhatItNames(db, column, details, newId);
    HandleKeepsValid(db, CreateCard(column, details, newId));
    R.ValidKeys(db');
    R.FindDrawn(db', db.columns[column].board, newId);
  }

  /** The column a full read shows under an id. */
  lemma ColumnShown(db: Db, board: Id, column: Id)
    requires column in db.columns && db.columns[column].board == board
    ensures var (columns, k) := (Read(db, board).columns, IndexOfColumn(Read(db, board).columns, column));
            0 <= k < |columns| && columns[k].column == Column(column, board, db.columns[column].name)
  {
    hide CardList, ColumnList, IndexOfColumn, CardsOf;
    R.IndexOfEntry(db, board, column);
    ColumnIsListed(db, board, column);
  }

  /** A full read taken after a rename shows the column under its new name. */
  lemma RenameReadsBack(db: Db, column: Id, name: string)
    requires column in db.columns
    ensures Handle(db, RenameColumn(column, name)).Success?
    ensures var (board, db') := (db.columns[column].board, Handle(db, RenameColumn(column, name)).value.db);
            var (columns, k) := (Read(db', board).columns, IndexOfColumn(Read(db', board).columns, column));
            0 <= k < |columns| && columns[k].column == Column(column, board, name)
  {
    RenameWritesTheName(db, column, name);
    ColumnShown(Handle(db, RenameColumn(column, name)).value.db, db.columns[column].board, column);
    hide Read, IndexOfColumn, Handle;
  }

  /** A full read taken after a column's creation shows it under its name. */
  lemma CreateColumnReadsBack(db: Db, board: Id, name: string, newId: Id)
    requires FreshId(db, CreateColumn(board, name, newId)) && board in db.boards
    ensures Handle(db, CreateColumn(board, name, newId)).Success?
    ensures var db' := Handle(db, CreateColumn(board, name, newId)).value.db;
            var (columns, k) := (Read(db', board).columns, IndexOfColumn(Read(db', board).columns, newId));
            0 <= k < |columns| && columns[k].column == Column(newId, board, name)
  {
    CreateColumnWritesTheName(db, board, name, newId);
    hide Handle;
    ColumnShown(Handle(db, CreateColumn(board, name, newId)).value.db, board, newId);
    hide Read, IndexOfColumn;
  }
}
