/**
 * The last-updated time each row and each body carries. A trigger stamps every row
 * an UPDATE touches, renumbered siblings included; the client keeps the stamp a
 * card or column came with. So a drawn stamp can differ from the row's, and here
 * is exactly when it does.
 */
module Stamps {
  import opened Wrappers
  import opened Ordering
  import opened Ranks
  import opened RankedList
  import opened Board
  import opened BoardRefinement
  import opened Replica
  import R = ReplicaProofs

  /** A transaction's `now()` as the bodies send it, in whole seconds: transactions may share one, or commit out of its order. */
  type Time = int

  datatype Stamps<T> = Stamps(cards: map<Id, T>, columns: map<Id, T>)

  // ------------------------------------------------------------- the server

  /** The cards an UPDATE of this request touches. */
  ghost function RewrittenCards(db: Db, request: Request): (r: set<Id>)
    ensures Handle(db, request).Success? ==> r <= db.cards.Keys
  {
    match request
    case UpdateCard(card, _) => if card in db.cards then {card} else {}
    case MoveCard(card, column, after) =>
      (match PlaceCard(db, card, column, after)
       case None => {}
       case Some(placed) =>
         if placed.cards[card].rank.scale > RebalanceScale
         then set c | c in placed.cards && placed.cards[c].column == column else {card})
    case _ => {}
  }

  ghost function RewrittenColumns(db: Db, request: Request): (r: set<Id>)
    ensures Handle(db, request).Success? ==> r <= db.columns.Keys
  {
    match request
    case RenameColumn(column, _) => if column in db.columns then {column} else {}
    case MoveColumn(column, after) =>
      if column !in db.columns then {}
      else
        var board := db.columns[column].board;
        (match PlaceColumn(db, column, board, after)
         case None => {}
         case Some(placed) =>
           if placed.columns[column].rank.scale > RebalanceScale
           then set c | c in placed.columns && placed.columns[c].board == board else {column})
    case _ => {}
  }

  /** An inserted row takes the default, a rewritten one the trigger's time; deleted rows go. */
  function Restamped(before: map<Id, Time>, rows: set<Id>, rewritten: set<Id>, now: Time): (r: map<Id, Time>)
    ensures r.Keys == rows
  {
    map c | c in rows :: if c in before && c !in rewritten then before[c] else now
  }

  /** When each row there is was rewritten, since it was read or drawn. */
  function Recorded(before: map<Id, seq<Time>>, rows: set<Id>, rewritten: set<Id>, now: Time): (r: map<Id, seq<Time>>)
    ensures r.Keys == rows
  {
    map c | c in rows ::
      if c !in before then [] else if c in rewritten then before[c] + [now] else before[c]
  }

  // ------------------------------------------------------------- the client

  /**
   * A full read brings every stamp and a created entity's body brings its own; the
   * reducer's other cases copy the entity they find and never write its stamp.
   */
  function Noted(s: Snapshot, noted: Stamps<Time>, event: Event, stamp: Time): Stamps<Time> {
    match event
    case CardCreated(card) =>
      if HasCard(s, card.id) || !HasColumn(s, card.column) then noted else noted.(cards := noted.cards[card.id := stamp])
    case ColumnCreated(column) =>
      if HasColumn(s, column.id) then noted else noted.(columns := noted.columns[column.id := stamp])
    case _ => noted
  }

  /** The rows with their stamps, one board as it is drawn with its own, and the rewrites since. */
  datatype Watch = Watch(db: Db, rows: Stamps<Time>, shown: Snapshot, noted: Stamps<Time>, since: Stamps<seq<Time>>)

  datatype Call = Call(request: Request, commits: bool, now: Time)

  predicate Covers<T>(db: Db, stamps: Stamps<T>) {
    stamps.cards.Keys == db.cards.Keys && stamps.columns.Keys == db.columns.Keys
  }

  ghost function FullRead(db: Db, rows: Stamps<Time>, board: Id): Watch {
    Watch(db, rows, Read(db, board), rows, Stamps(map c | c in db.cards :: [], map c | c in db.columns :: []))
  }

  /** The event's body is the row as its own statement returned it, stamped with this transaction's time. */
  ghost function Served(w: Watch, call: Call, board: Id): Watch {
    var answer := Handle(w.db, call.request);
    if answer.Failure? || !call.commits then w
    else
      var db, published := answer.value.db, answer.value.published;
      var cards, columns := RewrittenCards(w.db, call.request), RewrittenColumns(w.db, call.request);
      Watch(
        db,
        Stamps(Restamped(w.rows.cards, db.cards.Keys, cards, call.now), Restamped(w.rows.columns, db.columns.Keys, columns, call.now)),
        R.Deliver(w.shown, published, board),
        if published.board == board then Noted(w.shown, w.noted, published.event, call.now) else w.noted,
        Stamps(Recorded(w.since.cards, db.cards.Keys, cards, call.now), Recorded(w.since.columns, db.columns.Keys, columns, call.now)))
  }

  ghost function ServedAll(w: Watch, calls: seq<Call>, board: Id): Watch
    decreases |calls|
  {
    if calls == [] then w else ServedAll(Served(w, calls[0], board), calls[1..], board)
  }

  ghost predicate Legal(w: Watch, calls: seq<Call>, board: Id)
    decreases |calls|
  {
    calls == [] || (FreshId(w.db, calls[0].request) && Legal(Served(w, calls[0], board), calls[1..], board))
  }

  // -------------------------------------------------------------- invariant

  function Latest(stamp: Time, times: seq<Time>): Time {
    if times == [] then stamp else times[|times| - 1]
  }

  /** A row's stamp is its last rewrite's, or the one it was read or drawn with. */
  predicate Explained(rows: map<Id, Time>, noted: map<Id, Time>, since: map<Id, seq<Time>>, c: Id) {
    c in rows && c in noted && c in since && rows[c] == Latest(noted[c], since[c])
  }

  ghost predicate CardsExplained(w: Watch, board: Id) {
    forall c :: c in w.db.cards && w.db.cards[c].board == board ==> Explained(w.rows.cards, w.noted.cards, w.since.cards, c)
  }

  ghost predicate ColumnsExplained(w: Watch, board: Id) {
    forall c :: c in w.db.columns && w.db.columns[c].board == board ==>
      Explained(w.rows.columns, w.noted.columns, w.since.columns, c)
  }

  ghost predicate Inv(w: Watch, board: Id) {
    && Valid(w.db) && w.shown == Read(w.db, board)
    && Covers(w.db, w.rows) && Covers(w.db, w.since)
    && CardsExplained(w, board) && ColumnsExplained(w, board)
  }

  // ------------------------------------------------------------- the statements

  /** Nothing but a rewritten row, a created one or a deleted one changes. */
  lemma UnwrittenCardsStand(db: Db, request: Request, c: Id)
    requires FreshId(db, request) && Handle(db, request).Success?
    requires var db' := Handle(db, request).value.db; c in db'.cards && c !in RewrittenCards(db, request)
    ensures var db' := Handle(db, request).value.db;
            if c in db.cards then db'.cards[c] == db.cards[c] else request.CreateCard? && request.newId == c
  {
    hide Allocate, Renumbered, Next, CardRanks, ColumnRanks;
  }

  lemma UnwrittenColumnsStand(db: Db, request: Request, c: Id)
    requires FreshId(db, request) && Handle(db, request).Success?
    requires var db' := Handle(db, request).value.db; c in db'.columns && c !in RewrittenColumns(db, request)
    ensures var db' := Handle(db, request).value.db;
            if c in db.columns then db'.columns[c] == db.columns[c] else request.CreateColumn? && request.newId == c
  {
    hide Allocate, Renumbered, Next, CardRanks, ColumnRanks;
  }

  lemma BoardsStand(db: Db, request: Request, c: Id)
    requires FreshId(db, request) && Handle(db, request).Success?
    ensures var db' := Handle(db, request).value.db;
            && (c in db.cards && c in db'.cards ==> db'.cards[c].board == db.cards[c].board)
            && (c in db.columns && c in db'.columns ==> db'.columns[c].board == db.columns[c].board)
  {
    hide Allocate, Renumbered, Next, CardRanks, ColumnRanks;
  }

  /** What a request's event brings a watcher: a created entity's stamp, on the board it was created on. */
  lemma NotedAfter(db: Db, request: Request, board: Id, noted: Stamps<Time>, now: Time)
    requires Valid(db) && FreshId(db, request) && Handle(db, request).Success?
    requires Handle(db, request).value.published.board == board
    ensures Noted(Read(db, board), noted, Handle(db, request).value.published.event, now) ==
            match request
            case CreateCard(_, _, newId) => noted.(cards := noted.cards[newId := now])
            case CreateColumn(_, _, newId) => noted.(columns := noted.columns[newId := now])
            case _ => noted
  {
    hide CardList, ColumnList, FindIn, FindCard, IndexOfColumn, Allocate, Renumbered, Next, CardRanks, ColumnRanks, Read;
    match request
    case CreateCard(column, _, newId) =>
      R.ValidKeys(db);
      R.FindDrawn(db, board, newId);
      R.IndexOfEntry(db, board, column);
      ColumnIsListed(db, board, column);
    case CreateColumn(_, _, newId) =>
      R.IndexOfEntry(db, board, newId);
      ColumnIsListed(db, board, newId);
    case _ =>
  }

  /** A create of something already drawn, a replayed one, leaves the stamp it came with; so does one for a column that is not drawn. */
  lemma NotedOnce(s: Snapshot, noted: Stamps<Time>, card: Card, column: Column, stamp: Time)
    ensures HasCard(s, card.id) || !HasColumn(s, card.column) ==> Noted(s, noted, CardCreated(card), stamp) == noted
    ensures HasColumn(s, column.id) ==> Noted(s, noted, ColumnCreated(column), stamp) == noted
  {
  }

  /** A created entity is announced on its own board. */
  lemma CreatedHere(db: Db, request: Request)
    requires FreshId(db, request) && Handle(db, request).Success?
    ensures var done := Handle(db, request).value;
            && (request.CreateCard? ==> done.db.cards[request.newId].board == done.published.board)
            && (request.CreateColumn? ==> done.db.columns[request.newId].board == done.published.board)
  {
    hide Next, CardRanks, ColumnRanks;
  }

  lemma CardExplained(w: Watch, call: Call, board: Id, c: Id)
    requires Inv(w, board) && FreshId(w.db, call.request) && Handle(w.db, call.request).Success? && call.commits
    requires var db := Handle(w.db, call.request).value.db; c in db.cards && db.cards[c].board == board
    ensures var t := Served(w, call, board); Explained(t.rows.cards, t.noted.cards, t.since.cards, c)
  {
    hide Handle, Read, R.Deliver, Noted, RewrittenCards, RewrittenColumns, Valid, ColumnsExplained;
    if Handle(w.db, call.request).value.published.board == board { NotedAfter(w.db, call.request, board, w.noted, call.now); }
    CreatedHere(w.db, call.request);
    BoardsStand(w.db, call.request, c);
    if c !in RewrittenCards(w.db, call.request) { UnwrittenCardsStand(w.db, call.request, c); }
  }

  lemma CardsExplainedKept(w: Watch, call: Call, board: Id)
    requires Inv(w, board) && FreshId(w.db, call.request)
    ensures CardsExplained(Served(w, call, board), board)
  {
    hide Handle, Read, R.Deliver, Noted, RewrittenCards, RewrittenColumns, Restamped, Recorded, Explained, ColumnsExplained, Valid;
    var answer := Handle(w.db, call.request);
    if answer.Success? && call.commits {
      var t := Served(w, call, board);
      forall c | c in t.db.cards && t.db.cards[c].board == board ensures Explained(t.rows.cards, t.noted.cards, t.since.cards, c) {
        CardExplained(w, call, board, c);
      }
    }
  }

  lemma ColumnExplained(w: Watch, call: Call, board: Id, c: Id)
    requires Inv(w, board) && FreshId(w.db, call.request) && Handle(w.db, call.request).Success? && call.commits
    requires var db := Handle(w.db, call.request).value.db; c in db.columns && db.columns[c].board == board
    ensures var t := Served(w, call, board); Explained(t.rows.columns, t.noted.columns, t.since.columns, c)
  {
    hide Handle, Read, R.Deliver, Noted, RewrittenCards, RewrittenColumns, Valid, CardsExplained;
    if Handle(w.db, call.request).value.published.board == board { NotedAfter(w.db, call.request, board, w.noted, call.now); }
    CreatedHere(w.db, call.request);
    BoardsStand(w.db, call.request, c);
    if c !in RewrittenColumns(w.db, call.request) { UnwrittenColumnsStand(w.db, call.request, c); }
  }

  lemma ColumnsExplainedKept(w: Watch, call: Call, board: Id)
    requires Inv(w, board) && FreshId(w.db, call.request)
    ensures ColumnsExplained(Served(w, call, board), board)
  {
    hide Handle, Read, R.Deliver, Noted, RewrittenCards, RewrittenColumns, Restamped, Recorded, Explained, CardsExplained, Valid;
    var answer := Handle(w.db, call.request);
    if answer.Success? && call.commits {
      var t := Served(w, call, board);
      forall c | c in t.db.columns && t.db.columns[c].board == board
        ensures Explained(t.rows.columns, t.noted.columns, t.since.columns, c)
      {
        ColumnExplained(w, call, board, c);
      }
    }
  }

  lemma ServedKeepsInv(w: Watch, call: Call, board: Id)
    requires Inv(w, board) && FreshId(w.db, call.request)
    ensures Inv(Served(w, call, board), board)
  {
    CardsExplainedKept(w, call, board);
    ColumnsExplainedKept(w, call, board);
    hide Handle, Read, R.Deliver, Noted, RewrittenCards, RewrittenColumns, Valid, CardsExplained, ColumnsExplained;
    if Handle(w.db, call.request).Success? && call.commits {
      HandleKeepsValid(w.db, call.request);
      R.RequestAgrees(w.db, call.request, board);
    }
  }

  // ------------------------------------------------------------------- runs

  lemma FullReadExplains(db: Db, rows: Stamps<Time>, board: Id)
    requires Valid(db) && Covers(db, rows)
    ensures Inv(FullRead(db, rows, board), board)
  {
    hide Read, Valid;
  }

  lemma {:induction false} RunKeepsInv(w: Watch, calls: seq<Call>, board: Id)
    requires Inv(w, board) && Legal(w, calls, board)
    ensures Inv(ServedAll(w, calls, board), board)
    decreases |calls|
  {
    if calls != [] {
      ServedKeepsInv(w, calls[0], board);
      hide Inv, Served, FreshId;
      RunKeepsInv(Served(w, calls[0], board), calls[1..], board);
    }
  }

  /** No UPDATE has touched the row since, or the last one bore the very time it was read or drawn with. */
  predicate Untouched(noted: map<Id, Time>, since: map<Id, seq<Time>>, c: Id)
    requires c in noted && c in since
  {
    since[c] == [] || since[c][|since[c]| - 1] == noted[c]
  }

  /**
   * Over every run from a full read: the board drawn is the full read taken after
   * in all but its stamps, and a drawn stamp is the row's if and only if no update,
   * move, rename or renumbering has rewritten that row since it was read or drawn,
   * or the last to do so bore the same time.
   */
  lemma StampsAgreeExactly(db: Db, rows: Stamps<Time>, calls: seq<Call>, board: Id)
    requires Valid(db) && Covers(db, rows) && Legal(FullRead(db, rows, board), calls, board)
    ensures var w := ServedAll(FullRead(db, rows, board), calls, board);
            && w.shown == Read(w.db, board) && Covers(w.db, w.rows) && Covers(w.db, w.since)
            && (forall c :: c in w.db.cards && w.db.cards[c].board == board ==>
                  && c in w.noted.cards
                  && (w.noted.cards[c] == w.rows.cards[c] <==> Untouched(w.noted.cards, w.since.cards, c)))
            && (forall c :: c in w.db.columns && w.db.columns[c].board == board ==>
                  && c in w.noted.columns
                  && (w.noted.columns[c] == w.rows.columns[c] <==> Untouched(w.noted.columns, w.since.columns, c)))
  {
    FullReadExplains(db, rows, board);
    RunKeepsInv(FullRead(db, rows, board), calls, board);
    hide Read, Valid, Handle, Served, FreshId, ServedAll, Legal, FullRead;
  }

  /** Whatever a request rewrites takes its time, and the drawn board keeps the stamp it had. */
  lemma ARewriteIsMissed(w: Watch, call: Call, board: Id, c: Id)
    requires Inv(w, board) && FreshId(w.db, call.request) && Handle(w.db, call.request).Success? && call.commits
    requires c in RewrittenCards(w.db, call.request) && w.db.cards[c].board == board
    ensures var t := Served(w, call, board);
            && c in t.db.cards && c in w.noted.cards && c in t.noted.cards && c in t.rows.cards
            && t.noted.cards[c] == w.noted.cards[c] && t.rows.cards[c] == call.now
  {
    StillThere(w.db, call.request, c);
    hide Handle, Read, R.Deliver, Noted, RewrittenCards, RewrittenColumns, Valid;
    if Handle(w.db, call.request).value.published.board == board {
      NotedAfter(w.db, call.request, board, w.noted, call.now);
    }
  }

  lemma StillThere(db: Db, request: Request, c: Id)
    requires Handle(db, request).Success? && c in RewrittenCards(db, request)
    ensures c in Handle(db, request).value.db.cards
  {
    hide Allocate, Renumbered, CardRanks;
  }

  /**
   * A move past the renumbering threshold rewrites every card of its column, and
   * its one event names none but the card moved; any other move rewrites that one.
   */
  lemma ARenumberingIsSilent(db: Db, card: Id, column: Id, after: Option<Id>)
    requires DoMoveCard(db, card, column, after).Success?
    ensures var renumbered := PlaceCard(db, card, column, after).value.cards[card].rank.scale > RebalanceScale;
            && DoMoveCard(db, card, column, after).value.published.event.CardMoved?
            && DoMoveCard(db, card, column, after).value.published.event.card.id == card
            && forall c :: c in RewrittenCards(db, MoveCard(card, column, after)) <==>
                 c == card || (renumbered && c in db.cards && db.cards[c].column == column)
  {
    hide Allocate, Renumbered, CardRanks;
  }
}
