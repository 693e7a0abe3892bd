/**
 * The client's board: a full read, and what each event does to it. Applying the
 * anchor events in commit order is shown to rebuild the server's rank-sorted
 * board without a single rank.
 */
module Replica {
  import opened Wrappers
  import opened Ordering
  import opened RankedList
  import opened Board
  import opened BoardRefinement

  datatype Entry = Entry(column: Column, cards: seq<Card>)

  datatype Snapshot = Snapshot(columns: seq<Entry>, unplaced: seq<Card>)

  // ------------------------------------------------------- list primitives

  function FindIn(cards: seq<Card>, id: Id): (r: Option<Card>)
    ensures r.None? <==> forall c :: c in cards ==> c.id != id
    ensures r.Some? ==> r.value in cards && r.value.id == id
  {
    if cards == [] then None
    else if cards[0].id == id then Some(cards[0])
    else FindIn(cards[1..], id)
  }

  /** `flatMap(cards).find(id)`. */
  function FindCard(columns: seq<Entry>, id: Id): (r: Option<Card>)
    ensures r.None? <==> forall e :: e in columns ==> forall c :: c in e.cards ==> c.id != id
    ensures r.Some? ==> r.value.id == id && exists e :: e in columns && r.value in e.cards
  {
    if columns == [] then None
    else
      var here := FindIn(columns[0].cards, id);
      if here.Some? then here else FindCard(columns[1..], id)
  }

  /** `findIndex`, with -1 for absent. */
  function IndexOfCard(cards: seq<Card>, id: Id): (k: int)
    ensures -1 <= k < |cards|
    ensures k >= 0 ==> cards[k].id == id && forall i :: 0 <= i < k ==> cards[i].id != id
    ensures k == -1 ==> forall i :: 0 <= i < |cards| ==> cards[i].id != id
  {
    if cards == [] then -1
    else if cards[0].id == id then 0
    else
      var k := IndexOfCard(cards[1..], id);
      if k == -1 then -1 else k + 1
  }

  function IndexOfColumn(columns: seq<Entry>, id: Id): (k: int)
    ensures -1 <= k < |columns|
    ensures k >= 0 ==> columns[k].column.id == id && forall i :: 0 <= i < k ==> columns[i].column.id != id
    ensures k == -1 ==> forall i :: 0 <= i < |columns| ==> columns[i].column.id != id
  {
    if columns == [] then -1
    else if columns[0].column.id == id then 0
    else
      var k := IndexOfColumn(columns[1..], id);
      if k == -1 then -1 else k + 1
  }

  /** `filter(card => card.id !== id)`. */
  function FilterOut(cards: seq<Card>, id: Id): seq<Card> {
    if cards == [] then []
    else if cards[0].id == id then FilterOut(cards[1..], id)
    else [cards[0]] + FilterOut(cards[1..], id)
  }

  function FilterColumns(columns: seq<Entry>, id: Id): seq<Entry> {
    if columns == [] then []
    else if columns[0].column.id == id then FilterColumns(columns[1..], id)
    else [columns[0]] + FilterColumns(columns[1..], id)
  }

  function MapCards(columns: seq<Entry>, f: Entry -> seq<Card>): (r: seq<Entry>)
    ensures |r| == |columns|
    ensures forall i :: 0 <= i < |r| ==> r[i] == Entry(columns[i].column, f(columns[i]))
  {
    seq(|columns|, i requires 0 <= i < |columns| => Entry(columns[i].column, f(columns[i])))
  }

  // ------------------------------------------------------------ the reducer

  function PlaceCardIn(columns: seq<Entry>, cardId: Id, columnId: Id, after: Option<Id>): seq<Entry> {
    var moving := FindCard(columns, cardId);
    var target := IndexOfColumn(columns, columnId);
    if moving.None? || target == -1 then columns
    else
      var remaining := FilterOut(columns[target].cards, cardId);
      var at := if after.None? then 0 else IndexOfCard(remaining, after.value) + 1;
      if after.Some? && at == 0 then columns
      else
        var placed := moving.value.(column := columnId);
        MapCards(columns, (e: Entry) =>
          if e.column.id == columnId then remaining[..at] + [placed] + remaining[at..]
          else FilterOut(e.cards, cardId))
  }

  function PlaceColumnIn(columns: seq<Entry>, columnId: Id, after: Option<Id>): seq<Entry> {
    var from := IndexOfColumn(columns, columnId);
    if from == -1 then columns
    else
      var rest, moving := columns[..from] + columns[from + 1..], columns[from];
      if after.None? then [moving] + rest
      else
        var anchor := IndexOfColumn(rest, after.value);
        if anchor == -1 then columns else rest[..anchor + 1] + [moving] + rest[anchor + 1..]
  }

  function EditCards(cards: seq<Card>, card: Card): (r: seq<Card>)
    ensures |r| == |cards|
    ensures forall i :: 0 <= i < |r| ==>
      r[i] == if cards[i].id == card.id then cards[i].(details := card.details) else cards[i]
  {
    seq(|cards|, i requires 0 <= i < |cards| =>
      if cards[i].id == card.id then cards[i].(details := card.details) else cards[i])
  }

  function RenameIn(columns: seq<Entry>, column: Column): (r: seq<Entry>)
    ensures |r| == |columns|
    ensures forall i :: 0 <= i < |r| ==>
      r[i] == if columns[i].column.id == column.id
              then columns[i].(column := columns[i].column.(name := column.name)) else columns[i]
  {
    seq(|columns|, i requires 0 <= i < |columns| =>
      if columns[i].column.id == column.id
      then columns[i].(column := columns[i].column.(name := column.name)) else columns[i])
  }

  predicate HasCard(s: Snapshot, id: Id) {
    FindIn(s.unplaced, id).Some? || FindCard(s.columns, id).Some?
  }

  predicate HasColumn(s: Snapshot, id: Id) {
    IndexOfColumn(s.columns, id) != -1
  }

  /** `applyLiveEvent`: one event drawn on the board. */
  function Apply(s: Snapshot, event: Event): Snapshot {
    match event
    case CardCreated(card) =>
      if HasCard(s, card.id) then s
      else s.(columns := MapCards(s.columns, (e: Entry) =>
        if e.column.id == card.column then e.cards + [card] else e.cards))
    case CardUpdated(card) =>
      s.(columns := MapCards(s.columns, (e: Entry) => EditCards(e.cards, card)))
    case CardMoved(card, _, after) => s.(columns := PlaceCardIn(s.columns, card.id, card.column, after))
    case CardDeleted(cardId, _) =>
      s.(columns := MapCards(s.columns, (e: Entry) => FilterOut(e.cards, cardId)))
    case ColumnCreated(column) =>
      if HasColumn(s, column.id) then s else s.(columns := s.columns + [Entry(column, [])])
    case ColumnUpdated(column) => s.(columns := RenameIn(s.columns, column))
    case ColumnMoved(column, after) => s.(columns := PlaceColumnIn(s.columns, column.id, after))
    case ColumnDeleted(columnId) => s.(columns := FilterColumns(s.columns, columnId))
  }

  /** `applyLiveLog`: a whole log, oldest event first. */
  function ApplyLog(s: Snapshot, log: seq<Event>): Snapshot
    decreases |log|
  {
    if log == [] then s else ApplyLog(Apply(s, log[0]), log[1..])
  }

  // ---------------------------------------------------------- the full read

  function Bodies(db: Db, ids: seq<Id>): (r: seq<Card>)
    requires forall i :: 0 <= i < |ids| ==> ids[i] in db.cards
    ensures |r| == |ids| && forall i :: 0 <= i < |r| ==> r[i] == CardBody(db, ids[i])
  {
    seq(|ids|, i requires 0 <= i < |ids| => CardBody(db, ids[i]))
  }

  ghost function CardsOf(db: Db, column: Id): (r: seq<Card>)
    ensures |r| == |CardList(db, column)|
    ensures forall i :: 0 <= i < |r| ==>
      CardList(db, column)[i] in db.cards && r[i] == CardBody(db, CardList(db, column)[i])
    ensures forall c :: c in r ==> c.id in db.cards && c == CardBody(db, c.id) && c.column == column
  {
    assert forall i :: 0 <= i < |CardList(db, column)| ==> CardList(db, column)[i] in Keys(CardRanks(db, column));
    Bodies(db, CardList(db, column))
  }

  /** What the screen shows after reading the board in full. */
  ghost function Read(db: Db, board: Id): (s: Snapshot)
    ensures s.unplaced == [] && |s.columns| == |ColumnList(db, board)|
    ensures forall i :: 0 <= i < |s.columns| ==>
      ColumnList(db, board)[i] in db.columns && s.columns[i] == EntryOf(db, ColumnList(db, board)[i])
  {
    var ids := ColumnList(db, board);
    assert forall i :: 0 <= i < |ids| ==> ids[i] in Keys(ColumnRanks(db, board));
    Snapshot(seq(|ids|, i requires 0 <= i < |ids| => EntryOf(db, ids[i])), [])
  }

  ghost function EntryOf(db: Db, column: Id): Entry
    requires column in db.columns
  {
    Entry(ColumnBody(db, column), CardsOf(db, column))
  }

  // ------------------------------------------------------ facts about its parts

  lemma {:induction false} FilteredCards(cards: seq<Card>, id: Id)
    ensures forall c :: c in FilterOut(cards, id) <==> c in cards && c.id != id
  {
    if cards != [] { FilteredCards(cards[1..], id); }
  }

  lemma {:induction false} FilterAbsent(cards: seq<Card>, id: Id)
    requires forall c :: c in cards ==> c.id != id
    ensures FilterOut(cards, id) == cards
  {
    if cards != [] { FilterAbsent(cards[1..], id); }
  }

  /** What placing a column comes to, once it is found. */
  lemma PlacedColumn(columns: seq<Entry>, columnId: Id, after: Option<Id>)
    requires IndexOfColumn(columns, columnId) != -1
    ensures var from := IndexOfColumn(columns, columnId);
            var rest := columns[..from] + columns[from + 1..];
            var at := if after.None? then 0 else IndexOfColumn(rest, after.value) + 1;
            && 0 <= at <= |rest|
            && PlaceColumnIn(columns, columnId, after) ==
               if after.Some? && at == 0 then columns else rest[..at] + [columns[from]] + rest[at..]
  {
    hide IndexOfColumn;
    var from := IndexOfColumn(columns, columnId);
    var rest := columns[..from] + columns[from + 1..];
    assert rest[..0] == [] && rest[0..] == rest;
  }
}
