/**
 * A drawn board as ids alone: the order of its columns, and the order of the cards
 * in each. Drawing an event on a board does to its outline what plain list
 * operations do, and to its bodies nothing but what the event says.
 */
module Outlines {
  import opened Wrappers
  import opened Ordering
  import opened RankedList
  import opened Board
  import opened BoardRefinement
  import opened Replica
  import opened Replay
  import R = ReplicaProofs

  datatype Outline = Outline(order: seq<Id>, lines: map<Id, seq<Id>>)

  ghost predicate Holds(o: Outline, card: Id) {
    exists k :: k in o.lines && card in o.lines[k]
  }

  ghost predicate Disjoint(o: Outline) {
    forall j, k, c :: j in o.lines && k in o.lines && c in o.lines[j] && c in o.lines[k] ==> j == k
  }

  /** Every column once, and every card once. */
  ghost predicate Regular(o: Outline) {
    && NoDuplicates(o.order)
    && (forall k :: k in o.lines <==> k in o.order)
    && (forall k :: k in o.lines ==> NoDuplicates(o.lines[k]))
    && Disjoint(o)
  }

  /** The one place a card goes, if everything its move names is there. */
  ghost predicate Placeable(o: Outline, card: Id, column: Id, after: Option<Id>) {
    Holds(o, card) && column in o.lines && (after.Some? ==> after.value in Without(o.lines[column], card))
  }

  function Moved(lines: map<Id, seq<Id>>, card: Id, column: Id, after: Option<Id>): map<Id, seq<Id>>
    requires column in lines && (after.Some? ==> after.value in Without(lines[column], card))
  {
    map k | k in lines :: if k == column then PlaceAfter(Without(lines[k], card), after, card) else Without(lines[k], card)
  }

  function Emptied(lines: map<Id, seq<Id>>, card: Id): map<Id, seq<Id>> {
    map k | k in lines :: Without(lines[k], card)
  }

  ghost function Draw(o: Outline, event: Event): Outline {
    match event
    case CardCreated(card) =>
      if Holds(o, card.id) || card.column !in o.lines then o
      else o.(lines := o.lines[card.column := o.lines[card.column] + [card.id]])
    case CardMoved(card, _, after) =>
      if Placeable(o, card.id, card.column, after) then o.(lines := Moved(o.lines, card.id, card.column, after)) else o
    case CardDeleted(card, _) => o.(lines := Emptied(o.lines, card))
    case ColumnCreated(column) =>
      if column.id in o.order then o else Outline(o.order + [column.id], o.lines[column.id := []])
    case ColumnMoved(column, after) =>
      if column.id in o.order && (after.Some? ==> after.value in Without(o.order, column.id))
      then o.(order := PlaceAfter(Without(o.order, column.id), after, column.id)) else o
    case ColumnDeleted(column) => Outline(Without(o.order, column), o.lines - {column})
    case _ => o
  }

  // ------------------------------------------------------- a board's outline

  function IdsOf(cards: seq<Card>): (r: seq<Id>)
    ensures |r| == |cards| && forall i :: 0 <= i < |r| ==> r[i] == cards[i].id
  {
    seq(|cards|, i requires 0 <= i < |cards| => cards[i].id)
  }

  function OrderOf(columns: seq<Entry>): (r: seq<Id>)
    ensures |r| == |columns| && forall i :: 0 <= i < |r| ==> r[i] == columns[i].column.id
  {
    seq(|columns|, i requires 0 <= i < |columns| => columns[i].column.id)
  }

  function LineOf(columns: seq<Entry>, k: Id): seq<Id> {
    var i := IndexOfColumn(columns, k);
    if i == -1 then [] else IdsOf(columns[i].cards)
  }

  function OutlineOf(s: Snapshot): Outline {
    Outline(OrderOf(s.columns), map k | k in OrderOf(s.columns) :: LineOf(s.columns, k))
  }

  /** A board as a read and the reducer leave it. */
  ghost predicate Tidy(s: Snapshot) {
    && s.unplaced == [] && UniqueColumns(s) && Regular(OutlineOf(s))
    && forall i, j :: 0 <= i < |s.columns| && 0 <= j < |s.columns[i].cards| ==>
         s.columns[i].cards[j].column == s.columns[i].column.id
  }

  lemma IndexIsUnique(columns: seq<Entry>, i: nat)
    requires i < |columns|
    requires forall j, k :: 0 <= j < k < |columns| ==> columns[j].column.id != columns[k].column.id
    ensures IndexOfColumn(columns, columns[i].column.id) == i
  {
    hide IndexOfColumn;
    var k := IndexOfColumn(columns, columns[i].column.id);
    assert k != -1;
  }

  lemma LineAt(s: Snapshot, i: nat)
    requires UniqueColumns(s) && i < |s.columns|
    ensures var k := s.columns[i].column.id; k in OutlineOf(s).lines && OutlineOf(s).lines[k] == IdsOf(s.columns[i].cards)
  {
    hide IndexOfColumn;
    IndexIsUnique(s.columns, i);
    assert OrderOf(s.columns)[i] in OrderOf(s.columns);
  }

  lemma LineOnce(s: Snapshot, i: nat)
    requires Tidy(s) && i < |s.columns|
    ensures NoDuplicates(IdsOf(s.columns[i].cards))
  {
    hide IndexOfColumn, NoDuplicates, OutlineOf;
    LineAt(s, i);
  }

  lemma OutlineIs(s: Snapshot, o: Outline)
    requires UniqueColumns(s) && o.order == OrderOf(s.columns)
    requires forall k :: k in o.lines <==> k in o.order
    requires forall i :: 0 <= i < |s.columns| && s.columns[i].column.id in o.lines ==>
      o.lines[s.columns[i].column.id] == IdsOf(s.columns[i].cards)
    ensures OutlineOf(s) == o
  {
    hide IndexOfColumn, LineOf;
    forall k | k in o.lines ensures k in OutlineOf(s).lines && OutlineOf(s).lines[k] == o.lines[k] {
      var i :| 0 <= i < |o.order| && o.order[i] == k;
      LineAt(s, i);
    }
  }

  lemma IdsFiltered(cards: seq<Card>, id: Id)
    requires NoDuplicates(IdsOf(cards))
    ensures IdsOf(FilterOut(cards, id)) == Without(IdsOf(cards), id)
  {
    hide FilterOut;
    var ids := IdsOf(cards);
    if id in ids {
      var k := IndexOf(ids, id);
      R.FilterAt(cards, k, id);
    } else {
      forall c | c in cards ensures c.id != id {
        var i :| 0 <= i < |cards| && cards[i] == c;
        assert ids[i] in ids;
      }
      FilterAbsent(cards, id);
    }
  }

  lemma HoldsDrawn(s: Snapshot, card: Id)
    requires UniqueColumns(s)
    ensures FindCard(s.columns, card).Some? <==> Holds(OutlineOf(s), card)
  {
    hide FindCard, IndexOfColumn, OutlineOf;
    if FindCard(s.columns, card).Some? {
      var c := FindCard(s.columns, card).value;
      var e :| e in s.columns && c in e.cards;
      var i :| 0 <= i < |s.columns| && s.columns[i] == e;
      var j :| 0 <= j < |e.cards| && e.cards[j] == c;
      LineAt(s, i);
      assert IdsOf(e.cards)[j] == card;
    }
    if Holds(OutlineOf(s), card) {
      HeldIsFound(s, card);
    }
  }

  lemma HeldIsFound(s: Snapshot, card: Id)
    requires UniqueColumns(s) && Holds(OutlineOf(s), card)
    ensures FindCard(s.columns, card).Some?
  {
    hide FindCard, IndexOfColumn;
    var o := OutlineOf(s);
    var k :| k in o.lines && card in o.lines[k];
    var i :| 0 <= i < |o.order| && o.order[i] == k;
    LineAt(s, i);
    var e := s.columns[i];
    var j :| 0 <= j < |e.cards| && IdsOf(e.cards)[j] == card;
    assert e in s.columns && e.cards[j] in e.cards && e.cards[j].id == card;
  }

  // ------------------------------------------------------------ list operations

  lemma Removed(ids: seq<Id>, k: nat)
    requires NoDuplicates(ids) && k < |ids|
    ensures NoDuplicates(ids[..k] + ids[k + 1..])
    ensures forall c :: c in ids[..k] + ids[k + 1..] <==> c in ids && c != ids[k]
  {
    var r := ids[..k] + ids[k + 1..];
    assert forall i :: 0 <= i < |r| ==> r[i] == ids[if i < k then i else i + 1];
    forall c | c in ids && c != ids[k] ensures c in r {
      var i :| 0 <= i < |ids| && ids[i] == c;
      assert r[if i < k then i else i - 1] == c;
    }
  }

  lemma WithoutIs(ids: seq<Id>, x: Id)
    requires NoDuplicates(ids)
    ensures NoDuplicates(Without(ids, x)) && forall c :: c in Without(ids, x) <==> c in ids && c != x
  {
    hide NoDuplicates;
    if x in ids { Removed(ids, IndexOf(ids, x)); }
  }

  lemma PlaceAfterIs(ids: seq<Id>, after: Option<Id>, x: Id)
    requires NoDuplicates(ids) && x !in ids && (after.Some? ==> after.value in ids)
    ensures NoDuplicates(PlaceAfter(ids, after, x)) && forall c :: c in PlaceAfter(ids, after, x) <==> c in ids || c == x
  {
    var at := if after.Some? then IndexOf(ids, after.value) + 1 else 0;
    var r := PlaceAfter(ids, after, x);
    assert forall i :: 0 <= i < |r| ==> r[i] == if i < at then ids[i] else if i == at then x else ids[i - 1];
    forall c | c in ids ensures c in r {
      var i :| 0 <= i < |ids| && ids[i] == c;
      assert r[if i < at then i else i + 1] == c;
    }
    assert r[at] == x;
  }

  lemma MovedLine(o: Outline, card: Id, column: Id, after: Option<Id>, k: Id)
    requires Regular(o) && Placeable(o, card, column, after) && k in o.lines
    ensures var lines := Moved(o.lines, card, column, after);
            NoDuplicates(lines[k]) && forall c :: c in lines[k] <==> if c == card then k == column else c in o.lines[k]
  {
    WithoutIs(o.lines[k], card);
    if k == column {
      PlaceAfterIs(Without(o.lines[k], card), after, card);
    }
    hide Without, PlaceAfter;
  }

  lemma RegularMoved(o: Outline, card: Id, column: Id, after: Option<Id>)
    requires Regular(o) && Placeable(o, card, column, after)
    ensures Regular(o.(lines := Moved(o.lines, card, column, after)))
  {
    hide Moved, Without, PlaceAfter, Holds, NoDuplicates;
    var lines := Moved(o.lines, card, column, after);
    MovedKeys(o.lines, card, column, after);
    forall k | k in lines ensures NoDuplicates(lines[k]) { MovedLine(o, card, column, after, k); }
    forall j, k, c | j in lines && k in lines && c in lines[j] && c in lines[k] ensures j == k {
      MovedLine(o, card, column, after, j);
      MovedLine(o, card, column, after, k);
    }
  }

  lemma MovedKeys(lines: map<Id, seq<Id>>, card: Id, column: Id, after: Option<Id>)
    requires column in lines && (after.Some? ==> after.value in Without(lines[column], card))
    ensures forall k :: k in Moved(lines, card, column, after) <==> k in lines
  {
  }

  lemma RegularEmptied(o: Outline, card: Id)
    requires Regular(o)
    ensures Regular(o.(lines := Emptied(o.lines, card)))
  {
    hide Without, NoDuplicates;
    var lines := Emptied(o.lines, card);
    forall k | k in lines ensures NoDuplicates(lines[k]) { WithoutIs(o.lines[k], card); }
    forall j, k, c | j in lines && k in lines && c in lines[j] && c in lines[k] ensures j == k {
      WithoutIs(o.lines[j], card);
      WithoutIs(o.lines[k], card);
    }
  }

  lemma RegularAppended(o: Outline, card: Id, column: Id)
    requires Regular(o) && !Holds(o, card) && column in o.lines
    ensures Regular(o.(lines := o.lines[column := o.lines[column] + [card]]))
  {
  }

  lemma RegularReordered(o: Outline, order: seq<Id>)
    requires Regular(o) && NoDuplicates(order) && forall k :: k in order <==> k in o.order
    ensures Regular(o.(order := order))
  {
    hide NoDuplicates;
  }

  lemma RegularKept(o: Outline, event: Event)
    requires Regular(o)
    ensures Regular(Draw(o, event))
  {
    hide Moved, Emptied, Without, PlaceAfter, Holds;
    match event
    case CardCreated(card) =>
      if !Holds(o, card.id) && card.column in o.lines { RegularAppended(o, card.id, card.column); }
    case CardMoved(card, _, after) =>
      if Placeable(o, card.id, card.column, after) { RegularMoved(o, card.id, card.column, after); }
    case CardDeleted(card, _) => RegularEmptied(o, card);
    case ColumnCreated(column) =>
    case ColumnMoved(column, after) =>
      if column.id in o.order && (after.Some? ==> after.value in Without(o.order, column.id)) {
        WithoutIs(o.order, column.id);
        PlaceAfterIs(Without(o.order, column.id), after, column.id);
        RegularReordered(o, PlaceAfter(Without(o.order, column.id), after, column.id));
      }
    case ColumnDeleted(column) => WithoutIs(o.order, column);
    case _ =>
  }

  // -------------------------------------------------- drawing draws the outline

  lemma SameOrder(s: Snapshot, t: Snapshot)
    requires UniqueColumns(s) && |t.columns| == |s.columns|
    requires forall i :: 0 <= i < |s.columns| ==> t.columns[i].column.id == s.columns[i].column.id
    ensures UniqueColumns(t) && OrderOf(t.columns) == OrderOf(s.columns)
  {
  }

  lemma DrawsCardCreated(s: Snapshot, card: Card)
    requires Tidy(s)
    ensures var t := Apply(s, CardCreated(card)); UniqueColumns(t) && OutlineOf(t) == Draw(OutlineOf(s), CardCreated(card))
  {
    hide FindIn, FindCard, IndexOfColumn, LineOf, OutlineOf, Holds, Regular;
    var o, t := OutlineOf(s), Apply(s, CardCreated(card));
    HoldsDrawn(s, card.id);
    OutlineShape(s);
    if !HasCard(s, card.id) {
      SameOrder(s, t);
      forall i | 0 <= i < |s.columns| ensures Draw(o, CardCreated(card)).lines[s.columns[i].column.id] == IdsOf(t.columns[i].cards) {
        LineAt(s, i);
        assert IdsOf(s.columns[i].cards + [card]) == IdsOf(s.columns[i].cards) + [card.id];
      }
      OutlineIs(t, Draw(o, CardCreated(card)));
    }
  }

  lemma OutlineShape(s: Snapshot)
    ensures OutlineOf(s).order == OrderOf(s.columns)
    ensures forall k :: k in OutlineOf(s).lines <==> k in OutlineOf(s).order
    ensures forall i :: 0 <= i < |s.columns| ==> s.columns[i].column.id in OutlineOf(s).order
  {
    assert forall i :: 0 <= i < |s.columns| ==> OrderOf(s.columns)[i] in OrderOf(s.columns);
  }

  lemma DrawsEdits(s: Snapshot, event: Event)
    requires Tidy(s) && (event.CardUpdated? || event.ColumnUpdated?)
    ensures var t := Apply(s, event); UniqueColumns(t) && OutlineOf(t) == OutlineOf(s)
  {
    hide IndexOfColumn, LineOf, OutlineOf;
    var o, t := OutlineOf(s), Apply(s, event);
    OutlineShape(s);
    SameOrder(s, t);
    forall i | 0 <= i < |s.columns| ensures o.lines[s.columns[i].column.id] == IdsOf(t.columns[i].cards) {
      LineAt(s, i);
      assert IdsOf(t.columns[i].cards) == IdsOf(s.columns[i].cards);
    }
    OutlineIs(t, o);
  }

  lemma DrawsCardDeleted(s: Snapshot, card: Id, column: Id)
    requires Tidy(s)
    ensures var t := Apply(s, CardDeleted(card, column));
            UniqueColumns(t) && OutlineOf(t) == Draw(OutlineOf(s), CardDeleted(card, column))
  {
    hide FilterOut, IndexOfColumn, LineOf, OutlineOf, Without, Regular;
    var o, t := OutlineOf(s), Apply(s, CardDeleted(card, column));
    OutlineShape(s);
    SameOrder(s, t);
    forall i | 0 <= i < |s.columns| ensures Draw(o, CardDeleted(card, column)).lines[s.columns[i].column.id] == IdsOf(t.columns[i].cards) {
      LineAt(s, i);
      LineOnce(s, i);
      IdsFiltered(s.columns[i].cards, card);
    }
    OutlineIs(t, Draw(o, CardDeleted(card, column)));
  }

  lemma IndexOfIds(cards: seq<Card>, id: Id)
    ensures IndexOfCard(cards, id) == if id in IdsOf(cards) then IndexOf(IdsOf(cards), id) else -1
  {
    hide IndexOfCard;
    var ids := IdsOf(cards);
    var k := IndexOf(ids, id);
    assert forall i :: 0 <= i < k ==> ids[i] in ids[..k];
  }

  lemma IdsPlaced(cards: seq<Card>, at: nat, card: Card)
    requires at <= |cards|
    ensures IdsOf(cards[..at] + [card] + cards[at..]) == IdsOf(cards)[..at] + [card.id] + IdsOf(cards)[at..]
  {
  }

  /** Whether the reducer finds everything a move names. */
  lemma FoundIsPlaceable(s: Snapshot, card: Id, column: Id, after: Option<Id>)
    requires Tidy(s)
    ensures IndexOfColumn(s.columns, column) != -1 <==> column in OutlineOf(s).lines
    ensures Placeable(OutlineOf(s), card, column, after) <==>
            && FindCard(s.columns, card).Some? && IndexOfColumn(s.columns, column) != -1
            && (after.Some? ==> IndexOfCard(FilterOut(s.columns[IndexOfColumn(s.columns, column)].cards, card), after.value) != -1)
  {
    hide FindCard, FilterOut, IndexOfCard, IndexOfColumn, Holds, OutlineOf, LineOf, Without, Regular;
    OutlineShape(s);
    HoldsDrawn(s, card);
    var target := IndexOfColumn(s.columns, column);
    if target != -1 {
      LineAt(s, target);
      LineOnce(s, target);
      IdsFiltered(s.columns[target].cards, card);
      if after.Some? { IndexOfIds(FilterOut(s.columns[target].cards, card), after.value); }
    }
  }

  lemma DrawsCardMoved(s: Snapshot, card: Card, from: Id, after: Option<Id>)
    requires Tidy(s)
    ensures var t := Apply(s, CardMoved(card, from, after));
            UniqueColumns(t) && OutlineOf(t) == Draw(OutlineOf(s), CardMoved(card, from, after))
  {
    hide FindCard, FilterOut, IndexOfCard, IndexOfColumn, OutlineOf, LineOf, Without, Holds, PlaceCardIn, PlaceAfter, Regular, IdsOf;
    var o, t := OutlineOf(s), Apply(s, CardMoved(card, from, after));
    FoundIsPlaceable(s, card.id, card.column, after);
    if Placeable(o, card.id, card.column, after) {
      var target := IndexOfColumn(s.columns, card.column);
      var moving := FindCard(s.columns, card.id).value;
      R.PlaceCardInAt(s.columns, moving, card.column, after, target);
      OutlineShape(s);
      SameOrder(s, t);
      forall i | 0 <= i < |s.columns| ensures Moved(o.lines, card.id, card.column, after)[s.columns[i].column.id] == IdsOf(t.columns[i].cards) {
        MovedDrawn(s, moving, card.column, after, target, i);
      }
      OutlineIs(t, Draw(o, CardMoved(card, from, after)));
    } else {
      NotPlaced(s, card.id, card.column, after);
    }
  }

  lemma NotPlaced(s: Snapshot, card: Id, column: Id, after: Option<Id>)
    requires Tidy(s) && !Placeable(OutlineOf(s), card, column, after)
    ensures PlaceCardIn(s.columns, card, column, after) == s.columns
  {
    hide FindCard, FilterOut, IndexOfCard, IndexOfColumn, OutlineOf, Placeable;
    FoundIsPlaceable(s, card, column, after);
  }

  lemma MovedDrawn(s: Snapshot, moving: Card, column: Id, after: Option<Id>, target: nat, i: nat)
    requires Tidy(s) && Placeable(OutlineOf(s), moving.id, column, after) && i < |s.columns|
    requires FindCard(s.columns, moving.id) == Some(moving) && IndexOfColumn(s.columns, column) == target < |s.columns|
    ensures var rest := FilterOut(s.columns[target].cards, moving.id);
            var at := if after.None? then 0 else IndexOfCard(rest, after.value) + 1;
            && 0 <= at <= |rest| && s.columns[i].column.id in OutlineOf(s).lines
            && Moved(OutlineOf(s).lines, moving.id, column, after)[s.columns[i].column.id]
               == IdsOf(if s.columns[i].column.id == column then rest[..at] + [moving.(column := column)] + rest[at..]
                        else FilterOut(s.columns[i].cards, moving.id))
  {
    hide FindCard, FilterOut, IndexOfCard, IndexOfColumn, OutlineOf, LineOf, Without, Holds, Regular, NoDuplicates;
    var o, rest := OutlineOf(s), FilterOut(s.columns[target].cards, moving.id);
    var at := if after.None? then 0 else IndexOfCard(rest, after.value) + 1;
    LineAt(s, i);
    LineAt(s, target);
    LineOnce(s, i);
    LineOnce(s, target);
    IdsFiltered(s.columns[i].cards, moving.id);
    IdsFiltered(s.columns[target].cards, moving.id);
    if after.Some? { IndexOfIds(rest, after.value); }
    IdsPlaced(rest, at, moving.(column := column));
  }

  lemma UniqueOrder(s: Snapshot)
    ensures UniqueColumns(s) <==> NoDuplicates(OrderOf(s.columns))
  {
    if NoDuplicates(OrderOf(s.columns)) {
      forall i, j | 0 <= i < j < |s.columns| ensures s.columns[i].column.id != s.columns[j].column.id {
        assert OrderOf(s.columns)[i] != OrderOf(s.columns)[j];
      }
    }
  }

  /** Columns rearranged, some perhaps left out. */
  lemma SameEntries(s: Snapshot, t: Snapshot, o: Outline)
    requires UniqueColumns(s) && NoDuplicates(o.order) && o.order == OrderOf(t.columns)
    requires forall e :: e in t.columns ==> e in s.columns
    requires forall k :: k in o.lines <==> k in o.order
    requires forall k :: k in o.lines ==> k in OutlineOf(s).lines && o.lines[k] == OutlineOf(s).lines[k]
    ensures UniqueColumns(t) && OutlineOf(t) == o
  {
    hide OutlineOf, LineOf, IndexOfColumn;
    UniqueOrder(t);
    forall i | 0 <= i < |t.columns| && t.columns[i].column.id in o.lines
      ensures o.lines[t.columns[i].column.id] == IdsOf(t.columns[i].cards)
    {
      assert t.columns[i] in t.columns;
      var j :| 0 <= j < |s.columns| && s.columns[j] == t.columns[i];
      LineAt(s, j);
    }
    OutlineIs(t, o);
  }

  lemma DrawsColumnCreated(s: Snapshot, column: Column)
    requires Tidy(s)
    ensures var t := Apply(s, ColumnCreated(column)); UniqueColumns(t) && OutlineOf(t) == Draw(OutlineOf(s), ColumnCreated(column))
  {
    hide OutlineOf, LineOf, IndexOfColumn;
    OutlineShape(s);
    var o, t := OutlineOf(s), Apply(s, ColumnCreated(column));
    if HasColumn(s, column.id) {
      var i := IndexOfColumn(s.columns, column.id);
      assert s.columns[i].column.id == column.id;
    } else {
      forall k | k in o.order ensures k != column.id {
        var i :| 0 <= i < |o.order| && o.order[i] == k;
      }
      forall i | 0 <= i < |t.columns| ensures Draw(o, ColumnCreated(column)).lines[t.columns[i].column.id] == IdsOf(t.columns[i].cards) {
        if i < |s.columns| { LineAt(s, i); }
      }
      OutlineIs(t, Draw(o, ColumnCreated(column)));
    }
  }

  lemma FilteredOrder(columns: seq<Entry>, column: Id)
    requires NoDuplicates(OrderOf(columns))
    ensures OrderOf(FilterColumns(columns, column)) == Without(OrderOf(columns), column)
  {
    hide FilterColumns, NoDuplicates;
    var order := OrderOf(columns);
    if column in order {
      var k := IndexOf(order, column);
      OneColumn(columns, k);
      R.FilterColumnsAt(columns, k, column);
      assert OrderOf(columns[..k] + columns[k + 1..]) == order[..k] + order[k + 1..];
    } else {
      forall e | e in columns ensures e.column.id != column {
        var i :| 0 <= i < |columns| && columns[i] == e;
        assert order[i] in order;
      }
      R.FilterColumnsAbsent(columns, column);
    }
  }

  lemma OneColumn(columns: seq<Entry>, k: nat)
    requires NoDuplicates(OrderOf(columns)) && k < |columns|
    ensures forall i :: 0 <= i < |columns| ==> (columns[i].column.id == columns[k].column.id <==> i == k)
  {
    forall i | 0 <= i < |columns| && i != k ensures columns[i].column.id != columns[k].column.id {
      assert OrderOf(columns)[i] != OrderOf(columns)[k];
    }
  }

  lemma DrawsColumnDeleted(s: Snapshot, column: Id)
    requires Tidy(s)
    ensures var t := Apply(s, ColumnDeleted(column)); UniqueColumns(t) && OutlineOf(t) == Draw(OutlineOf(s), ColumnDeleted(column))
  {
    hide OutlineOf, LineOf, IndexOfColumn, FilterColumns, Without, NoDuplicates;
    OutlineShape(s);
    var o, t := OutlineOf(s), Apply(s, ColumnDeleted(column));
    WithoutIs(o.order, column);
    FilteredOrder(s.columns, column);
    FilterColumnsKeepsEntries(s.columns, column);
    SameEntries(s, t, Draw(o, ColumnDeleted(column)));
  }

  lemma {:induction false} FilterColumnsKeepsEntries(columns: seq<Entry>, id: Id)
    ensures forall e :: e in FilterColumns(columns, id) ==> e in columns
  {
    if columns != [] { FilterColumnsKeepsEntries(columns[1..], id); }
  }

  lemma DrawsColumnMoved(s: Snapshot, column: Column, after: Option<Id>)
    requires Tidy(s)
    ensures var t := Apply(s, ColumnMoved(column, after));
            UniqueColumns(t) && OutlineOf(t) == Draw(OutlineOf(s), ColumnMoved(column, after))
  {
    hide OutlineOf, LineOf, IndexOfColumn, PlaceColumnIn;
    OutlineShape(s);
    var o, t := OutlineOf(s), Apply(s, ColumnMoved(column, after));
    WithoutIs(o.order, column.id);
    if column.id in o.order && (after.Some? ==> after.value in Without(o.order, column.id)) {
      R.PlaceColumnIds(s.columns, o.order, column.id, after);
      R.PlaceColumnKeepsEntries(s.columns, column.id, after);
      PlaceAfterIs(Without(o.order, column.id), after, column.id);
      assert OrderOf(t.columns) == PlaceAfter(Without(o.order, column.id), after, column.id);
      hide Without, PlaceAfter;
      SameEntries(s, t, Draw(o, ColumnMoved(column, after)));
    } else {
      ColumnNotPlaced(s, column.id, after);
    }
  }

  lemma ColumnNotPlaced(s: Snapshot, column: Id, after: Option<Id>)
    requires Tidy(s)
    requires column !in OrderOf(s.columns) || (after.Some? && after.value !in Without(OrderOf(s.columns), column))
    ensures PlaceColumnIn(s.columns, column, after) == s.columns
  {
    hide IndexOfColumn, Tidy;
    var ids := OrderOf(s.columns);
    R.IndexInRest(s.columns, ids, column);
    if column in ids {
      hide PlaceColumnIn;
      PlacedColumn(s.columns, column, after);
      var k := IndexOf(ids, column);
      var rest := s.columns[..k] + s.columns[k + 1..];
      assert Without(ids, column) == ids[..k] + ids[k + 1..];
      R.IndexInRest(rest, ids[..k] + ids[k + 1..], after.value);
    }
  }

  /** Drawing an event draws it on the outline. */
  lemma DrawsItsOutline(s: Snapshot, event: Event)
    requires Tidy(s)
    ensures UniqueColumns(Apply(s, event)) && OutlineOf(Apply(s, event)) == Draw(OutlineOf(s), event)
  {
    hide OutlineOf, Apply, UniqueColumns;
    match event
    case CardCreated(card) => DrawsCardCreated(s, card);
    case CardUpdated(card) => DrawsEdits(s, event);
    case CardMoved(card, from, after) => DrawsCardMoved(s, card, from, after);
    case CardDeleted(card, column) => DrawsCardDeleted(s, card, column);
    case ColumnCreated(column) => DrawsColumnCreated(s, column);
    case ColumnUpdated(column) => DrawsEdits(s, event);
    case ColumnMoved(column, after) => DrawsColumnMoved(s, column, after);
    case ColumnDeleted(column) => DrawsColumnDeleted(s, column);
  }

  // ------------------------------------------------------------------ bodies

  ghost predicate Shows(s: Snapshot, card: Card) {
    exists e :: e in s.columns && card in e.cards
  }

  function Edited(event: Event, card: Card): Details {
    if event.CardUpdated? && event.card.id == card.id then event.card.details else card.details
  }

  /** Where a card drawn after an event was before it, and what of its body the event wrote. */
  ghost predicate Was(s: Snapshot, event: Event, card: Card) {
    || (exists a :: Shows(s, a) && a.id == card.id && a.board == card.board && card.details == Edited(event, a))
    || (event == CardCreated(card) && !Holds(OutlineOf(s), card.id))
  }

  lemma WasDrawn(s: Snapshot, event: Event, i: nat, j: nat)
    requires Tidy(s) && i < |Apply(s, event).columns| && j < |Apply(s, event).columns[i].cards|
    ensures Was(s, event, Apply(s, event).columns[i].cards[j])
    ensures Apply(s, event).columns[i].cards[j].column == Apply(s, event).columns[i].column.id
  {
    hide FindIn, FindCard, FilterOut, IndexOfCard, IndexOfColumn, OutlineOf, FilterColumns, PlaceColumnIn, PlaceCardIn;
    var t := Apply(s, event);
    var e, b := t.columns[i], t.columns[i].cards[j];
    match event
    case CardCreated(card) =>
      HoldsDrawn(s, card.id);
      if !HasCard(s, card.id) {
        var was := s.columns[i];
        if j < |was.cards| { assert was in s.columns && was.cards[j] in was.cards && Shows(s, b); }
      } else {
        assert Shows(s, b);
      }
    case CardUpdated(card) =>
      var was := s.columns[i];
      assert was in s.columns && was.cards[j] in was.cards && Shows(s, was.cards[j]);
    case CardMoved(card, _, after) =>
      WasMoved(s, card.id, card.column, after, i, j);
    case CardDeleted(card, _) =>
      var was := s.columns[i];
      FilteredCards(was.cards, card);
      assert b in e.cards;
      assert was in s.columns && b in was.cards && Shows(s, b);
      var k :| 0 <= k < |was.cards| && was.cards[k] == b;
    case ColumnCreated(column) =>
      assert i < |s.columns|;
      assert s.columns[i] in s.columns && Shows(s, b);
    case ColumnUpdated(column) =>
      assert s.columns[i] in s.columns && Shows(s, b);
    case ColumnMoved(column, after) =>
      R.PlaceColumnKeepsEntries(s.columns, column.id, after);
      assert e in t.columns && b in e.cards && Shows(s, b);
      var k :| 0 <= k < |s.columns| && s.columns[k] == e;
    case ColumnDeleted(column) =>
      FilterColumnsKeepsEntries(s.columns, column);
      assert e in t.columns && b in e.cards && Shows(s, b);
      var k :| 0 <= k < |s.columns| && s.columns[k] == e;
  }

  lemma WasMoved(s: Snapshot, card: Id, column: Id, after: Option<Id>, i: nat, j: nat)
    requires Tidy(s)
    requires var t := PlaceCardIn(s.columns, card, column, after); i < |t| && j < |t[i].cards|
    ensures var t := PlaceCardIn(s.columns, card, column, after); var b := t[i].cards[j];
            && b.column == t[i].column.id
            && exists a :: Shows(s, a) && a.id == b.id && a.board == b.board && a.details == b.details
  {
    hide FindCard, FilterOut, IndexOfCard, IndexOfColumn, OutlineOf;
    var t := PlaceCardIn(s.columns, card, column, after);
    var b, was := t[i].cards[j], s.columns[i];
    var found, target := FindCard(s.columns, card), IndexOfColumn(s.columns, column);
    FilteredCards(was.cards, card);
    assert b in t[i].cards && was in s.columns;
    if b in was.cards {
      assert Shows(s, b);
      var k :| 0 <= k < |was.cards| && was.cards[k] == b;
    } else {
      assert b == found.value.(column := column);
      assert Shows(s, found.value);
    }
  }

  ghost predicate ShowsColumn(s: Snapshot, column: Column) {
    exists e :: e in s.columns && e.column == column
  }

  function Named(event: Event, column: Column): string {
    if event.ColumnUpdated? && event.column.id == column.id then event.column.name else column.name
  }

  ghost predicate ColumnWas(s: Snapshot, event: Event, column: Column) {
    || (exists a :: ShowsColumn(s, a) && a.id == column.id && a.board == column.board && column.name == Named(event, a))
    || (event == ColumnCreated(column) && column.id !in OrderOf(s.columns))
  }

  lemma CardMovesKeepColumns(columns: seq<Entry>, card: Id, column: Id, after: Option<Id>)
    ensures var t := PlaceCardIn(columns, card, column, after);
            |t| == |columns| && forall i :: 0 <= i < |t| ==> t[i].column == columns[i].column
  {
    hide FindCard, FilterOut, IndexOfCard, IndexOfColumn;
  }

  lemma ColumnWasDrawn(s: Snapshot, event: Event, i: nat)
    requires Tidy(s) && i < |Apply(s, event).columns|
    ensures ColumnWas(s, event, Apply(s, event).columns[i].column)
  {
    hide FindIn, FindCard, FilterOut, IndexOfCard, FilterColumns, PlaceColumnIn, PlaceCardIn, Tidy;
    var t := Apply(s, event);
    var e := t.columns[i];
    if event.CardMoved? { CardMovesKeepColumns(s.columns, event.card.id, event.card.column, event.after); }
    match event
    case ColumnCreated(column) =>
      if i < |s.columns| {
        assert s.columns[i] in s.columns && ShowsColumn(s, e.column);
      } else {
        assert forall j :: 0 <= j < |s.columns| ==> OrderOf(s.columns)[j] != column.id;
      }
    case ColumnMoved(column, after) =>
      R.PlaceColumnKeepsEntries(s.columns, column.id, after);
      assert e in t.columns && ShowsColumn(s, e.column);
    case ColumnDeleted(column) =>
      FilterColumnsKeepsEntries(s.columns, column);
      assert e in t.columns && ShowsColumn(s, e.column);
    case _ =>
      assert s.columns[i] in s.columns && ShowsColumn(s, s.columns[i].column);
  }

  lemma TidyKept(s: Snapshot, event: Event)
    requires Tidy(s)
    ensures Tidy(Apply(s, event))
  {
    hide OutlineOf, Regular, UniqueColumns, Draw, Was;
    DrawsItsOutline(s, event);
    RegularKept(OutlineOf(s), event);
    var t := Apply(s, event);
    assert t.unplaced == s.unplaced;
    hide Apply;
    forall i, j | 0 <= i < |t.columns| && 0 <= j < |t.columns[i].cards|
      ensures t.columns[i].cards[j].column == t.columns[i].column.id
    {
      WasDrawn(s, event, i, j);
    }
  }

  /** A full read's outline is the rows' own order. */
  lemma ReadOutline(db: Db, board: Id)
    ensures UniqueColumns(Read(db, board)) && OutlineOf(Read(db, board)).order == ColumnList(db, board)
    ensures var o := OutlineOf(Read(db, board));
            && (forall k :: k in o.lines <==> k in o.order)
            && (forall k :: k in o.lines ==> k in db.columns && o.lines[k] == CardList(db, k))
  {
    hide CardList, ColumnList, IndexOfColumn, OutlineOf;
    var s := Read(db, board);
    R.ColumnListHasNoDuplicates(db, board);
    assert OrderOf(s.columns) == ColumnList(db, board);
    UniqueOrder(s);
    OutlineShape(s);
    var o := OutlineOf(s);
    forall k | k in o.lines ensures k in db.columns && o.lines[k] == CardList(db, k) {
      var i :| 0 <= i < |o.order| && o.order[i] == k;
      LineAt(s, i);
      assert IdsOf(s.columns[i].cards) == CardList(db, k);
    }
  }

  /** A full read is tidy. */
  lemma ReadIsTidy(db: Db, board: Id)
    ensures Tidy(Read(db, board))
  {
    hide CardList, ColumnList, IndexOfColumn, OutlineOf;
    ReadOutline(db, board);
    R.ColumnListHasNoDuplicates(db, board);
    var s, o := Read(db, board), OutlineOf(Read(db, board));
    forall k | k in o.lines ensures NoDuplicates(o.lines[k]) { R.CardListHasNoDuplicates(db, k); }
    forall j, k, c | j in o.lines && k in o.lines && c in o.lines[j] && c in o.lines[k] ensures j == k {
      CardIsListed(db, j, c);
      CardIsListed(db, k, c);
    }
    forall i, j | 0 <= i < |s.columns| && 0 <= j < |s.columns[i].cards|
      ensures s.columns[i].cards[j].column == s.columns[i].column.id
    {
      assert s.columns[i] == EntryOf(db, ColumnList(db, board)[i]);
      assert s.columns[i].cards[j] in s.columns[i].cards;
    }
  }
}
