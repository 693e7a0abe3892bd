/**
 * Replaying the live log over a snapshot that may already contain part of it.
 * One event is idempotent on every board. Longer logs are the subject of modules
 * SteadyReplay, which says which of them replay freely, and ReplayLost.
 */
module Replay {
  import opened Wrappers
  import opened Ordering
  import opened Board
  import opened Replica

  ghost predicate UniqueColumns(s: Snapshot) {
    forall i, j :: 0 <= i < j < |s.columns| ==> s.columns[i].column.id != s.columns[j].column.id
  }

  lemma {:induction false} FilterInserted(rest: seq<Card>, at: nat, card: Card)
    requires at <= |rest| && forall c :: c in rest ==> c.id != card.id
    ensures FilterOut(rest[..at] + [card] + rest[at..], card.id) == rest
  {
    var all := rest[..at] + [card] + rest[at..];
    if at == 0 {
      assert all[1..] == rest;
      FilterAbsent(rest, card.id);
    } else {
      assert all[1..] == rest[1..][..at - 1] + [card] + rest[1..][at - 1..];
      FilterInserted(rest[1..], at - 1, card);
    }
  }

  lemma CardMoveTwice(columns: seq<Entry>, cardId: Id, columnId: Id, after: Option<Id>)
    requires forall i, j :: 0 <= i < j < |columns| ==> columns[i].column.id != columns[j].column.id
    ensures var once := PlaceCardIn(columns, cardId, columnId, after);
            PlaceCardIn(once, cardId, columnId, after) == once
  {
    hide FilterOut, FindIn, FindCard, IndexOfCard, IndexOfColumn;
    var moving, target := FindCard(columns, cardId), IndexOfColumn(columns, columnId);
    if moving.Some? && target != -1 {
      var remaining := FilterOut(columns[target].cards, cardId);
      var at := if after.None? then 0 else IndexOfCard(remaining, after.value) + 1;
      if after.None? || at != 0 {
        var placed := moving.value.(column := columnId);
        var once := PlaceCardIn(columns, cardId, columnId, after);
        FilteredCards(columns[target].cards, cardId);
        PlacedOnce(columns, target, remaining, at, placed, once);
        SamePlacing(once, cardId, columnId, after, target, remaining, at, placed);
      }
    }
  }

  lemma SamePlacing(once: seq<Entry>, cardId: Id, columnId: Id, after: Option<Id>,
                    target: nat, remaining: seq<Card>, at: nat, placed: Card)
    requires FindCard(once, cardId) == Some(placed) && placed.column == columnId
    requires IndexOfColumn(once, columnId) == target
    requires FilterOut(once[target].cards, cardId) == remaining
    requires at == if after.None? then 0 else IndexOfCard(remaining, after.value) + 1
    requires after.None? || at != 0
    requires once[target].cards == remaining[..at] + [placed] + remaining[at..]
    requires forall i :: 0 <= i < |once| && i != target ==>
      once[i].column.id != columnId && FilterOut(once[i].cards, cardId) == once[i].cards
    ensures PlaceCardIn(once, cardId, columnId, after) == once
  {
    hide FilterOut, FindIn, FindCard, IndexOfCard, IndexOfColumn;
  }

  /** Once placed, the card is found where it was put, and lifting it out restores the rest. */
  lemma PlacedOnce(columns: seq<Entry>, target: nat, remaining: seq<Card>, at: nat, placed: Card, once: seq<Entry>)
    requires target < |columns| == |once| && at <= |remaining|
    requires forall i, j :: 0 <= i < j < |columns| ==> columns[i].column.id != columns[j].column.id
    requires forall c :: c in remaining ==> c.id != placed.id
    requires forall i :: 0 <= i < |once| ==> once[i].column == columns[i].column
    requires forall i :: 0 <= i < |once| && i != target ==> once[i].cards == FilterOut(columns[i].cards, placed.id)
    requires once[target].cards == remaining[..at] + [placed] + remaining[at..]
    ensures IndexOfColumn(once, columns[target].column.id) == target
    ensures FindCard(once, placed.id) == Some(placed)
    ensures FilterOut(once[target].cards, placed.id) == remaining
    ensures forall i :: 0 <= i < |once| && i != target ==> FilterOut(once[i].cards, placed.id) == once[i].cards
  {
    hide FilterOut, FindIn, FindCard, IndexOfColumn;
    FilterInserted(remaining, at, placed);
    forall i | 0 <= i < |once| && i != target ensures FilterOut(once[i].cards, placed.id) == once[i].cards {
      FilteredCards(columns[i].cards, placed.id);
      FilterAbsent(once[i].cards, placed.id);
    }
    assert once[target].cards[at] == placed;
    assert once[target] in once && placed in once[target].cards;
    forall e, c | e in once && c in e.cards && c.id == placed.id ensures c == placed {
      var i :| 0 <= i < |once| && once[i] == e;
      FilteredCards(columns[i].cards, placed.id);
    }
  }

  lemma IndexOfInserted(rest: seq<Entry>, at: nat, moving: Entry)
    requires at <= |rest| && forall e :: e in rest ==> e.column.id != moving.column.id
    ensures var once := rest[..at] + [moving] + rest[at..];
            IndexOfColumn(once, moving.column.id) == at && once[..at] + once[at + 1..] == rest && once[at] == moving
  {
    hide IndexOfColumn;
    var once := rest[..at] + [moving] + rest[at..];
    assert forall i :: 0 <= i < |once| ==> once[i] == if i < at then rest[i] else if i == at then moving else rest[i - 1];
    assert forall i :: 0 <= i < |once| && i != at ==> once[i] in rest;
    assert once[at].column.id == moving.column.id;
  }

  lemma Elsewhere(columns: seq<Entry>, from: nat)
    requires from < |columns| && forall i, j :: 0 <= i < j < |columns| ==> columns[i].column.id != columns[j].column.id
    ensures forall e :: e in columns[..from] + columns[from + 1..] ==> e.column.id != columns[from].column.id
  {
    var rest := columns[..from] + columns[from + 1..];
    forall e | e in rest ensures e.column.id != columns[from].column.id {
      var i :| 0 <= i < |rest| && rest[i] == e;
      assert e == columns[if i < from then i else i + 1];
    }
  }

  lemma ColumnMoveTwice(columns: seq<Entry>, columnId: Id, after: Option<Id>)
    requires forall i, j :: 0 <= i < j < |columns| ==> columns[i].column.id != columns[j].column.id
    ensures var once := PlaceColumnIn(columns, columnId, after);
            PlaceColumnIn(once, columnId, after) == once
  {
    var from := IndexOfColumn(columns, columnId);
    if from != -1 {
      PlacedColumn(columns, columnId, after);
      Elsewhere(columns, from);
      hide IndexOfColumn, PlaceColumnIn;
      var rest, moving := columns[..from] + columns[from + 1..], columns[from];
      var at := if after.None? then 0 else IndexOfColumn(rest, after.value) + 1;
      if !(after.Some? && at == 0) {
        IndexOfInserted(rest, at, moving);
        PlacedColumn(rest[..at] + [moving] + rest[at..], columnId, after);
      }
    }
  }

  lemma {:induction false} FilterColumnsTwice(columns: seq<Entry>, id: Id)
    ensures FilterColumns(FilterColumns(columns, id), id) == FilterColumns(columns, id)
  {
    if columns != [] { FilterColumnsTwice(columns[1..], id); }
  }

  lemma DeleteCardTwice(columns: seq<Entry>, id: Id)
    ensures var once := MapCards(columns, (e: Entry) => FilterOut(e.cards, id));
            MapCards(once, (e: Entry) => FilterOut(e.cards, id)) == once
  {
    hide FilterOut;
    var once := MapCards(columns, (e: Entry) => FilterOut(e.cards, id));
    forall i | 0 <= i < |once| ensures FilterOut(once[i].cards, id) == once[i].cards {
      FilteredCards(columns[i].cards, id);
      FilterAbsent(once[i].cards, id);
    }
  }

  /** Drawing any event a second time changes nothing, on every board. */
  lemma ApplyTwice(s: Snapshot, event: Event)
    requires UniqueColumns(s)
    ensures Apply(Apply(s, event), event) == Apply(s, event)
  {
    hide FilterOut, FindIn, FindCard, IndexOfCard, IndexOfColumn, FilterColumns, PlaceCardIn, PlaceColumnIn;
    match event
    case CardCreated(card) => CreateCardTwice(s, card);
    case CardUpdated(card) =>
      var once := Apply(s, event).columns;
      forall i | 0 <= i < |once| ensures EditCards(once[i].cards, card) == once[i].cards {
        assert once[i].cards == EditCards(s.columns[i].cards, card);
      }
      assert Apply(Apply(s, event), event).columns == once;
    case CardMoved(card, _, after) => CardMoveTwice(s.columns, card.id, card.column, after);
    case CardDeleted(cardId, _) => DeleteCardTwice(s.columns, cardId);
    case ColumnCreated(column) =>
      var once := Apply(s, event);
      if !HasColumn(s, column.id) { assert once.columns[|s.columns|].column.id == column.id; }
    case ColumnUpdated(column) =>
      var once, twice := RenameIn(s.columns, column), RenameIn(RenameIn(s.columns, column), column);
      assert forall i :: 0 <= i < |once| ==> once[i].column.id == s.columns[i].column.id;
      assert twice == once;
    case ColumnMoved(column, after) => ColumnMoveTwice(s.columns, column.id, after);
    case ColumnDeleted(columnId) => FilterColumnsTwice(s.columns, columnId);
  }

  lemma CreateCardTwice(s: Snapshot, card: Card)
    ensures Apply(Apply(s, CardCreated(card)), CardCreated(card)) == Apply(s, CardCreated(card))
  {
    hide FindIn, FindCard, IndexOfColumn;
    var once := Apply(s, CardCreated(card));
    if !HasCard(s, card.id) {
      if i :| 0 <= i < |s.columns| && s.columns[i].column.id == card.column {
        assert once.columns[i].cards[|s.columns[i].cards|] == card;
        assert once.columns[i] in once.columns && card in once.columns[i].cards;
      } else {
        assert once.columns == s.columns;
      }
    }
  }

  // ---------------------------------------------------------- whole replays

  /** A read that already includes the first `k` events, with the whole log folded over it. */
  ghost predicate ReplayAgrees(s: Snapshot, log: seq<Event>, k: nat)
    requires k <= |log|
  {
    ApplyLog(ApplyLog(s, log[..k]), log) == ApplyLog(s, log)
  }

  /** One event already included never shows, on every board and whatever follows it. */
  lemma UpToOneEventAgrees(s: Snapshot, log: seq<Event>, k: nat)
    requires UniqueColumns(s) && k <= 1 && k <= |log|
    ensures ReplayAgrees(s, log, k)
  {
    hide Apply;
    if k == 1 {
      ApplyTwice(s, log[0]);
      assert log[..1][0] == log[0] && log[..1][1..] == [];
      assert ApplyLog(s, log[..1]) == ApplyLog(Apply(s, log[0]), []);
      assert ApplyLog(Apply(s, log[0]), log) == ApplyLog(Apply(Apply(s, log[0]), log[0]), log[1..]);
    } else {
      assert log[..0] == [];
    }
  }
}
