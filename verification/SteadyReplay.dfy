/** Folding a steady log again over the board that already includes it draws that board. */
module SteadyReplay {
  import opened Wrappers
  import opened Ordering
  import opened RankedList
  import opened Board
  import opened BoardRefinement
  import opened Replica
  import opened Replay
  import opened Outlines
  import opened SteadyLogs
  import P = ReplicaProofs

  // ------------------------------------------------------ what a log leaves be

  /** Where a card is after an event, from where it was. */
  lemma CardAfter(o: Outline, event: Event, c: Id, k: Id)
    requires Regular(o)
    ensures k in Draw(o, event).lines && c in Draw(o, event).lines[k] <==>
            match event
            case CardCreated(card) =>
              if card.id == c && !Holds(o, c) then k == card.column && k in o.lines else k in o.lines && c in o.lines[k]
            case CardMoved(card, _, after) =>
              if card.id == c && Placeable(o, c, card.column, after) then k == card.column
              else k in o.lines && c in o.lines[k]
            case CardDeleted(card, _) => card != c && k in o.lines && c in o.lines[k]
            case ColumnDeleted(column) => column != k && k in o.lines && c in o.lines[k]
            case _ => k in o.lines && c in o.lines[k]
  {
    hide Without, PlaceAfter, Moved, Disjoint;
    match event
    case CardMoved(card, _, after) =>
      if Placeable(o, card.id, card.column, after) {
        MovedMembers(o, card.id, card.column, after, k, c);
      }
    case CardDeleted(card, _) =>
      if k in o.lines { WithoutIs(o.lines[k], card); }
    case _ =>
  }

  lemma MovedMembers(o: Outline, card: Id, column: Id, after: Option<Id>, k: Id, c: Id)
    requires Regular(o) && Placeable(o, card, column, after)
    ensures k in Moved(o.lines, card, column, after) <==> k in o.lines
    ensures k in o.lines ==> (c in Moved(o.lines, card, column, after)[k] <==> if c == card then k == column else c in o.lines[k])
    ensures column in o.lines
  {
    if k in o.lines { MovedLine(o, card, column, after, k); }
  }

  lemma ColumnAfter(o: Outline, event: Event, k: Id)
    requires Regular(o)
    ensures k in Draw(o, event).order <==>
            match event
            case ColumnCreated(column) => k == column.id || k in o.order
            case ColumnDeleted(column) => k != column && k in o.order
            case _ => k in o.order
  {
    hide Disjoint;
    match event
    case ColumnMoved(column, after) =>
      WithoutIs(o.order, column.id);
      if column.id in o.order && (after.Some? ==> after.value in Without(o.order, column.id)) {
        PlaceAfterIs(Without(o.order, column.id), after, column.id);
      }
    case ColumnDeleted(column) => WithoutIs(o.order, column);
    case _ =>
  }

  lemma {:induction false} StaysAway(o: Outline, log: seq<Event>, c: Id)
    requires Regular(o) && !Holds(o, c) && c !in CreatedCards(log)
    ensures !Holds(DrawAll(o, log), c)
    ensures AllFound(o, log) ==> c !in MovedCards(log)
    decreases |log|
  {
    if log != [] {
      RegularKept(o, log[0]);
      forall k | k in Draw(o, log[0]).lines ensures c !in Draw(o, log[0]).lines[k] { CardAfter(o, log[0], c, k); }
      hide Draw, Regular;
      StaysAway(Draw(o, log[0]), log[1..], c);
    }
  }

  lemma {:induction false} ColumnStaysAway(o: Outline, log: seq<Event>, k: Id)
    requires Regular(o) && k !in o.order && k !in CreatedColumns(log)
    ensures k !in DrawAll(o, log).order
    decreases |log|
  {
    if log != [] {
      RegularKept(o, log[0]);
      ColumnAfter(o, log[0], k);
      hide Draw, Regular;
      ColumnStaysAway(Draw(o, log[0]), log[1..], k);
    }
  }

  lemma {:induction false} ColumnStays(o: Outline, log: seq<Event>, k: Id)
    requires Regular(o) && k in o.order && k !in DeletedColumns(log)
    ensures k in DrawAll(o, log).order
    decreases |log|
  {
    if log != [] {
      RegularKept(o, log[0]);
      ColumnAfter(o, log[0], k);
      hide Draw, Regular;
      ColumnStays(Draw(o, log[0]), log[1..], k);
    }
  }

  lemma {:induction false} RegularAll(o: Outline, log: seq<Event>)
    requires Regular(o)
    ensures Regular(DrawAll(o, log))
    decreases |log|
  {
    if log != [] {
      RegularKept(o, log[0]);
      hide Draw, Regular;
      RegularAll(Draw(o, log[0]), log[1..]);
    }
  }

  /** A card is only lost by its own deletion, or by its column's if it stayed in it. */
  lemma {:induction false} LostCard(o: Outline, log: seq<Event>, k: Id, c: Id)
    requires Regular(o) && AllFound(o, log) && Steady(log) && c !in CreatedCards(log)
    requires k in o.lines && c in o.lines[k] && !Holds(DrawAll(o, log), c)
    ensures c in DeletedCards(log) || (k in DeletedColumns(log) && c !in MovedCards(log))
    decreases |log|
  {
    if log == [] {
      assert false;
    } else {
      var event, later := log[0], log[1..];
      var next := Draw(o, event);
      RegularKept(o, event);
      CardAfter(o, event, c, k);
      if event.CardMoved? && event.card.id == c { CardAfter(o, event, c, event.card.column); }
      if event.ColumnDeleted? && event.columnId == k {
        forall j | j in next.lines ensures c !in next.lines[j] { CardAfter(o, event, c, j); }
        hide Draw, Regular;
        StaysAway(next, later, c);
      } else if event.CardMoved? && event.card.id == c {
        hide Draw, Regular;
        LostCard(next, later, event.card.column, c);
      } else if !(event.CardDeleted? && event.cardId == c) {
        hide Draw, Regular;
        LostCard(next, later, k, c);
      }
    }
  }

  /** What is on the board at the end was not deleted on the way. */
  lemma {:induction false} Survivor(o: Outline, log: seq<Event>, c: Id)
    requires Regular(o) && Steady(log) && Holds(DrawAll(o, log), c)
    ensures c !in DeletedCards(log)
    decreases |log|
  {
    if log != [] {
      var next := Draw(o, log[0]);
      RegularKept(o, log[0]);
      if log[0].CardDeleted? && log[0].cardId == c {
        forall k | k in next.lines ensures c !in next.lines[k] { CardAfter(o, log[0], c, k); }
        StaysAway(next, log[1..], c);
      }
      hide Draw, Regular;
      Survivor(next, log[1..], c);
    }
  }

  lemma {:induction false} SurvivingColumn(o: Outline, log: seq<Event>, k: Id)
    requires Regular(o) && Steady(log) && k in DrawAll(o, log).order
    ensures k !in DeletedColumns(log)
    decreases |log|
  {
    if log != [] {
      var next := Draw(o, log[0]);
      RegularKept(o, log[0]);
      ColumnAfter(o, log[0], k);
      hide Draw, Regular;
      if log[0].ColumnDeleted? && log[0].columnId == k { ColumnStaysAway(next, log[1..], k); }
      SurvivingColumn(next, log[1..], k);
    }
  }

  /** What is neither moved nor deleted keeps its order, and what comes later comes behind it. */
  lemma LineStep(o: Outline, event: Event, k: Id, u: set<Id>)
    requires Regular(o) && k in o.lines && !(event.ColumnDeleted? && event.columnId == k)
    requires (event.CardMoved? ==> event.card.id !in u) && (event.CardDeleted? ==> event.cardId !in u)
    ensures k in Draw(o, event).lines && Only(o.lines[k], u) <= Only(Draw(o, event).lines[k], u)
  {
    hide Only, Without, PlaceAfter, Disjoint, NoDuplicates;
    match event
    case CardCreated(card) => OnlyAppend(o.lines[k], [card.id], u);
    case CardMoved(card, _, after) =>
      if Placeable(o, card.id, card.column, after) {
        OnlyWithout(o.lines[k], card.id, u);
        if k == card.column { OnlyPlaced(Without(o.lines[k], card.id), after, card.id, u); }
        assert u - {card.id} == u;
      }
    case CardDeleted(card, _) =>
      OnlyWithout(o.lines[k], card, u);
      assert u - {card} == u;
    case _ =>
  }

  lemma {:induction false} LineGrows(o: Outline, log: seq<Event>, k: Id, u: set<Id>)
    requires Regular(o) && k in o.lines && k !in DeletedColumns(log) && u !! MovedCards(log) + DeletedCards(log)
    ensures k in DrawAll(o, log).lines && Only(o.lines[k], u) <= Only(DrawAll(o, log).lines[k], u)
    decreases |log|
  {
    if log != [] {
      LineStep(o, log[0], k, u);
      RegularKept(o, log[0]);
      hide Draw, Regular, Only;
      LineGrows(Draw(o, log[0]), log[1..], k, u);
    }
  }

  lemma OrderStep(o: Outline, event: Event, u: set<Id>)
    requires Regular(o)
    requires (event.ColumnMoved? ==> event.column.id !in u) && (event.ColumnDeleted? ==> event.columnId !in u)
    ensures Only(o.order, u) <= Only(Draw(o, event).order, u)
  {
    hide Only, Without, PlaceAfter, Disjoint, NoDuplicates;
    match event
    case ColumnCreated(column) => OnlyAppend(o.order, [column.id], u);
    case ColumnMoved(column, after) =>
      OnlyWithout(o.order, column.id, u);
      assert u - {column.id} == u;
      if column.id in o.order && (after.Some? ==> after.value in Without(o.order, column.id)) {
        OnlyPlaced(Without(o.order, column.id), after, column.id, u);
      }
    case ColumnDeleted(column) =>
      OnlyWithout(o.order, column, u);
      assert u - {column} == u;
    case _ =>
  }

  lemma {:induction false} OrderGrows(o: Outline, log: seq<Event>, u: set<Id>)
    requires Regular(o) && u !! MovedColumns(log) + DeletedColumns(log)
    ensures Only(o.order, u) <= Only(DrawAll(o, log).order, u)
    decreases |log|
  {
    if log != [] {
      OrderStep(o, log[0], u);
      RegularKept(o, log[0]);
      hide Draw, Regular, Only;
      OrderGrows(Draw(o, log[0]), log[1..], u);
    }
  }

  // --------------------------------------------- the replay against where it ends

  ghost function CardsOn(o: Outline): set<Id> {
    set k, c | k in o.lines && c in o.lines[k] :: c
  }

  function Elems(ids: seq<Id>): set<Id> {
    set c | c in ids
  }

  /** Columns no longer to be moved are in order, none is missing, and any other is still to be deleted. */
  ghost predicate ColumnsAlike(r: Outline, t: Outline, log: seq<Event>) {
    && (forall k :: k in t.order ==> k in r.order)
    && (forall k :: k in r.order && k !in t.order ==> k in DeletedColumns(log))
    && Only(r.order, Elems(t.order) - MovedColumns(log)) == Only(t.order, Elems(t.order) - MovedColumns(log))
  }

  /** Within each column of the end, so are cards no longer to be moved. */
  ghost predicate LinesAlike(r: Outline, t: Outline, log: seq<Event>) {
    forall k :: k in t.lines && k in r.lines ==>
      Only(r.lines[k], CardsOn(t) - MovedCards(log)) == Only(t.lines[k], CardsOn(t) - MovedCards(log))
  }

  /** No card of the end is missing or in a column still to be deleted. */
  ghost predicate CardsPresent(r: Outline, t: Outline) {
    forall c :: Holds(t, c) ==> exists k :: k in t.lines && k in r.lines && c in r.lines[k]
  }

  /** Any other card is still to be deleted, by itself or with the column it stays in. */
  ghost predicate ExtrasLeave(r: Outline, t: Outline, log: seq<Event>) {
    forall k, c :: k in r.lines && c in r.lines[k] && !Holds(t, c) ==>
      c in DeletedCards(log) || (k in DeletedColumns(log) && c !in MovedCards(log))
  }

  ghost predicate Alike(r: Outline, t: Outline, log: seq<Event>) {
    Regular(r) && ColumnsAlike(r, t, log) && LinesAlike(r, t, log) && CardsPresent(r, t) && ExtrasLeave(r, t, log)
  }

  /** The board as published after `event`, the replay before it, and where the whole log ends. */
  ghost predicate Replaying(s: Outline, r: Outline, t: Outline, event: Event, later: seq<Event>) {
    && Regular(s) && Found(s, event) && AllFound(Draw(s, event), later) && Lasting(event, later) && Steady(later)
    && t == DrawAll(Draw(s, event), later) && Alike(r, t, [event] + later)
  }

  lemma EndIsRegular(s: Outline, event: Event, later: seq<Event>)
    requires Regular(s)
    ensures Regular(Draw(s, event)) && Regular(DrawAll(Draw(s, event), later))
  {
    RegularKept(s, event);
    RegularAll(Draw(s, event), later);
  }

  lemma Heads(event: Event, later: seq<Event>)
    ensures ([event] + later)[0] == event && ([event] + later)[1..] == later
  {
  }

  /** A card deleted here, or gone with its column, is not on the board at the end. */
  lemma EventSpares(s: Outline, event: Event, later: seq<Event>)
    requires Regular(s) && Lasting(event, later) && Steady(later)
    ensures event.CardDeleted? ==> !Holds(DrawAll(Draw(s, event), later), event.cardId)
    ensures event.ColumnDeleted? ==> event.columnId !in DrawAll(Draw(s, event), later).order
  {
    var next := Draw(s, event);
    RegularKept(s, event);
    if event.CardDeleted? {
      forall k | k in next.lines ensures event.cardId !in next.lines[k] { CardAfter(s, event, event.cardId, k); }
      StaysAway(next, later, event.cardId);
    } else if event.ColumnDeleted? {
      ColumnAfter(s, event, event.columnId);
      ColumnStaysAway(next, later, event.columnId);
    }
  }

  lemma PresentKept(s: Outline, r: Outline, t: Outline, event: Event, later: seq<Event>)
    requires Replaying(s, r, t, event, later)
    ensures CardsPresent(Draw(r, event), t)
  {
    hide Draw, Found, Steady, LinesAlike, ExtrasLeave, AllFound, ColumnsAlike;
    EventSpares(s, event, later);
    EndIsRegular(s, event, later);
    var r' := Draw(r, event);
    forall c | Holds(t, c) ensures exists k :: k in t.lines && k in r'.lines && c in r'.lines[k] {
      var k :| k in t.lines && k in r.lines && c in r.lines[k];
      CardAfter(r, event, c, k);
      if event.CardMoved? && event.card.id == c {
        TargetStays(s, event, later);
        CardAfter(r, event, c, event.card.column);
      }
    }
  }

  /** A move's target column is still there at the end. */
  lemma TargetStays(s: Outline, event: Event, later: seq<Event>)
    requires Regular(s) && Found(s, event) && Lasting(event, later) && event.CardMoved?
    ensures event.card.column in DrawAll(Draw(s, event), later).order
  {
    RegularKept(s, event);
    ColumnAfter(s, event, event.card.column);
    ColumnStays(Draw(s, event), later, event.card.column);
  }

  /** A card's last move, on a board that survives it: where it goes is settled. */
  lemma SettledMove(s: Outline, event: Event, later: seq<Event>)
    requires Regular(s) && Found(s, event) && AllFound(Draw(s, event), later) && Lasting(event, later) && Steady(later)
    requires event.CardMoved? && event.card.id !in MovedCards(later) && Holds(DrawAll(Draw(s, event), later), event.card.id)
    ensures var t, x, column := DrawAll(Draw(s, event), later), event.card.id, event.card.column;
            && column in s.lines && column in t.lines && x in t.lines[column]
            && (event.after.Some? ==> event.after.value in t.lines[column] && event.after.value !in MovedCards(later)
                                      && event.after.value != x && event.after.value in Without(s.lines[column], x))
  {
    hide Only, Without;
    var next, x, column := Draw(s, event), event.card.id, event.card.column;
    EndIsRegular(s, event, later);
    TargetStays(s, event, later);
    SurvivingColumn(next, later, column);
    Survivor(next, later, x);
    CardAfter(s, event, x, column);
    StillInLine(next, later, column, x);
    if event.after.Some? {
      var a := event.after.value;
      WithoutIs(s.lines[column], x);
      CardAfter(s, event, a, column);
      StillInLine(next, later, column, a);
    }
  }

  lemma StillInLine(o: Outline, log: seq<Event>, k: Id, c: Id)
    requires Regular(o) && k in o.lines && c in o.lines[k]
    requires k !in DeletedColumns(log) && c !in MovedCards(log) && c !in DeletedCards(log)
    ensures k in DrawAll(o, log).lines && c in DrawAll(o, log).lines[k]
  {
    LineGrows(o, log, k, {c});
    OnlyMembers(o.lines[k], {c});
    OnlyMembers(DrawAll(o, log).lines[k], {c});
    assert c in Only(o.lines[k], {c});
  }

  lemma SurvivorsUntouched(s: Outline, event: Event, later: seq<Event>)
    requires Regular(s) && Steady(later)
    ensures CardsOn(DrawAll(Draw(s, event), later)) - MovedCards(later) !! MovedCards(later) + DeletedCards(later)
    ensures Elems(DrawAll(Draw(s, event), later).order) - MovedColumns(later) !! MovedColumns(later) + DeletedColumns(later)
  {
    var t := DrawAll(Draw(s, event), later);
    RegularKept(s, event);
    forall c | c in CardsOn(t) ensures c !in DeletedCards(later) { Survivor(Draw(s, event), later, c); }
    forall k | k in Elems(t.order) ensures k !in DeletedColumns(later) { SurvivingColumn(Draw(s, event), later, k); }
  }

  /** The target column after a card's last move. */
  lemma TargetAlike(s: Outline, r: Outline, t: Outline, event: Event, later: seq<Event>)
    requires Replaying(s, r, t, event, later) && event.CardMoved?
    requires event.card.id !in MovedCards(later) && Holds(t, event.card.id)
    ensures var x, column, u := event.card.id, event.card.column, CardsOn(t) - MovedCards(later);
            && Placeable(r, x, column, event.after) && column in t.lines
            && Only(PlaceAfter(Without(r.lines[column], x), event.after, x), u) == Only(t.lines[column], u)
  {
    hide Only, Without, PlaceAfter, Draw, Regular, Steady, AllFound, Lasting, ExtrasLeave, Found, DrawAll;
    var x, column, u := event.card.id, event.card.column, CardsOn(t) - MovedCards(later);
    SettledMove(s, event, later) by { assert Found(s, event); }
    assert MovedCards([event] + later) == MovedCards(later) + {x} by { Heads(event, later); }
    assert CardsOn(t) - MovedCards([event] + later) == u - {x};
    assert column in r.lines && Holds(r, x) by { RegularColumns(s, r, t, event, later); }
    if event.after.Some? {
      OnlyMembers(t.lines[column], u - {x});
      OnlyMembers(r.lines[column], u - {x});
      assert event.after.value in Only(t.lines[column], u - {x});
      LinesOnce(r, column);
      WithoutIs(r.lines[column], x);
    }
    TargetGrows(s, event, later, u) by { SurvivorsUntouched(s, event, later); }
    LinesOnce(s, column);
    LinesOnce(r, column);
    EndIsRegular(s, event, later);
    LinesOnce(t, column);
    PlacesAgree(s.lines[column], r.lines[column], t.lines[column], event.after, x, u);
  }

  lemma LinesOnce(o: Outline, k: Id)
    requires Regular(o) && k in o.lines
    ensures NoDuplicates(o.lines[k])
  {
  }

  lemma RegularColumns(s: Outline, r: Outline, t: Outline, event: Event, later: seq<Event>)
    requires Replaying(s, r, t, event, later)
    ensures forall k :: k in t.lines ==> k in r.lines
    ensures forall c :: Holds(t, c) ==> Holds(r, c)
  {
    hide Draw, DrawAll, Only, NoDuplicates, Disjoint, Steady, AllFound;
    EndIsRegular(s, event, later);
  }

  lemma TargetGrows(s: Outline, event: Event, later: seq<Event>, u: set<Id>)
    requires Regular(s) && Found(s, event) && event.CardMoved? && Lasting(event, later)
    requires u !! MovedCards(later) + DeletedCards(later)
    ensures var t, x, column := DrawAll(Draw(s, event), later), event.card.id, event.card.column;
            && column in t.lines
            && Only(PlaceAfter(Without(s.lines[column], x), event.after, x), u) <= Only(t.lines[column], u)
  {
    hide Only, Without, PlaceAfter;
    RegularKept(s, event);
    assert Draw(s, event).lines[event.card.column]
           == PlaceAfter(Without(s.lines[event.card.column], event.card.id), event.after, event.card.id);
    hide Draw, Regular;
    LineGrows(Draw(s, event), later, event.card.column, u);
  }

  /** One column's cards after a move. */
  lemma MovedLineAlike(s: Outline, r: Outline, t: Outline, event: Event, later: seq<Event>, k: Id)
    requires Replaying(s, r, t, event, later) && event.CardMoved? && k in t.lines && k in r.lines
    ensures var u := CardsOn(t) - MovedCards(later); k in Draw(r, event).lines && Only(Draw(r, event).lines[k], u) == Only(t.lines[k], u)
  {
    hide Only, Without, PlaceAfter, NoDuplicates, Steady, AllFound, Lasting, ExtrasLeave, CardsPresent, Found, DrawAll, Holds, Disjoint;
    var x, column, u := event.card.id, event.card.column, CardsOn(t) - MovedCards(later);
    assert MovedCards([event] + later) == MovedCards(later) + {x} by { Heads(event, later); }
    assert CardsOn(t) - MovedCards([event] + later) == u - {x};
    OnlyWithout(r.lines[k], x, u);
    if x in u {
      HeldOn(t, x);
      SettledMove(s, event, later);
      TargetAlike(s, r, t, event, later);
      if k != column {
        NotInBoth(s, t, event, later, column, k);
        OnlySame(t.lines[k], u, u - {x});
      }
    } else {
      assert u - {x} == u;
      if Placeable(r, x, column, event.after) && k == column {
        OnlyPlaced(Without(r.lines[k], x), event.after, x, u);
      }
    }
  }

  lemma HeldOn(o: Outline, c: Id)
    ensures c in CardsOn(o) <==> Holds(o, c)
  {
  }

  lemma NotInBoth(s: Outline, t: Outline, event: Event, later: seq<Event>, column: Id, k: Id)
    requires Regular(s) && t == DrawAll(Draw(s, event), later) && column in t.lines && k in t.lines && k != column
    ensures forall c :: c in t.lines[k] ==> c !in t.lines[column]
  {
    hide Draw, DrawAll;
    EndIsRegular(s, event, later);
  }

  lemma LineAlike(s: Outline, r: Outline, t: Outline, event: Event, later: seq<Event>, k: Id)
    requires Replaying(s, r, t, event, later) && !event.CardMoved? && k in t.lines && k in Draw(r, event).lines && k in r.lines
    ensures var u := CardsOn(t) - MovedCards(later); Only(Draw(r, event).lines[k], u) == Only(t.lines[k], u)
  {
    hide Only, Without, PlaceAfter, NoDuplicates, Steady, AllFound, Lasting, ExtrasLeave, Found, DrawAll, Holds, Disjoint;
    var u := CardsOn(t) - MovedCards(later);
    assert MovedCards([event] + later) == MovedCards(later) by { Heads(event, later); }
    match event
    case CardCreated(card) =>
      if !Holds(r, card.id) {
        HeldOn(t, card.id);
        if card.id in u { RegularColumns(s, r, t, event, later); }
        OnlyAppend(r.lines[k], [card.id], u);
        OnlyOne(card.id, u);
      }
    case CardDeleted(card, _) =>
      EventSpares(s, event, later);
      HeldOn(t, card);
      OnlyWithout(r.lines[k], card, u);
      assert u - {card} == u;
    case ColumnCreated(column) => RegularOrder(r, k);
    case _ =>
  }

  lemma RegularOrder(o: Outline, k: Id)
    requires Regular(o) && k in o.lines
    ensures k in o.order
  {
  }

  lemma LinesAlikeKept(s: Outline, r: Outline, t: Outline, event: Event, later: seq<Event>)
    requires Replaying(s, r, t, event, later)
    ensures LinesAlike(Draw(r, event), t, later)
  {
    hide Only, Draw, CardsOn, Steady, AllFound, Lasting, Found, DrawAll, Regular, Alike;
    forall k | k in t.lines && k in Draw(r, event).lines
      ensures Only(Draw(r, event).lines[k], CardsOn(t) - MovedCards(later)) == Only(t.lines[k], CardsOn(t) - MovedCards(later))
    {
      RegularColumns(s, r, t, event, later);
      if event.CardMoved? { MovedLineAlike(s, r, t, event, later, k); } else { LineAlike(s, r, t, event, later, k); }
    }
  }

  // ------------------------------------------------------------------ columns

  lemma SettledColumnMove(s: Outline, event: Event, later: seq<Event>)
    requires Regular(s) && Found(s, event) && Lasting(event, later) && Steady(later)
    requires event.ColumnMoved? && event.column.id !in MovedColumns(later) && event.column.id in DrawAll(Draw(s, event), later).order
    ensures event.afterColumn.Some? ==>
              && event.afterColumn.value in Without(s.order, event.column.id) && event.afterColumn.value != event.column.id
              && event.afterColumn.value in DrawAll(Draw(s, event), later).order && event.afterColumn.value !in MovedColumns(later)
  {
    hide Only, Without;
    var next, x := Draw(s, event), event.column.id;
    RegularKept(s, event);
    SurvivingColumn(next, later, x);
    if event.afterColumn.Some? {
      var a := event.afterColumn.value;
      WithoutIs(s.order, x);
      ColumnAfter(s, event, a);
      ColumnStays(next, later, a);
    }
  }

  lemma OrderGrowsOn(s: Outline, event: Event, later: seq<Event>, u: set<Id>)
    requires Regular(s) && Found(s, event) && event.ColumnMoved? && u !! MovedColumns(later) + DeletedColumns(later)
    ensures Only(PlaceAfter(Without(s.order, event.column.id), event.afterColumn, event.column.id), u)
            <= Only(DrawAll(Draw(s, event), later).order, u)
  {
    hide Only, Without, PlaceAfter;
    RegularKept(s, event);
    assert Draw(s, event).order == PlaceAfter(Without(s.order, event.column.id), event.afterColumn, event.column.id);
    hide Draw, Regular;
    OrderGrows(Draw(s, event), later, u);
  }

  lemma OrderOnce(o: Outline)
    requires Regular(o)
    ensures NoDuplicates(o.order)
  {
  }

  lemma MovedOrderAlike(s: Outline, r: Outline, t: Outline, event: Event, later: seq<Event>)
    requires Replaying(s, r, t, event, later) && event.ColumnMoved?
    ensures var u := Elems(t.order) - MovedColumns(later); Only(Draw(r, event).order, u) == Only(t.order, u)
  {
    hide Only, Without, PlaceAfter, NoDuplicates, Steady, AllFound, Lasting, ExtrasLeave, CardsPresent, LinesAlike, Found, DrawAll, Holds, Disjoint;
    var x, u := event.column.id, Elems(t.order) - MovedColumns(later);
    assert MovedColumns([event] + later) == MovedColumns(later) + {x} by { Heads(event, later); }
    assert Elems(t.order) - MovedColumns([event] + later) == u - {x};
    OnlyWithout(r.order, x, u);
    if x in u {
      SettledColumnMove(s, event, later);
      SurvivorsUntouched(s, event, later);
      WithoutIs(r.order, x);
      OrderGrowsOn(s, event, later, u);
      EndIsRegular(s, event, later);
      OrderOnce(t);
      PlacesAgree(s.order, r.order, t.order, event.afterColumn, x, u);
    } else {
      assert u - {x} == u;
      if x in r.order && (event.afterColumn.Some? ==> event.afterColumn.value in Without(r.order, x)) {
        OnlyPlaced(Without(r.order, x), event.afterColumn, x, u);
      }
    }
  }

  lemma OrderAlike(s: Outline, r: Outline, t: Outline, event: Event, later: seq<Event>)
    requires Replaying(s, r, t, event, later) && !event.ColumnMoved?
    ensures var u := Elems(t.order) - MovedColumns(later); Only(Draw(r, event).order, u) == Only(t.order, u)
  {
    hide Only, Without, PlaceAfter, NoDuplicates, Steady, AllFound, Lasting, ExtrasLeave, CardsPresent, LinesAlike, Found, DrawAll, Holds, Disjoint;
    var u := Elems(t.order) - MovedColumns(later);
    assert MovedColumns([event] + later) == MovedColumns(later) by { Heads(event, later); }
    match event
    case ColumnCreated(column) =>
      OnlyAppend(r.order, [column.id], u);
      OnlyOne(column.id, u);
    case ColumnDeleted(column) =>
      EventSpares(s, event, later);
      OnlyWithout(r.order, column, u);
      assert u - {column} == u;
    case _ =>
  }

  lemma ColumnsAlikeKept(s: Outline, r: Outline, t: Outline, event: Event, later: seq<Event>)
    requires Replaying(s, r, t, event, later)
    ensures ColumnsAlike(Draw(r, event), t, later)
  {
    if event.ColumnMoved? { MovedOrderAlike(s, r, t, event, later); } else { OrderAlike(s, r, t, event, later); }
    hide Only, Draw, AllFound, LinesAlike, CardsPresent, ExtrasLeave, Found, DrawAll;
    EventSpares(s, event, later);
    Heads(event, later);
    forall k | k in t.order ensures k in Draw(r, event).order { ColumnAfter(r, event, k); }
    forall k | k in Draw(r, event).order && k !in t.order ensures k in DeletedColumns(later) {
      ColumnAfter(r, event, k);
      ExtraColumn(s, event, later, k);
    }
  }

  /** A column created here and not there at the end is deleted later. */
  lemma ExtraColumn(s: Outline, event: Event, later: seq<Event>, k: Id)
    requires Regular(s) && k !in DrawAll(Draw(s, event), later).order
    ensures event.ColumnCreated? && event.column.id == k ==> k in DeletedColumns(later)
  {
    if event.ColumnCreated? && event.column.id == k && k !in DeletedColumns(later) {
      RegularKept(s, event);
      ColumnAfter(s, event, k);
      ColumnStays(Draw(s, event), later, k);
    }
  }

  // ------------------------------------------------------------------- extras

  /** A card created here and not there at the end is deleted later, or goes with the column it was created in. */
  lemma ExtraCard(s: Outline, event: Event, later: seq<Event>)
    requires Regular(s) && Found(s, event) && AllFound(Draw(s, event), later) && Lasting(event, later) && Steady(later)
    requires event.CardCreated? && !Holds(DrawAll(Draw(s, event), later), event.card.id)
    ensures event.card.id in DeletedCards(later)
            || (event.card.column in DeletedColumns(later) && event.card.id !in MovedCards(later))
  {
    RegularKept(s, event);
    CardAfter(s, event, event.card.id, event.card.column);
    LostCard(Draw(s, event), later, event.card.column, event.card.id);
  }

  lemma ExtrasKept(s: Outline, r: Outline, t: Outline, event: Event, later: seq<Event>)
    requires Replaying(s, r, t, event, later)
    ensures ExtrasLeave(Draw(r, event), t, later)
  {
    hide Only, Draw, LinesAlike, CardsPresent, ColumnsAlike, DrawAll, Found, AllFound, Lasting, Steady;
    Heads(event, later);
    forall k, c | k in Draw(r, event).lines && c in Draw(r, event).lines[k] && !Holds(t, c)
      ensures c in DeletedCards(later) || (k in DeletedColumns(later) && c !in MovedCards(later))
    {
      CardAfter(r, event, c, k);
      if event.CardCreated? && event.card.id == c { ExtraCard(s, event, later); }
      ExtraLeaves(r, t, event, later, k, c);
    }
  }

  lemma ExtraLeaves(r: Outline, t: Outline, event: Event, later: seq<Event>, k: Id, c: Id)
    requires ExtrasLeave(r, t, [event] + later) && !Holds(t, c)
    ensures k in r.lines && c in r.lines[k] && !(event.CardDeleted? && event.cardId == c) && !(event.ColumnDeleted? && event.columnId == k) ==>
              c in DeletedCards(later) || (k in DeletedColumns(later) && c !in MovedCards(later))
    ensures event.CardMoved? && event.card.id == c && Holds(r, c) ==> c in DeletedCards(later)
  {
    Heads(event, later);
  }

  lemma AlikeKept(s: Outline, r: Outline, t: Outline, event: Event, later: seq<Event>)
    requires Replaying(s, r, t, event, later)
    ensures Alike(Draw(r, event), t, later)
  {
    RegularKept(r, event);
    PresentKept(s, r, t, event, later);
    LinesAlikeKept(s, r, t, event, later);
    ColumnsAlikeKept(s, r, t, event, later);
    ExtrasKept(s, r, t, event, later);
  }

  lemma LineEndsAlike(r: Outline, t: Outline, k: Id)
    requires Regular(t) && Alike(r, t, []) && k in t.lines && k in r.lines
    ensures r.lines[k] == t.lines[k]
  {
    hide Only, NoDuplicates, Disjoint, CardsPresent, ColumnsAlike;
    var u := CardsOn(t) - {};
    assert MovedCards([]) == {} && CardsOn(t) - MovedCards([]) == u;
    forall c | c in r.lines[k] ensures c in u { HeldOn(t, c); }
    forall c | c in t.lines[k] ensures c in u { HeldOn(t, c); }
    OnlyAll(r.lines[k], u);
    OnlyAll(t.lines[k], u);
  }

  lemma OrderEndsAlike(r: Outline, t: Outline)
    requires ColumnsAlike(r, t, [])
    ensures r.order == t.order
  {
    hide Only;
    var u := Elems(t.order) - {};
    assert MovedColumns([]) == {} && Elems(t.order) - MovedColumns([]) == u;
    OnlyAll(r.order, u);
    OnlyAll(t.order, u);
  }

  lemma EndsAlike(r: Outline, t: Outline)
    requires Regular(t) && Alike(r, t, [])
    ensures r == t
  {
    hide NoDuplicates, Disjoint, CardsPresent, LinesAlike, ExtrasLeave;
    OrderEndsAlike(r, t);
    forall k | k in t.lines ensures k in r.lines && r.lines[k] == t.lines[k] { LineEndsAlike(r, t, k); }
    assert r.lines.Keys == t.lines.Keys;
  }

  lemma {:induction false} OutlineReplays(s: Outline, r: Outline, log: seq<Event>)
    requires Regular(s) && AllFound(s, log) && Steady(log) && Alike(r, DrawAll(s, log), log)
    ensures DrawAll(r, log) == DrawAll(s, log)
    decreases |log|
  {
    if log == [] {
      EndsAlike(r, s);
    } else {
      assert [log[0]] + log[1..] == log;
      hide Regular, Draw, Alike, Found, Lasting;
      AlikeKept(s, r, DrawAll(s, log), log[0], log[1..]);
      RegularKept(s, log[0]);
      OutlineReplays(Draw(s, log[0]), Draw(r, log[0]), log[1..]);
    }
  }

  lemma AlikeToItself(t: Outline, log: seq<Event>)
    requires Regular(t)
    ensures Alike(t, t, log)
  {
  }

  // ------------------------------------------------------------------ bodies

  /** The same cards, but for details still to be written. */
  ghost predicate BodiesAlike(r: Snapshot, t: Snapshot, log: seq<Event>) {
    forall a, b :: Shows(r, a) && Shows(t, b) && a.id == b.id ==>
      a.board == b.board && (a.id !in UpdatedCards(log) ==> a.details == b.details)
  }

  /** The same columns, but for names still to be written. */
  ghost predicate NamesAlike(r: Snapshot, t: Snapshot, log: seq<Event>) {
    forall a, b :: ShowsColumn(r, a) && ShowsColumn(t, b) && a.id == b.id ==>
      a.board == b.board && (a.id !in RenamedColumns(log) ==> a.name == b.name)
  }

  lemma WasShown(s: Snapshot, event: Event, card: Card)
    requires Tidy(s) && Shows(Apply(s, event), card)
    ensures Was(s, event, card)
  {
    hide Tidy, Apply, Was;
    var t := Apply(s, event);
    var e :| e in t.columns && card in e.cards;
    var i :| 0 <= i < |t.columns| && t.columns[i] == e;
    var j :| 0 <= j < |e.cards| && e.cards[j] == card;
    WasDrawn(s, event, i, j);
  }

  lemma ColumnWasShown(s: Snapshot, event: Event, column: Column)
    requires Tidy(s) && ShowsColumn(Apply(s, event), column)
    ensures ColumnWas(s, event, column)
  {
    hide Tidy, Apply, ColumnWas;
    var t := Apply(s, event);
    var e :| e in t.columns && e.column == column;
    var i :| 0 <= i < |t.columns| && t.columns[i] == e;
    ColumnWasDrawn(s, event, i);
  }

  lemma {:induction false} DetailsStay(s: Snapshot, log: seq<Event>, x: Id, details: Details)
    requires Tidy(s) && x !in UpdatedCards(log) && x !in CreatedCards(log)
    requires forall c :: Shows(s, c) && c.id == x ==> c.details == details
    ensures forall c :: Shows(ApplyLog(s, log), c) && c.id == x ==> c.details == details
    decreases |log|
  {
    if log != [] {
      var t := Apply(s, log[0]);
      forall c | Shows(t, c) && c.id == x ensures c.details == details { WasShown(s, log[0], c); }
      TidyKept(s, log[0]);
      hide Apply, Tidy, Shows;
      DetailsStay(t, log[1..], x, details);
    }
  }

  lemma {:induction false} NameStays(s: Snapshot, log: seq<Event>, x: Id, name: string)
    requires Tidy(s) && x !in RenamedColumns(log) && x !in CreatedColumns(log)
    requires forall c :: ShowsColumn(s, c) && c.id == x ==> c.name == name
    ensures forall c :: ShowsColumn(ApplyLog(s, log), c) && c.id == x ==> c.name == name
    decreases |log|
  {
    if log != [] {
      var t := Apply(s, log[0]);
      forall c | ShowsColumn(t, c) && c.id == x ensures c.name == name { ColumnWasShown(s, log[0], c); }
      TidyKept(s, log[0]);
      hide Apply, Tidy, ShowsColumn;
      NameStays(t, log[1..], x, name);
    }
  }

  lemma ShownIsHeld(s: Snapshot, card: Card)
    requires Tidy(s) && Shows(s, card)
    ensures Holds(OutlineOf(s), card.id)
  {
    hide OutlineOf, FindCard;
    var e :| e in s.columns && card in e.cards;
    HoldsDrawn(s, card.id);
  }

  lemma ShownIsListed(s: Snapshot, column: Column)
    requires ShowsColumn(s, column)
    ensures column.id in OrderOf(s.columns)
  {
    var e :| e in s.columns && e.column == column;
    var i :| 0 <= i < |s.columns| && s.columns[i] == e;
    assert OrderOf(s.columns)[i] == column.id;
  }

  lemma BodiesAlikeKept(s: Snapshot, r: Snapshot, t: Snapshot, event: Event, later: seq<Event>)
    requires Tidy(s) && Tidy(r) && Tidy(t) && t == ApplyLog(Apply(s, event), later) && Lasting(event, later)
    requires BodiesAlike(r, t, [event] + later) && forall c :: Holds(OutlineOf(t), c) ==> Holds(OutlineOf(r), c)
    ensures BodiesAlike(Apply(r, event), t, later)
  {
    hide Tidy, Apply, ApplyLog, Shows, OutlineOf, Holds, Lasting;
    Heads(event, later);
    if event.CardUpdated? { LastDetails(s, event, later); }
    forall a, b | Shows(Apply(r, event), a) && Shows(t, b) && a.id == b.id
      ensures a.board == b.board && (a.id !in UpdatedCards(later) ==> a.details == b.details)
    {
      WasShown(r, event, a);
      ShownIsHeld(t, b);
    }
  }

  /** The last update's details are the ones at the end. */
  lemma LastDetails(s: Snapshot, event: Event, later: seq<Event>)
    requires Tidy(s) && event.CardUpdated? && Lasting(event, later)
    ensures event.card.id !in UpdatedCards(later) ==>
              forall c :: Shows(ApplyLog(Apply(s, event), later), c) && c.id == event.card.id ==> c.details == event.card.details
  {
    var next := Apply(s, event);
    forall c | Shows(next, c) && c.id == event.card.id ensures c.details == event.card.details { WasShown(s, event, c); }
    TidyKept(s, event);
    hide Tidy, Apply, ApplyLog, Shows;
    if event.card.id !in UpdatedCards(later) { DetailsStay(next, later, event.card.id, event.card.details); }
  }

  lemma LastName(s: Snapshot, event: Event, later: seq<Event>)
    requires Tidy(s) && event.ColumnUpdated? && Lasting(event, later)
    ensures event.column.id !in RenamedColumns(later) ==>
              forall c :: ShowsColumn(ApplyLog(Apply(s, event), later), c) && c.id == event.column.id ==> c.name == event.column.name
  {
    var next := Apply(s, event);
    forall c | ShowsColumn(next, c) && c.id == event.column.id ensures c.name == event.column.name { ColumnWasShown(s, event, c); }
    TidyKept(s, event);
    hide Tidy, Apply, ApplyLog, ShowsColumn;
    if event.column.id !in RenamedColumns(later) { NameStays(next, later, event.column.id, event.column.name); }
  }

  lemma NamesAlikeKept(s: Snapshot, r: Snapshot, t: Snapshot, event: Event, later: seq<Event>)
    requires Tidy(s) && Tidy(r) && Tidy(t) && t == ApplyLog(Apply(s, event), later) && Lasting(event, later)
    requires NamesAlike(r, t, [event] + later) && forall k :: k in OrderOf(t.columns) ==> k in OrderOf(r.columns)
    ensures NamesAlike(Apply(r, event), t, later)
  {
    hide Tidy, Apply, ApplyLog, ShowsColumn, OrderOf, Lasting;
    Heads(event, later);
    if event.ColumnUpdated? { LastName(s, event, later); }
    forall a, b | ShowsColumn(Apply(r, event), a) && ShowsColumn(t, b) && a.id == b.id
      ensures a.board == b.board && (a.id !in RenamedColumns(later) ==> a.name == b.name)
    {
      ColumnWasShown(r, event, a);
      ShownIsListed(t, b);
    }
  }

  lemma TidyParts(s: Snapshot)
    requires Tidy(s)
    ensures Regular(OutlineOf(s))
    ensures OutlineOf(s).order == OrderOf(s.columns)
  {
    hide OutlineOf, Regular;
    OutlineShape(s);
  }

  /** Two tidy boards with one outline and the same bodies are one board. */
  lemma SameBoards(r: Snapshot, t: Snapshot)
    requires Tidy(r) && Tidy(t) && OutlineOf(r) == OutlineOf(t) && BodiesAlike(r, t, []) && NamesAlike(r, t, [])
    ensures r == t
  {
    TidyParts(r);
    TidyParts(t);
    hide OutlineOf, Regular, Shows, ShowsColumn;
    assert |r.columns| == |OrderOf(r.columns)| == |t.columns|;
    forall i | 0 <= i < |r.columns| ensures r.columns[i] == t.columns[i] { SameColumnDrawn(r, t, i); }
    assert r.columns == t.columns;
  }

  lemma SameColumnDrawn(r: Snapshot, t: Snapshot, i: nat)
    requires Tidy(r) && Tidy(t) && OutlineOf(r) == OutlineOf(t) && BodiesAlike(r, t, []) && NamesAlike(r, t, [])
    requires i < |r.columns| && i < |t.columns| && OrderOf(r.columns) == OrderOf(t.columns)
    ensures r.columns[i] == t.columns[i]
  {
    hide OutlineOf, Regular;
    var a, b := r.columns[i], t.columns[i];
    assert a.column.id == OrderOf(r.columns)[i] == b.column.id;
    assert a in r.columns && b in t.columns && ShowsColumn(r, a.column) && ShowsColumn(t, b.column);
    LineAt(r, i);
    LineAt(t, i);
    assert IdsOf(a.cards) == IdsOf(b.cards);
    assert |a.cards| == |IdsOf(a.cards)| == |b.cards|;
    forall j | 0 <= j < |a.cards| ensures a.cards[j] == b.cards[j] {
      assert IdsOf(a.cards)[j] == IdsOf(b.cards)[j];
      assert a.cards[j] in a.cards && b.cards[j] in b.cards;
      assert Shows(r, a.cards[j]) && Shows(t, b.cards[j]);
    }
  }

  lemma {:induction false} LogDrawsOutline(s: Snapshot, log: seq<Event>)
    requires Tidy(s)
    ensures Tidy(ApplyLog(s, log)) && OutlineOf(ApplyLog(s, log)) == DrawAll(OutlineOf(s), log)
    decreases |log|
  {
    if log != [] {
      TidyKept(s, log[0]);
      DrawsItsOutline(s, log[0]);
      hide Tidy, Apply, OutlineOf, Draw;
      LogDrawsOutline(Apply(s, log[0]), log[1..]);
    }
  }

  lemma AlikeHolds(s: Outline, r: Outline, log: seq<Event>)
    requires Regular(s) && Alike(r, DrawAll(s, log), log)
    ensures forall c :: Holds(DrawAll(s, log), c) ==> Holds(r, c)
    ensures forall k :: k in DrawAll(s, log).order ==> k in r.order
  {
    hide DrawAll, Only, LinesAlike, ExtrasLeave, Disjoint;
  }

  /** The board as published, the replay, and what is left of the log. */
  lemma {:induction false} SnapshotReplays(s: Snapshot, r: Snapshot, log: seq<Event>)
    requires Tidy(s) && Tidy(r) && AllFound(OutlineOf(s), log) && Steady(log)
    requires Alike(OutlineOf(r), DrawAll(OutlineOf(s), log), log)
    requires BodiesAlike(r, ApplyLog(s, log), log) && NamesAlike(r, ApplyLog(s, log), log)
    ensures ApplyLog(r, log) == ApplyLog(s, log)
    decreases |log|
  {
    hide Tidy, OutlineOf, Alike, BodiesAlike, NamesAlike, Draw, Apply, Found, Lasting, Regular;
    LogDrawsOutline(s, log);
    TidyParts(s);
    if log == [] {
      EndsAlike(OutlineOf(r), OutlineOf(s));
      SameBoards(r, s);
    } else {
      var event, later, t := log[0], log[1..], ApplyLog(s, log);
      assert [event] + later == log;
      TidyParts(r);
      TidyParts(t);
      AlikeHolds(OutlineOf(s), OutlineOf(r), log);
      DrawsItsOutline(s, event);
      DrawsItsOutline(r, event);
      TidyKept(s, event);
      TidyKept(r, event);
      AlikeKept(OutlineOf(s), OutlineOf(r), OutlineOf(t), event, later);
      BodiesAlikeKept(s, r, t, event, later);
      NamesAlikeKept(s, r, t, event, later);
      SnapshotReplays(Apply(s, event), Apply(r, event), later);
    }
  }

  lemma ShownAt(s: Snapshot, card: Card) returns (i: nat, j: nat)
    requires Shows(s, card)
    ensures i < |s.columns| && j < |s.columns[i].cards| && s.columns[i].cards[j] == card
  {
    var e :| e in s.columns && card in e.cards;
    i :| 0 <= i < |s.columns| && s.columns[i] == e;
    j :| 0 <= j < |e.cards| && e.cards[j] == card;
  }

  lemma OneCardEach(s: Snapshot, a: Card, b: Card)
    requires Tidy(s) && Shows(s, a) && Shows(s, b) && a.id == b.id
    ensures a == b
  {
    hide OutlineOf, IndexOfColumn;
    var i, j := ShownAt(s, a);
    var m, n := ShownAt(s, b);
    LineAt(s, i);
    LineAt(s, m);
    assert IdsOf(s.columns[i].cards)[j] == a.id && IdsOf(s.columns[m].cards)[n] == a.id;
    assert a.id in IdsOf(s.columns[i].cards) && a.id in IdsOf(s.columns[m].cards);
    assert i == m;
    LineOnce(s, i);
  }

  lemma OneColumnEach(s: Snapshot, a: Column, b: Column)
    requires UniqueColumns(s) && ShowsColumn(s, a) && ShowsColumn(s, b) && a.id == b.id
    ensures a == b
  {
    var e :| e in s.columns && e.column == a;
    var f :| f in s.columns && f.column == b;
    var i :| 0 <= i < |s.columns| && s.columns[i] == e;
    var j :| 0 <= j < |s.columns| && s.columns[j] == f;
  }

  lemma ShownOnce(t: Snapshot, log: seq<Event>)
    requires Tidy(t)
    ensures BodiesAlike(t, t, log) && NamesAlike(t, t, log)
  {
    hide Shows, ShowsColumn, OutlineOf;
    forall a, b | Shows(t, a) && Shows(t, b) && a.id == b.id ensures a == b { OneCardEach(t, a, b); }
    forall a, b | ShowsColumn(t, a) && ShowsColumn(t, b) && a.id == b.id ensures a == b { OneColumnEach(t, a, b); }
  }

  /** On every tidy board: a steady log of events that found what they named replays freely over the board it leads to. */
  lemma SteadyLogReplays(s: Snapshot, log: seq<Event>)
    requires Tidy(s) && AllFound(OutlineOf(s), log) && Steady(log)
    ensures ApplyLog(ApplyLog(s, log), log) == ApplyLog(s, log)
  {
    hide Tidy, OutlineOf, BodiesAlike, NamesAlike, Alike, Regular;
    var t := ApplyLog(s, log);
    LogDrawsOutline(s, log);
    TidyParts(t);
    AlikeToItself(OutlineOf(t), log);
    ShownOnce(t, log);
    SnapshotReplays(s, t, log);
  }

  // ----------------------------------------------------- the logs that are kept

  /** Every event a request publishes finds on its board what it names. */
  lemma PublishedIsFound(db: Db, request: Request, board: Id)
    requires Valid(db) && FreshId(db, request) && Handle(db, request).Success?
    requires Handle(db, request).value.published.board == board
    ensures Found(OutlineOf(Read(db, board)), Handle(db, request).value.published.event)
  {
    hide CardList, ColumnList, OutlineOf, Read, Valid, Without, DoMoveCard, DoMoveColumn;
    P.ValidKeys(db);
    ReadOutline(db, board);
    var o := OutlineOf(Read(db, board));
    match request
    case CreateCard(column, _, newId) =>
      ColumnIsListed(db, board, column);
      forall k | k in o.lines ensures newId !in o.lines[k] { CardIsListed(db, k, newId); }
    case MoveCard(card, column, after) =>
      P.MoveCardSucceeds(db, card, column, after);
      MoveCardRefines(db, card, column, after);
      ColumnIsListed(db, board, column);
      ColumnIsListed(db, board, db.cards[card].column);
      CardIsListed(db, db.cards[card].column, card);
    case MoveColumn(column, after) =>
      P.MoveColumnSucceeds(db, column, after);
      MoveColumnRefines(db, column, after);
      ColumnIsListed(db, board, column);
    case _ =>
  }

  lemma {:induction false} RoomIsFound(db: Db, calls: seq<P.Call>, board: Id)
    requires Valid(db) && P.Legal(db, calls)
    ensures AllFound(OutlineOf(Read(db, board)), P.Room(db, calls, board))
    decreases |calls|
  {
    hide Read, Handle, Apply, Valid, OutlineOf, Found, Draw;
    if calls != [] {
      var call := calls[0];
      var (db', published) := P.Serve(db, call);
      if published.Some? {
        P.RequestAgrees(db, call.request, board);
        HandleKeepsValid(db, call.request);
      }
      RoomIsFound(db', calls[1..], board);
      var later := P.Room(db', calls[1..], board);
      if published.Some? && published.value.board == board {
        var event := published.value.event;
        assert P.Room(db, calls, board) == [event] + later;
        PublishedIsFound(db, call.request, board);
        ReadIsTidy(db, board);
        DrawsItsOutline(Read(db, board), event);
        Heads(event, later);
      } else {
        assert P.Room(db, calls, board) == later;
      }
    }
  }

  /**
   * Replaying a kept log. Over every run, on any boards: when what a full read
   * already includes of the room's log is steady, folding the whole log over that
   * read, those events again and any that came since, draws what a full read
   * taken now returns.
   */
  lemma SteadyReplayIsFree(db: Db, included: seq<P.Call>, since: seq<P.Call>, board: Id)
    requires Valid(db) && P.Legal(db, included) && P.Legal(P.ServeAll(db, included), since)
    requires Steady(P.Room(db, included, board))
    ensures var read := P.ServeAll(db, included);
            ApplyLog(Read(read, board), P.Room(db, included, board) + P.Room(read, since, board))
            == Read(P.ServeAll(read, since), board)
  {
    hide Read, OutlineOf, Valid, P.Legal, P.ServeAll, P.Room, AllFound, Steady, Tidy;
    var read, log := P.ServeAll(db, included), P.Room(db, included, board);
    P.ReplicaFollowsServer(db, included, board);
    P.ReplicaFollowsServer(read, since, board);
    RoomIsFound(db, included, board);
    ReadIsTidy(db, board);
    SteadyLogReplays(Read(db, board), log);
    LogInParts(Read(read, board), log, P.Room(read, since, board));
  }

  lemma {:induction false} LogInParts(s: Snapshot, first: seq<Event>, second: seq<Event>)
    ensures ApplyLog(s, first + second) == ApplyLog(ApplyLog(s, first), second)
    decreases |first|
  {
    hide Apply;
    if first == [] {
      assert first + second == second;
    } else {
      assert (first + second)[1..] == first[1..] + second;
      LogInParts(Apply(s, first[0]), first[1..], second);
    }
  }
}
