/**
 * Which logs replay freely. A log the server published can be folded again over
 * the board that already includes all of it, and draws the same board, when every
 * last move names an anchor that neither moves nor goes afterwards, nothing is
 * moved into a column deleted later, and no id is created again.
 */
module SteadyLogs {
  import opened Wrappers
  import opened Ordering
  import opened RankedList
  import opened Board
  import opened Replica
  import opened Replay
  import opened Outlines

  // ------------------------------------------------------- what a log touches

  function MovedCards(log: seq<Event>): set<Id> {
    if log == [] then {} else MovedCards(log[1..]) + if log[0].CardMoved? then {log[0].card.id} else {}
  }

  function DeletedCards(log: seq<Event>): set<Id> {
    if log == [] then {} else DeletedCards(log[1..]) + if log[0].CardDeleted? then {log[0].cardId} else {}
  }

  function CreatedCards(log: seq<Event>): set<Id> {
    if log == [] then {} else CreatedCards(log[1..]) + if log[0].CardCreated? then {log[0].card.id} else {}
  }

  function UpdatedCards(log: seq<Event>): set<Id> {
    if log == [] then {} else UpdatedCards(log[1..]) + if log[0].CardUpdated? then {log[0].card.id} else {}
  }

  function MovedColumns(log: seq<Event>): set<Id> {
    if log == [] then {} else MovedColumns(log[1..]) + if log[0].ColumnMoved? then {log[0].column.id} else {}
  }

  function DeletedColumns(log: seq<Event>): set<Id> {
    if log == [] then {} else DeletedColumns(log[1..]) + if log[0].ColumnDeleted? then {log[0].columnId} else {}
  }

  function CreatedColumns(log: seq<Event>): set<Id> {
    if log == [] then {} else CreatedColumns(log[1..]) + if log[0].ColumnCreated? then {log[0].column.id} else {}
  }

  function RenamedColumns(log: seq<Event>): set<Id> {
    if log == [] then {} else RenamedColumns(log[1..]) + if log[0].ColumnUpdated? then {log[0].column.id} else {}
  }

  /** A move overtaken by another of the same thing, or by its deletion, or one whose anchor stays put. */
  predicate Anchored(x: Id, after: Option<Id>, unsettled: set<Id>) {
    x in unsettled || after.None? || after.value !in unsettled
  }

  /** An event against what comes after it. */
  predicate Lasting(event: Event, later: seq<Event>) {
    match event
    case CardCreated(card) => card.id !in CreatedCards(later)
    case CardUpdated(card) => card.id !in CreatedCards(later)
    case CardMoved(card, _, after) =>
      && card.id !in CreatedCards(later) && card.column !in DeletedColumns(later)
      && Anchored(card.id, after, MovedCards(later) + DeletedCards(later))
    case CardDeleted(card, _) => card !in CreatedCards(later)
    case ColumnCreated(_) => true
    case ColumnUpdated(column) => column.id !in CreatedColumns(later)
    case ColumnMoved(column, after) =>
      column.id !in CreatedColumns(later) && Anchored(column.id, after, MovedColumns(later) + DeletedColumns(later))
    case ColumnDeleted(column) => column !in CreatedColumns(later)
  }

  predicate Steady(log: seq<Event>)
    decreases |log|
  {
    log == [] || (Lasting(log[0], log[1..]) && Steady(log[1..]))
  }

  /** Everything an event names is there when it is published. */
  ghost predicate Found(o: Outline, event: Event) {
    match event
    case CardCreated(card) => !Holds(o, card.id) && card.column in o.lines
    case CardMoved(card, _, after) => Placeable(o, card.id, card.column, after)
    case ColumnMoved(column, after) => column.id in o.order && (after.Some? ==> after.value in Without(o.order, column.id))
    case _ => true
  }

  ghost predicate AllFound(o: Outline, log: seq<Event>)
    decreases |log|
  {
    log == [] || (Found(o, log[0]) && AllFound(Draw(o, log[0]), log[1..]))
  }

  ghost function DrawAll(o: Outline, log: seq<Event>): Outline
    decreases |log|
  {
    if log == [] then o else DrawAll(Draw(o, log[0]), log[1..])
  }

  // ----------------------------------------------------------- parts of a list

  function Only(ids: seq<Id>, u: set<Id>): seq<Id> {
    if ids == [] then [] else (if ids[0] in u then [ids[0]] else []) + Only(ids[1..], u)
  }

  lemma {:induction false} OnlyMembers(ids: seq<Id>, u: set<Id>)
    ensures forall c :: c in Only(ids, u) <==> c in ids && c in u
  {
    if ids != [] { OnlyMembers(ids[1..], u); }
  }

  lemma {:induction false} OnlyOnce(ids: seq<Id>, u: set<Id>)
    requires NoDuplicates(ids)
    ensures NoDuplicates(Only(ids, u))
  {
    if ids != [] {
      OnlyOnce(ids[1..], u);
      OnlyMembers(ids[1..], u);
    }
  }

  lemma OnlyStep(ids: seq<Id>, u: set<Id>)
    requires ids != []
    ensures Only(ids, u) == (if ids[0] in u then [ids[0]] else []) + Only(ids[1..], u)
  {
  }

  lemma {:induction false} OnlyAppend(a: seq<Id>, b: seq<Id>, u: set<Id>)
    ensures Only(a + b, u) == Only(a, u) + Only(b, u)
  {
    if a == [] {
      assert a + b == b;
    } else {
      hide Only;
      OnlyStep(a, u);
      OnlyStep(a + b, u);
      OnlyAppend(a[1..], b, u);
      var head := if a[0] in u then [a[0]] else [];
      assert (a + b)[1..] == a[1..] + b && (a + b)[0] == a[0];
      assert head + (Only(a[1..], u) + Only(b, u)) == (head + Only(a[1..], u)) + Only(b, u);
    }
  }

  lemma OnlyOne(x: Id, u: set<Id>)
    ensures Only([x], u) == if x in u then [x] else []
  {
    assert [x][1..] == [];
  }

  lemma {:induction false} OnlyAll(ids: seq<Id>, u: set<Id>)
    requires forall c :: c in ids ==> c in u
    ensures Only(ids, u) == ids
  {
    if ids != [] { OnlyAll(ids[1..], u); }
  }

  lemma {:induction false} OnlySame(ids: seq<Id>, u: set<Id>, v: set<Id>)
    requires forall c :: c in ids ==> (c in u <==> c in v)
    ensures Only(ids, u) == Only(ids, v)
  {
    if ids != [] { OnlySame(ids[1..], u, v); }
  }

  /** A list cut around one of its places. */
  lemma OnlyAround(a: seq<Id>, x: Id, b: seq<Id>, u: set<Id>)
    ensures Only(a + [x] + b, u) == Only(a, u) + (if x in u then [x] else []) + Only(b, u)
  {
    OnlyAppend(a + [x], b, u);
    OnlyAppend(a, [x], u);
    OnlyOne(x, u);
  }

  lemma OnlyWithout(ids: seq<Id>, x: Id, u: set<Id>)
    requires NoDuplicates(ids)
    ensures Only(Without(ids, x), u) == Only(ids, u - {x})
  {
    hide Only;
    if x in ids {
      var k := IndexOf(ids, x);
      assert ids == ids[..k] + [x] + ids[k + 1..];
      OnlyAround(ids[..k], x, ids[k + 1..], u - {x});
      OnlyAppend(ids[..k], ids[k + 1..], u);
      OnlySame(ids[..k], u, u - {x});
      OnlySame(ids[k + 1..], u, u - {x});
    } else {
      OnlySame(ids, u, u - {x});
    }
  }

  lemma OnlyPlaced(ids: seq<Id>, after: Option<Id>, x: Id, u: set<Id>)
    requires (after.Some? ==> after.value in ids) && x !in u
    ensures Only(PlaceAfter(ids, after, x), u) == Only(ids, u)
  {
    hide Only;
    var at := if after.Some? then IndexOf(ids, after.value) + 1 else 0;
    OnlyAround(ids[..at], x, ids[at..], u);
    OnlyAppend(ids[..at], ids[at..], u);
    assert ids == ids[..at] + ids[at..];
  }

  lemma IndexIs(ids: seq<Id>, k: nat)
    requires NoDuplicates(ids) && k < |ids|
    ensures IndexOf(ids, ids[k]) == k
  {
    assert ids[k] in ids;
  }

  /** Placing behind an anchor that is kept is placing in what is kept. */
  lemma OnlyPlacedIn(ids: seq<Id>, after: Option<Id>, x: Id, u: set<Id>)
    requires NoDuplicates(ids) && (after.Some? ==> after.value in ids && after.value in u) && x in u
    ensures after.Some? ==> after.value in Only(ids, u)
    ensures Only(PlaceAfter(ids, after, x), u) == PlaceAfter(Only(ids, u), after, x)
  {
    hide Only;
    OnlyMembers(ids, u);
    var at := if after.Some? then IndexOf(ids, after.value) + 1 else 0;
    OnlyAround(ids[..at], x, ids[at..], u);
    OnlyAppend(ids[..at], ids[at..], u);
    assert ids == ids[..at] + ids[at..];
    var before := Only(ids[..at], u);
    if after.Some? {
      var k := at - 1;
      assert ids[..at] == ids[..k] + [after.value] + [];
      OnlyAround(ids[..k], after.value, [], u);
      OnlyOnce(ids, u);
      IndexIs(Only(ids, u), |before| - 1);
    }
    assert Only([], u) == [] by { OnlyAll([], u); }
    assert Only(ids, u)[..|before|] == before && Only(ids, u)[|before|..] == Only(ids[at..], u);
  }

  lemma WithoutMiddle(a: seq<Id>, x: Id, b: seq<Id>)
    requires NoDuplicates(a + [x] + b)
    ensures Without(a + [x] + b, x) == a + b
  {
    var all := a + [x] + b;
    assert all[|a|] == x;
    IndexIs(all, |a|);
    hide NoDuplicates;
    assert all[..|a|] == a && all[|a| + 1..] == b;
  }

  lemma Behind(a: seq<Id>, p: Id, b: seq<Id>, x: Id)
    requires NoDuplicates(a + [p] + b)
    ensures p in a + [p] + b && PlaceAfter(a + [p] + b, Some(p), x) == a + [p] + [x] + b
  {
    var all := a + [p] + b;
    assert all[|a|] == p;
    IndexIs(all, |a|);
    hide NoDuplicates;
    assert all[..|a| + 1] == a + [p] && all[|a| + 1..] == b;
  }

  lemma PlacedAt(list: seq<Id>, at: nat, after: Option<Id>)
    requires NoDuplicates(list) && at < |list|
    requires if after.Some? then at > 0 && list[at - 1] == after.value else at == 0
    ensures after.Some? ==> after.value in Without(list, list[at])
    ensures list == PlaceAfter(Without(list, list[at]), after, list[at])
  {
    hide NoDuplicates, Without, IndexOf;
    var x, behind := list[at], list[at + 1..];
    assert list == list[..at] + [x] + behind;
    WithoutMiddle(list[..at], x, behind);
    WithoutIs(list, x);
    if after.Some? {
      var before := list[..at - 1];
      assert list[..at] == before + [after.value];
      Behind(before, after.value, behind, x);
      hide PlaceAfter;
      assert before + [after.value] + [x] + behind == list;
    }
  }

  /** In a list that begins with a placing, the thing placed is still right behind its anchor. */
  lemma StillBehind(ids: seq<Id>, after: Option<Id>, x: Id, list: seq<Id>)
    requires NoDuplicates(list) && (after.Some? ==> after.value in ids)
    requires PlaceAfter(ids, after, x) <= list
    ensures x in list && (after.Some? ==> after.value in Without(list, x))
    ensures list == PlaceAfter(Without(list, x), after, x)
  {
    hide NoDuplicates, Without;
    var at := if after.Some? then IndexOf(ids, after.value) + 1 else 0;
    var placed := PlaceAfter(ids, after, x);
    assert list[at] == placed[at] == x;
    if after.Some? { assert list[at - 1] == placed[at - 1] == after.value; }
    hide PlaceAfter;
    PlacedAt(list, at, after);
  }

  lemma {:induction false} OnlyTwice(ids: seq<Id>, u: set<Id>, v: set<Id>)
    requires v <= u
    ensures Only(Only(ids, u), v) == Only(ids, v)
  {
    if ids != [] {
      OnlyTwice(ids[1..], u, v);
      OnlyStep(ids, u);
      OnlyStep(ids, v);
      hide Only;
      OnlyAppend([ids[0]], Only(ids[1..], u), v);
      OnlyOne(ids[0], v);
      assert [] + Only(ids[1..], u) == Only(ids[1..], u) && [] + Only(ids[1..], v) == Only(ids[1..], v);
    }
  }

  lemma OnlyLess(ids: seq<Id>, u: set<Id>, x: Id)
    requires NoDuplicates(ids)
    ensures Without(Only(ids, u), x) == Only(ids, u - {x})
  {
    hide Only, NoDuplicates, Without;
    var kept := Only(ids, u);
    OnlyMembers(ids, u);
    OnlyOnce(ids, u);
    WithoutIs(kept, x);
    OnlyWithout(kept, x, u);
    OnlyAll(Without(kept, x), u);
    OnlyTwice(ids, u, u - {x});
  }

  /** The same placing, on the board as it was published and on a board that agrees but for the thing placed. */
  lemma PlacesAgree(s: seq<Id>, r: seq<Id>, t: seq<Id>, after: Option<Id>, x: Id, u: set<Id>)
    requires NoDuplicates(s) && NoDuplicates(r) && NoDuplicates(t) && x in u
    requires after.Some? ==> after.value in Without(s, x) && after.value in Without(r, x) && after.value in u
    requires Only(PlaceAfter(Without(s, x), after, x), u) <= Only(t, u)
    requires Only(r, u - {x}) == Only(t, u - {x})
    ensures Only(PlaceAfter(Without(r, x), after, x), u) == Only(t, u)
  {
    hide Only, PlaceAfter, Without, NoDuplicates;
    WithoutIs(s, x);
    WithoutIs(r, x);
    OnlyPlacedIn(Without(s, x), after, x, u);
    OnlyPlacedIn(Without(r, x), after, x, u);
    OnlyOnce(t, u);
    StillBehind(Only(Without(s, x), u), after, x, Only(t, u));
    OnlyLess(t, u, x);
    OnlyWithout(r, x, u);
  }
}
