/**
 * One ordered list kept as ranks: the cards of a column, or the columns of a
 * board. Every operation that allocates or rewrites a rank is shown to do to the
 * sorted sequence what the plain list operation does.
 */
module RankedList {
  import opened Wrappers
  import opened Ordering
  import opened Ranks

  type RankMap = map<Id, Rank>

  function Keys(ranks: RankMap): (keys: map<Id, Key>)
    ensures Keyed(keys) && keys.Keys == ranks.Keys
  {
    map x | x in ranks :: Key(0, ranks[x].value, x)
  }

  ghost predicate Lists(s: seq<Id>, ranks: RankMap) {
    IsListing(s, Keys(ranks))
  }

  ghost predicate Distinct(ranks: RankMap) {
    forall x, y :: x in ranks && y in ranks && x != y ==> ranks[x].value != ranks[y].value
  }

  /** Every rank is stored without rounding and within `scale` decimal places. */
  ghost predicate Fits(ranks: RankMap, scale: nat) {
    forall x :: x in ranks ==> Precise(Some(ranks[x]), scale)
  }

  ghost function Sorted(ranks: RankMap): (s: seq<Id>)
    ensures Lists(s, ranks)
  {
    OrderBy(Keys(ranks))
  }

  /** `SELECT min(position)` and `SELECT max(position)` over the given rows. */
  ghost function Lowest(ranks: RankMap): (r: Option<Rank>)
    ensures r.None? <==> ranks == map[]
    ensures r.Some? ==> r.value in ranks.Values
    ensures forall x :: x in ranks ==> r.Some? && r.value.value <= ranks[x].value
  {
    var s := Sorted(ranks);
    if s == [] then
      assert forall x :: x in ranks ==> x in Keys(ranks);
      None
    else
      assert forall x :: x in ranks ==> x == s[0] || Less(Keys(ranks)[s[0]], Keys(ranks)[x]) by {
        assert forall x :: x in ranks ==> x in Keys(ranks);
      }
      Some(ranks[s[0]])
  }

  ghost function Highest(ranks: RankMap): (r: Option<Rank>)
    ensures r.None? <==> ranks == map[]
    ensures r.Some? ==> r.value in ranks.Values
    ensures forall x :: x in ranks ==> r.Some? && ranks[x].value <= r.value.value
  {
    var s := Sorted(ranks);
    if s == [] then
      assert forall x :: x in ranks ==> x in Keys(ranks);
      None
    else
      var last := s[|s| - 1];
      assert forall x :: x in ranks ==> x == last || Less(Keys(ranks)[x], Keys(ranks)[last]) by {
        assert forall x :: x in ranks ==> x in Keys(ranks);
      }
      Some(ranks[last])
  }

  function Above(ranks: RankMap, lower: Option<Rank>): RankMap {
    map x | x in ranks && (lower.Some? ==> ranks[x].value > lower.value.value) :: ranks[x]
  }

  /** The rank a move writes: inside the gap that follows the anchor. */
  ghost function Allocate(siblings: RankMap, after: Option<Id>): Rank
    requires after.Some? ==> after.value in siblings
  {
    var lower := if after.Some? then Some(siblings[after.value]) else None;
    Between(lower, Lowest(Above(siblings, lower)))
  }

  /** The rank a create writes: one past the current maximum. */
  ghost function Next(siblings: RankMap): Rank {
    var top := Highest(siblings);
    After(if top.Some? then top.value else Whole(0))
  }

  /** `row_number() OVER (ORDER BY position, id)`. */
  ghost function Renumbered(ranks: RankMap): (more: RankMap)
    ensures more.Keys == ranks.Keys
  {
    var order := Sorted(ranks);
    map x | x in ranks :: Whole(IndexOf(order, x) + 1)
  }

  /** The plain list operation a move is supposed to be. */
  function PlaceAfter(s: seq<Id>, after: Option<Id>, x: Id): seq<Id>
    requires after.Some? ==> after.value in s
  {
    var at := if after.Some? then IndexOf(s, after.value) + 1 else 0;
    s[..at] + [x] + s[at..]
  }

  lemma SortedIsTheListing(s: seq<Id>, ranks: RankMap)
    requires Lists(s, ranks)
    ensures s == Sorted(ranks)
  {
    ListingUnique(s, Sorted(ranks), Keys(ranks));
  }

  // ------------------------------------------------------------------ moves

  /** The allocated rank is past the anchor and before every row past the anchor. */
  lemma AllocateSeparates(siblings: RankMap, after: Option<Id>, x: Id)
    requires after.Some? ==> after.value in siblings
    ensures after.Some? ==> siblings[after.value].value < Allocate(siblings, after).value
    ensures x in siblings && (after.Some? ==> siblings[after.value].value < siblings[x].value)
        ==> Allocate(siblings, after).value < siblings[x].value
  {
    var lower := if after.Some? then Some(siblings[after.value]) else None;
    BetweenSeparates(lower, Lowest(Above(siblings, lower)));
    assert x in Above(siblings, lower) <==>
      x in siblings && (after.Some? ==> siblings[after.value].value < siblings[x].value);
  }

  /** Where the allocated rank falls among the sorted siblings. */
  lemma AllocateSplits(s: seq<Id>, siblings: RankMap, after: Option<Id>, i: nat)
    requires Lists(s, siblings) && Distinct(siblings) && i < |s|
    requires after.Some? ==> after.value in siblings
    ensures s[i] in siblings
    ensures var at := if after.Some? then IndexOf(s, after.value) + 1 else 0;
            var r := Allocate(siblings, after).value;
            if i < at then siblings[s[i]].value < r else r < siblings[s[i]].value
  {
    AllocateSeparates(siblings, after, s[i]);
    if after.Some? {
      ListingSplit(s, Keys(siblings), after.value);
      assert i < IndexOf(s, after.value) ==> Less(Keys(siblings)[s[i]], Keys(siblings)[after.value]);
      assert i > IndexOf(s, after.value) ==> Less(Keys(siblings)[after.value], Keys(siblings)[s[i]]);
    }
  }

  lemma RankedInsert(s: seq<Id>, ranks: RankMap, at: nat, x: Id, r: Rank)
    requires Lists(s, ranks) && at <= |s| && x !in ranks
    requires forall i :: 0 <= i < |s| ==> if i < at then ranks[s[i]].value < r.value else r.value < ranks[s[i]].value
    ensures Lists(s[..at] + [x] + s[at..], ranks[x := r])
    ensures Distinct(ranks) ==> Distinct(ranks[x := r])
  {
    var keys, key := Keys(ranks), Key(0, r.value, x);
    ListingInsert(s, keys, at, x, key);
    assert Keys(ranks[x := r]) == keys[x := key];
    forall y | y in ranks ensures ranks[y].value != r.value {
      assert y in keys;
      var i :| 0 <= i < |s| && s[i] == y;
    }
  }

  /**
   * Rank refinement of a move: the sorted order with the allocated rank is the
   * old order with the row put after the anchor, and no two rows share a rank.
   */
  lemma AllocatePlaces(s: seq<Id>, siblings: RankMap, after: Option<Id>, x: Id)
    requires Lists(s, siblings) && Distinct(siblings)
    requires x !in siblings && (after.Some? ==> after.value in siblings)
    ensures after.Some? ==> after.value in s
    ensures var moved := siblings[x := Allocate(siblings, after)];
            Lists(PlaceAfter(s, after, x), moved) && Distinct(moved)
  {
    assert after.Some? ==> after.value in Keys(siblings);
    var at, r := if after.Some? then IndexOf(s, after.value) + 1 else 0, Allocate(siblings, after);
    forall i | 0 <= i < |s|
      ensures s[i] in siblings
      ensures if i < at then siblings[s[i]].value < r.value else r.value < siblings[s[i]].value
    {
      AllocateSplits(s, siblings, after, i);
    }
    RankedInsert(s, siblings, at, x, r);
  }

  /** Rank refinement of a create: the row goes to the end of the list. */
  lemma NextAppends(s: seq<Id>, siblings: RankMap, x: Id)
    requires Lists(s, siblings) && Distinct(siblings) && x !in siblings
    ensures var more := siblings[x := Next(siblings)];
            Lists(s + [x], more) && Distinct(more)
  {
    RankedInsert(s, siblings, |s|, x, Next(siblings));
    assert s[..|s|] + [x] + s[|s|..] == s + [x];
  }

  // -------------------------------------------------------------- renumbering

  lemma OrderIsPosition(s: seq<Id>, keys: map<Id, Key>, x: Id, y: Id)
    requires IsListing(s, keys) && x in keys && y in keys
    ensures Less(keys[x], keys[y]) <==> IndexOf(s, x) < IndexOf(s, y)
  {
    var i, j := IndexOf(s, x), IndexOf(s, y);
    assert i < j ==> Less(keys[s[i]], keys[s[j]]);
    assert j < i ==> Less(keys[s[j]], keys[s[i]]);
  }

  /** Renumbering changes every rank and no order. */
  lemma RenumberedKeepsOrder(s: seq<Id>, ranks: RankMap)
    requires Lists(s, ranks)
    ensures Lists(s, Renumbered(ranks)) && Distinct(Renumbered(ranks))
  {
    var keys, more := Keys(ranks), Renumbered(ranks);
    SortedIsTheListing(s, ranks);
    forall x, y | x in keys && y in keys && Less(keys[x], keys[y])
      ensures more[x].value < more[y].value && Less(Keys(more)[x], Keys(more)[y])
    {
      OrderIsPosition(s, keys, x, y);
    }
    ListingRekeyed(s, keys, Keys(more));
    forall x, y | x in more && y in more && x != y ensures more[x].value != more[y].value {
      assert Less(keys[x], keys[y]) || Less(keys[y], keys[x]);
    }
  }

  /** Rows that leave do not reorder the rows that stay. */
  lemma RemovalKeepsOrder(s: seq<Id>, ranks: RankMap, x: Id)
    requires Lists(s, ranks)
    ensures Lists(Without(s, x), ranks - {x})
  {
    ListingWithout(s, Keys(ranks), x);
    assert Keys(ranks - {x}) == Keys(ranks) - {x};
  }

  // ---------------------------------------------------------------- precision

  lemma AllocateFits(siblings: RankMap, after: Option<Id>, scale: nat)
    requires after.Some? ==> after.value in siblings
    requires Fits(siblings, scale)
    ensures Precise(Some(Allocate(siblings, after)), scale + 1)
  {
    var lower := if after.Some? then Some(siblings[after.value]) else None;
    var upper := Lowest(Above(siblings, lower));
    if upper.Some? {
      var x :| x in Above(siblings, lower) && upper.value == Above(siblings, lower)[x];
      assert upper.value == siblings[x];
    }
    BetweenIsPrecise(lower, upper, scale);
  }

  lemma NextFits(siblings: RankMap, scale: nat)
    requires Fits(siblings, scale)
    ensures Precise(Some(Next(siblings)), scale)
  {
    var top := Highest(siblings);
    if top.Some? {
      var x :| x in siblings && siblings[x] == top.value;
    }
    ShiftIsExact(if top.Some? then top.value else Whole(0), 1);
  }

  lemma RenumberedFits(ranks: RankMap)
    ensures Fits(Renumbered(ranks), 0)
  {
  }
}
