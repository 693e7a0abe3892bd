/**
 * What `ORDER BY position, id` means: the one sequence that lists a set of rows
 * strictly increasing. Rows are named by id, and the id breaks every tie.
 */
module Ordering {
  type Id = nat

  datatype Key = Key(group: nat, rank: real, id: Id)

  predicate Less(a: Key, b: Key) {
    || a.group < b.group
    || (a.group == b.group && a.rank < b.rank)
    || (a.group == b.group && a.rank == b.rank && a.id < b.id)
  }

  /** Every row is keyed by its own id, so distinct rows never compare equal. */
  ghost predicate Keyed(keys: map<Id, Key>) {
    forall x :: x in keys ==> keys[x].id == x
  }

  /** `s` lists exactly the rows of `keys`, in increasing key order. */
  ghost predicate IsListing(s: seq<Id>, keys: map<Id, Key>) {
    && (forall i :: 0 <= i < |s| ==> s[i] in keys)
    && (forall x :: x in keys ==> x in s)
    && (forall i, j :: 0 <= i < j < |s| ==> Less(keys[s[i]], keys[s[j]]))
  }

  predicate NoDuplicates(s: seq<Id>) {
    forall i, j :: 0 <= i < j < |s| ==> s[i] != s[j]
  }

  lemma ListingHasNoDuplicates(s: seq<Id>, keys: map<Id, Key>)
    requires IsListing(s, keys)
    ensures NoDuplicates(s)
  {
    forall i, j | 0 <= i < j < |s| ensures s[i] != s[j] {
      assert Less(keys[s[i]], keys[s[j]]);
    }
  }

  /** There is only one listing: "the order of the rows" is a function of the rows. */
  lemma {:induction false} ListingUnique(s: seq<Id>, t: seq<Id>, keys: map<Id, Key>)
    requires Keyed(keys) && IsListing(s, keys) && IsListing(t, keys)
    ensures s == t
    decreases |s|
  {
    if s == [] {
      assert keys == map[];
    } else {
      assert s[0] in keys;
      HeadsAgree(s, t, keys);
      var rest := keys - {s[0]};
      TailIsListing(s, keys);
      TailIsListing(t, keys);
      ListingUnique(s[1..], t[1..], rest);
      assert s == [s[0]] + s[1..] && t == [t[0]] + t[1..];
    }
  }

  lemma HeadsAgree(s: seq<Id>, t: seq<Id>, keys: map<Id, Key>)
    requires IsListing(s, keys) && IsListing(t, keys) && s != []
    ensures t != [] && s[0] == t[0]
  {
    assert s[0] in t;
    var i :| 0 <= i < |t| && t[i] == s[0];
    assert t[0] in s;
    var j :| 0 <= j < |s| && s[j] == t[0];
    assert i == 0 || Less(keys[t[0]], keys[t[i]]);
    assert j == 0 || Less(keys[s[0]], keys[s[j]]);
  }

  lemma TailIsListing(s: seq<Id>, keys: map<Id, Key>)
    requires IsListing(s, keys) && s != []
    ensures IsListing(s[1..], keys - {s[0]})
  {
    ListingHasNoDuplicates(s, keys);
    var rest := keys - {s[0]};
    forall i | 0 <= i < |s[1..]| ensures s[1..][i] in rest {
      assert s[1..][i] == s[i + 1];
    }
    forall x | x in rest ensures x in s[1..] {
      var i :| 0 <= i < |s| && s[i] == x;
      assert s[1..][i - 1] == x;
    }
  }

  /** A nonempty set of rows has a first one. */
  lemma {:induction false} FirstExists(keys: map<Id, Key>, ids: set<Id>)
    requires Keyed(keys) && ids <= keys.Keys && ids != {}
    ensures exists x :: x in ids && forall y :: y in ids && y != x ==> Less(keys[x], keys[y])
    decreases |ids|
  {
    var x :| x in ids;
    var others := ids - {x};
    if others != {} {
      FirstExists(keys, others);
      var m :| m in others && forall y :: y in others && y != m ==> Less(keys[m], keys[y]);
      if Less(keys[x], keys[m]) {
        assert forall y :: y in ids && y != x ==> Less(keys[x], keys[y]);
      } else {
        assert forall y :: y in ids && y != m ==> Less(keys[m], keys[y]);
      }
    } else {
      assert ids == {x};
      assert forall y :: y in ids && y != x ==> Less(keys[x], keys[y]);
    }
  }

  lemma ConsIsListing(x: Id, t: seq<Id>, keys: map<Id, Key>)
    requires x in keys && IsListing(t, keys - {x})
    requires forall y :: y in keys && y != x ==> Less(keys[x], keys[y])
    ensures IsListing([x] + t, keys)
  {
    var s := [x] + t;
    forall y | y in keys ensures y in s {
      if y != x { assert y in keys - {x}; }
    }
    forall i | 0 <= i < |t| ensures t[i] in keys && Less(keys[x], keys[t[i]]) {
      assert t[i] in keys - {x};
    }
    assert forall i :: 1 <= i < |s| ==> s[i] == t[i - 1];
    hide Less;
    forall i, j | 0 <= i < j < |s| ensures Less(keys[s[i]], keys[s[j]]) {
      if i > 0 { assert Less((keys - {x})[t[i - 1]], (keys - {x})[t[j - 1]]); }
    }
  }

  lemma {:induction false} ListingExists(keys: map<Id, Key>) returns (s: seq<Id>)
    requires Keyed(keys)
    ensures IsListing(s, keys)
    decreases |keys|
  {
    if keys == map[] {
      s := [];
    } else {
      assert keys.Keys != {};
      FirstExists(keys, keys.Keys);
      var x :| x in keys.Keys && forall y :: y in keys.Keys && y != x ==> Less(keys[x], keys[y]);
      assert |keys - {x}| < |keys| by { assert (keys - {x}).Keys == keys.Keys - {x}; }
      var t := ListingExists(keys - {x});
      ConsIsListing(x, t, keys);
      s := [x] + t;
    }
  }

  /** `SELECT id ... ORDER BY position, id`. */
  ghost function OrderBy(keys: map<Id, Key>): (s: seq<Id>)
    requires Keyed(keys)
    ensures IsListing(s, keys)
  {
    assert exists s :: IsListing(s, keys) by { var s := ListingExists(keys); }
    var s :| IsListing(s, keys);
    s
  }

  // ------------------------------------------------------------------ lists

  lemma {:induction false} FirstIndexExists(s: seq<Id>, x: Id)
    requires x in s
    ensures exists k :: 0 <= k < |s| && s[k] == x && x !in s[..k]
  {
    if s[0] == x {
      assert x !in s[..0];
    } else {
      FirstIndexExists(s[1..], x);
      var k :| 0 <= k < |s[1..]| && s[1..][k] == x && x !in s[1..][..k];
      assert s[..k + 1] == [s[0]] + s[1..][..k];
      assert s[k + 1] == x;
    }
  }

  /** The first position of `x`, or the length when it is absent. */
  function IndexOf(s: seq<Id>, x: Id): (k: nat)
    ensures k <= |s|
    ensures k < |s| <==> x in s
    ensures k < |s| ==> s[k] == x
    ensures x !in s[..k]
  {
    if x !in s then |s|
    else
      FirstIndexExists(s, x);
      var k: nat :| k < |s| && s[k] == x && x !in s[..k];
      k
  }

  /** The list with one row lifted out. */
  function Without(s: seq<Id>, x: Id): seq<Id> {
    if x in s then s[..IndexOf(s, x)] + s[IndexOf(s, x) + 1..] else s
  }

  lemma ListingDrop(s: seq<Id>, keys: map<Id, Key>, k: nat)
    requires IsListing(s, keys) && k < |s|
    ensures IsListing(s[..k] + s[k + 1..], keys - {s[k]})
  {
    ListingHasNoDuplicates(s, keys);
    var r, rest := s[..k] + s[k + 1..], keys - {s[k]};
    assert forall i :: 0 <= i < |r| ==> r[i] == s[if i < k then i else i + 1];
    forall y | y in rest ensures y in r {
      var i :| 0 <= i < |s| && s[i] == y;
      assert r[if i < k then i else i - 1] == y;
    }
    forall i | 0 <= i < |r| ensures r[i] in rest {
      assert r[i] == s[if i < k then i else i + 1];
    }
    forall i, j | 0 <= i < j < |r| ensures Less(rest[r[i]], rest[r[j]]) {
      assert r[i] == s[if i < k then i else i + 1] && r[j] == s[if j < k then j else j + 1];
    }
  }

  /** Lifting a row out of a listing leaves the listing of the other rows. */
  lemma ListingWithout(s: seq<Id>, keys: map<Id, Key>, x: Id)
    requires IsListing(s, keys)
    ensures IsListing(Without(s, x), keys - {x})
  {
    ListingHasNoDuplicates(s, keys);
    if x in s {
      ListingDrop(s, keys, IndexOf(s, x));
    } else {
      assert keys - {x} == keys;
    }
  }

  /** Placing a new row between two neighbours of a listing gives a listing. */
  lemma ListingInsert(s: seq<Id>, keys: map<Id, Key>, at: nat, x: Id, key: Key)
    requires IsListing(s, keys) && at <= |s| && x !in keys
    requires forall i :: 0 <= i < at ==> Less(keys[s[i]], key)
    requires forall i :: at <= i < |s| ==> Less(key, keys[s[i]])
    ensures IsListing(s[..at] + [x] + s[at..], keys[x := key])
  {
    var r, more := s[..at] + [x] + s[at..], keys[x := key];
    assert forall i :: 0 <= i < |r| ==> r[i] == if i < at then s[i] else if i == at then x else s[i - 1];
    forall y | y in more ensures y in r {
      if y == x {
        assert r[at] == x;
      } else {
        var i :| 0 <= i < |s| && s[i] == y;
        assert r[if i < at then i else i + 1] == y;
      }
    }
  }

  /** Re-ranking rows without changing how any two of them compare keeps the order. */
  lemma ListingRekeyed(s: seq<Id>, keys: map<Id, Key>, more: map<Id, Key>)
    requires IsListing(s, keys) && more.Keys == keys.Keys
    requires forall x, y :: x in keys && y in keys && Less(keys[x], keys[y]) ==> Less(more[x], more[y])
    ensures IsListing(s, more)
  {
  }

  // ---------------------------------------------------------------- anchors

  /** Where a row lands when it is put after `anchor`: the position in the list. */
  lemma ListingSplit(s: seq<Id>, keys: map<Id, Key>, a: Id)
    requires IsListing(s, keys) && a in keys
    ensures IndexOf(s, a) < |s|
    ensures forall i :: 0 <= i < IndexOf(s, a) ==> Less(keys[s[i]], keys[a])
    ensures forall i :: IndexOf(s, a) < i < |s| ==> Less(keys[a], keys[s[i]])
  {
  }
}
