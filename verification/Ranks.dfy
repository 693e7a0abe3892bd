/**
 * Fractional ranks as PostgreSQL `numeric` holds them: a value and a number of
 * decimal places. Addition keeps the larger scale, multiplication adds scales,
 * and neither rounds.
 */
module Ranks {
  import opened Wrappers

  datatype Rank = Rank(value: real, scale: nat)

  /** Decimal places beyond which a move asks for its list to be renumbered. */
  const RebalanceScale: nat := 100

  function Pow10(n: nat): (p: int)
    ensures p >= 1
  {
    if n == 0 then 1 else 10 * Pow10(n - 1)
  }

  /** The value really has `scale` decimal places: storing it loses nothing. */
  ghost predicate Exact(r: Rank) {
    exists k: int :: HasMantissa(r, k)
  }

  ghost predicate HasMantissa(r: Rank, k: int) {
    r.value * Pow10(r.scale) as real == k as real
  }

  function Whole(n: int): (r: Rank)
    ensures r.scale == 0 && Exact(r)
  {
    var r := Rank(n as real, 0);
    assert HasMantissa(r, n) by { assert Pow10(0) as real == 1.0; }
    r
  }

  lemma ShiftIsExact(r: Rank, n: int)
    requires Exact(r)
    ensures Exact(Rank(r.value + n as real, r.scale))
  {
    var k :| HasMantissa(r, k);
    var p := Pow10(r.scale);
    assert (r.value + n as real) * p as real == k as real + (n * p) as real;
    assert HasMantissa(Rank(r.value + n as real, r.scale), k + n * p);
  }

  lemma {:induction false} WidenIsExact(r: Rank, scale: nat)
    requires Exact(r) && r.scale <= scale
    ensures Exact(Rank(r.value, scale))
    decreases scale - r.scale
  {
    if r.scale < scale {
      var k :| HasMantissa(r, k);
      var wider := Rank(r.value, r.scale + 1);
      assert wider.value * Pow10(wider.scale) as real == 10.0 * (r.value * Pow10(r.scale) as real);
      assert HasMantissa(wider, 10 * k);
      WidenIsExact(wider, scale);
    }
  }

  function Max(a: nat, b: nat): nat { if a < b then b else a }

  function Before(upper: Rank): Rank { Rank(upper.value - 1.0, upper.scale) }

  function After(lower: Rank): Rank { Rank(lower.value + 1.0, lower.scale) }

  /** `(lower + upper) * 0.5`. */
  function Midpoint(lower: Rank, upper: Rank): Rank {
    Rank((lower.value + upper.value) * 0.5, Max(lower.scale, upper.scale) + 1)
  }

  /** The rank between two neighbours, either of which may be missing. */
  function Between(lower: Option<Rank>, upper: Option<Rank>): Rank {
    match (lower, upper)
    case (None, None) => Whole(1)
    case (None, Some(u)) => Before(u)
    case (Some(l), None) => After(l)
    case (Some(l), Some(u)) => Midpoint(l, u)
  }

  ghost predicate Precise(r: Option<Rank>, scale: nat) {
    r.Some? ==> Exact(r.value) && r.value.scale <= scale
  }

  /** The allocated rank lies strictly inside the gap. */
  lemma BetweenSeparates(lower: Option<Rank>, upper: Option<Rank>)
    requires lower.Some? && upper.Some? ==> lower.value.value < upper.value.value
    ensures lower.Some? ==> lower.value.value < Between(lower, upper).value
    ensures upper.Some? ==> Between(lower, upper).value < upper.value.value
  {
  }

  /** It is exact, and costs at most one more decimal place than its neighbours have. */
  lemma BetweenIsPrecise(lower: Option<Rank>, upper: Option<Rank>, scale: nat)
    requires Precise(lower, scale) && Precise(upper, scale)
    ensures Precise(Some(Between(lower, upper)), scale + 1)
  {
    match (lower, upper)
    case (None, None) =>
    case (None, Some(u)) => ShiftIsExact(u, -1);
    case (Some(l), None) => ShiftIsExact(l, 1);
    case (Some(l), Some(u)) => MidpointIsExact(l, u);
  }

  lemma MidpointIsExact(l: Rank, u: Rank)
    requires Exact(l) && Exact(u)
    ensures Exact(Midpoint(l, u))
  {
    var m := Max(l.scale, u.scale);
    WidenIsExact(l, m);
    WidenIsExact(u, m);
    var i :| HasMantissa(Rank(l.value, m), i);
    var j :| HasMantissa(Rank(u.value, m), j);
    var r := Midpoint(l, u);
    assert Pow10(r.scale) == 10 * Pow10(m);
    assert r.value * Pow10(r.scale) as real == 5.0 * (l.value * Pow10(m) as real) + 5.0 * (u.value * Pow10(m) as real);
    assert HasMantissa(r, 5 * i + 5 * j);
  }
}
