/**
 * The maintenance loop of one connection: keepalive, re-authorization and the
 * token deadline on one goroutine, and how late the deadline can be.
 */
module Maintain {
  import opened Wrappers
  import opened Rooms
  import opened Connection

  type Time = nat

  datatype Verdict = Yes | Forbidden | Unavailable

  /** One bounded call to the authorizer. */
  datatype Authorization = Authorization(verdict: Verdict, took: Time)

  datatype Config = Config(pongTimeout: Time, authorizeTimeout: Time, maxRooms: nat)

  predicate Bounded(cfg: Config, a: Authorization) {
    a.took <= cfg.authorizeTimeout
  }

  // ---------------------------------------------------------- re-authorization

  /** The rooms a sweep takes away: those the authorizer refused, not those it could not answer for. */
  function Revoked(rooms: seq<Room>, boards: seq<Authorization>): (r: seq<Room>)
    requires |boards| == |rooms|
  {
    if rooms == [] then []
    else
      var last := |rooms| - 1;
      Revoked(rooms[..last], boards[..last]) + if boards[last].verdict.Forbidden? then [rooms[last]] else []
  }

  function TimeOf(boards: seq<Authorization>): Time {
    if boards == [] then 0 else TimeOf(boards[..|boards| - 1]) + boards[|boards| - 1].took
  }

  lemma {:induction false} RevokedExactly(rooms: seq<Room>, boards: seq<Authorization>, room: Room)
    requires |boards| == |rooms|
    ensures room in Revoked(rooms, boards) <==> exists i :: 0 <= i < |rooms| && rooms[i] == room && boards[i].verdict.Forbidden?
  {
    if rooms != [] {
      var last := |rooms| - 1;
      RevokedExactly(rooms[..last], boards[..last], room);
      if room in Revoked(rooms[..last], boards[..last]) {
        var i :| 0 <= i < last && rooms[..last][i] == room && boards[..last][i].verdict.Forbidden?;
        assert rooms[i] == room && boards[i].verdict.Forbidden?;
      }
    }
  }

  lemma {:induction false} SweepIsBounded(cfg: Config, boards: seq<Authorization>)
    requires forall i :: 0 <= i < |boards| ==> Bounded(cfg, boards[i])
    ensures TimeOf(boards) <= |boards| * cfg.authorizeTimeout
  {
    if boards != [] {
      SweepIsBounded(cfg, boards[..|boards| - 1]);
      assert Bounded(cfg, boards[|boards| - 1]);
    }
  }

  /** One sweep: the membership first, then every board held; only a refusal ends anything. */
  method Reauthorize(rooms: seq<Room>, tenant: Authorization, boards: seq<Authorization>)
    returns (stay: bool, left: seq<Room>, took: Time)
    requires |boards| == |rooms|
    ensures stay == !tenant.verdict.Forbidden?
    ensures left == if tenant.verdict.Yes? then Revoked(rooms, boards) else []
    ensures took == tenant.took + if tenant.verdict.Yes? then TimeOf(boards) else 0
  {
    stay, left, took := true, [], tenant.took;
    if !tenant.verdict.Yes? {
      stay := !tenant.verdict.Forbidden?;
      return;
    }
    for i := 0 to |rooms|
      invariant stay && left == Revoked(rooms[..i], boards[..i]) && took == tenant.took + TimeOf(boards[..i])
    {
      assert rooms[..i + 1][..i] == rooms[..i] && boards[..i + 1][..i] == boards[..i];
      took := took + boards[i].took;
      if boards[i].verdict.Forbidden? { left := left + [rooms[i]]; }
    }
    assert rooms[..|rooms|] == rooms && boards[..|boards|] == boards;
  }

  // ------------------------------------------------------------------ the loop

  /** What the select returned, and when; and what the case it picked took. */
  datatype Pick =
    | Cancelled(at: Time)
    | ClosedElsewhere(at: Time)
    | Expiry(at: Time)
    | Ping(at: Time, took: Time, pong: bool)
    | Sweep(at: Time, rooms: seq<Room>, tenant: Authorization, boards: seq<Authorization>)

  /** The deadline's timer is ready from `expires` on, so the select never blocks past it. */
  predicate Possible(cfg: Config, expires: Time, now: Time, pick: Pick) {
    && now <= pick.at && (pick.at <= now || pick.at <= expires)
    && match pick
       case Expiry(at) => expires <= at
       case Ping(_, took, _) => took <= cfg.pongTimeout
       case Sweep(_, rooms, tenant, boards) =>
         && |boards| == |rooms| && |rooms| <= cfg.maxRooms && Bounded(cfg, tenant)
         && (forall i :: 0 <= i < |boards| ==> Bounded(cfg, boards[i]))
       case _ => true
  }

  /**
   * The select returns at some time from now until the deadline, or at once if
   * that has passed, and may be told to stop at any of them; the deadline is picked
   * only once it has come.
   */
  lemma SelectExactly(cfg: Config, expires: Time, now: Time, at: Time)
    ensures var inTime := now <= at && (at <= expires || at == now);
            && (Possible(cfg, expires, now, Cancelled(at)) <==> inTime)
            && (Possible(cfg, expires, now, ClosedElsewhere(at)) <==> inTime)
            && (Possible(cfg, expires, now, Expiry(at)) <==> inTime && at >= expires)
            && (forall took: Time, pong :: Possible(cfg, expires, now, Ping(at, took, pong)) <==> inTime && took <= cfg.pongTimeout)
  {
  }

  function SweepTime(pick: Pick): Time
    requires pick.Sweep?
  {
    pick.tenant.took + if pick.tenant.verdict.Yes? then TimeOf(pick.boards) else 0
  }

  /** Where the loop is: running at a time, ended for a reason of its own, or told to stop. */
  datatype Loop = Running(now: Time) | Closing(now: Time, status: Status) | Stopped(now: Time)

  function Next(expires: Time, now: Time, pick: Pick): Loop {
    match pick
    case Cancelled(at) => Stopped(at)
    case ClosedElsewhere(at) => Stopped(at)
    case Expiry(at) => Closing(at, TokenExpired)
    case Ping(at, took, pong) => if pong then Running(at + took) else Closing(at + took, GoingAway)
    case Sweep(at, _, tenant, _) =>
      if tenant.verdict.Forbidden? then Closing(at + SweepTime(pick), MembershipRevoked) else Running(at + SweepTime(pick))
  }

  /** The check at the top of the loop, then the select, for as long as picks are given. */
  function Run(cfg: Config, expires: Time, loop: Loop, picks: seq<Pick>): Loop
    decreases |picks|
  {
    if !loop.Running? then loop
    else if loop.now > expires then Closing(loop.now, TokenExpired)
    else if picks == [] || !Possible(cfg, expires, loop.now, picks[0]) then loop
    else Run(cfg, expires, Next(expires, loop.now, picks[0]), picks[1..])
  }

  function Larger(a: Time, b: Time): Time {
    if a >= b then a else b
  }

  /** The longest thing the loop can be in the middle of when the token expires. */
  function Overrun(cfg: Config): Time {
    Larger(cfg.pongTimeout, (1 + cfg.maxRooms) * cfg.authorizeTimeout)
  }

  lemma SweepWithinOverrun(cfg: Config, expires: Time, now: Time, pick: Pick)
    requires pick.Sweep? && Possible(cfg, expires, now, pick)
    ensures SweepTime(pick) <= (1 + cfg.maxRooms) * cfg.authorizeTimeout
  {
    SweepIsBounded(cfg, pick.boards);
    Scale(|pick.boards|, cfg.maxRooms, cfg.authorizeTimeout);
    assert (1 + cfg.maxRooms) * cfg.authorizeTimeout == cfg.authorizeTimeout + cfg.maxRooms * cfg.authorizeTimeout;
  }

  lemma Scale(a: nat, b: nat, c: nat)
    requires a <= b
    ensures a * c <= b * c
  {
  }

  /**
   * Bounded overrun: whichever ready timer the select picks, and whatever the
   * pings and the authorizer do within their timeouts, the loop has ended no
   * later than the token's expiry plus the longer of one pong timeout and one
   * full sweep; while it runs, its last check was at or before the expiry.
   */
  lemma {:induction false} OverrunIsBounded(cfg: Config, expires: Time, loop: Loop, picks: seq<Pick>)
    requires loop.now <= expires + Overrun(cfg)
    ensures var end := Run(cfg, expires, loop, picks);
            && end.now <= expires + Overrun(cfg)
            && (end.Running? ==> end.now <= expires)
            && (loop.Running? && end.Closing? && end.status.TokenExpired? ==> end.now >= expires)
    decreases |picks|
  {
    if loop.Running? && loop.now <= expires && picks != [] && Possible(cfg, expires, loop.now, picks[0]) {
      if picks[0].Sweep? { SweepWithinOverrun(cfg, expires, loop.now, picks[0]); }
      hide Overrun, Possible;
      OverrunStep(cfg, expires, loop.now, picks[0]);
      OverrunIsBounded(cfg, expires, Next(expires, loop.now, picks[0]), picks[1..]);
    }
  }

  lemma OverrunStep(cfg: Config, expires: Time, now: Time, pick: Pick)
    requires now <= expires && Possible(cfg, expires, now, pick)
    requires pick.Sweep? ==> SweepTime(pick) <= (1 + cfg.maxRooms) * cfg.authorizeTimeout
    ensures Next(expires, now, pick).now <= expires + Overrun(cfg)
    ensures Next(expires, now, pick).Closing? && Next(expires, now, pick).status.TokenExpired? ==> Next(expires, now, pick).now >= expires
  {
  }

  function Slowest(cfg: Config, n: nat): seq<Authorization> {
    if n == 0 then [] else Slowest(cfg, n - 1) + [Authorization(Yes, cfg.authorizeTimeout)]
  }

  lemma {:induction false} SlowestTakes(cfg: Config, n: nat)
    ensures |Slowest(cfg, n)| == n && TimeOf(Slowest(cfg, n)) == n * cfg.authorizeTimeout
    ensures forall i :: 0 <= i < n ==> Bounded(cfg, Slowest(cfg, n)[i])
  {
    if n != 0 {
      SlowestTakes(cfg, n - 1);
      assert Slowest(cfg, n)[..n - 1] == Slowest(cfg, n - 1);
    }
  }

  /** The slowest case a select can pick at the very expiry: a ping, or a full sweep of an authorizer that does answer. */
  function SlowestPick(cfg: Config, expires: Time, room: Room): Pick {
    if Overrun(cfg) == cfg.pongTimeout then Ping(expires, cfg.pongTimeout, true)
    else Sweep(expires, seq(cfg.maxRooms, _ => room), Authorization(Yes, cfg.authorizeTimeout), Slowest(cfg, cfg.maxRooms))
  }

  lemma SlowestPickTakesItAll(cfg: Config, expires: Time, room: Room)
    ensures var pick := SlowestPick(cfg, expires, room);
            Possible(cfg, expires, expires, pick) && Next(expires, expires, pick) == Running(expires + Overrun(cfg))
  {
    SlowestTakes(cfg, cfg.maxRooms);
    var boards := Slowest(cfg, cfg.maxRooms);
    hide Slowest, TimeOf;
    assert (1 + cfg.maxRooms) * cfg.authorizeTimeout == cfg.authorizeTimeout + cfg.maxRooms * cfg.authorizeTimeout;
    if Overrun(cfg) != cfg.pongTimeout {
      var pick := SlowestPick(cfg, expires, room);
      assert SweepTime(pick) == cfg.authorizeTimeout + TimeOf(boards);
    }
  }

  /** The bound is met. */
  lemma OverrunIsReached(cfg: Config, expires: Time, room: Room)
    requires Overrun(cfg) > 0
    ensures Run(cfg, expires, Running(expires), [SlowestPick(cfg, expires, room)]) == Closing(expires + Overrun(cfg), TokenExpired)
  {
    SlowestPickTakesItAll(cfg, expires, room);
    hide Possible, Next, Overrun, SlowestPick;
    assert [SlowestPick(cfg, expires, room)][1..] == [];
  }

  /** The loop as it runs. */
  method MaintainLoop(cfg: Config, expires: Time, start: Time, picks: seq<Pick>) returns (end: Loop)
    ensures end == Run(cfg, expires, Running(start), picks)
  {
    end := Running(start);
    var i := 0;
    while true
      invariant 0 <= i <= |picks| && end.Running?
      invariant Run(cfg, expires, Running(start), picks) == Run(cfg, expires, end, picks[i..])
      decreases |picks| - i
    {
      if end.now > expires { return Closing(end.now, TokenExpired); }
      if i == |picks| || !Possible(cfg, expires, end.now, picks[i]) { return; }
      assert picks[i..][0] == picks[i] && picks[i..][1..] == picks[i + 1..];
      match picks[i] {
        case Cancelled(at) => return Stopped(at);
        case ClosedElsewhere(at) => return Stopped(at);
        case Expiry(at) => return Closing(at, TokenExpired);
        case Ping(at, took, pong) =>
          if !pong { return Closing(at + took, GoingAway); }
          end := Running(at + took);
        case Sweep(at, rooms, tenant, boards) =>
          var stay, _, took := Reauthorize(rooms, tenant, boards);
          if !stay { return Closing(at + took, MembershipRevoked); }
          end := Running(at + took);
      }
      i := i + 1;
    }
  }
}
