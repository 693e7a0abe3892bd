/** The server's own call: one endpoint, at most one refresh, at most one retry. */
module AuthenticatedCall {
  import opened Wrappers

  /** An access token is the text of a cookie: absent and empty both mean there is none. */
  type AccessToken = string
  type RefreshToken = nat

  datatype Answer = Ok | Unauthorized | OtherFailure

  datatype Refresh = Refreshed(access: AccessToken, refresh: RefreshToken) | Rejected | Unreachable

  datatype Options = Options(access: Option<AccessToken>, refresh: Option<RefreshToken>, stores: bool)

  /** Everything the call did, in order. */
  datatype Event = Sent(access: AccessToken) | Spent(refresh: RefreshToken) | Stored(access: AccessToken, refresh: RefreshToken) | SignedOut

  /** What the API answers, by the access token sent, and what it makes of the refresh token. */
  datatype Api = Api(first: Answer, second: Answer, refresh: Refresh)

  predicate Usable(access: Option<AccessToken>) {
    access.Some? && access.value != ""
  }

  predicate CanRefresh(o: Options) {
    o.stores && o.refresh.Some?
  }

  /** What a refresh does, when this call is allowed its one. */
  function Refreshing(o: Options, api: Api): seq<Event>
    requires CanRefresh(o)
  {
    match api.refresh
    case Refreshed(a, r) => [Spent(o.refresh.value), Stored(a, r)]
    case Rejected => [Spent(o.refresh.value), SignedOut]
    case Unreachable => [Spent(o.refresh.value)]
  }

  /** The events and the answer of a whole call. */
  function Outcome(o: Options, api: Api): (seq<Event>, Answer) {
    if !Usable(o.access) then
      if !CanRefresh(o) then ([], Unauthorized)
      else if !api.refresh.Refreshed? || api.refresh.access == "" then (Refreshing(o, api), Unauthorized)
      else (Refreshing(o, api) + [Sent(api.refresh.access)], api.first)
    else if api.first != Unauthorized || !CanRefresh(o) then ([Sent(o.access.value)], api.first)
    else if !api.refresh.Refreshed? then ([Sent(o.access.value)] + Refreshing(o, api), Unauthorized)
    else ([Sent(o.access.value)] + Refreshing(o, api) + [Sent(api.refresh.access)], api.second)
  }

  class Caller {
    const options: Options
    const api: Api
    var spentRefreshToken: bool
    var sends: nat
    var events: seq<Event>

    constructor (options: Options, api: Api)
      ensures this.options == options && this.api == api
      ensures !spentRefreshToken && sends == 0 && events == []
    {
      this.options, this.api := options, api;
      spentRefreshToken, sends, events := false, 0, [];
    }

    method Send(access: AccessToken) returns (answer: Answer)
      modifies this`sends, this`events
      ensures sends == old(sends) + 1 && events == old(events) + [Sent(access)]
      ensures answer == if old(sends) == 0 then api.first else api.second
    {
      answer := if sends == 0 then api.first else api.second;
      sends := sends + 1;
      events := events + [Sent(access)];
    }

    /** The one refresh a call gets; a second asking gets nothing and does nothing. */
    method RefreshOnce() returns (access: Option<AccessToken>)
      requires !spentRefreshToken ==> CanRefresh(options)
      modifies this`spentRefreshToken, this`events
      ensures spentRefreshToken
      ensures access == if !old(spentRefreshToken) && api.refresh.Refreshed? then Some(api.refresh.access) else None
      ensures events == old(events) + if old(spentRefreshToken) then [] else Refreshing(options, api)
    {
      if spentRefreshToken { return None; }
      spentRefreshToken := true;
      events := events + [Spent(options.refresh.value)];
      match api.refresh {
        case Refreshed(a, r) =>
          events := events + [Stored(a, r)];
          return Some(a);
        case Rejected =>
          events := events + [SignedOut];
          return None;
        case Unreachable => return None;
      }
    }

    method Call() returns (answer: Answer)
      requires !spentRefreshToken && sends == 0 && events == []
      modifies this
      ensures events == Outcome(options, api).0 && answer == Outcome(options, api).1
    {
      var canRefresh := options.stores && options.refresh.Some?;
      var access := options.access;
      if !Usable(access) && canRefresh {
        var refreshed := RefreshOnce();
        if refreshed.None? { return Unauthorized; }
        access := refreshed;
      }
      if !Usable(access) { return Unauthorized; }
      var first := Send(access.value);
      if first != Unauthorized || !canRefresh { return first; }
      var rotated := RefreshOnce();
      if rotated.None? { return first; }
      answer := Send(rotated.value);
    }
  }

  /**
   * On every path the refresh token is spent at most once, and only by a caller
   * that can store what it gets; at most two requests are sent, a second only
   * after a 401 and with the token the one refresh obtained; and the session is
   * signed out exactly when the refresh was spent and rejected.
   */
  lemma SpentAtMostOnce(o: Options, api: Api)
    ensures var (events, answer) := Outcome(o, api);
            && (forall i, j :: 0 <= i < j < |events| ==> !(events[i].Spent? && events[j].Spent?))
            && (forall e :: e in events && e.Spent? ==> CanRefresh(o) && e.refresh == o.refresh.value)
            && (forall i, j, k :: 0 <= i < j < k < |events| ==> !(events[i].Sent? && events[j].Sent? && events[k].Sent?))
            && (forall i, j :: 0 <= i < j < |events| && events[i].Sent? && events[j].Sent? ==>
                  && api.first == Unauthorized && answer == api.second
                  && Some(events[i].access) == o.access
                  && api.refresh.Refreshed? && events[j].access == api.refresh.access)
            && (SignedOut in events <==> api.refresh.Rejected? && exists e :: e in events && e.Spent?)
            && (answer != Unauthorized ==> exists e :: e in events && e.Sent?)
  {
    var (events, answer) := Outcome(o, api);
    assert |events| <= 4;
    if answer != Unauthorized {
      assert events[0] in events && events[|events| - 1] in events;
      assert events[0].Sent? || events[|events| - 1].Sent?;
    }
    if api.refresh.Rejected? && SignedOut in events {
      assert Spent(o.refresh.value) in events;
    }
  }

  /**
   * What a call does on each path, event by event: with no access token it
   * refreshes first if it may; a 401 is recovered from by one refresh and one
   * retry; a refresh that brings nothing leaves the 401.
   */
  lemma EveryPath(o: Options, api: Api, token: AccessToken, spent: RefreshToken)
    requires o.access.Some? ==> o.access.value == token
    requires o.refresh.Some? ==> o.refresh.value == spent
    ensures var signedIn, mayRefresh := o.access.Some? && token != "", o.stores && o.refresh.Some?;
            // A usable token, and no 401 or no way to recover from it.
            && (signedIn && (api.first != Unauthorized || !mayRefresh) ==> Outcome(o, api) == ([Sent(token)], api.first))
            // A 401 recovered from: spent, stored, sent again.
            && (forall a, r :: signedIn && api.first == Unauthorized && mayRefresh && api.refresh == Refreshed(a, r) ==>
                  Outcome(o, api) == ([Sent(token), Spent(spent), Stored(a, r), Sent(a)], api.second))
            && (signedIn && api.first == Unauthorized && mayRefresh && api.refresh == Rejected ==>
                  Outcome(o, api) == ([Sent(token), Spent(spent), SignedOut], Unauthorized))
            && (signedIn && api.first == Unauthorized && mayRefresh && api.refresh == Unreachable ==>
                  Outcome(o, api) == ([Sent(token), Spent(spent)], Unauthorized))
            // No usable token: refreshed up front, or a 401 without asking.
            && (!signedIn && !mayRefresh ==> Outcome(o, api) == ([], Unauthorized))
            && (forall a, r :: !signedIn && mayRefresh && api.refresh == Refreshed(a, r) && a != "" ==>
                  Outcome(o, api) == ([Spent(spent), Stored(a, r), Sent(a)], api.first))
            && (forall r :: !signedIn && mayRefresh && api.refresh == Refreshed("", r) ==>
                  Outcome(o, api) == ([Spent(spent), Stored("", r)], Unauthorized))
            && (!signedIn && mayRefresh && api.refresh == Rejected ==> Outcome(o, api) == ([Spent(spent), SignedOut], Unauthorized))
            && (!signedIn && mayRefresh && api.refresh == Unreachable ==> Outcome(o, api) == ([Spent(spent)], Unauthorized))
  {
    match api.refresh
    case Refreshed(a, r) =>
      assert [Sent(token)] + [Spent(spent), Stored(a, r)] + [Sent(a)] == [Sent(token), Spent(spent), Stored(a, r), Sent(a)];
      assert [Spent(spent), Stored(a, r)] + [Sent(a)] == [Spent(spent), Stored(a, r), Sent(a)];
    case Rejected => assert [Sent(token)] + [Spent(spent), SignedOut] == [Sent(token), Spent(spent), SignedOut];
    case Unreachable => assert [Sent(token)] + [Spent(spent)] == [Sent(token), Spent(spent)];
  }
}
