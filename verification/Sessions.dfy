/**
 * Refresh tokens over the expiring store: one record per token ever minted, one
 * pointer per session naming the record that still counts.
 */
module Sessions {
  import opened Wrappers
  import opened KeyValue

  datatype Refusal = Unknown | Reused | StoreRefused

  /** A record for every token, a pointer for every session. */
  ghost predicate WellTyped(s: Entries) {
    && (forall t :: RefreshKey(t) in s ==> s[RefreshKey(t)].value.Record?)
    && (forall id :: SessionKey(id) in s ==> s[SessionKey(id)].value.Pointer? && s[SessionKey(id)].value.key.RefreshKey?)
  }

  function Minted(s: Entries, session: Session, token: Token, ttl: Time, now: Time): (r: Entries)
    ensures WellTyped(s) ==> WellTyped(r)
  {
    Put(Put(s, RefreshKey(token), Record(session), ttl, now), SessionKey(session.id), Pointer(RefreshKey(token)), ttl, now)
  }

  function SessionRevoked(s: Entries, id: SessionId, now: Time): (r: Entries)
    requires WellTyped(s)
    ensures WellTyped(r)
  {
    if Live(s, SessionKey(id), now) then s - {s[SessionKey(id)].value.key, SessionKey(id)} else s
  }

  /** What a lookup answers for a token. */
  function Found(s: Entries, token: Token, now: Time): Result<Session, Refusal>
    requires WellTyped(s)
  {
    if !Live(s, RefreshKey(token), now) then Failure(Unknown)
    else
      var session := s[RefreshKey(token)].value.session;
      if !Live(s, SessionKey(session.id), now) then Failure(Unknown)
      else if s[SessionKey(session.id)].value.key != RefreshKey(token) then Failure(Reused)
      else Success(session)
  }

  /** What a lookup leaves: a replay ends the session, and forgets the token presented. */
  function AfterLookup(s: Entries, token: Token, now: Time): (r: Entries)
    requires WellTyped(s)
    ensures WellTyped(r)
  {
    if Found(s, token, now) == Failure(Reused) then
      SessionRevoked(s, s[RefreshKey(token)].value.session.id, now) - {RefreshKey(token)}
    else s
  }

  function Rotated(s: Entries, token: Token, next: Token, ttl: int, now: Time): (Entries, Result<Session, Refusal>)
    requires WellTyped(s)
  {
    match Found(s, token, now)
    case Failure(refusal) => (AfterLookup(s, token, now), Failure(refusal))
    case Success(session) => if ttl > 0 then (Minted(s, session, next, ttl, now), Success(session)) else (s, Failure(StoreRefused))
  }

  function Revoked(s: Entries, token: Token, now: Time): (r: Entries)
    requires WellTyped(s)
    ensures WellTyped(r)
  {
    match Found(s, token, now)
    case Failure(_) => AfterLookup(s, token, now)
    case Success(session) => s - {RefreshKey(token), SessionKey(session.id)}
  }

  class SessionStore {
    const kv: Store
    const ttl: int

    constructor (kv: Store, ttl: int)
      ensures this.kv == kv && this.ttl == ttl
    {
      this.kv, this.ttl := kv, ttl;
    }

    /** `next` is the token the generator draws. */
    method Mint(session: Session, next: Token, now: Time) returns (r: Result<Token, Refusal>)
      requires WellTyped(kv.entries)
      modifies kv
      ensures WellTyped(kv.entries)
      ensures if ttl > 0 then r == Success(next) && kv.entries == Minted(old(kv.entries), session, next, ttl, now)
              else r == Failure(StoreRefused) && kv.entries == old(kv.entries)
    {
      var key := RefreshKey(next);
      var wrote := kv.Set(key, Record(session), ttl, now);
      if wrote.Failure? { return Failure(StoreRefused); }
      var pointed := kv.Set(SessionKey(session.id), Pointer(key), ttl, now);
      return Success(next);
    }

    method Issue(session: Session, next: Token, now: Time) returns (r: Result<Token, Refusal>)
      requires WellTyped(kv.entries)
      modifies kv
      ensures WellTyped(kv.entries)
      ensures if ttl > 0 then r == Success(next) && kv.entries == Minted(old(kv.entries), session.(issuedAt := now), next, ttl, now)
              else r == Failure(StoreRefused) && kv.entries == old(kv.entries)
    {
      r := Mint(session.(issuedAt := now), next, now);
    }

    method RevokeSession(id: SessionId, now: Time)
      requires WellTyped(kv.entries)
      modifies kv
      ensures WellTyped(kv.entries) && kv.entries == SessionRevoked(old(kv.entries), id, now)
    {
      var current := kv.Get(SessionKey(id), now);
      match current {
        case None =>
        case Some(pointer) =>
          var keys := [pointer.key, SessionKey(id)];
          assert Named(keys) == {pointer.key, SessionKey(id)};
          kv.Delete(keys);
      }
    }

    /** `raw` is absent when the client presented nothing. */
    method Lookup(raw: Option<Token>, now: Time) returns (r: Result<Session, Refusal>)
      requires WellTyped(kv.entries)
      modifies kv
      ensures WellTyped(kv.entries)
      ensures raw.None? ==> r == Failure(Unknown) && kv.entries == old(kv.entries)
      ensures raw.Some? ==> r == Found(old(kv.entries), raw.value, now) && kv.entries == AfterLookup(old(kv.entries), raw.value, now)
    {
      if raw.None? { return Failure(Unknown); }
      var key := RefreshKey(raw.value);
      var record := kv.Get(key, now);
      if record.None? { return Failure(Unknown); }
      var session := record.value.session;
      var current := kv.Get(SessionKey(session.id), now);
      if current.None? { return Failure(Unknown); }
      if current.value.key != key {
        RevokeSession(session.id, now);
        assert Named([key]) == {key};
        kv.Delete([key]);
        return Failure(Reused);
      }
      return Success(session);
    }

    method Rotate(raw: Option<Token>, next: Token, now: Time) returns (r: Result<Session, Refusal>)
      requires WellTyped(kv.entries)
      modifies kv
      ensures WellTyped(kv.entries)
      ensures raw.None? ==> r == Failure(Unknown) && kv.entries == old(kv.entries)
      ensures raw.Some? ==> (kv.entries, r) == Rotated(old(kv.entries), raw.value, next, ttl, now)
    {
      var session := Lookup(raw, now);
      if session.Failure? { return session; }
      var minted := Mint(session.value, next, now);
      if minted.Failure? { return Failure(minted.error); }
      return session;
    }

    /** An unknown or replayed token is not an error. */
    method Revoke(raw: Option<Token>, now: Time)
      requires WellTyped(kv.entries)
      modifies kv
      ensures WellTyped(kv.entries)
      ensures kv.entries == if raw.Some? then Revoked(old(kv.entries), raw.value, now) else old(kv.entries)
    {
      var session := Lookup(raw, now);
      if session.Failure? { return; }
      var keys := [RefreshKey(raw.value), SessionKey(session.value.id)];
      assert Named(keys) == {RefreshKey(raw.value), SessionKey(session.value.id)};
      kv.Delete(keys);
    }
  }

  /**
   * A refresh whose membership turns out to be gone rotates first and then ends
   * the session: neither the token presented nor its successor is good any more.
   */
  lemma RefreshWithoutMembership(s: Entries, token: Token, next: Token, ttl: Time, now: Time)
    requires WellTyped(s) && ttl > 0 && token != next && Found(s, token, now).Success?
    ensures var id := Found(s, token, now).value.id;
            var after := SessionRevoked(Rotated(s, token, next, ttl, now).0, id, now);
            !Found(after, token, now).Success? && !Found(after, next, now).Success? && !Live(after, SessionKey(id), now)
  {
  }

  // ----------------------------------------------------- the abstract machine

  /** A session has one current token; tokens it has moved on from are only remembered. */
  datatype Grant = Grant(session: Session, token: Token, expires: Time)

  datatype Spent = Spent(session: Session, expires: Time)

  datatype Machine = Machine(grants: map<SessionId, Grant>, spent: map<Token, Spent>)

  predicate Open(m: Machine, id: SessionId, now: Time) {
    id in m.grants && now < m.grants[id].expires
  }

  function Granted(m: Machine, session: Session, token: Token, expires: Time): Machine {
    Machine(
      m.grants[session.id := Grant(session, token, expires)],
      if session.id in m.grants then m.spent[m.grants[session.id].token := Spent(m.grants[session.id].session, m.grants[session.id].expires)]
      else m.spent)
  }

  function Ended(m: Machine, id: SessionId): Machine {
    m.(grants := m.grants - {id})
  }

  predicate Holds(m: Machine, id: SessionId, token: Token, now: Time) {
    Open(m, id, now) && m.grants[id].token == token
  }

  /** A spent token that has not expired, of a session that is still open. */
  predicate Replays(m: Machine, token: Token, now: Time) {
    token in m.spent && now < m.spent[token].expires && Open(m, m.spent[token].session.id, now)
  }

  /** Succeeds for the current token of an open session, is a replay for an unexpired spent one, is unknown otherwise. */
  ghost function Answer(m: Machine, token: Token, now: Time): Result<Session, Refusal> {
    if exists id :: Holds(m, id, token, now) then
      var id :| Holds(m, id, token, now);
      Success(m.grants[id].session)
    else if Replays(m, token, now) then Failure(Reused)
    else Failure(Unknown)
  }

  function AfterAnswer(m: Machine, token: Token, answer: Result<Session, Refusal>): Machine {
    if answer == Failure(Reused) && token in m.spent
    then Machine(m.grants - {m.spent[token].session.id}, m.spent - {token})
    else m
  }

  // ------------------------------------------------------------- the refinement

  ghost predicate Pointers(s: Entries, m: Machine) {
    forall id :: (SessionKey(id) in s <==> id in m.grants)
      && (id in m.grants ==> s[SessionKey(id)] == Entry(Pointer(RefreshKey(m.grants[id].token)), m.grants[id].expires))
  }

  ghost predicate CurrentRecords(s: Entries, m: Machine) {
    forall id :: id in m.grants ==>
      && m.grants[id].session.id == id && m.grants[id].token !in m.spent
      && RefreshKey(m.grants[id].token) in s
      && s[RefreshKey(m.grants[id].token)] == Entry(Record(m.grants[id].session), m.grants[id].expires)
  }

  ghost predicate SpentRecords(s: Entries, m: Machine) {
    forall t :: t in m.spent ==> RefreshKey(t) in s && s[RefreshKey(t)] == Entry(Record(m.spent[t].session), m.spent[t].expires)
  }

  ghost predicate NoOthers(s: Entries, m: Machine) {
    forall t :: RefreshKey(t) in s && t !in m.spent ==>
      && s[RefreshKey(t)].value.Record?
      && var id := s[RefreshKey(t)].value.session.id; id in m.grants && m.grants[id].token == t
  }

  /** The store holds exactly the machine; a pointer expires with the record it names. */
  ghost predicate Represents(s: Entries, m: Machine) {
    WellTyped(s) && Pointers(s, m) && CurrentRecords(s, m) && SpentRecords(s, m) && NoOthers(s, m)
  }

  lemma MintKeepsPointers(s: Entries, m: Machine, session: Session, token: Token, ttl: Time, now: Time)
    requires Pointers(s, m)
    ensures Pointers(Minted(s, session, token, ttl, now), Granted(m, session, token, now + ttl))
  {
  }

  lemma MintKeepsCurrent(s: Entries, m: Machine, session: Session, token: Token, ttl: Time, now: Time)
    requires CurrentRecords(s, m) && SpentRecords(s, m) && RefreshKey(token) !in s
    ensures CurrentRecords(Minted(s, session, token, ttl, now), Granted(m, session, token, now + ttl))
  {
  }

  lemma MintKeepsSpent(s: Entries, m: Machine, session: Session, token: Token, ttl: Time, now: Time)
    requires CurrentRecords(s, m) && SpentRecords(s, m) && RefreshKey(token) !in s
    ensures SpentRecords(Minted(s, session, token, ttl, now), Granted(m, session, token, now + ttl))
  {
  }

  lemma MintKeepsNoOthers(s: Entries, m: Machine, session: Session, token: Token, ttl: Time, now: Time)
    requires CurrentRecords(s, m) && NoOthers(s, m) && RefreshKey(token) !in s
    ensures NoOthers(Minted(s, session, token, ttl, now), Granted(m, session, token, now + ttl))
  {
  }

  lemma MintRefines(s: Entries, m: Machine, session: Session, token: Token, ttl: Time, now: Time)
    requires Represents(s, m) && RefreshKey(token) !in s
    ensures Represents(Minted(s, session, token, ttl, now), Granted(m, session, token, now + ttl))
  {
    assert WellTyped(Minted(s, session, token, ttl, now));
    hide Minted, Granted, WellTyped, Pointers, CurrentRecords, SpentRecords, NoOthers;
    MintKeepsPointers(s, m, session, token, ttl, now);
    MintKeepsCurrent(s, m, session, token, ttl, now);
    MintKeepsSpent(s, m, session, token, ttl, now);
    MintKeepsNoOthers(s, m, session, token, ttl, now);
  }

  /** The lookup answers what the machine answers. */
  lemma LookupAnswers(s: Entries, m: Machine, token: Token, now: Time)
    requires Represents(s, m)
    ensures Found(s, token, now) == Answer(m, token, now)
  {
    var found := Found(s, token, now);
    if found.Success? {
      assert Holds(m, found.value.id, token, now) && Answer(m, token, now).Success?;
      var id :| Holds(m, id, token, now) && Answer(m, token, now) == Success(m.grants[id].session);
      assert s[RefreshKey(token)].value.session == m.grants[id].session;
    } else {
      forall id ensures !Holds(m, id, token, now) {}
    }
  }

  lemma LookupRefines(s: Entries, m: Machine, token: Token, now: Time)
    requires Represents(s, m)
    ensures Represents(AfterLookup(s, token, now), AfterAnswer(m, token, Found(s, token, now)))
  {
  }

  lemma RevokeSessionRefines(s: Entries, m: Machine, id: SessionId, now: Time)
    requires Represents(s, m)
    ensures Represents(SessionRevoked(s, id, now), if Open(m, id, now) then Ended(m, id) else m)
  {
  }

  lemma RevokeRefines(s: Entries, m: Machine, token: Token, now: Time)
    requires Represents(s, m)
    ensures Represents(Revoked(s, token, now),
                       match Answer(m, token, now)
                       case Success(session) => Ended(m, session.id)
                       case Failure(_) => AfterAnswer(m, token, Answer(m, token, now)))
  {
    LookupAnswers(s, m, token, now);
    hide Answer;
    match Found(s, token, now)
    case Failure(_) => LookupRefines(s, m, token, now);
    case Success(session) => RevokeSessionRefines(s, m, session.id, now);
  }

  // --------------------------------------------------------------------- runs

  datatype Op =
    | Issue(session: Session, next: Token)
    | Rotate(token: Token, next: Token)
    | Revoke(token: Token)
    | RevokeSession(id: SessionId)

  datatype Call = Call(op: Op, now: Time)

  function Serve(s: Entries, ttl: Time, call: Call): (r: (Entries, Result<Session, Refusal>))
    requires WellTyped(s) && ttl > 0
    ensures WellTyped(r.0)
  {
    match call.op
    case Issue(session, next) => var issued := session.(issuedAt := call.now); (Minted(s, issued, next, ttl, call.now), Success(issued))
    case Rotate(token, next) => Rotated(s, token, next, ttl, call.now)
    case Revoke(token) => (Revoked(s, token, call.now), Found(s, token, call.now))
    case RevokeSession(id) => (SessionRevoked(s, id, call.now), Failure(Unknown))
  }

  ghost function Obey(m: Machine, ttl: Time, call: Call): (Machine, Result<Session, Refusal>) {
    match call.op
    case Issue(session, next) => var issued := session.(issuedAt := call.now); (Granted(m, issued, next, call.now + ttl), Success(issued))
    case Rotate(token, next) =>
      (match Answer(m, token, call.now)
       case Failure(refusal) => (AfterAnswer(m, token, Failure(refusal)), Failure(refusal))
       case Success(session) => (Granted(m, session, next, call.now + ttl), Success(session)))
    case Revoke(token) =>
      (match Answer(m, token, call.now)
       case Failure(refusal) => (AfterAnswer(m, token, Failure(refusal)), Failure(refusal))
       case Success(session) => (Ended(m, session.id), Success(session)))
    case RevokeSession(id) => (if Open(m, id, call.now) then Ended(m, id) else m, Failure(Unknown))
  }

  predicate Draws(op: Op, token: Token) {
    (op.Issue? || op.Rotate?) && op.next == token
  }

  /** Every token drawn is new. */
  predicate Fresh(s: Entries, op: Op) {
    (op.Issue? || op.Rotate?) ==> RefreshKey(op.next) !in s
  }

  lemma ServeRefines(s: Entries, m: Machine, ttl: Time, call: Call)
    requires Represents(s, m) && Fresh(s, call.op) && ttl > 0
    ensures Represents(Serve(s, ttl, call).0, Obey(m, ttl, call).0) && Serve(s, ttl, call).1 == Obey(m, ttl, call).1
  {
    hide Answer, Found, AfterLookup, AfterAnswer, Minted, Granted, Revoked, SessionRevoked;
    match call.op
    case Issue(session, next) => MintRefines(s, m, session.(issuedAt := call.now), next, ttl, call.now);
    case Rotate(token, next) =>
      LookupAnswers(s, m, token, call.now);
      match Found(s, token, call.now) {
        case Failure(_) => LookupRefines(s, m, token, call.now);
        case Success(session) => MintRefines(s, m, session, next, ttl, call.now);
      }
    case Revoke(token) =>
      LookupAnswers(s, m, token, call.now);
      RevokeRefines(s, m, token, call.now);
    case RevokeSession(id) => RevokeSessionRefines(s, m, id, call.now);
  }

  ghost predicate Sensible(s: Entries, ttl: Time, calls: seq<Call>)
    requires WellTyped(s) && ttl > 0
    decreases |calls|
  {
    calls == [] || (Fresh(s, calls[0].op) && Sensible(Serve(s, ttl, calls[0]).0, ttl, calls[1..]))
  }

  ghost function ServeAll(s: Entries, ttl: Time, calls: seq<Call>): (Entries, seq<Result<Session, Refusal>>)
    requires WellTyped(s) && ttl > 0 && Sensible(s, ttl, calls)
    decreases |calls|
  {
    if calls == [] then (s, [])
    else
      var (after, answer) := Serve(s, ttl, calls[0]);
      var (end, answers) := ServeAll(after, ttl, calls[1..]);
      (end, [answer] + answers)
  }

  ghost function ObeyAll(m: Machine, ttl: Time, calls: seq<Call>): (Machine, seq<Result<Session, Refusal>>)
    decreases |calls|
  {
    if calls == [] then (m, [])
    else
      var (after, answer) := Obey(m, ttl, calls[0]);
      var (end, answers) := ObeyAll(after, ttl, calls[1..]);
      (end, [answer] + answers)
  }

  const NoSessions: Machine := Machine(map[], map[])

  /**
   * Session refinement: over every sequential run the two-key-family expiring
   * store answers exactly as the machine with one current token per session does,
   * and goes on representing it.
   */
  lemma {:induction false} StoreRefinesMachine(s: Entries, m: Machine, ttl: Time, calls: seq<Call>)
    requires Represents(s, m) && ttl > 0 && Sensible(s, ttl, calls)
    ensures var (end, answers) := ServeAll(s, ttl, calls); var (machine, told) := ObeyAll(m, ttl, calls);
            Represents(end, machine) && answers == told
    decreases |calls|
  {
    assert WellTyped(s);
    hide Represents, Serve, Obey, Fresh;
    if calls != [] {
      ServeRefines(s, m, ttl, calls[0]);
      StoreRefinesMachine(Serve(s, ttl, calls[0]).0, Obey(m, ttl, calls[0]).0, ttl, calls[1..]);
    }
  }

  lemma EmptyStoreRepresentsNothing()
    ensures Represents(map[], NoSessions)
  {
  }

  /** From an empty store on, every answer is the machine's, from no sessions on. */
  lemma StoreAnswersAsMachine(ttl: Time, calls: seq<Call>)
    requires ttl > 0 && Sensible(map[], ttl, calls)
    ensures ServeAll(map[], ttl, calls).1 == ObeyAll(NoSessions, ttl, calls).1
    ensures Represents(ServeAll(map[], ttl, calls).0, ObeyAll(NoSessions, ttl, calls).0)
  {
    EmptyStoreRepresentsNothing();
    StoreRefinesMachine(map[], NoSessions, ttl, calls);
  }

  /** A store that takes no record, for want of a time to live, mints nothing and keeps the token there was. */
  lemma ARefusedMintKeepsTheToken(s: Entries, token: Token, next: Token, ttl: int, now: Time)
    requires WellTyped(s) && Found(s, token, now).Success?
    ensures ttl <= 0 ==> Rotated(s, token, next, ttl, now) == (s, Failure(StoreRefused))
    ensures ttl > 0 ==> Rotated(s, token, next, ttl, now).1 == Found(s, token, now)
  {
  }

  /** A token the machine has moved on from. */
  predicate Gone(m: Machine, token: Token) {
    forall id :: id in m.grants ==> m.grants[id].token != token
  }

  /** A token once superseded or ended is never the current one again, so it never rotates, in any continuation. */
  lemma {:induction false} GoneForGood(m: Machine, ttl: Time, calls: seq<Call>, token: Token, now: Time)
    requires Gone(m, token) && forall i :: 0 <= i < |calls| ==> !Draws(calls[i].op, token)
    ensures Gone(ObeyAll(m, ttl, calls).0, token) && !Answer(ObeyAll(m, ttl, calls).0, token, now).Success?
    decreases |calls|
  {
    if calls == [] {
      assert forall id :: !Holds(m, id, token, now);
    } else {
      GoneStep(m, ttl, calls[0], token);
      hide Obey, Gone, Answer;
      GoneForGood(Obey(m, ttl, calls[0]).0, ttl, calls[1..], token, now);
    }
  }

  lemma GoneStep(m: Machine, ttl: Time, call: Call, token: Token)
    requires Gone(m, token) && !Draws(call.op, token)
    ensures Gone(Obey(m, ttl, call).0, token)
  {
    hide Answer;
  }
}
