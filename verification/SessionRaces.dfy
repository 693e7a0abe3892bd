/**
 * The session store at the granularity of its calls to the shared store: any
 * number of rotations, revocations and logins interleaved, each able to stop
 * anywhere, with time passing in between.
 */
module SessionRaces {
  import opened Wrappers
  import opened KeyValue
  import opened Sessions

  datatype Job = Rotating(token: Token) | Revoking(token: Token) | Ending(id: SessionId) | Starting(session: Session)

  /** What a call has done so far; each next step is one call to the store. */
  datatype Pc =
    | Begun
    | Read(session: Session)                  // its record was there
    | Matched(session: Session)               // and its pointer named it
    | Wrote(session: Session, next: Token)    // the next record is written, the pointer is not
    | Replaying(session: Session)             // its pointer named another
    | Killing(id: SessionId, key: Key)        // about to delete a pointer and what it named
    | Dropping                                // about to delete the record presented
    | Done

  datatype Thread = Thread(job: Job, pc: Pc)

  datatype State = State(entries: Entries, now: Time, ttl: Time, next: Token, issued: set<Token>, threads: seq<Thread>)

  datatype Step = Spawn(job: Job) | Advance(thread: nat) | Stop(thread: nat) | Pass(time: Time)

  /** A token is only presented once it has been returned to somebody. */
  predicate Enabled(s: State, step: Step) {
    match step
    case Spawn(job) => (job.Rotating? || job.Revoking?) ==> job.token in s.issued
    case Advance(i) => i < |s.threads| && !s.threads[i].pc.Done?
    case Stop(i) => i < |s.threads|
    case Pass(_) => true
  }

  /** Each job only passes through its own stages. */
  predicate Staged(k: Thread) {
    match k.pc
    case Read(_) => k.job.Rotating? || k.job.Revoking?
    case Matched(_) => k.job.Rotating? || k.job.Revoking?
    case Wrote(_, _) => k.job.Rotating? || k.job.Starting?
    case Replaying(_) => k.job.Rotating? || k.job.Revoking?
    case Killing(_, _) => !k.job.Starting?
    case Dropping => k.job.Rotating? || k.job.Revoking?
    case _ => true
  }

  ghost predicate Typed(s: State) {
    WellTyped(s.entries) && forall i :: 0 <= i < |s.threads| ==> Staged(s.threads[i])
  }

  function At(s: State, i: nat, pc: Pc): State
    requires i < |s.threads|
  {
    s.(threads := s.threads[i := s.threads[i].(pc := pc)])
  }

  /** Write the record of a new token for a session. */
  function WriteRecord(s: State, i: nat, session: Session): State
    requires i < |s.threads|
  {
    At(s, i, Wrote(session, s.next)).(
      entries := Put(s.entries, RefreshKey(s.next), Record(session), s.ttl, s.now),
      next := s.next + 1)
  }

  function Called(s: State, i: nat): State
    requires Typed(s) && i < |s.threads|
  {
    var job, e := s.threads[i].job, s.entries;
    match s.threads[i].pc
    case Begun =>
      (match job
       case Starting(session) => WriteRecord(s, i, session)
       case Ending(id) =>
         if Live(e, SessionKey(id), s.now) then At(s, i, Killing(id, e[SessionKey(id)].value.key)) else At(s, i, Done)
       case _ =>
         if Live(e, RefreshKey(job.token), s.now) then At(s, i, Read(e[RefreshKey(job.token)].value.session)) else At(s, i, Done))
    case Read(session) =>
      if !Live(e, SessionKey(session.id), s.now) then At(s, i, Done)
      else if e[SessionKey(session.id)].value.key == RefreshKey(job.token) then At(s, i, Matched(session))
      else At(s, i, Replaying(session))
    case Matched(session) =>
      if job.Rotating? then WriteRecord(s, i, session)
      else At(s, i, Done).(entries := e - {RefreshKey(job.token), SessionKey(session.id)})
    case Wrote(session, next) =>
      At(s, i, Done).(entries := Put(e, SessionKey(session.id), Pointer(RefreshKey(next)), s.ttl, s.now), issued := s.issued + {next})
    case Replaying(session) =>
      if Live(e, SessionKey(session.id), s.now) then At(s, i, Killing(session.id, e[SessionKey(session.id)].value.key))
      else At(s, i, Dropping)
    case Killing(id, key) => At(s, i, if job.Ending? then Done else Dropping).(entries := e - {key, SessionKey(id)})
    case Dropping => At(s, i, Done).(entries := e - {RefreshKey(job.token)})
    case Done => s
  }

  function Do(s: State, step: Step): State
    requires Typed(s) && Enabled(s, step)
  {
    match step
    case Spawn(job) => s.(threads := s.threads + [Thread(job, Begun)])
    case Advance(i) => Called(s, i)
    case Stop(i) => At(s, i, Done)
    case Pass(time) => s.(now := s.now + time)
  }

  // ---------------------------------------------------------------- invariant

  /** A pointer names a token since returned, and outlives the record, which is its own session's. */
  ghost predicate PointersRight(s: State)
    requires WellTyped(s.entries)
  {
    forall id :: SessionKey(id) in s.entries ==>
      var key := s.entries[SessionKey(id)].value.key;
      && key.token in s.issued
      && (key in s.entries ==>
            && s.entries[key].value.session.id == id
            && s.entries[key].expires <= s.entries[SessionKey(id)].expires)
  }

  /** Tokens are drawn in order, and only returned ones are presented. */
  ghost predicate TokensDrawn(s: State) {
    && (forall t: Token :: RefreshKey(t) in s.entries ==> t < s.next)
    && (forall t :: t in s.issued ==> t < s.next)
    && (forall i :: 0 <= i < |s.threads| && (s.threads[i].job.Rotating? || s.threads[i].job.Revoking?) ==>
          s.threads[i].job.token in s.issued)
  }

  /** An unreturned token is known only to the call that drew it, and its record is that call's. */
  ghost predicate WritesPrivate(s: State) {
    && (forall i :: 0 <= i < |s.threads| && s.threads[i].pc.Wrote? ==> s.threads[i].pc.next < s.next && s.threads[i].pc.next !in s.issued)
    && (forall i, j :: 0 <= i < j < |s.threads| && s.threads[i].pc.Wrote? && s.threads[j].pc.Wrote? ==>
          s.threads[i].pc.next != s.threads[j].pc.next)
  }

  ghost predicate WritesRecorded(s: State) {
    forall i :: 0 <= i < |s.threads| && s.threads[i].pc.Wrote? && RefreshKey(s.threads[i].pc.next) in s.entries ==>
      && s.entries[RefreshKey(s.threads[i].pc.next)].value == Record(s.threads[i].pc.session)
      && s.entries[RefreshKey(s.threads[i].pc.next)].expires <= s.now + s.ttl
  }

  ghost predicate Inv(s: State) {
    Typed(s) && PointersRight(s) && TokensDrawn(s) && WritesPrivate(s) && WritesRecorded(s) && s.ttl > 0
  }

  lemma StagedKept(s: State, i: nat)
    requires Typed(s) && i < |s.threads|
    ensures Staged(Called(s, i).threads[i]) && |Called(s, i).threads| == |s.threads|
    ensures forall k :: 0 <= k < |s.threads| && k != i ==> Called(s, i).threads[k] == s.threads[k]
  {
    hide WellTyped;
  }

  lemma WellTypedKept(s: State, i: nat)
    requires Typed(s) && i < |s.threads|
    ensures WellTyped(Called(s, i).entries)
  {
    hide Staged;
  }

  lemma TypedKept(s: State, step: Step)
    requires Typed(s) && Enabled(s, step)
    ensures Typed(Do(s, step))
  {
    if step.Advance? {
      StagedKept(s, step.thread);
      WellTypedKept(s, step.thread);
      hide Called, Staged, WellTyped;
    }
  }

  lemma PointersKept(s: State, step: Step)
    requires Inv(s) && Enabled(s, step)
    ensures PointersRight(Do(s, step))
  {
  }

  lemma TokensKept(s: State, step: Step)
    requires Typed(s) && TokensDrawn(s) && WritesPrivate(s) && Enabled(s, step)
    ensures TokensDrawn(Do(s, step))
  {
  }

  lemma WritesPrivateKept(s: State, step: Step)
    requires Typed(s) && TokensDrawn(s) && WritesPrivate(s) && Enabled(s, step)
    ensures WritesPrivate(Do(s, step))
  {
    var t := Do(s, step);
    forall i | 0 <= i < |t.threads| && t.threads[i].pc.Wrote?
      ensures t.threads[i].pc.next < t.next && t.threads[i].pc.next !in t.issued
    {
      assert i < |s.threads| && (t.threads[i].pc == s.threads[i].pc || t.threads[i].pc.next == s.next);
      if step.Advance? && s.threads[step.thread].pc.Wrote? {
        assert i != step.thread;
      }
    }
    WritesDistinctKept(s, step);
  }

  lemma WritesDistinctKept(s: State, step: Step)
    requires Typed(s) && TokensDrawn(s) && WritesPrivate(s) && Enabled(s, step)
    ensures var t := Do(s, step);
            forall i, j :: 0 <= i < j < |t.threads| && t.threads[i].pc.Wrote? && t.threads[j].pc.Wrote? ==>
              t.threads[i].pc.next != t.threads[j].pc.next
  {
    var t := Do(s, step);
    forall i, j | 0 <= i < j < |t.threads| && t.threads[i].pc.Wrote? && t.threads[j].pc.Wrote?
      ensures t.threads[i].pc.next != t.threads[j].pc.next
    {
      assert j < |s.threads|;
      assert t.threads[i].pc == s.threads[i].pc || (t.threads[i].pc.next == s.next && t.threads[j].pc == s.threads[j].pc);
      assert t.threads[j].pc == s.threads[j].pc || t.threads[j].pc.next == s.next;
      hide Do;
    }
  }

  lemma WritesRecordedKept(s: State, step: Step)
    requires Typed(s) && TokensDrawn(s) && WritesPrivate(s) && WritesRecorded(s) && Enabled(s, step)
    ensures WritesRecorded(Do(s, step))
  {
    var t := Do(s, step);
    forall i | 0 <= i < |t.threads| && t.threads[i].pc.Wrote? && RefreshKey(t.threads[i].pc.next) in t.entries
      ensures t.entries[RefreshKey(t.threads[i].pc.next)].value == Record(t.threads[i].pc.session)
      ensures t.entries[RefreshKey(t.threads[i].pc.next)].expires <= t.now + t.ttl
    {
      assert i < |s.threads| && (t.threads[i].pc == s.threads[i].pc || t.threads[i].pc.next == s.next);
      hide Staged, TokensDrawn;
    }
  }

  lemma StepKeepsInv(s: State, step: Step)
    requires Inv(s) && Enabled(s, step)
    ensures Inv(Do(s, step))
  {
    TypedKept(s, step);
    PointersKept(s, step);
    TokensKept(s, step);
    WritesPrivateKept(s, step);
    WritesRecordedKept(s, step);
    hide Typed, PointersRight, TokensDrawn, WritesPrivate, WritesRecorded;
  }

  // --------------------------------------------------------------------- runs

  ghost predicate Legal(s: State, steps: seq<Step>)
    decreases |steps|
  {
    Typed(s) && (steps != [] ==> Enabled(s, steps[0]) && Legal(Do(s, steps[0]), steps[1..]))
  }

  ghost function Run(s: State, steps: seq<Step>): State
    requires Legal(s, steps)
    decreases |steps|
  {
    if steps == [] then s else Run(Do(s, steps[0]), steps[1..])
  }

  function Start(ttl: Time): State {
    State(map[], 0, ttl, 0, {}, [])
  }

  lemma {:induction false} RunKeepsInv(s: State, steps: seq<Step>)
    requires Inv(s) && Legal(s, steps)
    ensures Inv(Run(s, steps))
    decreases |steps|
  {
    if steps != [] {
      StepKeepsInv(s, steps[0]);
      hide Inv, Do, Enabled, Typed;
      RunKeepsInv(Do(s, steps[0]), steps[1..]);
    }
  }

  /** Some token of the session would be accepted now. */
  predicate Accepts(s: State, id: SessionId) {
    Live(s.entries, SessionKey(id), s.now)
    && s.entries[SessionKey(id)].value.Pointer? && Live(s.entries, s.entries[SessionKey(id)].value.key, s.now)
  }

  /** This token would be accepted now, for this session. */
  ghost predicate Taken(s: State, token: Token, id: SessionId)
    requires WellTyped(s.entries)
  {
    Found(s.entries, token, s.now).Success? && Found(s.entries, token, s.now).value.id == id
  }

  /** At most one token of a session is accepted, the one its pointer names, in every interleaving. */
  lemma AtMostOneLiveToken(ttl: Time, steps: seq<Step>, id: SessionId)
    requires ttl > 0 && Legal(Start(ttl), steps)
    ensures var s := Run(Start(ttl), steps);
            && WellTyped(s.entries)
            && (Accepts(s, id) <==> exists t :: Taken(s, t, id))
            && (forall t, u :: Taken(s, t, id) && Taken(s, u, id) ==> t == u)
            && (SessionKey(id) in s.entries && s.entries[SessionKey(id)].value.key in s.entries ==>
                  s.entries[s.entries[SessionKey(id)].value.key].expires <= s.entries[SessionKey(id)].expires)
  {
    RunKeepsInv(Start(ttl), steps);
    var s := Run(Start(ttl), steps);
    hide Legal, Run, TokensDrawn, WritesPrivate, WritesRecorded;
    if Accepts(s, id) {
      assert Taken(s, s.entries[SessionKey(id)].value.key.token, id);
    }
  }

  // ------------------------------------------------------- revoked for good

  /** A rotation past its check, or a write of the session still to be pointed at. */
  predicate MidMint(s: State, i: nat, id: SessionId)
    requires i < |s.threads|
  {
    match s.threads[i].pc
    case Begun => s.threads[i].job.Starting? && s.threads[i].job.session.id == id
    case Matched(session) => s.threads[i].job.Rotating? && session.id == id
    case Wrote(session, next) => session.id == id && Live(s.entries, RefreshKey(next), s.now)
    case _ => false
  }

  /** A rotation that read its record before it expired, and whose pointer still names it. */
  predicate AboutToMatch(s: State, i: nat, id: SessionId)
    requires i < |s.threads|
  {
    && s.threads[i].pc.Read? && s.threads[i].pc.session.id == id && s.threads[i].job.Rotating?
    && Live(s.entries, SessionKey(id), s.now)
    && s.entries[SessionKey(id)].value == Pointer(RefreshKey(s.threads[i].job.token))
  }

  ghost predicate Doomed(s: State, id: SessionId) {
    && !Accepts(s, id)
    && (forall i :: 0 <= i < |s.threads| ==> !MidMint(s, i, id))
    && (forall i :: 0 <= i < |s.threads| ==> !AboutToMatch(s, i, id))
  }

  /** A new login under the same id is not a continuation of the session. */
  predicate Relogin(step: Step, id: SessionId) {
    step.Spawn? && step.job.Starting? && step.job.session.id == id
  }

  /** What a step may make live: only a record just written, for a token not yet returned. */
  lemma NothingComesBack(s: State, step: Step, key: Key)
    requires Inv(s) && Enabled(s, step) && Live(Do(s, step).entries, key, Do(s, step).now)
    ensures (Live(s.entries, key, s.now) && Do(s, step).entries[key] == s.entries[key])
            || (key == RefreshKey(s.next) && step.Advance? && MidMint(s, step.thread, Do(s, step).entries[key].value.session.id))
            || (key.SessionKey? && step.Advance? && s.threads[step.thread].pc.Wrote? && s.threads[step.thread].pc.session.id == key.id
                && Do(s, step).entries[key].value == Pointer(RefreshKey(s.threads[step.thread].pc.next)))
  {
    hide PointersRight, TokensDrawn, WritesPrivate, WritesRecorded;
  }

  lemma StaysUnaccepted(s: State, step: Step, id: SessionId)
    requires Inv(s) && Doomed(s, id) && Enabled(s, step) && !Relogin(step, id)
    ensures !Accepts(Do(s, step), id)
  {
    var t := Do(s, step);
    if step.Advance? { assert !MidMint(s, step.thread, id); }
    if Accepts(t, id) {
      NothingComesBack(s, step, SessionKey(id));
      NothingComesBack(s, step, t.entries[SessionKey(id)].value.key);
      hide Do;
    }
  }

  lemma NobodyMints(s: State, step: Step, id: SessionId, i: nat)
    requires Inv(s) && Doomed(s, id) && Enabled(s, step) && !Relogin(step, id)
    requires i < |Do(s, step).threads|
    ensures !MidMint(Do(s, step), i, id)
  {
    var t := Do(s, step);
    if i < |s.threads| {
      assert !MidMint(s, i, id) && !AboutToMatch(s, i, id);
      if t.threads[i] == s.threads[i] && t.threads[i].pc.Wrote? && Live(t.entries, RefreshKey(t.threads[i].pc.next), t.now) {
        NothingComesBack(s, step, RefreshKey(t.threads[i].pc.next));
        hide Do;
      }
    }
    hide PointersRight, TokensDrawn, WritesRecorded, Doomed;
  }

  lemma NobodyMatches(s: State, step: Step, id: SessionId, i: nat)
    requires Inv(s) && Doomed(s, id) && Enabled(s, step) && !Relogin(step, id)
    requires i < |Do(s, step).threads|
    ensures !AboutToMatch(Do(s, step), i, id)
  {
    var t := Do(s, step);
    assert i < |s.threads| ==> !AboutToMatch(s, i, id) && !Accepts(s, id);
    if i < |s.threads| && AboutToMatch(t, i, id) {
      NothingComesBack(s, step, SessionKey(id));
    }
  }

  lemma DoomedStays(s: State, step: Step, id: SessionId)
    requires Inv(s) && Doomed(s, id) && Enabled(s, step) && !Relogin(step, id)
    ensures Doomed(Do(s, step), id)
  {
    StaysUnaccepted(s, step, id);
    var t := Do(s, step);
    forall i | 0 <= i < |t.threads| ensures !MidMint(t, i, id) && !AboutToMatch(t, i, id) {
      NobodyMints(s, step, id, i);
      NobodyMatches(s, step, id, i);
    }
  }

  predicate NoRelogin(steps: seq<Step>, id: SessionId) {
    forall i :: 0 <= i < |steps| ==> !Relogin(steps[i], id)
  }

  /** No token ever minted for the session is accepted again, in any continuation. */
  ghost predicate DeadForGood(s: State, id: SessionId) {
    forall steps :: Legal(s, steps) && NoRelogin(steps, id) ==> !Accepts(Run(s, steps), id)
  }

  lemma {:induction false} DoomedIsDead(s: State, id: SessionId, steps: seq<Step>)
    requires Inv(s) && Doomed(s, id) && Legal(s, steps) && NoRelogin(steps, id)
    ensures !Accepts(Run(s, steps), id)
    decreases |steps|
  {
    if steps != [] {
      StepKeepsInv(s, steps[0]);
      DoomedStays(s, steps[0], id);
      assert NoRelogin(steps[1..], id);
      hide Inv, Do, Enabled, Doomed, Typed, Accepts;
      DoomedIsDead(Do(s, steps[0]), id, steps[1..]);
    }
  }

  /** A session that can still be minted for comes back: one, two or three calls of that thread are enough. */
  lemma Revives(s: State, id: SessionId, i: nat, calls: nat)
    requires Inv(s) && i < |s.threads|
    requires match calls
             case 1 => s.threads[i].pc.Wrote? && MidMint(s, i, id)
             case 2 => !s.threads[i].pc.Wrote? && MidMint(s, i, id)
             case 3 => AboutToMatch(s, i, id)
             case _ => false
    ensures Legal(s, Again(calls, i)) && Accepts(Run(s, Again(calls, i)), id)
    decreases calls
  {
    assert Enabled(s, Advance(i));
    StepKeepsInv(s, Advance(i));
    var t := Do(s, Advance(i));
    assert Again(calls, i)[1..] == Again(calls - 1, i);
    if calls == 1 {
      assert Accepts(t, id);
    } else {
      assert if calls == 2 then t.threads[i].pc.Wrote? && MidMint(t, i, id) else !t.threads[i].pc.Wrote? && MidMint(t, i, id);
      hide Do, MidMint, Accepts;
      Revives(t, id, i, calls - 1);
    }
  }

  function Again(calls: nat, i: nat): seq<Step> {
    if calls == 0 then [] else [Advance(i)] + Again(calls - 1, i)
  }

  lemma AgainIsNoRelogin(calls: nat, i: nat, id: SessionId)
    requires calls <= 3
    ensures NoRelogin(Again(calls, i), id)
  {
    assert Again(0, i) == [] && Again(1, i) == [Advance(i)] && Again(2, i) == [Advance(i), Advance(i)];
  }

  /**
   * Exactly when a session is gone for good: no token of it is accepted, no
   * rotation of it is past its check or about to pass it, and no minted record
   * still waits for its pointer. Otherwise some continuation accepts a token.
   */
  lemma DeadExactlyWhenDoomed(s: State, id: SessionId)
    requires Inv(s)
    ensures DeadForGood(s, id) <==> Doomed(s, id)
  {
    if Doomed(s, id) {
      forall steps | Legal(s, steps) && NoRelogin(steps, id) ensures !Accepts(Run(s, steps), id) {
        DoomedIsDead(s, id, steps);
      }
    } else {
      NotDoomedRevives(s, id);
    }
  }

  lemma NotDoomedRevives(s: State, id: SessionId)
    requires Inv(s) && !Doomed(s, id)
    ensures !DeadForGood(s, id)
  {
    if Accepts(s, id) {
      assert Legal(s, []) && NoRelogin([], id) && Run(s, []) == s;
    } else if i :| 0 <= i < |s.threads| && MidMint(s, i, id) {
      var calls := if s.threads[i].pc.Wrote? then 1 else 2;
      Revives(s, id, i, calls);
      AgainIsNoRelogin(calls, i, id);
      hide Legal, Run, Accepts, NoRelogin;
    } else {
      var i :| 0 <= i < |s.threads| && AboutToMatch(s, i, id);
      Revives(s, id, i, 3);
      AgainIsNoRelogin(3, i, id);
      hide Legal, Run, Accepts, NoRelogin;
    }
  }

  /**
   * Revocation is permanent: once the session's pointer is gone, by a replay, a
   * logout or an expiry, the session is dead for good if and only if no thread
   * was between its lookup and the end of its mint.
   */
  lemma RevokedForGood(s: State, id: SessionId)
    requires Inv(s) && !Live(s.entries, SessionKey(id), s.now)
    ensures DeadForGood(s, id) <==> forall i :: 0 <= i < |s.threads| ==> !MidMint(s, i, id)
  {
    DeadExactlyWhenDoomed(s, id);
    hide DeadForGood, MidMint;
  }

  // ------------------------------------------------------- brought back in a run

  function LoginScript(session: Session): seq<Step> {
    [Spawn(Starting(session)), Advance(0), Advance(0)]
  }

  /** A rotation that has been looked up and not yet minted for. */
  function RotationScript(): seq<Step> {
    [Spawn(Rotating(0)), Advance(1), Advance(1)]
  }

  function LogoutScript(): seq<Step> {
    [Spawn(Revoking(0)), Advance(2), Advance(2), Advance(2)]
  }

  function Session0(ttl: Time, session: Session): Entries {
    map[RefreshKey(0) := Entry(Record(session), ttl), SessionKey(session.id) := Entry(Pointer(RefreshKey(0)), ttl)]
  }

  function LoggedIn(ttl: Time, session: Session): State {
    State(Session0(ttl, session), 0, ttl, 1, {0}, [Thread(Starting(session), Done)])
  }

  function LookedUp(ttl: Time, session: Session): State {
    LoggedIn(ttl, session).(threads := [Thread(Starting(session), Done), Thread(Rotating(0), Matched(session))])
  }

  function LoggedOut(ttl: Time, session: Session): State {
    State(map[], 0, ttl, 1, {0},
          [Thread(Starting(session), Done), Thread(Rotating(0), Matched(session)), Thread(Revoking(0), Done)])
  }

  ghost predicate Leads(s: State, steps: seq<Step>, t: State) {
    Legal(s, steps) && Run(s, steps) == t
  }

  lemma Then(s: State, step: Step, t: State, rest: seq<Step>, u: State)
    requires Typed(s) && Enabled(s, step) && Do(s, step) == t && Leads(t, rest, u)
    ensures Leads(s, [step] + rest, u)
  {
    hide Typed, Enabled, Do;
    assert ([step] + rest)[1..] == rest;
  }

  lemma {:induction false} Concat(s: State, first: seq<Step>, t: State, second: seq<Step>, u: State)
    requires Leads(s, first, t) && Leads(t, second, u)
    ensures Leads(s, first + second, u)
    decreases |first|
  {
    hide Typed, Enabled, Do;
    if first == [] {
      assert first + second == second;
    } else {
      assert (first + second)[1..] == first[1..] + second;
      Concat(Do(s, first[0]), first[1..], t, second, u);
    }
  }

  lemma Nothing(s: State)
    requires Typed(s)
    ensures Leads(s, [], s)
  {
    hide Typed;
  }

  lemma LogsIn(ttl: Time, session: Session)
    requires ttl > 0
    ensures Leads(Start(ttl), LoginScript(session), LoggedIn(ttl, session))
  {
    var s0, s3 := Start(ttl), LoggedIn(ttl, session);
    var s1 := s0.(threads := [Thread(Starting(session), Begun)]);
    var written := map[RefreshKey(0) := Entry(Record(session), ttl)];
    var s2 := State(written, 0, ttl, 1, {}, [Thread(Starting(session), Wrote(session, 0))]);
    assert Do(s0, Spawn(Starting(session))) == s1;
    assert Do(s1, Advance(0)) == s2;
    assert Do(s2, Advance(0)) == s3 by { assert {} + {0} == {0}; }
    assert Typed(s3);
    hide Do, Typed, LoggedIn;
    Nothing(s3);
    Then(s2, Advance(0), s3, [], s3);
    Then(s1, Advance(0), s2, [Advance(0)] + [], s3);
    Then(s0, Spawn(Starting(session)), s1, [Advance(0)] + ([Advance(0)] + []), s3);
    assert LoginScript(session) == [Spawn(Starting(session))] + ([Advance(0)] + ([Advance(0)] + []));
  }

  lemma LooksUp(ttl: Time, session: Session)
    requires ttl > 0
    ensures Leads(LoggedIn(ttl, session), RotationScript(), LookedUp(ttl, session))
  {
    var s0, s3 := LoggedIn(ttl, session), LookedUp(ttl, session);
    var s1 := s0.(threads := s0.threads + [Thread(Rotating(0), Begun)]);
    var s2 := s0.(threads := s0.threads + [Thread(Rotating(0), Read(session))]);
    assert Typed(s0);
    assert Do(s0, Spawn(Rotating(0))) == s1;
    assert Do(s1, Advance(1)) == s2;
    assert Do(s2, Advance(1)) == s3;
    assert Typed(s3);
    hide Do, Typed, LoggedIn, LookedUp;
    Nothing(s3);
    Then(s2, Advance(1), s3, [], s3);
    Then(s1, Advance(1), s2, [Advance(1)] + [], s3);
    Then(s0, Spawn(Rotating(0)), s1, [Advance(1)] + ([Advance(1)] + []), s3);
    assert RotationScript() == [Spawn(Rotating(0))] + ([Advance(1)] + ([Advance(1)] + []));
  }

  lemma LogsOut(ttl: Time, session: Session)
    requires ttl > 0
    ensures Leads(LookedUp(ttl, session), LogoutScript(), LoggedOut(ttl, session))
  {
    var s0, s4 := LookedUp(ttl, session), LoggedOut(ttl, session);
    var s1 := s0.(threads := s0.threads + [Thread(Revoking(0), Begun)]);
    var s2 := s0.(threads := s0.threads + [Thread(Revoking(0), Read(session))]);
    var s3 := s0.(threads := s0.threads + [Thread(Revoking(0), Matched(session))]);
    assert Typed(s0);
    assert Do(s0, Spawn(Revoking(0))) == s1;
    assert Do(s1, Advance(2)) == s2;
    assert Do(s2, Advance(2)) == s3;
    assert Do(s3, Advance(2)) == s4 by {
      assert Session0(ttl, session) - {RefreshKey(0), SessionKey(session.id)} == map[];
    }
    assert Typed(s4);
    hide Do, Typed, LoggedOut, LookedUp;
    Nothing(s4);
    Then(s3, Advance(2), s4, [], s4);
    Then(s2, Advance(2), s3, [Advance(2)] + [], s4);
    Then(s1, Advance(2), s2, [Advance(2)] + ([Advance(2)] + []), s4);
    Then(s0, Spawn(Revoking(0)), s1, [Advance(2)] + ([Advance(2)] + ([Advance(2)] + [])), s4);
    assert LogoutScript() == [Spawn(Revoking(0))] + ([Advance(2)] + ([Advance(2)] + ([Advance(2)] + [])));
  }

  /**
   * A logout does not always end its session: a rotation of the same token that
   * was looked up just before it mints afterwards, and the session is live again.
   */
  lemma ARotationOutlivesALogout(ttl: Time, session: Session)
    requires ttl > 0
    ensures var before := LoginScript(session) + (RotationScript() + LogoutScript());
            && Leads(Start(ttl), before, LoggedOut(ttl, session))
            && LoggedOut(ttl, session).entries == map[] && LoggedOut(ttl, session).threads[2] == Thread(Revoking(0), Done)
            && Legal(Start(ttl), before + Again(2, 1)) && Accepts(Run(Start(ttl), before + Again(2, 1)), session.id)
            && NoRelogin(Again(2, 1), session.id)
  {
    var before, s := LoginScript(session) + (RotationScript() + LogoutScript()), LoggedOut(ttl, session);
    LogsIn(ttl, session);
    LooksUp(ttl, session);
    LogsOut(ttl, session);
    assert MidMint(s, 1, session.id);
    hide Legal, Run, Accepts, NoRelogin, LoginScript, RotationScript, LogoutScript, Again, MidMint;
    Concat(LoggedIn(ttl, session), RotationScript(), LookedUp(ttl, session), LogoutScript(), s);
    Concat(Start(ttl), LoginScript(session), LoggedIn(ttl, session), RotationScript() + LogoutScript(), s);
    RunKeepsInv(Start(ttl), before);
    Revives(s, session.id, 1, 2);
    AgainIsNoRelogin(2, 1, session.id);
    Concat(Start(ttl), before, s, Again(2, 1), Run(s, Again(2, 1)));
  }

  /** Every way of revoking removes the pointer: a replayed lookup, a logout, an ending by id. */
  lemma RevocationsRemoveThePointer(e: Entries, token: Token, id: SessionId, now: Time)
    requires WellTyped(e)
    ensures !Live(SessionRevoked(e, id, now), SessionKey(id), now)
    ensures Found(e, token, now) == Failure(Reused) ==>
              !Live(AfterLookup(e, token, now), SessionKey(e[RefreshKey(token)].value.session.id), now)
    ensures Found(e, token, now).Success? ==> !Live(Revoked(e, token, now), SessionKey(Found(e, token, now).value.id), now)
  {
  }

  // ----------------------------------------------------- one call undisturbed

  function CallsLeft(pc: Pc): nat {
    match pc
    case Begun => 6
    case Read(_) => 5
    case Matched(_) => 4
    case Replaying(_) => 4
    case Killing(_, _) => 3
    case Wrote(_, _) => 2
    case Dropping => 1
    case Done => 0
  }

  lemma CallsGoOn(s: State, i: nat)
    requires Typed(s) && i < |s.threads| && !s.threads[i].pc.Done?
    ensures Enabled(s, Advance(i)) && Typed(Do(s, Advance(i))) && |Do(s, Advance(i)).threads| == |s.threads|
    ensures CallsLeft(Do(s, Advance(i)).threads[i].pc) < CallsLeft(s.threads[i].pc)
    ensures Do(s, Advance(i)).threads[i].job == s.threads[i].job
  {
    TypedKept(s, Advance(i));
    StagedKept(s, i);
    hide WellTyped;
  }

  /** The calls one thread makes until it is done, with nobody in between. */
  ghost function Undisturbed(s: State, i: nat): seq<Step>
    requires Typed(s) && i < |s.threads|
    decreases CallsLeft(s.threads[i].pc)
  {
    if s.threads[i].pc.Done? then []
    else
      CallsGoOn(s, i);
      [Advance(i)] + Undisturbed(Do(s, Advance(i)), i)
  }

  lemma Once(s: State, i: nat)
    requires Typed(s) && i < |s.threads|
    ensures s.threads[i].pc.Done? ==> Legal(s, Undisturbed(s, i)) && Run(s, Undisturbed(s, i)) == s
    ensures !s.threads[i].pc.Done? ==>
              var t := Do(s, Advance(i));
              && Typed(t) && i < |t.threads|
              && (Legal(t, Undisturbed(t, i)) ==>
                    Legal(s, Undisturbed(s, i)) && Run(s, Undisturbed(s, i)) == Run(t, Undisturbed(t, i)))
  {
    if !s.threads[i].pc.Done? {
      CallsGoOn(s, i);
      var t := Do(s, Advance(i));
      hide Do, Typed, Enabled;
      assert Undisturbed(s, i)[1..] == Undisturbed(t, i);
    }
  }

  /** The thread stops by itself. */
  lemma {:induction false} UndisturbedEnds(s: State, i: nat)
    requires Typed(s) && i < |s.threads|
    ensures Legal(s, Undisturbed(s, i)) && i < |Run(s, Undisturbed(s, i)).threads|
    ensures Run(s, Undisturbed(s, i)).threads[i].pc.Done?
    decreases CallsLeft(s.threads[i].pc)
  {
    Once(s, i);
    if !s.threads[i].pc.Done? {
      CallsGoOn(s, i);
      hide Do, Typed, Enabled;
      UndisturbedEnds(Do(s, Advance(i)), i);
    }
  }

  /** What the store holds and what has been returned once a thread is done. */
  ghost predicate Leaves(s: State, i: nat, entries: Entries, issued: set<Token>)
    requires Typed(s) && i < |s.threads|
  {
    && Legal(s, Undisturbed(s, i))
    && Run(s, Undisturbed(s, i)).entries == entries && Run(s, Undisturbed(s, i)).issued == issued
  }

  lemma LeavesOnce(s: State, i: nat, entries: Entries, issued: set<Token>)
    requires Typed(s) && i < |s.threads|
    ensures s.threads[i].pc.Done? ==> Leaves(s, i, s.entries, s.issued)
    ensures !s.threads[i].pc.Done? ==>
              && Typed(Do(s, Advance(i))) && i < |Do(s, Advance(i)).threads|
              && (Leaves(Do(s, Advance(i)), i, entries, issued) ==> Leaves(s, i, entries, issued))
  {
    hide Do, Typed, Enabled, Undisturbed, Legal, Run;
    Once(s, i);
  }

  lemma AloneDone(s: State, i: nat)
    requires Typed(s) && i < |s.threads| && s.threads[i].pc.Done?
    ensures Leaves(s, i, s.entries, s.issued)
  {
    LeavesOnce(s, i, s.entries, s.issued);
  }

  lemma AloneDropping(s: State, i: nat)
    requires Typed(s) && i < |s.threads| && s.threads[i].pc.Dropping?
    ensures Leaves(s, i, s.entries - {RefreshKey(s.threads[i].job.token)}, s.issued)
  {
    var t := Do(s, Advance(i));
    LeavesOnce(s, i, t.entries, t.issued);
    AloneDone(t, i);
    hide Leaves;
  }

  lemma AloneKilling(s: State, i: nat)
    requires Typed(s) && i < |s.threads| && s.threads[i].pc.Killing?
    ensures var left := s.entries - {s.threads[i].pc.key, SessionKey(s.threads[i].pc.id)};
            Leaves(s, i, if s.threads[i].job.Ending? then left else left - {RefreshKey(s.threads[i].job.token)}, s.issued)
  {
    var t := Do(s, Advance(i));
    var left := s.entries - {s.threads[i].pc.key, SessionKey(s.threads[i].pc.id)};
    LeavesOnce(s, i, if s.threads[i].job.Ending? then left else left - {RefreshKey(s.threads[i].job.token)}, s.issued);
    if s.threads[i].job.Ending? { AloneDone(t, i); } else { AloneDropping(t, i); }
    hide Leaves;
  }

  lemma AloneWrote(s: State, i: nat)
    requires Typed(s) && i < |s.threads| && s.threads[i].pc.Wrote?
    ensures var (session, next) := (s.threads[i].pc.session, s.threads[i].pc.next);
            Leaves(s, i, Put(s.entries, SessionKey(session.id), Pointer(RefreshKey(next)), s.ttl, s.now), s.issued + {next})
  {
    var t := Do(s, Advance(i));
    LeavesOnce(s, i, t.entries, t.issued);
    AloneDone(t, i);
    hide Leaves;
  }

  /** A mint in two calls is the mint. */
  lemma AloneMints(s: State, i: nat, session: Session)
    requires Typed(s) && i < |s.threads|
    requires (s.threads[i].pc == Matched(session) && s.threads[i].job.Rotating?)
             || (s.threads[i].pc.Begun? && s.threads[i].job == Starting(session))
    ensures Leaves(s, i, Minted(s.entries, session, s.next, s.ttl, s.now), s.issued + {s.next})
  {
    var t := Do(s, Advance(i));
    LeavesOnce(s, i, Minted(s.entries, session, s.next, s.ttl, s.now), s.issued + {s.next});
    AloneWrote(t, i);
    hide Leaves;
  }

  /** A replayed token, read and found to be one: its session ends, and the token is forgotten. */
  lemma AloneReplaying(s: State, i: nat)
    requires Typed(s) && i < |s.threads| && s.threads[i].pc.Replaying?
    ensures var job := s.threads[i].job;
            Leaves(s, i, SessionRevoked(s.entries, s.threads[i].pc.session.id, s.now) - {RefreshKey(job.token)}, s.issued)
  {
    var t := Do(s, Advance(i));
    LeavesOnce(s, i, SessionRevoked(s.entries, s.threads[i].pc.session.id, s.now) - {RefreshKey(s.threads[i].job.token)}, s.issued);
    if t.threads[i].pc.Killing? { AloneKilling(t, i); } else { AloneDropping(t, i); }
    hide Leaves;
  }

  lemma AloneMatched(s: State, i: nat)
    requires Typed(s) && i < |s.threads| && s.threads[i].pc.Matched? && s.threads[i].job.Revoking?
    ensures Leaves(s, i, s.entries - {RefreshKey(s.threads[i].job.token), SessionKey(s.threads[i].pc.session.id)}, s.issued)
  {
    var t := Do(s, Advance(i));
    LeavesOnce(s, i, t.entries, t.issued);
    AloneDone(t, i);
    hide Leaves;
  }

  /** What a whole call is to leave: the entries of the store's own operation. */
  ghost function Whole(s: State, job: Job): (Entries, set<Token>)
    requires WellTyped(s.entries)
  {
    match job
    case Rotating(token) =>
      (Rotated(s.entries, token, s.next, s.ttl, s.now).0,
       if Found(s.entries, token, s.now).Success? then s.issued + {s.next} else s.issued)
    case Revoking(token) => (Revoked(s.entries, token, s.now), s.issued)
    case Ending(id) => (SessionRevoked(s.entries, id, s.now), s.issued)
    case Starting(session) => (Minted(s.entries, session, s.next, s.ttl, s.now), s.issued + {s.next})
  }

  lemma AloneRead(s: State, i: nat)
    requires Typed(s) && i < |s.threads| && s.ttl > 0 && s.threads[i].pc.Read?
    requires var job := s.threads[i].job; Live(s.entries, RefreshKey(job.token), s.now)
                                          && s.entries[RefreshKey(job.token)].value.session == s.threads[i].pc.session
    ensures var (entries, issued) := Whole(s, s.threads[i].job); Leaves(s, i, entries, issued)
  {
    var (entries, issued) := Whole(s, s.threads[i].job);
    var t := Do(s, Advance(i));
    LeavesOnce(s, i, entries, issued);
    match t.threads[i].pc
    case Done => AloneDone(t, i);
    case Matched(session) => if t.threads[i].job.Rotating? { AloneMints(t, i, session); } else { AloneMatched(t, i); }
    case Replaying(_) => AloneReplaying(t, i);
    case _ =>
  }

  /**
   * Call by call is the whole: a rotation, a logout, an ending or a login whose
   * calls nothing comes between leaves the store exactly as the operation does,
   * and returns a token exactly when it mints one.
   */
  lemma UndisturbedIsTheOperation(s: State, i: nat)
    requires Typed(s) && i < |s.threads| && s.ttl > 0 && s.threads[i].pc.Begun?
    ensures var (entries, issued) := Whole(s, s.threads[i].job);
            && Legal(s, Undisturbed(s, i))
            && var t := Run(s, Undisturbed(s, i));
               t.entries == entries && t.issued == issued && i < |t.threads| && t.threads[i].pc.Done?
  {
    var (entries, issued) := Whole(s, s.threads[i].job);
    var t := Do(s, Advance(i));
    UndisturbedEnds(s, i);
    LeavesOnce(s, i, entries, issued);
    match s.threads[i].job
    case Starting(session) => AloneMints(s, i, session);
    case Ending(_) => if t.threads[i].pc.Killing? { AloneKilling(t, i); } else { AloneDone(t, i); }
    case _ => if t.threads[i].pc.Read? { AloneRead(t, i); } else { AloneDone(t, i); }
  }

  // ------------------------------------------------------- stopping, and time

  function Elapsed(steps: seq<Step>): Time {
    if steps == [] then 0 else (if steps[0].Pass? then steps[0].time else 0) + Elapsed(steps[1..])
  }

  lemma TimeAfter(s: State, step: Step)
    requires Typed(s) && Enabled(s, step)
    ensures Do(s, step).now == s.now + (if step.Pass? then step.time else 0) && Do(s, step).ttl == s.ttl
  {
  }

  lemma StoppedAfter(s: State, step: Step, i: nat)
    requires Typed(s) && Enabled(s, step) && i < |s.threads| && s.threads[i].pc.Done?
    ensures i < |Do(s, step).threads| && Do(s, step).threads[i] == s.threads[i]
  {
  }

  /** Time only passes as it is let to, at any point; and a call stopped anywhere makes no further call of the store. */
  lemma {:induction false} StoppedForGood(s: State, steps: seq<Step>, i: nat)
    requires Legal(s, steps) && i < |s.threads| && s.threads[i].pc.Done?
    ensures Run(s, steps).now == s.now + Elapsed(steps)
    ensures i < |Run(s, steps).threads| && Run(s, steps).threads[i] == s.threads[i]
    decreases |steps|
  {
    if steps != [] {
      TimeAfter(s, steps[0]);
      StoppedAfter(s, steps[0], i);
      hide Do, Enabled, Typed;
      StoppedForGood(Do(s, steps[0]), steps[1..], i);
    }
  }

  /** Any call can be stopped at any point, and any time can pass. */
  lemma AnythingCanStop(s: State, i: nat, time: Time)
    requires Typed(s) && i < |s.threads|
    ensures Enabled(s, Stop(i)) && Do(s, Stop(i)) == s.(threads := s.threads[i := Thread(s.threads[i].job, Done)])
    ensures Enabled(s, Pass(time)) && Do(s, Pass(time)) == s.(now := s.now + time)
  {
  }
}
