/**
 * Exchanging refresh tokens from one process: identical requests share one
 * exchange while it is in flight, and its outcome answers for the spent token
 * for a while after.
 */
module RefreshWindow {
  import opened Wrappers

  type Time = nat
  type Token = nat

  const GRACE: Time := 10000
  const MAX_ENTRIES: nat := 1000

  datatype Outcome = Refreshed(successor: Token) | Rejected | Unavailable

  /** `index` is the entry's place among all outcomes ever remembered. */
  datatype Entry = Entry(token: Token, outcome: Outcome, expiresAt: Time, index: nat)

  datatype Settlement = Settlement(token: Token, outcome: Outcome, at: Time)

  datatype State = State(
    now: Time,
    inFlight: map<Token, nat>,   // token to attempt
    recent: seq<Entry>,          // oldest first
    attempts: seq<(Token, Time)>,
    log: seq<Settlement>)        // definitive outcomes, in the order they were remembered

  const Start: State := State(0, map[], [], [], [])

  /** What a caller gets: a share of an attempt, or a remembered outcome. */
  datatype Reply = Share(attempt: nat) | Known(outcome: Outcome)

  function Find(recent: seq<Entry>, token: Token): (r: Option<Entry>)
    ensures r.Some? ==> r.value in recent && r.value.token == token
    ensures r.None? ==> forall e :: e in recent ==> e.token != token
  {
    if recent == [] then None else if recent[0].token == token then Some(recent[0]) else Find(recent[1..], token)
  }

  function Minus(recent: seq<Entry>, gone: set<Entry>): (r: seq<Entry>)
    ensures forall e :: e in r <==> e in recent && e !in gone
    ensures |r| <= |recent|
  {
    if recent == [] then []
    else Minus(recent[..|recent| - 1], gone) + if recent[|recent| - 1] in gone then [] else [recent[|recent| - 1]]
  }

  function Expired(recent: seq<Entry>, now: Time): set<Entry> {
    set e | e in recent && e.expiresAt <= now
  }

  function Of(recent: seq<Entry>, token: Token): set<Entry> {
    set e | e in recent && e.token == token
  }

  /** The oldest go until there is room for one more. */
  function Trimmed(recent: seq<Entry>): seq<Entry> {
    if |recent| < MAX_ENTRIES then recent else recent[|recent| - (MAX_ENTRIES - 1)..]
  }

  function Remembered(s: State, token: Token, outcome: Outcome): State {
    if outcome.Unavailable? then s
    else s.(
      recent := Trimmed(Minus(s.recent, Expired(s.recent, s.now))) + [Entry(token, outcome, s.now + GRACE, |s.log|)],
      log := s.log + [Settlement(token, outcome, s.now)])
  }

  function Asked(s: State, token: Token): (State, Reply) {
    if token in s.inFlight then (s, Share(s.inFlight[token]))
    else
      var known := Find(s.recent, token);
      if known.Some? && known.value.expiresAt > s.now then (s, Known(known.value.outcome))
      else
        (s.(recent := Minus(s.recent, Of(s.recent, token)),
            inFlight := s.inFlight[token := |s.attempts|],
            attempts := s.attempts + [(token, s.now)]), Share(|s.attempts|))
  }

  datatype Step = Ask(token: Token) | Settle(token: Token, outcome: Outcome) | Pass(time: Time)

  predicate Enabled(s: State, step: Step) {
    step.Settle? ==> step.token in s.inFlight
  }

  function Do(s: State, step: Step): State
    requires Enabled(s, step)
  {
    match step
    case Ask(token) => Asked(s, token).0
    case Settle(token, outcome) => var t := Remembered(s, token, outcome); t.(inFlight := t.inFlight - {token})
    case Pass(time) => s.(now := s.now + time)
  }

  /** The module's two maps, and what has gone through them. */
  class Refresher {
    var inFlight: map<Token, nat>
    var recent: seq<Entry>
    var attempts: seq<(Token, Time)>
    var log: seq<Settlement>

    function At(now: Time): State
      reads this
    {
      State(now, inFlight, recent, attempts, log)
    }

    constructor ()
      ensures At(0) == Start
    {
      inFlight, recent, attempts, log := map[], [], [], [];
    }

    method RefreshSession(token: Token, now: Time) returns (reply: Reply)
      modifies this
      ensures At(now) == Asked(old(At(now)), token).0 && reply == Asked(old(At(now)), token).1
    {
      if token in inFlight { return Share(inFlight[token]); }
      var known := Find(recent, token);
      if known.Some? && known.value.expiresAt > now { return Known(known.value.outcome); }
      recent := Minus(recent, Of(recent, token));
      reply := Share(|attempts|);
      inFlight := inFlight[token := |attempts|];
      attempts := attempts + [(token, now)];
    }

    method DropExpired(now: Time)
      modifies this`recent
      ensures recent == Minus(old(recent), Expired(old(recent), now))
    {
      var left: seq<Entry> := [];
      for i := 0 to |recent|
        invariant recent == old(recent) && left == Minus(recent[..i], Expired(recent, now))
      {
        assert recent[..i + 1][..i] == recent[..i];
        assert recent[i] in Expired(recent, now) <==> recent[i].expiresAt <= now;
        if recent[i].expiresAt > now { left := left + [recent[i]]; }
        hide Expired;
      }
      assert recent[..|recent|] == recent;
      recent := left;
    }

    method MakeRoom()
      modifies this`recent
      ensures recent == Trimmed(old(recent))
    {
      ghost var before := recent;
      while |recent| >= MAX_ENTRIES
        invariant Trimmed(recent) == Trimmed(before)
        decreases |recent|
      {
        recent := recent[1..];
      }
    }

    method Remember(token: Token, outcome: Outcome, now: Time)
      modifies this`recent, this`log
      ensures At(now) == Remembered(old(At(now)), token, outcome)
    {
      if outcome.Unavailable? { return; }
      DropExpired(now);
      MakeRoom();
      recent := recent + [Entry(token, outcome, now + GRACE, |log|)];
      log := log + [Settlement(token, outcome, now)];
    }
  }

  // ---------------------------------------------------------------- invariant

  ghost predicate Ascending(recent: seq<Entry>) {
    forall i, j :: 0 <= i < j < |recent| ==> recent[i].index < recent[j].index && recent[i].token != recent[j].token
  }

  ghost predicate Logged(s: State) {
    forall e :: e in s.recent ==>
      && e.index < |s.log|
      && s.log[e.index].token == e.token && s.log[e.index].outcome == e.outcome && s.log[e.index].at + GRACE == e.expiresAt
  }

  predicate Holds(recent: seq<Entry>, k: nat) {
    exists e :: e in recent && e.index == k
  }

  /** The last outcomes are still there unless they have expired. */
  ghost predicate Complete(s: State) {
    forall k :: 0 <= k < |s.log| && k + MAX_ENTRIES >= |s.log| && s.log[k].at + GRACE > s.now ==> Holds(s.recent, k)
  }

  ghost predicate Shared(s: State) {
    && (forall e :: e in s.recent ==> e.token !in s.inFlight)
    && (forall t :: t in s.inFlight ==> s.inFlight[t] < |s.attempts| && s.attempts[s.inFlight[t]].0 == t)
  }

  ghost predicate Inv(s: State) {
    Ascending(s.recent) && Logged(s) && Complete(s) && Shared(s) && |s.recent| <= MAX_ENTRIES
  }

  lemma {:induction false} MinusAscends(recent: seq<Entry>, gone: set<Entry>)
    requires Ascending(recent)
    ensures Ascending(Minus(recent, gone))
  {
    if recent != [] {
      var last := |recent| - 1;
      MinusAscends(recent[..last], gone);
      var before := Minus(recent[..last], gone);
      forall i | 0 <= i < |before| ensures before[i].index < recent[last].index && before[i].token != recent[last].token {
        assert before[i] in recent[..last];
        var k :| 0 <= k < last && recent[k] == before[i];
      }
    }
  }

  /** Entries in order are at least as far apart in the log as in the memory. */
  lemma {:induction false} Spread(recent: seq<Entry>, i: nat, j: nat)
    requires Ascending(recent) && i <= j < |recent|
    ensures recent[j].index >= recent[i].index + (j - i)
    decreases j - i
  {
    if i < j {
      Spread(recent, i, j - 1);
    }
  }

  /** Trimming only lets go of what is further back than the last MAX_ENTRIES - 1 outcomes. */
  lemma TrimmedKeeps(recent: seq<Entry>, count: nat, k: nat)
    requires Ascending(recent) && (forall e :: e in recent ==> e.index < count)
    requires Holds(recent, k) && k + (MAX_ENTRIES - 1) >= count
    ensures Holds(Trimmed(recent), k)
  {
    var e :| e in recent && e.index == k;
    var i :| 0 <= i < |recent| && recent[i] == e;
    Spread(recent, i, |recent| - 1);
    assert recent[|recent| - 1] in recent;
    if |recent| >= MAX_ENTRIES {
      assert i >= |recent| - (MAX_ENTRIES - 1);
      assert Trimmed(recent)[i - (|recent| - (MAX_ENTRIES - 1))] == e;
    }
    assert e in Trimmed(recent);
  }

  lemma TrimmedWithin(recent: seq<Entry>)
    requires Ascending(recent)
    ensures Ascending(Trimmed(recent)) && (forall e :: e in Trimmed(recent) ==> e in recent) && |Trimmed(recent)| < MAX_ENTRIES
  {
  }

  lemma RememberedComplete(s: State, token: Token, outcome: Outcome)
    requires Ascending(s.recent) && Logged(s) && Complete(s) && !outcome.Unavailable?
    ensures Complete(Remembered(s, token, outcome))
  {
    var t := Remembered(s, token, outcome);
    var left := Minus(s.recent, Expired(s.recent, s.now));
    MinusAscends(s.recent, Expired(s.recent, s.now));
    forall k | 0 <= k < |t.log| && k + MAX_ENTRIES >= |t.log| && t.log[k].at + GRACE > t.now ensures Holds(t.recent, k) {
      if k < |s.log| {
        assert Holds(s.recent, k);
        var e :| e in s.recent && e.index == k;
        assert e in left;
        TrimmedKeeps(left, |s.log|, k);
        hide Minus, Expired, Trimmed, Ascending;
        var f :| f in Trimmed(left) && f.index == k;
        assert f in t.recent;
      } else {
        assert t.recent[|t.recent| - 1].index == k;
      }
    }
  }

  lemma JustRemembered(s: State, token: Token, outcome: Outcome, kept: seq<Entry>)
    requires Ascending(kept) && Logged(s) && Shared(s) && token in s.inFlight
    requires forall e :: e in kept ==> e in s.recent
    ensures var last := Entry(token, outcome, s.now + GRACE, |s.log|);
            && Ascending(kept + [last])
            && Logged(s.(recent := kept + [last], log := s.log + [Settlement(token, outcome, s.now)]))
            && (forall e :: e in kept + [last] ==> e in s.recent || e.token == token)
  {
    forall i | 0 <= i < |kept| ensures kept[i].index < |s.log| && kept[i].token != token {
      assert kept[i] in kept;
    }
  }

  lemma RememberedRecent(s: State, token: Token, outcome: Outcome)
    requires Ascending(s.recent) && Logged(s) && Shared(s) && token in s.inFlight && !outcome.Unavailable?
    ensures var t := Remembered(s, token, outcome); Ascending(t.recent) && Logged(t) && |t.recent| <= MAX_ENTRIES
    ensures forall e :: e in Remembered(s, token, outcome).recent ==> e in s.recent || e.token == token
  {
    hide Minus, Expired, Trimmed, Ascending, Logged, Shared;
    var left := Minus(s.recent, Expired(s.recent, s.now));
    MinusAscends(s.recent, Expired(s.recent, s.now));
    TrimmedWithin(left);
    assert forall e :: e in Trimmed(left) ==> e in s.recent;
    JustRemembered(s, token, outcome, Trimmed(left));
  }

  lemma AskKeepsInv(s: State, token: Token)
    requires Inv(s)
    ensures Inv(Asked(s, token).0)
  {
    var (t, reply) := Asked(s, token);
    if t != s {
      var known := Find(s.recent, token);
      MinusAscends(s.recent, Of(s.recent, token));
      forall k | 0 <= k < |s.log| && k + MAX_ENTRIES >= |s.log| && s.log[k].at + GRACE > s.now ensures Holds(t.recent, k) {
        assert Holds(s.recent, k);
        var e :| e in s.recent && e.index == k;
        if e.token != token {
          assert e in t.recent;
        }
      }
      hide Find, Minus, Ascending, Complete;
    }
  }

  lemma StepKeepsInv(s: State, step: Step)
    requires Inv(s) && Enabled(s, step)
    ensures Inv(Do(s, step))
  {
    match step
    case Ask(token) => AskKeepsInv(s, token);
    case Settle(token, outcome) =>
      if !outcome.Unavailable? {
        RememberedComplete(s, token, outcome);
        RememberedRecent(s, token, outcome);
        hide Ascending;
      }
    case Pass(_) =>
  }

  predicate Legal(s: State, steps: seq<Step>)
    decreases |steps|
  {
    steps == [] || (Enabled(s, steps[0]) && Legal(Do(s, steps[0]), steps[1..]))
  }

  function Run(s: State, steps: seq<Step>): State
    requires Legal(s, steps)
    decreases |steps|
  {
    if steps == [] then s else Run(Do(s, steps[0]), steps[1..])
  }

  lemma {:induction false} RunKeepsInv(s: State, steps: seq<Step>)
    requires Inv(s) && Legal(s, steps)
    ensures Inv(Run(s, steps))
    decreases |steps|
  {
    if steps != [] {
      StepKeepsInv(s, steps[0]);
      hide Inv, Do, Enabled;
      RunKeepsInv(Do(s, steps[0]), steps[1..]);
    }
  }

  /** A definitive outcome still inside its window, and not yet pushed out by as many later ones as are kept. */
  predicate Answerable(s: State, k: nat)
    requires k < |s.log|
  {
    s.now < s.log[k].at + GRACE && |s.log| <= k + MAX_ENTRIES
  }

  /**
   * In every schedule: a caller shares an attempt for its own token, or is given
   * an outcome of that token from inside its window; a token is exchanged again
   * only if none of its outcomes is still answerable, so one that was spent is
   * not presented a second time while its window lasts; and the memory is bounded.
   */
  lemma NoReplayInTheWindow(steps: seq<Step>, token: Token)
    requires Legal(Start, steps)
    ensures var s := Run(Start, steps); var (t, reply) := Asked(s, token);
            && |s.recent| <= MAX_ENTRIES
            && (match reply
                case Share(a) => a < |t.attempts| && t.attempts[a].0 == token
                case Known(outcome) => exists k :: 0 <= k < |s.log| && s.log[k].token == token && s.log[k].outcome == outcome && s.now < s.log[k].at + GRACE)
            && (t.attempts != s.attempts ==>
                  && token !in s.inFlight && t.attempts == s.attempts + [(token, s.now)]
                  && (forall k :: 0 <= k < |s.log| && s.log[k].token == token ==> !Answerable(s, k)))
  {
    hide Legal, Run, Minus, Ascending, Find, Of, Answerable;
    StartHolds();
    RunKeepsInv(Start, steps);
    var s := Run(Start, steps);
    Bounded(s);
    if token !in s.inFlight {
      Replies(s, token);
    }
  }

  lemma StartHolds()
    ensures Inv(Start)
  {
  }

  lemma Bounded(s: State)
    requires Inv(s)
    ensures |s.recent| <= MAX_ENTRIES
    ensures forall token :: token in s.inFlight ==> s.inFlight[token] < |s.attempts| && s.attempts[s.inFlight[token]].0 == token
  {
  }

  lemma Replies(s: State, token: Token)
    requires Inv(s) && token !in s.inFlight
    ensures var (t, reply) := Asked(s, token);
            if reply.Known? then
              exists k :: 0 <= k < |s.log| && s.log[k].token == token && s.log[k].outcome == reply.outcome && s.now < s.log[k].at + GRACE
            else forall k :: 0 <= k < |s.log| && s.log[k].token == token ==> !Answerable(s, k)
  {
    var reply := Asked(s, token).1;
    var known := Find(s.recent, token);
    if reply.Known? {
      assert s.log[known.value.index].token == token;
    } else {
      forall k | 0 <= k < |s.log| && s.log[k].token == token ensures !Answerable(s, k) {
        if Answerable(s, k) {
          assert Holds(s.recent, k);
          Contradicted(s, token, k);
        }
      }
    }
  }

  /** An answerable outcome would have been found. */
  lemma Contradicted(s: State, token: Token, k: nat)
    requires Inv(s) && k < |s.log| && s.log[k].token == token && Answerable(s, k)
    ensures Find(s.recent, token).Some? && Find(s.recent, token).value.expiresAt > s.now
  {
    assert Holds(s.recent, k);
    var e :| e in s.recent && e.index == k;
    var known := Find(s.recent, token);
    assert e.token == token && known.value in s.recent;
    var i :| 0 <= i < |s.recent| && s.recent[i] == e;
    var j :| 0 <= j < |s.recent| && s.recent[j] == known.value;
    assert i == j;
  }

  // ---------------------------------------------------------- what has happened

  function Elapsed(steps: seq<Step>): Time {
    if steps == [] then 0 else Elapsed(steps[..|steps| - 1]) + if steps[|steps| - 1].Pass? then steps[|steps| - 1].time else 0
  }

  /** What was settled and is worth remembering, with the time it was settled at. */
  function Settlements(steps: seq<Step>): seq<Settlement> {
    if steps == [] then []
    else
      var (before, last) := (steps[..|steps| - 1], steps[|steps| - 1]);
      Settlements(before) + if last.Settle? && !last.outcome.Unavailable? then [Settlement(last.token, last.outcome, Elapsed(before))] else []
  }

  ghost predicate Told(s: State, steps: seq<Step>) {
    s.now == Elapsed(steps) && s.log == Settlements(steps)
  }

  lemma Tells(s: State, past: seq<Step>, step: Step)
    requires Told(s, past) && Enabled(s, step)
    ensures Told(Do(s, step), past + [step])
  {
    hide Minus, Expired, Trimmed, Of, Find;
    assert (past + [step])[..|past|] == past;
  }

  lemma {:induction false} RunTells(s: State, past: seq<Step>, steps: seq<Step>)
    requires Legal(s, steps) && Told(s, past)
    ensures Told(Run(s, steps), past + steps)
    decreases |steps|
  {
    if steps == [] {
      assert past + steps == past;
    } else {
      Tells(s, past, steps[0]);
      hide Do, Enabled, Told;
      RunTells(Do(s, steps[0]), past + [steps[0]], steps[1..]);
      assert past + [steps[0]] + steps[1..] == past + steps;
    }
  }

  /**
   * Over every run the log is what was settled and when, outcomes that spent
   * nothing left out; asking for a token leaves it in flight or was answered from
   * memory; and settling it takes it out of flight.
   */
  lemma RefreshFollowsItsSteps(steps: seq<Step>, token: Token, outcome: Outcome)
    requires Legal(Start, steps)
    ensures var s := Run(Start, steps);
            && s.now == Elapsed(steps) && s.log == Settlements(steps)
            && Enabled(s, Ask(token))
            && (match Asked(s, token).1
                case Share(a) => token in Do(s, Ask(token)).inFlight && Do(s, Ask(token)).inFlight[token] == a
                case Known(_) => Do(s, Ask(token)) == s)
            && (Enabled(s, Settle(token, outcome)) <==> token in s.inFlight)
            && (token in s.inFlight ==> token !in Do(s, Settle(token, outcome)).inFlight)
  {
    RunTells(Start, [], steps);
    assert [] + steps == steps;
    hide Legal, Run, Minus, Expired, Trimmed, Of, Find;
  }

  /** Expired means that the time has come, to the instant. */
  lemma ExpiredExactly(recent: seq<Entry>, now: Time)
    ensures forall e :: e in Minus(recent, Expired(recent, now)) <==> e in recent && e.expiresAt > now
  {
  }
}
