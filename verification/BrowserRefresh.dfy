/**
 * The browser's shared refresh: any number of calls meeting a 401 at once, one
 * module-level promise, and sign-outs that detach it.
 */
module BrowserRefresh {
  import opened Wrappers

  datatype Answer = Renewed | Denied | Failed | Offline

  /** `Settled` has answered; its `finally` has not run until it is `Cleared`. */
  datatype Attempt = InFlight | Settled(answer: Answer) | Cleared(answer: Answer)

  datatype Stage = First | Waiting(attempt: nat) | Second | Returned

  datatype Call = Call(stage: Stage, requests: nat, joined: Option<nat>, told: Option<bool>)

  datatype State = State(pending: Option<nat>, attempts: seq<Attempt>, calls: seq<Call>, announced: nat)

  const Start: State := State(None, [], [], 0)

  datatype Step =
    | Begin
    | FirstAnswer(call: nat, unauthorized: bool)
    | Respond(attempt: nat, answer: Answer)
    | Clear(attempt: nat)
    | Resume(call: nat)
    | SecondAnswer(call: nat)
    | SignOut

  predicate Enabled(s: State, step: Step) {
    match step
    case Begin => true
    case FirstAnswer(c, _) => c < |s.calls| && s.calls[c].stage.First?
    case Respond(a, _) => a < |s.attempts| && s.attempts[a].InFlight?
    case Clear(a) => a < |s.attempts| && s.attempts[a].Settled?
    case Resume(c) =>
      c < |s.calls| && s.calls[c].stage.Waiting? && s.calls[c].stage.attempt < |s.attempts|
      && s.attempts[s.calls[c].stage.attempt].Cleared?
    case SecondAnswer(c) => c < |s.calls| && s.calls[c].stage.Second?
    case SignOut => true
  }

  /** `refreshOnce`: join the pending attempt, or start one and make it pending. */
  function Joined(s: State): (State, nat) {
    if s.pending.Some? then (s, s.pending.value)
    else (s.(pending := Some(|s.attempts|), attempts := s.attempts + [InFlight]), |s.attempts|)
  }

  function Do(s: State, step: Step): State
    requires Enabled(s, step)
  {
    match step
    case Begin => s.(calls := s.calls + [Call(First, 1, None, None)])
    case FirstAnswer(c, unauthorized) =>
      if !unauthorized then s.(calls := s.calls[c := s.calls[c].(stage := Returned)])
      else
        var (t, a) := Joined(s);
        t.(calls := s.calls[c := s.calls[c].(stage := Waiting(a), joined := Some(a))])
    case Respond(a, answer) =>
      s.(attempts := s.attempts[a := Settled(answer)], announced := s.announced + if answer.Denied? then 1 else 0)
    case Clear(a) => s.(attempts := s.attempts[a := Cleared(s.attempts[a].answer)], pending := None)
    case Resume(c) =>
      var k, ok := s.calls[c], s.attempts[s.calls[c].stage.attempt].answer.Renewed?;
      s.(calls := s.calls[c := if ok then Call(Second, k.requests + 1, k.joined, Some(true)) else k.(stage := Returned, told := Some(false))])
    case SecondAnswer(c) => s.(calls := s.calls[c := s.calls[c].(stage := Returned)])
    case SignOut => s.(pending := None)
  }

  /** The module's own state, and the synchronous stretches of its functions. */
  class Browser {
    var pending: Option<nat>
    var attempts: seq<Attempt>
    var announced: nat

    constructor ()
      ensures pending == None && attempts == [] && announced == 0
    {
      pending, attempts, announced := None, [], 0;
    }

    method RefreshOnce(ghost calls: seq<Call>) returns (attempt: nat)
      modifies this`pending, this`attempts
      ensures var before := State(old(pending), old(attempts), calls, announced);
              (State(pending, attempts, calls, announced), attempt) == Joined(before)
    {
      if pending.Some? { return pending.value; }
      attempt := |attempts|;
      attempts := attempts + [InFlight];
      pending := Some(attempt);
    }

    method OnResponse(attempt: nat, answer: Answer, ghost calls: seq<Call>)
      requires Enabled(State(pending, attempts, calls, announced), Respond(attempt, answer))
      modifies this`attempts, this`announced
      ensures State(pending, attempts, calls, announced)
              == Do(State(old(pending), old(attempts), calls, old(announced)), Respond(attempt, answer))
    {
      attempts := attempts[attempt := Settled(answer)];
      if answer.Denied? { announced := announced + 1; }
    }

    /** The `finally`: it clears whatever is pending, its own attempt or not. */
    method OnFinally(attempt: nat, ghost calls: seq<Call>)
      requires Enabled(State(pending, attempts, calls, announced), Clear(attempt))
      modifies this`attempts, this`pending
      ensures State(pending, attempts, calls, announced)
              == Do(State(old(pending), old(attempts), calls, announced), Clear(attempt))
    {
      attempts := attempts[attempt := Cleared(attempts[attempt].answer)];
      pending := None;
    }

    method Detach()
      modifies this`pending
      ensures pending == None
    {
      pending := None;
    }
  }

  // ---------------------------------------------------------------- invariant

  function Denials(attempts: seq<Attempt>): nat {
    if attempts == [] then 0
    else Denials(attempts[..|attempts| - 1]) + Denial(attempts[|attempts| - 1])
  }

  function Denial(a: Attempt): nat {
    if !a.InFlight? && a.answer.Denied? then 1 else 0
  }

  lemma {:induction false} DenialsUpdated(attempts: seq<Attempt>, i: nat, a: Attempt)
    requires i < |attempts|
    ensures Denials(attempts[i := a]) == Denials(attempts) + Denial(a) - Denial(attempts[i])
    decreases |attempts|
  {
    var last := |attempts| - 1;
    if i == last {
      assert attempts[i := a][..last] == attempts[..last];
    } else {
      DenialsUpdated(attempts[..last], i, a);
      assert attempts[i := a][..last] == attempts[..last][i := a];
    }
  }

  predicate CallFits(s: State, k: Call) {
    && k.requests == (if k.stage.Second? || k.told == Some(true) then 2 else 1)
    && (k.stage.Waiting? ==> k.joined == Some(k.stage.attempt) && k.told.None?)
    && (k.stage.First? ==> k.told.None? && k.joined.None?)
    && (k.stage.Second? ==> k.told == Some(true))
    && (k.told.Some? ==> k.joined.Some?)
    && (k.joined.Some? ==> k.joined.value < |s.attempts|)
    && (k.told.Some? ==> s.attempts[k.joined.value].Cleared? && k.told.value == s.attempts[k.joined.value].answer.Renewed?)
  }

  ghost predicate Inv(s: State) {
    && (s.pending.Some? ==> s.pending.value < |s.attempts| && !s.attempts[s.pending.value].Cleared?)
    && (forall c :: 0 <= c < |s.calls| ==> CallFits(s, s.calls[c]))
    && s.announced == Denials(s.attempts)
  }

  /** Every attempt still going is the pending one. */
  ghost predicate Tidy(s: State) {
    forall a :: 0 <= a < |s.attempts| && !s.attempts[a].Cleared? ==> s.pending == Some(a)
  }

  lemma CallsFitKept(s: State, step: Step)
    requires Inv(s) && Enabled(s, step)
    ensures var t := Do(s, step); forall c :: 0 <= c < |t.calls| ==> CallFits(t, t.calls[c])
  {
    hide Denials, Denial;
  }

  lemma DenialsKept(s: State, step: Step)
    requires Enabled(s, step) && s.announced == Denials(s.attempts)
    ensures Do(s, step).announced == Denials(Do(s, step).attempts)
  {
    match step
    case FirstAnswer(_, _) => assert (s.attempts + [InFlight])[..|s.attempts|] == s.attempts;
    case Respond(a, answer) => DenialsUpdated(s.attempts, a, Settled(answer));
    case Clear(a) => DenialsUpdated(s.attempts, a, Cleared(s.attempts[a].answer));
    case _ =>
  }

  lemma StepKeepsInv(s: State, step: Step)
    requires Inv(s) && Enabled(s, step)
    ensures Inv(Do(s, step))
  {
    hide CallFits, Denials;
    CallsFitKept(s, step);
    DenialsKept(s, step);
  }

  lemma TidyStep(s: State, step: Step)
    requires Inv(s) && Tidy(s) && Enabled(s, step) && !step.SignOut?
    ensures Tidy(Do(s, step))
  {
  }

  // --------------------------------------------------------------------- runs

  predicate Legal(s: State, steps: seq<Step>)
    decreases |steps|
  {
    steps == [] || (Enabled(s, steps[0]) && Legal(Do(s, steps[0]), steps[1..]))
  }

  function Run(s: State, steps: seq<Step>): State
    requires Legal(s, steps)
    decreases |steps|
  {
    if steps == [] then s else Run(Do(s, steps[0]), steps[1..])
  }

  predicate NoSignOut(steps: seq<Step>) {
    forall i :: 0 <= i < |steps| ==> !steps[i].SignOut?
  }

  lemma {:induction false} RunKeeps(s: State, steps: seq<Step>)
    requires Inv(s) && Legal(s, steps)
    ensures Inv(Run(s, steps)) && (Tidy(s) && NoSignOut(steps) ==> Tidy(Run(s, steps)))
    decreases |steps|
  {
    if steps != [] {
      StepKeepsInv(s, steps[0]);
      if Tidy(s) && NoSignOut(steps) { TidyStep(s, steps[0]); }
      hide Inv, Tidy, Do, Enabled;
      RunKeeps(Do(s, steps[0]), steps[1..]);
    }
  }

  /**
   * In every schedule: a call sends at most two requests, whoever joined an
   * attempt is told that attempt's outcome, and the listeners have been fired
   * once for each definitive failure. Without a sign-out, one refresh at a time.
   */
  lemma OneRefreshSharedByAll(steps: seq<Step>)
    requires Legal(Start, steps)
    ensures var s := Run(Start, steps);
            && (forall c :: 0 <= c < |s.calls| ==>
                  && s.calls[c].requests <= 2
                  && (s.calls[c].told.Some? ==>
                        && s.calls[c].joined.Some? && s.calls[c].joined.value < |s.attempts|
                        && s.attempts[s.calls[c].joined.value].Cleared?
                        && s.calls[c].told.value == s.attempts[s.calls[c].joined.value].answer.Renewed?))
            && s.announced == Denials(s.attempts)
            && (NoSignOut(steps) ==> forall a, b :: 0 <= a < b < |s.attempts| ==> s.attempts[a].Cleared? || s.attempts[b].Cleared?)
  {
    RunKeeps(Start, steps);
    var s := Run(Start, steps);
    forall c | 0 <= c < |s.calls| ensures CallFits(s, s.calls[c]) {}
  }

  // ------------------------------------------------------ when two can be sent

  predicate Doubled(s: State) {
    exists a, b :: 0 <= a < b < |s.attempts| && s.attempts[a].InFlight? && s.attempts[b].InFlight?
  }

  /** Two refreshes can be in flight at once, now or later, with no further sign-out. */
  ghost predicate CanDouble(s: State) {
    exists steps :: Legal(s, steps) && NoSignOut(steps) && Doubled(Run(s, steps))
  }

  lemma Later(s: State, step: Step)
    requires Enabled(s, step) && !step.SignOut? && CanDouble(Do(s, step))
    ensures CanDouble(s)
  {
    var steps :| Legal(Do(s, step), steps) && NoSignOut(steps) && Doubled(Run(Do(s, step), steps));
    hide Enabled, Do, Doubled;
    assert ([step] + steps)[1..] == steps;
    assert Legal(s, [step] + steps) && NoSignOut([step] + steps) && Run(s, [step] + steps) == Run(Do(s, step), steps);
  }

  lemma Already(s: State)
    requires Doubled(s)
    ensures CanDouble(s)
  {
    assert Legal(s, []) && NoSignOut([]) && Run(s, []) == s;
  }

  /** With nothing pending, the next call's 401 starts a refresh. */
  lemma Starts(s: State)
    requires s.pending.None?
    ensures var c := |s.calls|; var t := Do(s, Begin);
            && Enabled(t, FirstAnswer(c, true))
            && var u := Do(t, FirstAnswer(c, true));
               u.attempts == s.attempts + [InFlight] && u.pending == Some(|s.attempts|)
  {
  }

  lemma LooseInFlight(s: State, a: nat)
    requires s.pending.None? && a < |s.attempts| && s.attempts[a].InFlight?
    ensures CanDouble(s)
  {
    Starts(s);
    var t := Do(s, Begin);
    var u := Do(t, FirstAnswer(|s.calls|, true));
    assert u.attempts[a].InFlight? && u.attempts[|s.attempts|].InFlight?;
    Already(u);
    hide Do, CanDouble, Doubled;
    Later(t, FirstAnswer(|s.calls|, true));
    Later(s, Begin);
  }

  lemma LooseSettled(s: State, a: nat)
    requires s.pending.None? && a < |s.attempts| && s.attempts[a].Settled?
    ensures CanDouble(s)
  {
    Starts(s);
    var t := Do(s, Begin);
    var u := Do(t, FirstAnswer(|s.calls|, true));
    var v := Do(u, Clear(a));
    assert v.pending.None? && v.attempts[|s.attempts|].InFlight?;
    LooseInFlight(v, |s.attempts|);
    hide Do, CanDouble;
    Later(u, Clear(a));
    Later(t, FirstAnswer(|s.calls|, true));
    Later(s, Begin);
  }

  lemma UntidyDoubles(s: State, a: nat)
    requires Inv(s) && a < |s.attempts| && !s.attempts[a].Cleared? && s.pending != Some(a)
    ensures CanDouble(s)
  {
    if s.pending.None? {
      if s.attempts[a].InFlight? { LooseInFlight(s, a); } else { LooseSettled(s, a); }
    } else {
      var b := s.pending.value;
      if s.attempts[b].Settled? {
        var t := Do(s, Clear(b));
        if s.attempts[a].InFlight? { LooseInFlight(t, a); } else { LooseSettled(t, a); }
        Later(s, Clear(b));
      } else if s.attempts[a].InFlight? {
        assert Doubled(s) by { assert if a < b then s.attempts[a].InFlight? && s.attempts[b].InFlight? else s.attempts[b].InFlight? && s.attempts[a].InFlight?; }
        Already(s);
      } else {
        var t := Do(s, Clear(a));
        assert t.pending.None? && t.attempts[b].InFlight?;
        LooseInFlight(t, b);
        Later(s, Clear(a));
      }
    }
  }

  /**
   * Exactly when the single flight can be broken without another sign-out: some
   * attempt is still going that is not the pending one. A sign-out leaves such an
   * attempt if and only if it finds one pending; its late `finally` then unpins
   * whatever attempt came after it.
   */
  lemma SingleFlightExactly(s: State)
    requires Inv(s)
    ensures CanDouble(s) <==> !Tidy(s)
    ensures Tidy(s) ==> (Tidy(Do(s, SignOut)) <==> s.pending.None?)
  {
    if !Tidy(s) {
      var a :| 0 <= a < |s.attempts| && !s.attempts[a].Cleared? && s.pending != Some(a);
      UntidyDoubles(s, a);
    } else {
      forall steps | Legal(s, steps) && NoSignOut(steps) ensures !Doubled(Run(s, steps)) {
        RunKeeps(s, steps);
      }
      if s.pending.Some? {
        assert !Do(s, SignOut).attempts[s.pending.value].Cleared?;
      }
    }
  }

  const SignOutScript: seq<Step> := [Begin, FirstAnswer(0, true), SignOut, Begin, FirstAnswer(1, true)]

  lemma Then(s: State, step: Step, rest: seq<Step>)
    requires Enabled(s, step) && Legal(Do(s, step), rest)
    ensures Legal(s, [step] + rest) && Run(s, [step] + rest) == Run(Do(s, step), rest)
  {
    hide Enabled, Do;
    assert ([step] + rest)[1..] == rest;
  }

  lemma SignsOutInFlight(waiting: Call)
    requires waiting == Call(Waiting(0), 1, Some(0), None)
    ensures Enabled(Start, Begin) && Enabled(Do(Start, Begin), FirstAnswer(0, true))
    ensures var s2 := Do(Do(Start, Begin), FirstAnswer(0, true));
            Enabled(s2, SignOut) && Do(s2, SignOut) == State(None, [InFlight], [waiting], 0)
  {
    assert Do(Start, Begin) == State(None, [], [Call(First, 1, None, None)], 0);
  }

  lemma NextCallRefreshes(waiting: Call)
    ensures var s := State(None, [InFlight], [waiting], 0); var t := Do(s, Begin);
            && Enabled(s, Begin) && Enabled(t, FirstAnswer(1, true))
            && Do(t, FirstAnswer(1, true)).attempts == [InFlight, InFlight]
  {
    var s := State(None, [InFlight], [waiting], 0);
    assert Do(s, Begin) == State(None, [InFlight], [waiting, Call(First, 1, None, None)], 0);
  }

  /** A sign-out while a refresh is in flight, and a call of the next user's: two refreshes at once. */
  lemma SignOutDoublesTheFlight()
    ensures Legal(Start, SignOutScript) && Doubled(Run(Start, SignOutScript))
  {
    hide Do, Enabled;
    var waiting := Call(Waiting(0), 1, Some(0), None);
    SignsOutInFlight(waiting);
    NextCallRefreshes(waiting);
    var s3 := State(None, [InFlight], [waiting], 0);
    var s4 := Do(s3, Begin);
    var s5 := Do(s4, FirstAnswer(1, true));
    assert s5.attempts[0].InFlight? && s5.attempts[1].InFlight? && Doubled(s5);
    Stays(s5);
    hide Legal, Run, Doubled;
    Then(s4, FirstAnswer(1, true), []);
    Then(s3, Begin, [FirstAnswer(1, true)] + []);
    var s1 := Do(Start, Begin);
    Then(Do(s1, FirstAnswer(0, true)), SignOut, [Begin] + ([FirstAnswer(1, true)] + []));
    Then(s1, FirstAnswer(0, true), [SignOut] + ([Begin] + ([FirstAnswer(1, true)] + [])));
    Then(Start, Begin, [FirstAnswer(0, true)] + ([SignOut] + ([Begin] + ([FirstAnswer(1, true)] + []))));
    assert SignOutScript == [Begin] + ([FirstAnswer(0, true)] + ([SignOut] + ([Begin] + ([FirstAnswer(1, true)] + []))));
  }

  lemma Stays(s: State)
    ensures Legal(s, []) && Run(s, []) == s
  {
  }

  // ---------------------------------------------------------- calls come to an end

  /** What a call can still do, counting its share of a refresh. */
  function CallBudget(k: Call): nat {
    match k.stage
    case First => 5
    case Waiting(_) => 2
    case Second => 1
    case Returned => 0
  }

  function AttemptBudget(a: Attempt): nat {
    match a
    case InFlight => 2
    case Settled(_) => 1
    case Cleared(_) => 0
  }

  function CallsLeft(calls: seq<Call>): nat {
    if calls == [] then 0 else CallsLeft(calls[..|calls| - 1]) + CallBudget(calls[|calls| - 1])
  }

  function AttemptsLeft(attempts: seq<Attempt>): nat {
    if attempts == [] then 0 else AttemptsLeft(attempts[..|attempts| - 1]) + AttemptBudget(attempts[|attempts| - 1])
  }

  lemma {:induction false} CallsLeftUpdated(calls: seq<Call>, i: nat, k: Call)
    requires i < |calls|
    ensures CallsLeft(calls[i := k]) == CallsLeft(calls) + CallBudget(k) - CallBudget(calls[i])
    decreases |calls|
  {
    var last := |calls| - 1;
    if i == last {
      assert calls[i := k][..last] == calls[..last];
    } else {
      CallsLeftUpdated(calls[..last], i, k);
      assert calls[i := k][..last] == calls[..last][i := k];
    }
  }

  lemma {:induction false} AttemptsLeftUpdated(attempts: seq<Attempt>, i: nat, a: Attempt)
    requires i < |attempts|
    ensures AttemptsLeft(attempts[i := a]) == AttemptsLeft(attempts) + AttemptBudget(a) - AttemptBudget(attempts[i])
    decreases |attempts|
  {
    var last := |attempts| - 1;
    if i == last {
      assert attempts[i := a][..last] == attempts[..last];
    } else {
      AttemptsLeftUpdated(attempts[..last], i, a);
      assert attempts[i := a][..last] == attempts[..last][i := a];
    }
  }

  function Left(s: State): nat {
    CallsLeft(s.calls) + AttemptsLeft(s.attempts)
  }

  predicate Onward(step: Step) {
    !step.Begin? && !step.SignOut?
  }

  lemma LeftStep(s: State, step: Step)
    requires Inv(s) && Enabled(s, step)
    ensures Onward(step) ==> Left(Do(s, step)) + 1 <= Left(s)
    ensures step.SignOut? ==> Left(Do(s, step)) == Left(s)
    ensures step.Begin? ==> Left(Do(s, step)) == Left(s) + 5
  {
    var t := Do(s, step);
    match step
    case Begin => assert t.calls[..|s.calls|] == s.calls;
    case FirstAnswer(c, unauthorized) =>
      CallsLeftUpdated(s.calls, c, t.calls[c]);
      if t.attempts != s.attempts { assert t.attempts[..|s.attempts|] == s.attempts; }
    case Respond(a, answer) => AttemptsLeftUpdated(s.attempts, a, t.attempts[a]);
    case Clear(a) => AttemptsLeftUpdated(s.attempts, a, t.attempts[a]);
    case Resume(c) => CallsLeftUpdated(s.calls, c, t.calls[c]);
    case SecondAnswer(c) => CallsLeftUpdated(s.calls, c, t.calls[c]);
    case SignOut =>
  }

  function Onwards(steps: seq<Step>): nat {
    if steps == [] then 0 else (if Onward(steps[0]) then 1 else 0) + Onwards(steps[1..])
  }

  function Begins(steps: seq<Step>): nat {
    if steps == [] then 0 else (if steps[0].Begin? then 1 else 0) + Begins(steps[1..])
  }

  lemma {:induction false} LeftRun(s: State, steps: seq<Step>)
    requires Inv(s) && Legal(s, steps)
    ensures Left(Run(s, steps)) + Onwards(steps) <= Left(s) + 5 * Begins(steps)
    decreases |steps|
  {
    if steps != [] {
      StepKeepsInv(s, steps[0]);
      LeftStep(s, steps[0]);
      hide Inv, Do, Enabled, Left;
      LeftRun(Do(s, steps[0]), steps[1..]);
    }
  }

  /** While a call has not returned, some answer, clearing or resumption is due. */
  lemma SomethingIsDue(s: State, c: nat)
    requires Inv(s) && c < |s.calls| && !s.calls[c].stage.Returned?
    ensures exists step :: Onward(step) && Enabled(s, step)
  {
    assert CallFits(s, s.calls[c]);
    match s.calls[c].stage
    case First => assert Enabled(s, FirstAnswer(c, false));
    case Waiting(a) =>
      match s.attempts[a] {
        case InFlight => assert Enabled(s, Respond(a, Renewed));
        case Settled(_) => assert Enabled(s, Clear(a));
        case Cleared(_) => assert Enabled(s, Resume(c));
      }
    case Second => assert Enabled(s, SecondAnswer(c));
    case Returned =>
  }

  /**
   * Every call comes to an end, sign-outs or not: no more steps are taken than
   * five for each call begun, and until every call has returned there is one to
   * take.
   */
  lemma CallsFinish(steps: seq<Step>)
    requires Legal(Start, steps)
    ensures Onwards(steps) <= 5 * Begins(steps)
    ensures var s := Run(Start, steps);
            && (forall step :: Onward(step) ==> !Enabled(s, step)) ==> forall c :: 0 <= c < |s.calls| ==> s.calls[c].stage.Returned?
  {
    RunKeeps(Start, steps);
    LeftRun(Start, steps);
    var s := Run(Start, steps);
    if c :| 0 <= c < |s.calls| && !s.calls[c].stage.Returned? { SomethingIsDue(s, c); }
  }

  // --------------------------------------------------------- what was answered

  /** A call joins a refresh exactly if its first answer was a 401; any other answer is its last. */
  ghost predicate AnswersTell(s: State, steps: seq<Step>) {
    && (forall c :: 0 <= c < |s.calls| ==>
          && (s.calls[c].joined.Some? <==> FirstAnswer(c, true) in steps)
          && (s.calls[c].stage.First? <==> FirstAnswer(c, true) !in steps && FirstAnswer(c, false) !in steps)
          && (FirstAnswer(c, false) in steps ==> s.calls[c] == Call(Returned, 1, None, None)))
    && (forall c: nat, unauthorized :: c >= |s.calls| ==> FirstAnswer(c, unauthorized) !in steps)
  }

  lemma AnswersStep(s: State, past: seq<Step>, step: Step)
    requires Inv(s) && AnswersTell(s, past) && Enabled(s, step)
    ensures AnswersTell(Do(s, step), past + [step])
  {
    hide Denials;
    forall x: Step ensures x in past + [step] <==> x in past || x == step {}
    forall c | 0 <= c < |s.calls| ensures CallFits(s, s.calls[c]) {}
  }

  lemma {:induction false} AnswersRun(s: State, past: seq<Step>, steps: seq<Step>)
    requires Inv(s) && Legal(s, steps) && AnswersTell(s, past)
    ensures AnswersTell(Run(s, steps), past + steps)
    decreases |steps|
  {
    if steps == [] {
      assert past + steps == past;
    } else {
      StepKeepsInv(s, steps[0]);
      AnswersStep(s, past, steps[0]);
      hide Inv, Do, Enabled, AnswersTell;
      AnswersRun(Do(s, steps[0]), past + [steps[0]], steps[1..]);
      assert past + [steps[0]] + steps[1..] == past + steps;
    }
  }

  /** Over every run only a 401 makes a call refresh: any other first answer is what the call returns, after one request. */
  lemma OnlyA401Refreshes(steps: seq<Step>)
    requires Legal(Start, steps)
    ensures AnswersTell(Run(Start, steps), steps)
  {
    AnswersRun(Start, [], steps);
    assert [] + steps == steps;
  }
}
