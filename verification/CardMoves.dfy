/**
 * Sending card moves from one client: per card, a chain of requests in which each
 * waits for the one before it and a refusal disowns everything behind it.
 */
module CardMoves {
  import opened Wrappers

  type CardId = nat

  /** A move is named by its place in the order the user made them. */
  type MoveId = nat

  datatype Status =
    | Waiting    // drawn, held at the gate
    | Sent       // its request is in flight
    | Accepted
    | Refused
    | Abandoned  // disowned at the gate: no request, no message

  datatype Move = Move(card: CardId, previous: Option<MoveId>, status: Status)

  datatype Answer = Ok | Conflict | OtherFailure

  datatype Report = Cleared(move: MoveId) | Failed(move: MoveId, conflict: bool)

  datatype State = State(
    moves: seq<Move>,
    inFlight: map<CardId, MoveId>,
    requests: seq<MoveId>,
    reports: seq<Report>)

  datatype Step = Drag(card: CardId) | PassGate(move: MoveId) | Answered(move: MoveId, answer: Answer)

  const Empty: State := State([], map[], [], [])

  predicate Settled(status: Status) {
    status.Accepted? || status.Refused? || status.Abandoned?
  }

  /** The promise the gate of a move waits on has resolved. */
  predicate GateOpen(s: State, id: MoveId)
    requires id < |s.moves|
  {
    var previous := s.moves[id].previous;
    previous.None? || (previous.value < |s.moves| && Settled(s.moves[previous.value].status))
  }

  predicate Enabled(s: State, step: Step) {
    match step
    case Drag(_) => true
    case PassGate(id) => id < |s.moves| && s.moves[id].status.Waiting? && GateOpen(s, id)
    case Answered(id, _) => id < |s.moves| && s.moves[id].status.Sent?
  }

  /** `onSettled`: resolve the promise, and drop the tail only if nobody queued behind. */
  function Settle(s: State, id: MoveId, status: Status): State
    requires id < |s.moves|
  {
    var move := s.moves[id];
    s.(moves := s.moves[id := move.(status := status)],
       inFlight := if move.card in s.inFlight && s.inFlight[move.card] == id then s.inFlight - {move.card} else s.inFlight)
  }

  function Do(s: State, step: Step): State
    requires Enabled(s, step)
  {
    match step
    case Drag(card) =>
      var previous := if card in s.inFlight then Some(s.inFlight[card]) else None;
      s.(moves := s.moves + [Move(card, previous, Waiting)], inFlight := s.inFlight[card := |s.moves|])
    case PassGate(id) =>
      var previous := s.moves[id].previous;
      if previous.Some? && !s.moves[previous.value].status.Accepted? then Settle(s, id, Abandoned)
      else s.(moves := s.moves[id := s.moves[id].(status := Sent)], requests := s.requests + [id])
    case Answered(id, answer) =>
      if answer.Ok? then Settle(s, id, Accepted).(reports := s.reports + [Cleared(id)])
      else Settle(s, id, Refused).(reports := s.reports + [Failed(id, answer.Conflict?)])
  }

  /** The hook: a mutable map of chain tails and one run per move. */
  class MoveQueue {
    var moves: seq<Move>
    var inFlight: map<CardId, MoveId>
    var requests: seq<MoveId>
    var reports: seq<Report>

    function Value(): State
      reads this
    {
      State(moves, inFlight, requests, reports)
    }

    constructor ()
      ensures Value() == Empty
    {
      moves, inFlight, requests, reports := [], map[], [], [];
    }

    method Drag(card: CardId) returns (mine: MoveId)
      modifies this
      ensures mine == |old(moves)| && Value() == Do(old(Value()), Step.Drag(card))
    {
      var previous := if card in inFlight then Some(inFlight[card]) else None;
      mine := |moves|;
      moves := moves + [Move(card, previous, Waiting)];
      inFlight := inFlight[card := mine];
    }

    /** The `finally` of a run. */
    method OnSettled(mine: MoveId, status: Status)
      requires mine < |moves|
      modifies this`moves, this`inFlight
      ensures Value() == Settle(old(Value()), mine, status)
    {
      var card := moves[mine].card;
      moves := moves[mine := moves[mine].(status := status)];
      if card in inFlight && inFlight[card] == mine {
        inFlight := inFlight - {card};
      }
    }

    method PassGate(mine: MoveId)
      requires Enabled(Value(), Step.PassGate(mine))
      modifies this
      ensures Value() == Do(old(Value()), Step.PassGate(mine))
    {
      var previous := moves[mine].previous;
      if previous.Some? {
        var accepted := moves[previous.value].status.Accepted?;
        if !accepted {
          OnSettled(mine, Abandoned);
          return;
        }
      }
      moves := moves[mine := moves[mine].(status := Sent)];
      requests := requests + [mine];
    }

    method OnAnswer(mine: MoveId, answer: Answer)
      requires Enabled(Value(), Answered(mine, answer))
      modifies this
      ensures Value() == Do(old(Value()), Answered(mine, answer))
    {
      var accepted := answer.Ok?;
      if !accepted {
        reports := reports + [Failed(mine, answer.Conflict?)];
      } else {
        reports := reports + [Cleared(mine)];
      }
      OnSettled(mine, if accepted then Accepted else Refused);
    }
  }

  // -------------------------------------------------------------- invariant

  predicate Requested(status: Status) {
    status.Sent? || status.Accepted? || status.Refused?
  }

  /** `previous` is the card's move just before this one, or every earlier move had settled. */
  ghost predicate Linked(s: State) {
    forall i :: 0 <= i < |s.moves| ==>
      match s.moves[i].previous
      case Some(p) => && p < i && s.moves[p].card == s.moves[i].card
                      && (forall k :: p < k < i ==> s.moves[k].card != s.moves[i].card)
      case None => forall k :: 0 <= k < i && s.moves[k].card == s.moves[i].card ==> Settled(s.moves[k].status)
  }

  /** A move is past its gate only when everything before it on its card has settled. */
  ghost predicate InOrder(s: State) {
    forall i, k :: 0 <= k < i < |s.moves| && s.moves[k].card == s.moves[i].card && !s.moves[i].status.Waiting? ==>
      Settled(s.moves[k].status)
  }

  /** A request needs an accepted predecessor; an abandonment needs one that was not. */
  ghost predicate Gated(s: State) {
    forall i :: 0 <= i < |s.moves| ==>
      && (s.moves[i].previous.Some? ==> s.moves[i].previous.value < i)
      && (Requested(s.moves[i].status) && s.moves[i].previous.Some? ==>
            s.moves[s.moves[i].previous.value].status.Accepted?)
      && (s.moves[i].status.Abandoned? ==>
            && s.moves[i].previous.Some?
            && (s.moves[s.moves[i].previous.value].status.Refused? || s.moves[s.moves[i].previous.value].status.Abandoned?))
  }

  /** The map holds a card exactly while it has an unsettled move, and the entry is its latest. */
  ghost predicate TailsExact(s: State) {
    && (forall card :: card in s.inFlight ==>
          && s.inFlight[card] < |s.moves|
          && s.moves[s.inFlight[card]].card == card
          && !Settled(s.moves[s.inFlight[card]].status)
          && (forall k :: s.inFlight[card] < k < |s.moves| ==> s.moves[k].card != card))
    && (forall i :: 0 <= i < |s.moves| && !Settled(s.moves[i].status) ==> s.moves[i].card in s.inFlight)
  }

  /** Requests went out once each, in user order per card. */
  ghost predicate RequestsLogged(s: State) {
    && (forall a :: 0 <= a < |s.requests| ==> s.requests[a] < |s.moves| && Requested(s.moves[s.requests[a]].status))
    && (forall i :: 0 <= i < |s.moves| && Requested(s.moves[i].status) ==> i in s.requests)
    && (forall a, b :: 0 <= a < b < |s.requests| && s.moves[s.requests[a]].card == s.moves[s.requests[b]].card ==>
          s.requests[a] < s.requests[b])
  }

  /** Each answer was reported once, and nothing else was. */
  ghost predicate ReportsLogged(s: State) {
    && (forall r :: r in s.reports ==>
          r.move < |s.moves| && if r.Cleared? then s.moves[r.move].status.Accepted? else s.moves[r.move].status.Refused?)
    && (forall a, b :: 0 <= a < b < |s.reports| ==> s.reports[a].move != s.reports[b].move)
  }

  ghost predicate Logged(s: State) {
    RequestsLogged(s) && ReportsLogged(s)
  }

  ghost predicate Inv(s: State) {
    Linked(s) && InOrder(s) && Gated(s) && TailsExact(s) && Logged(s)
  }

  lemma DragKeepsInv(s: State, card: CardId)
    requires Inv(s)
    ensures Inv(Do(s, Drag(card)))
  {
    hide Logged, TailsExact, Linked;
    var t := Do(s, Drag(card));
    assert InOrder(t);
    assert Gated(t) by { DragLinked(s, card); DragGated(s, card); }
    DragLinked(s, card);
    DragTails(s, card);
    DragLogged(s, card);
  }

  lemma DragLinked(s: State, card: CardId)
    requires Linked(s) && TailsExact(s)
    ensures Linked(Do(s, Drag(card)))
  {
  }

  lemma DragGated(s: State, card: CardId)
    requires Gated(s) && TailsExact(s)
    ensures Gated(Do(s, Drag(card)))
  {
  }

  lemma DragTails(s: State, card: CardId)
    requires TailsExact(s)
    ensures TailsExact(Do(s, Drag(card)))
  {
  }

  lemma DragLogged(s: State, card: CardId)
    requires Logged(s)
    ensures Logged(Do(s, Drag(card)))
  {
  }

  /** Only move `id` changed, from an unsettled status to a later one. */
  ghost predicate Advances(s: State, t: State, id: MoveId) {
    && id < |s.moves| == |t.moves|
    && !Settled(s.moves[id].status)
    && !t.moves[id].status.Waiting?
    && t.moves[id].card == s.moves[id].card && t.moves[id].previous == s.moves[id].previous
    && (forall i :: 0 <= i < |s.moves| && i != id ==> t.moves[i] == s.moves[i])
  }

  lemma LinkedKept(s: State, t: State, id: MoveId)
    requires Linked(s) && Advances(s, t, id)
    ensures Linked(t)
  {
    forall i | 0 <= i < |t.moves|
      ensures match t.moves[i].previous
              case Some(p) => && p < i && t.moves[p].card == t.moves[i].card
                              && (forall k :: p < k < i ==> t.moves[k].card != t.moves[i].card)
              case None => forall k :: 0 <= k < i && t.moves[k].card == t.moves[i].card ==> Settled(t.moves[k].status)
    {
      assert t.moves[i].previous == s.moves[i].previous && t.moves[i].card == s.moves[i].card;
    }
  }

  lemma InOrderKept(s: State, t: State, id: MoveId)
    requires InOrder(s) && Advances(s, t, id)
    requires forall k :: 0 <= k < id && s.moves[k].card == s.moves[id].card ==> Settled(s.moves[k].status)
    ensures InOrder(t)
  {
  }

  lemma GatedKept(s: State, t: State, id: MoveId)
    requires Linked(s) && Gated(s) && Advances(s, t, id)
    requires var previous := s.moves[id].previous;
             && (Requested(t.moves[id].status) && previous.Some? ==> s.moves[previous.value].status.Accepted?)
             && (t.moves[id].status.Abandoned? ==>
                   && previous.Some?
                   && (s.moves[previous.value].status.Refused? || s.moves[previous.value].status.Abandoned?))
    ensures Gated(t)
  {
    forall i | 0 <= i < |t.moves|
      ensures t.moves[i].previous.Some? ==> t.moves[i].previous.value < i
      ensures Requested(t.moves[i].status) && t.moves[i].previous.Some? ==> t.moves[t.moves[i].previous.value].status.Accepted?
      ensures t.moves[i].status.Abandoned? ==>
                && t.moves[i].previous.Some?
                && (t.moves[t.moves[i].previous.value].status.Refused? || t.moves[t.moves[i].previous.value].status.Abandoned?)
    {
      assert t.moves[i].previous == s.moves[i].previous;
      if i != id && t.moves[i].previous.Some? {
        assert t.moves[i].previous.value < i;
      }
    }
  }

  /** Move `id` is its card's earliest unsettled one. */
  lemma TailsKept(s: State, t: State, id: MoveId)
    requires TailsExact(s) && Advances(s, t, id)
    requires t.inFlight ==
             if Settled(t.moves[id].status) && s.moves[id].card in s.inFlight && s.inFlight[s.moves[id].card] == id
             then s.inFlight - {s.moves[id].card} else s.inFlight
    requires forall k :: 0 <= k < id && s.moves[k].card == s.moves[id].card ==> Settled(s.moves[k].status)
    ensures TailsExact(t)
  {
    var card := s.moves[id].card;
    assert card in s.inFlight;
    forall c | c in t.inFlight
      ensures t.inFlight[c] < |t.moves| && t.moves[t.inFlight[c]].card == c && !Settled(t.moves[t.inFlight[c]].status)
      ensures forall k :: t.inFlight[c] < k < |t.moves| ==> t.moves[k].card != c
    {
      assert c in s.inFlight && t.inFlight[c] == s.inFlight[c];
      assert forall k :: 0 <= k < |t.moves| ==> t.moves[k].card == s.moves[k].card;
    }
    forall i | 0 <= i < |t.moves| && !Settled(t.moves[i].status) ensures t.moves[i].card in t.inFlight {
      assert s.moves[i].card in s.inFlight;
    }
  }

  lemma PassGateKeepsInv(s: State, id: MoveId)
    requires Inv(s) && Enabled(s, PassGate(id))
    ensures Inv(Do(s, PassGate(id)))
  {
    var t := Do(s, PassGate(id));
    EarlierSettled(s, id);
    assert Advances(s, t, id);
    LinkedKept(s, t, id);
    InOrderKept(s, t, id);
    assert s.moves[id].previous.Some? ==> Settled(s.moves[s.moves[id].previous.value].status);
    GatedKept(s, t, id) by { hide InOrder, TailsExact, Logged; }
    TailsKept(s, t, id) by { hide InOrder, Gated, Logged, Linked; }
    LoggedAtGate(s, id);
  }

  lemma LoggedAtGate(s: State, id: MoveId)
    requires Logged(s) && Enabled(s, PassGate(id))
    requires forall k :: id < k < |s.moves| && s.moves[k].card == s.moves[id].card ==> s.moves[k].status.Waiting?
    ensures Logged(Do(s, PassGate(id)))
  {
    var t := Do(s, PassGate(id));
    assert ReportsLogged(t);
    hide ReportsLogged;
    assert forall i :: 0 <= i < |s.moves| ==> t.moves[i].card == s.moves[i].card;
    if t.moves[id].status.Sent? {
      LogGrows(s.requests, id);
      forall a | 0 <= a < |s.requests| && s.moves[s.requests[a]].card == s.moves[id].card ensures s.requests[a] < id {
        assert Requested(s.moves[s.requests[a]].status);
      }
    }
  }

  lemma LogGrows(requests: seq<MoveId>, id: MoveId)
    ensures forall i :: i in requests + [id] <==> i in requests || i == id
  {
  }

  /** When a waiting move's gate is open, everything before it on its card has settled and everything after it waits. */
  lemma EarlierSettled(s: State, id: MoveId)
    requires Inv(s) && Enabled(s, PassGate(id))
    ensures forall k :: 0 <= k < id && s.moves[k].card == s.moves[id].card ==> Settled(s.moves[k].status)
    ensures forall k :: id < k < |s.moves| && s.moves[k].card == s.moves[id].card ==> s.moves[k].status.Waiting?
  {
    hide TailsExact, Logged, Gated;
    var previous := s.moves[id].previous;
    forall k | 0 <= k < id && s.moves[k].card == s.moves[id].card ensures Settled(s.moves[k].status) {
      if previous.Some? && k < previous.value {
        assert !s.moves[previous.value].status.Waiting?;
      }
    }
  }

  lemma AnsweredKeepsInv(s: State, id: MoveId, answer: Answer)
    requires Inv(s) && Enabled(s, Answered(id, answer))
    ensures Inv(Do(s, Answered(id, answer)))
  {
    var t := Do(s, Answered(id, answer));
    assert forall k :: 0 <= k < id && s.moves[k].card == s.moves[id].card ==> Settled(s.moves[k].status);
    assert Advances(s, t, id);
    LinkedKept(s, t, id);
    InOrderKept(s, t, id);
    GatedKept(s, t, id) by { hide InOrder, TailsExact, Logged; }
    TailsKept(s, t, id) by { hide InOrder, Gated, Logged, Linked; }
    LoggedAtAnswer(s, id, answer);
  }

  lemma LoggedAtAnswer(s: State, id: MoveId, answer: Answer)
    requires Logged(s) && Enabled(s, Answered(id, answer))
    ensures Logged(Do(s, Answered(id, answer)))
  {
    var t := Do(s, Answered(id, answer));
    assert forall i :: 0 <= i < |s.moves| ==> t.moves[i].card == s.moves[i].card;
    assert forall r :: r in s.reports ==> r.move != id;
    assert forall a :: 0 <= a < |s.reports| ==> s.reports[a] in s.reports && t.reports[a] == s.reports[a];
  }

  lemma StepKeepsInv(s: State, step: Step)
    requires Inv(s) && Enabled(s, step)
    ensures Inv(Do(s, step))
  {
    hide Inv;
    match step {
      case Drag(card) => DragKeepsInv(s, card);
      case PassGate(id) => PassGateKeepsInv(s, id);
      case Answered(id, answer) => AnsweredKeepsInv(s, id, answer);
    }
  }

  predicate Legal(s: State, steps: seq<Step>)
    decreases |steps|
  {
    steps == [] || (Enabled(s, steps[0]) && Legal(Do(s, steps[0]), steps[1..]))
  }

  function Run(s: State, steps: seq<Step>): State
    requires Legal(s, steps)
    decreases |steps|
  {
    if steps == [] then s else Run(Do(s, steps[0]), steps[1..])
  }

  lemma {:induction false} RunKeepsInv(s: State, steps: seq<Step>)
    requires Inv(s) && Legal(s, steps)
    ensures Inv(Run(s, steps))
    decreases |steps|
  {
    hide Inv, Do;
    if steps != [] {
      StepKeepsInv(s, steps[0]);
      RunKeepsInv(Do(s, steps[0]), steps[1..]);
    }
  }

  lemma EmptyInv()
    ensures Inv(Empty)
  {
  }

  // ---------------------------------------------------------------- theorems

  /** One card's requests went out in the order its moves were made, each once, never two in flight. */
  ghost predicate SerialPerCard(s: State) {
    && (forall i, k :: 0 <= i < k < |s.moves| && s.moves[i].card == s.moves[k].card ==>
          !(s.moves[i].status.Sent? && s.moves[k].status.Sent?))
    && (forall a :: 0 <= a < |s.requests| ==> s.requests[a] < |s.moves|)
    && (forall a, b :: 0 <= a < b < |s.requests| && s.moves[s.requests[a]].card == s.moves[s.requests[b]].card ==>
          s.requests[a] < s.requests[b])
    && (forall i :: 0 <= i < |s.moves| ==> (i in s.requests <==> Requested(s.moves[i].status)))
  }

  lemma InvIsSerial(s: State)
    requires InOrder(s) && Logged(s)
    ensures SerialPerCard(s)
  {
  }

  /** Over every schedule of drags and answers. */
  lemma OneInFlightInUserOrder(steps: seq<Step>)
    requires Legal(Empty, steps)
    ensures SerialPerCard(Run(Empty, steps))
  {
    hide Linked, InOrder, Gated, TailsExact, Logged, SerialPerCard, Do;
    EmptyInv();
    RunKeepsInv(Empty, steps);
    InvIsSerial(Run(Empty, steps));
  }

  /** Every move that `id` was queued behind, directly or through others, was accepted. */
  ghost predicate ChainAccepted(s: State, id: MoveId)
    requires Linked(s) && id < |s.moves|
    decreases id
  {
    match s.moves[id].previous
    case None => true
    case Some(p) => s.moves[p].status.Accepted? && ChainAccepted(s, p)
  }

  /** `later` was queued behind `earlier`, directly or through others. */
  ghost predicate Behind(s: State, earlier: MoveId, later: MoveId)
    requires Linked(s) && later < |s.moves|
    decreases later
  {
    match s.moves[later].previous
    case None => false
    case Some(p) => p == earlier || Behind(s, earlier, p)
  }

  lemma {:induction false} RequestedChain(s: State, id: MoveId)
    requires Inv(s) && id < |s.moves| && Requested(s.moves[id].status)
    ensures ChainAccepted(s, id)
    decreases id
  {
    hide Logged, InOrder, TailsExact;
    if s.moves[id].previous.Some? {
      RequestedChain(s, s.moves[id].previous.value);
    }
  }

  lemma {:induction false} DisownedChain(s: State, earlier: MoveId, later: MoveId)
    requires Inv(s) && earlier < |s.moves| && later < |s.moves| && Behind(s, earlier, later)
    requires s.moves[earlier].status.Refused? || s.moves[earlier].status.Abandoned?
    ensures s.moves[later].status.Waiting? || s.moves[later].status.Abandoned?
    decreases later
  {
    hide Logged, InOrder, TailsExact;
    var p := s.moves[later].previous.value;
    if p != earlier {
      DisownedChain(s, earlier, p);
    }
  }

  // ---------------------------------------------- what the answers decided

  /** The answers given so far, and what became of the moves they were given to. */
  ghost predicate AnswersTell(s: State, steps: seq<Step>) {
    && (forall id: MoveId :: Answered(id, Ok) in steps <==> id < |s.moves| && s.moves[id].status.Accepted?)
    && (forall id: MoveId :: Answered(id, Conflict) in steps || Answered(id, OtherFailure) in steps
          <==> id < |s.moves| && s.moves[id].status.Refused?)
    && (forall id: MoveId :: Answered(id, Ok) in steps <==> Cleared(id) in s.reports)
    && (forall id: MoveId :: Answered(id, Conflict) in steps <==> Failed(id, true) in s.reports)
    && (forall id: MoveId :: Answered(id, OtherFailure) in steps <==> Failed(id, false) in s.reports)
  }

  lemma StatusAfter(s: State, step: Step, id: MoveId)
    requires Enabled(s, step)
    ensures var t := Do(s, step);
            && (id < |t.moves| && t.moves[id].status.Accepted? <==>
                  (id < |s.moves| && s.moves[id].status.Accepted?) || step == Answered(id, Ok))
            && (id < |t.moves| && t.moves[id].status.Refused? <==>
                  (id < |s.moves| && s.moves[id].status.Refused?) || step == Answered(id, Conflict) || step == Answered(id, OtherFailure))
  {
  }

  lemma ReportsAfter(s: State, step: Step)
    requires Enabled(s, step)
    ensures Do(s, step).reports == s.reports + if !step.Answered? then []
                                               else if step.answer == Ok then [Cleared(step.move)]
                                               else [Failed(step.move, step.answer == Conflict)]
  {
  }

  lemma AnswersTellStep(s: State, past: seq<Step>, step: Step)
    requires AnswersTell(s, past) && Enabled(s, step)
    ensures AnswersTell(Do(s, step), past + [step])
  {
    hide Do, Enabled;
    ReportsAfter(s, step);
    forall id: MoveId, a: Answer ensures Answered(id, a) in past + [step] <==> Answered(id, a) in past || step == Answered(id, a) {}
    forall id: MoveId { StatusAfter(s, step, id); }
  }

  lemma {:induction false} AnswersTellRun(s: State, past: seq<Step>, steps: seq<Step>)
    requires Inv(s) && AnswersTell(s, past) && Legal(s, steps)
    ensures AnswersTell(Run(s, steps), past + steps)
    decreases |steps|
  {
    hide Linked, InOrder, Gated, TailsExact, Logged, AnswersTell, Do, Enabled;
    if steps == [] {
      assert past + steps == past;
    } else {
      StepKeepsInv(s, steps[0]);
      AnswersTellStep(s, past, steps[0]);
      AnswersTellRun(Do(s, steps[0]), past + [steps[0]], steps[1..]);
      assert past + [steps[0]] + steps[1..] == past + steps;
    }
  }

  /**
   * Over every run an answer settles its move for good: accepted if it was a
   * success and refused otherwise, and exactly one report names the move, the
   * message cleared for a success, a failure for anything else, marked a conflict
   * for a 409 and for nothing else.
   */
  lemma AnswersDecide(steps: seq<Step>, id: MoveId, answer: Answer)
    requires Legal(Empty, steps) && Answered(id, answer) in steps
    ensures var s := Run(Empty, steps);
            && id < |s.moves| && s.moves[id].status == (if answer == Ok then Accepted else Refused)
            && exists i :: 0 <= i < |s.reports|
                           && s.reports[i] == (if answer == Ok then Cleared(id) else Failed(id, answer == Conflict))
                           && forall j :: 0 <= j < |s.reports| && j != i ==> s.reports[j].move != id
  {
    EmptyInv();
    RunKeepsInv(Empty, steps);
    AnswersTellRun(Empty, [], steps);
    assert [] + steps == steps;
    var s := Run(Empty, steps);
    hide Linked, InOrder, Gated, TailsExact, Run, Legal;
    var report := if answer == Ok then Cleared(id) else Failed(id, answer == Conflict);
    assert report in s.reports;
    var i :| 0 <= i < |s.reports| && s.reports[i] == report;
    assert forall j :: 0 <= j < |s.reports| && j != i ==> s.reports[j].move != id;
  }

  lemma {:induction false} ChainTells(s: State, earlier: MoveId, id: MoveId)
    requires Linked(s) && id < |s.moves| && ChainAccepted(s, id) && Behind(s, earlier, id)
    ensures earlier < |s.moves| && s.moves[earlier].status.Accepted?
    decreases id
  {
    var p := s.moves[id].previous.value;
    if p != earlier { ChainTells(s, earlier, p); }
  }

  /** Once a request has gone out, every move it was queued behind has been answered with a success. */
  lemma SentOnlyAfterAccepted(steps: seq<Step>, id: MoveId, earlier: MoveId)
    requires Legal(Empty, steps) && id in Run(Empty, steps).requests
    ensures var s := Run(Empty, steps);
            && Linked(s) && id < |s.moves| && ChainAccepted(s, id)
            && (Behind(s, earlier, id) ==> Answered(earlier, Ok) in steps)
  {
    EmptyInv();
    RunKeepsInv(Empty, steps);
    var s := Run(Empty, steps);
    RequestedChain(s, id);
    AnswersTellRun(Empty, [], steps);
    assert [] + steps == steps;
    hide Linked, InOrder, Gated, TailsExact, Run, Legal, Logged;
    if Behind(s, earlier, id) { ChainTells(s, earlier, id); }
  }

  /** A move answered with a failure abandons everything queued behind it, without a request or a report. */
  lemma RefusalDisownsTheQueue(steps: seq<Step>, refused: MoveId, answer: Answer, later: MoveId)
    requires Legal(Empty, steps) && Answered(refused, answer) in steps && answer != Ok
    requires var s := Run(Empty, steps); Linked(s) && later < |s.moves| && Behind(s, refused, later)
    ensures var s := Run(Empty, steps);
            && later !in s.requests && (forall a :: Answered(later, a) !in steps)
            && (forall r :: r in s.reports ==> r.move != later)
            && (Settled(s.moves[later].status) ==> s.moves[later].status.Abandoned?)
  {
    EmptyInv();
    RunKeepsInv(Empty, steps);
    AnswersTellRun(Empty, [], steps);
    assert [] + steps == steps;
    AnswersDecide(steps, refused, answer);
    var s := Run(Empty, steps);
    DisownedChain(s, refused, later);
    hide Linked, InOrder, Gated, TailsExact, Run, Legal;
    forall a ensures Answered(later, a) !in steps {
      assert a == Ok || a == Conflict || a == OtherFailure;
    }
  }

  /** The map holds a card exactly while it has an unsettled move, the entry being the latest. */
  lemma MapHoldsTheUnsettled(steps: seq<Step>, card: CardId)
    requires Legal(Empty, steps)
    ensures var s := Run(Empty, steps);
            && (card in s.inFlight <==> exists i :: 0 <= i < |s.moves| && s.moves[i].card == card && !Settled(s.moves[i].status))
            && (card in s.inFlight ==>
                  && s.inFlight[card] < |s.moves| && s.moves[s.inFlight[card]].card == card
                  && (forall k :: s.inFlight[card] < k < |s.moves| ==> s.moves[k].card != card))
  {
    EmptyInv();
    RunKeepsInv(Empty, steps);
    var s := Run(Empty, steps);
    hide Linked, InOrder, Gated, Logged;
    if card in s.inFlight {
      assert !Settled(s.moves[s.inFlight[card]].status);
    }
  }

  /** No move of a card is stranded: the earliest unsettled one is on the wire or its gate is open. */
  lemma NeverStranded(steps: seq<Step>, id: MoveId)
    requires Legal(Empty, steps)
    requires var s := Run(Empty, steps); id < |s.moves| && !Settled(s.moves[id].status)
    ensures var s := Run(Empty, steps);
            exists k :: 0 <= k <= id && s.moves[k].card == s.moves[id].card
                        && (s.moves[k].status.Sent? || Enabled(s, PassGate(k)))
  {
    EmptyInv();
    RunKeepsInv(Empty, steps);
    Unstranded(Run(Empty, steps), id);
  }

  lemma {:induction false} Unstranded(s: State, id: MoveId)
    requires Inv(s) && id < |s.moves| && !Settled(s.moves[id].status)
    ensures exists k :: 0 <= k <= id && s.moves[k].card == s.moves[id].card
                        && (s.moves[k].status.Sent? || Enabled(s, PassGate(k)))
    decreases id
  {
    hide Logged, InOrder, TailsExact, Gated;
    if s.moves[id].status.Sent? || Enabled(s, PassGate(id)) {
    } else {
      var p := s.moves[id].previous.value;
      assert p < id && s.moves[p].card == s.moves[id].card;
      Unstranded(s, p);
    }
  }

  function Remaining(moves: seq<Move>): nat {
    if moves == [] then 0
    else Remaining(moves[..|moves| - 1]) + match moves[|moves| - 1].status case Waiting => 2 case Sent => 1 case _ => 0
  }

  lemma {:induction false} RemainingDrops(before: seq<Move>, after: seq<Move>, id: MoveId)
    requires id < |before| == |after| && (forall i :: 0 <= i < |before| && i != id ==> after[i] == before[i])
    requires (before[id].status.Waiting? && !after[id].status.Waiting?)
             || (before[id].status.Sent? && Settled(after[id].status))
    ensures Remaining(after) < Remaining(before)
    decreases |before|
  {
    var last := |before| - 1;
    if id == last {
      assert after[..last] == before[..last];
    } else {
      RemainingDrops(before[..last], after[..last], id);
    }
  }

  lemma SomethingCanHappen(s: State, id: MoveId)
    requires Inv(s) && id < |s.moves| && !Settled(s.moves[id].status)
    ensures exists step: Step :: !step.Drag? && Enabled(s, step)
  {
    hide Linked, InOrder, Gated, Logged;
    Unstranded(s, id);
    var k :| 0 <= k <= id && (s.moves[k].status.Sent? || Enabled(s, PassGate(k)));
    assert Enabled(s, PassGate(k)) || Enabled(s, Answered(k, Ok));
  }

  predicate NoDrags(steps: seq<Step>) {
    forall i :: 0 <= i < |steps| ==> !steps[i].Drag?
  }

  /**
   * Once the user stops dragging the chains drain: gates and answers can be taken
   * only so often, and when no more can be, every move has settled and the map is empty.
   */
  lemma {:induction false} ChainsDrain(s: State, steps: seq<Step>)
    requires Inv(s) && Legal(s, steps) && NoDrags(steps)
    ensures |steps| <= Remaining(s.moves)
    ensures var t := Run(s, steps);
            (forall step: Step :: !step.Drag? ==> !Enabled(t, step)) ==>
              (forall i :: 0 <= i < |t.moves| ==> Settled(t.moves[i].status)) && t.inFlight == map[]
    decreases |steps|
  {
    hide Linked, InOrder, Gated, Logged;
    if steps != [] {
      StepKeepsInv(s, steps[0]);
      RemainingDrops(s.moves, Do(s, steps[0]).moves, steps[0].move);
      ChainsDrain(Do(s, steps[0]), steps[1..]);
    } else if forall step: Step :: !step.Drag? ==> !Enabled(s, step) {
      forall i | 0 <= i < |s.moves| ensures Settled(s.moves[i].status) {
        if !Settled(s.moves[i].status) {
          SomethingCanHappen(s, i);
        }
      }
    }
  }

  function CardOf(s: State, step: Step): CardId
    requires Enabled(s, step)
  {
    match step
    case Drag(card) => card
    case PassGate(id) => s.moves[id].card
    case Answered(id, _) => s.moves[id].card
  }

  /** No step of the run is about this card. */
  predicate Elsewhere(s: State, steps: seq<Step>, card: CardId)
    requires Legal(s, steps)
    decreases |steps|
  {
    steps == [] || (CardOf(s, steps[0]) != card && Elsewhere(Do(s, steps[0]), steps[1..], card))
  }

  /**
   * Cards never wait on each other: whatever happens to every other card, this
   * card's moves, its tail and which of its gates are open stay as they were.
   */
  lemma {:induction false} CardsAreIndependent(s: State, steps: seq<Step>, card: CardId)
    requires Inv(s) && Legal(s, steps) && Elsewhere(s, steps, card)
    ensures var t := Run(s, steps);
            && |s.moves| <= |t.moves| && (forall i :: 0 <= i < |s.moves| ==> t.moves[i].card == s.moves[i].card)
            && (forall i :: 0 <= i < |s.moves| && s.moves[i].card == card ==>
                  t.moves[i] == s.moves[i] && (Enabled(t, PassGate(i)) <==> Enabled(s, PassGate(i))))
            && (forall i :: |s.moves| <= i < |t.moves| ==> t.moves[i].card != card)
            && (card in t.inFlight <==> card in s.inFlight)
            && (card in s.inFlight ==> t.inFlight[card] == s.inFlight[card])
    decreases |steps|
  {
    hide Inv, InOrder, Gated, Logged, TailsExact;
    if steps != [] {
      StepKeepsInv(s, steps[0]);
      ElsewhereStep(s, steps[0], card);
      var m := Do(s, steps[0]);
      CardsAreIndependent(m, steps[1..], card);
      hide Do, Linked, Settled, Enabled;
      var t := Run(s, steps);
      assert t == Run(m, steps[1..]);
      forall i | |s.moves| <= i < |t.moves| ensures t.moves[i].card != card {
        if i < |m.moves| {
          assert t.moves[i].card == m.moves[i].card;
        }
      }
    }
  }

  lemma ElsewhereStep(s: State, step: Step, card: CardId)
    requires Inv(s) && Enabled(s, step) && CardOf(s, step) != card
    ensures var t := Do(s, step);
            && |s.moves| <= |t.moves| && (forall i :: 0 <= i < |s.moves| ==> t.moves[i].card == s.moves[i].card)
            && (forall i :: 0 <= i < |s.moves| && s.moves[i].card == card ==>
                  t.moves[i] == s.moves[i] && (Enabled(t, PassGate(i)) <==> Enabled(s, PassGate(i))))
            && (forall i :: |s.moves| <= i < |t.moves| ==> t.moves[i].card != card)
            && (card in t.inFlight <==> card in s.inFlight)
            && (card in s.inFlight ==> t.inFlight[card] == s.inFlight[card])
  {
    hide InOrder, Gated, Logged, TailsExact;
    var t := Do(s, step);
    forall i | 0 <= i < |s.moves| && s.moves[i].card == card
      ensures t.moves[i] == s.moves[i] && (Enabled(t, PassGate(i)) <==> Enabled(s, PassGate(i)))
    {
      if s.moves[i].previous.Some? {
        assert s.moves[s.moves[i].previous.value].card == card;
      }
    }
  }
}
