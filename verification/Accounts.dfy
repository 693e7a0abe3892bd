/**
 * Accounts, organizations and memberships: registration in two transactions that
 * can be cut apart by a crash, the cap on owned organizations, adding members,
 * and what a token may name. A step is one transaction.
 */
module Accounts {
  import opened Wrappers

  type UserId = nat
  type OrgId = nat

  datatype Role = Owner | Admin | Member

  const MAX_OWNED: nat := 5

  datatype Error =
    | EmailTaken
    | AlreadyHasOrganization
    | TooManyOrganizations
    | NotAMember
    | InsufficientRole
    | NoSuchAccount
    | AlreadyMember
    | InvalidRole
    | NoOrganization

  /** An organization to be provisioned for an account whose check has been passed. */
  datatype State = State(
    users: set<UserId>,
    orgs: set<OrgId>,
    members: map<(OrgId, UserId), Role>,
    pending: multiset<UserId>,
    peak: multiset<UserId>,          // the most checks each account ever had passed and not yet provisioned
    adding: set<Addition>,           // additions authorized and resolved, not yet written
    tokens: set<Token>)

  datatype Addition = Addition(actor: UserId, org: OrgId, target: UserId, role: Role)

  datatype Token = Token(user: UserId, org: OrgId, role: Role)

  const Start: State := State({}, {}, map[], multiset{}, multiset{}, {}, {})

  function OrgsOf(s: State, user: UserId): set<OrgId> {
    set o | o in s.orgs && (o, user) in s.members
  }

  function Owned(s: State, user: UserId): set<OrgId> {
    set o | o in s.orgs && (o, user) in s.members && s.members[(o, user)] == Owner
  }

  // ---------------------------------------------------------- each transaction

  function Larger(a: nat, b: nat): nat {
    if a >= b then a else b
  }

  function Passed(s: State, user: UserId): State {
    var pending := s.pending + multiset{user};
    s.(pending := pending, peak := s.peak[user := Larger(s.peak[user], pending[user])])
  }

  /** Registration's first transaction; the second is pending from here on. */
  function AccountCreated(s: State, user: UserId): Result<State, Error> {
    if user in s.users then Failure(EmailTaken) else Success(Passed(s.(users := s.users + {user}), user))
  }

  function FirstChecked(s: State, user: UserId): Result<State, Error> {
    if OrgsOf(s, user) != {} then Failure(AlreadyHasOrganization) else Success(Passed(s, user))
  }

  function AdditionalChecked(s: State, user: UserId): Result<State, Error> {
    if |Owned(s, user)| >= MAX_OWNED then Failure(TooManyOrganizations) else Success(Passed(s, user))
  }

  /** The one function that creates an organization, with its first owner. */
  function Provisioned(s: State, user: UserId, org: OrgId): State {
    s.(orgs := s.orgs + {org}, members := s.members[(org, user) := Owner], pending := s.pending - multiset{user})
  }

  /** The role an addition grants, or a refusal: ownership is not grantable. */
  function RoleToGrant(requested: Option<Role>): Result<Role, Error> {
    match requested
    case None => Success(Member)
    case Some(Owner) => Failure(InvalidRole)
    case Some(role) => Success(role)
  }

  function Authorized(s: State, actor: UserId, org: OrgId, granting: Role): Option<Error> {
    if (org, actor) !in s.members then Some(NotAMember)
    else match s.members[(org, actor)]
         case Owner => None
         case Admin => if granting.Admin? then Some(InsufficientRole) else None
         case Member => Some(InsufficientRole)
  }

  /** Checked, then looked up: nothing is written yet. */
  function AdditionBegun(s: State, actor: UserId, org: OrgId, target: UserId, requested: Option<Role>): Result<State, Error> {
    match RoleToGrant(requested)
    case Failure(e) => Failure(e)
    case Success(role) =>
      if Authorized(s, actor, org, role).Some? then Failure(Authorized(s, actor, org, role).value)
      else if target !in s.users then Failure(NoSuchAccount)
      else Success(s.(adding := s.adding + {Addition(actor, org, target, role)}))
  }

  /** Checked again in the transaction that writes. */
  function AdditionWritten(s: State, a: Addition): Result<State, Error> {
    if Authorized(s, a.actor, a.org, a.role).Some? then Failure(Authorized(s, a.actor, a.org, a.role).value)
    else if (a.org, a.target) in s.members then Failure(AlreadyMember)
    else Success(s.(members := s.members[(a.org, a.target) := a.role]))
  }

  datatype Step =
    | Register(user: UserId)
    | CheckFirst(user: UserId)
    | CheckAdditional(user: UserId)
    | Provision(user: UserId, org: OrgId)
    | Crash(user: UserId)
    | BeginAddition(actor: UserId, org: OrgId, target: UserId, requested: Option<Role>)
    | WriteAddition(addition: Addition)
    | Issue(user: UserId, org: OrgId)    // a login, a refresh or a switch, at its membership read

  predicate Enabled(s: State, step: Step) {
    match step
    case Provision(user, org) => user in s.pending && org !in s.orgs
    case Crash(user) => user in s.pending
    case WriteAddition(a) => a in s.adding
    case CheckFirst(user) => user in s.users
    case CheckAdditional(user) => user in s.users
    case _ => true
  }

  /** A refused transaction changes nothing. */
  function Settle(s: State, r: Result<State, Error>): State {
    match r case Success(t) => t case Failure(_) => s
  }

  function Do(s: State, step: Step): State
    requires Enabled(s, step)
  {
    match step
    case Register(user) => Settle(s, AccountCreated(s, user))
    case CheckFirst(user) => Settle(s, FirstChecked(s, user))
    case CheckAdditional(user) => Settle(s, AdditionalChecked(s, user))
    case Provision(user, org) => Provisioned(s, user, org)
    case Crash(user) => s.(pending := s.pending - multiset{user})
    case BeginAddition(actor, org, target, requested) => Settle(s, AdditionBegun(s, actor, org, target, requested))
    case WriteAddition(a) => Settle(s, AdditionWritten(s, a))
    case Issue(user, org) =>
      if org in OrgsOf(s, user) then s.(tokens := s.tokens + {Token(user, org, s.members[(org, user)])}) else s
  }

  // ------------------------------------------------------------- the operations

  /** The memberships of one account, as its organization list reads. */
  predicate Lists(s: State, user: UserId, list: seq<(OrgId, Role)>) {
    && (forall i, j :: 0 <= i < j < |list| ==> list[i].0 != list[j].0)
    && (forall i :: 0 <= i < |list| ==> list[i].0 in OrgsOf(s, user) && s.members[(list[i].0, user)] == list[i].1)
    && (forall o :: o in OrgsOf(s, user) ==> exists i :: 0 <= i < |list| && list[i].0 == o)
  }

  function OwnedIn(list: seq<(OrgId, Role)>): set<OrgId> {
    set i | 0 <= i < |list| && list[i].1.Owner? :: list[i].0
  }

  lemma ListedOwned(s: State, user: UserId, list: seq<(OrgId, Role)>)
    requires Lists(s, user, list)
    ensures OwnedIn(list) == Owned(s, user)
  {
    forall o | o in Owned(s, user) ensures o in OwnedIn(list) {
      assert o in OrgsOf(s, user);
      var i :| 0 <= i < |list| && list[i].0 == o;
    }
  }

  class Service {
    var state: State

    constructor ()
      ensures state == Start
    {
      state := Start;
    }

    /** `org` is the id the second transaction generates; a crash loses that transaction. */
    method Register(user: UserId, org: OrgId, crash: bool) returns (r: Result<OrgId, Error>)
      requires org !in state.orgs
      modifies this
      ensures user in old(state).users ==> r == Failure(EmailTaken) && state == old(state)
      ensures user !in old(state).users ==>
        var created := Do(old(state), Step.Register(user));
        && Enabled(created, Crash(user)) && Enabled(created, Provision(user, org))
        && state == Do(created, if crash then Crash(user) else Provision(user, org))
        && r == if crash then Failure(NoOrganization) else Success(org)
    {
      var created := AccountCreated(state, user);
      if created.Failure? { return Failure(created.error); }
      state := created.value;
      if crash {
        state := state.(pending := state.pending - multiset{user});
        return Failure(NoOrganization);
      }
      state := Provisioned(state, user, org);
      return Success(org);
    }

    method CreateFirstOrganization(user: UserId, org: OrgId, list: seq<(OrgId, Role)>) returns (r: Result<OrgId, Error>)
      requires org !in state.orgs && Lists(state, user, list)
      modifies this
      ensures r.Failure? <==> OrgsOf(old(state), user) != {}
      ensures r.Failure? ==> r.error == AlreadyHasOrganization && state == old(state)
      ensures r.Success? ==> FirstChecked(old(state), user).Success?
                             && state == Provisioned(FirstChecked(old(state), user).value, user, org)
    {
      assert list != [] ==> list[0].0 in OrgsOf(state, user);
      if |list| > 0 { return Failure(AlreadyHasOrganization); }
      state := Passed(state, user);
      state := Provisioned(state, user, org);
      return Success(org);
    }

    method CountOwned(list: seq<(OrgId, Role)>) returns (owned: nat)
      requires forall i, j :: 0 <= i < j < |list| ==> list[i].0 != list[j].0
      ensures owned == |OwnedIn(list)|
    {
      owned := 0;
      for i := 0 to |list|
        invariant owned == |OwnedIn(list[..i])|
      {
        OwnedNext(list, i);
        if list[i].1.Owner? { owned := owned + 1; }
      }
      assert list[..|list|] == list;
    }

    method CreateAdditionalOrganization(user: UserId, org: OrgId, list: seq<(OrgId, Role)>) returns (r: Result<OrgId, Error>)
      requires org !in state.orgs && Lists(state, user, list)
      modifies this
      ensures r.Failure? <==> |Owned(old(state), user)| >= MAX_OWNED
      ensures r.Failure? ==> r.error == TooManyOrganizations && state == old(state)
      ensures r.Success? ==> AdditionalChecked(old(state), user).Success?
                             && state == Provisioned(AdditionalChecked(old(state), user).value, user, org)
    {
      var owned := CountOwned(list);
      ListedOwned(state, user, list);
      hide Lists, OwnedIn, Owned;
      if owned >= MAX_OWNED { return Failure(TooManyOrganizations); }
      state := Passed(state, user);
      state := Provisioned(state, user, org);
      return Success(org);
    }

    method BeginAddition(actor: UserId, org: OrgId, target: UserId, requested: Option<Role>) returns (r: Result<Addition, Error>)
      modifies this
      ensures state == Settle(old(state), AdditionBegun(old(state), actor, org, target, requested))
      ensures r.Success? <==> AdditionBegun(old(state), actor, org, target, requested).Success?
      ensures r.Success? ==> r.value in state.adding && r.value == Addition(actor, org, target, RoleToGrant(requested).value)
    {
      var role := RoleToGrant(requested);
      if role.Failure? { return Failure(role.error); }
      var refusal := Authorized(state, actor, org, role.value);
      if refusal.Some? { return Failure(refusal.value); }
      if target !in state.users { return Failure(NoSuchAccount); }
      var addition := Addition(actor, org, target, role.value);
      state := state.(adding := state.adding + {addition});
      return Success(addition);
    }

    method WriteAddition(a: Addition) returns (r: Result<(), Error>)
      modifies this
      ensures state == Settle(old(state), AdditionWritten(old(state), a))
      ensures r.Failure? <==> AdditionWritten(old(state), a).Failure?
    {
      var refusal := Authorized(state, a.actor, a.org, a.role);
      if refusal.Some? { return Failure(refusal.value); }
      if (a.org, a.target) in state.members { return Failure(AlreadyMember); }
      state := state.(members := state.members[(a.org, a.target) := a.role]);
      return Success(());
    }
  }

  lemma OwnedNext(list: seq<(OrgId, Role)>, i: nat)
    requires i < |list| && forall k, j :: 0 <= k < j < |list| ==> list[k].0 != list[j].0
    ensures |OwnedIn(list[..i + 1])| == |OwnedIn(list[..i])| + if list[i].1.Owner? then 1 else 0
  {
    var before, after := OwnedIn(list[..i]), OwnedIn(list[..i + 1]);
    assert forall k :: 0 <= k < i ==> list[..i + 1][k] == list[..i][k];
    assert list[..i + 1][i] == list[i] && list[i].0 !in before;
    assert after == before + if list[i].1.Owner? then {list[i].0} else {};
  }

  // ---------------------------------------------------------------- invariant

  ghost predicate Keyed(s: State) {
    && (forall o, u :: (o, u) in s.members ==> o in s.orgs && u in s.users)
    && (forall u :: u in s.pending ==> u in s.users)
    && (forall a :: a in s.adding ==> !a.role.Owner? && a.target in s.users)
  }

  predicate OwnsIt(s: State, o: OrgId, u: UserId) {
    (o, u) in s.members && s.members[(o, u)] == Owner
  }

  /** Every organization has exactly one owner. */
  ghost predicate OneOwnerEach(s: State) {
    && (forall o :: o in s.orgs ==> exists u :: OwnsIt(s, o, u))
    && (forall o, u, v :: OwnsIt(s, o, u) && OwnsIt(s, o, v) ==> u == v)
  }

  ghost predicate Capped(s: State) {
    && (forall u :: s.pending[u] <= s.peak[u])
    && (forall u :: |Owned(s, u)| + s.pending[u] <= MAX_OWNED - 1 + s.peak[u])
  }

  ghost predicate TokensHonest(s: State) {
    forall t :: t in s.tokens ==> (t.org, t.user) in s.members && s.members[(t.org, t.user)] == t.role
  }

  ghost predicate Inv(s: State) {
    Keyed(s) && OneOwnerEach(s) && Capped(s) && TokensHonest(s)
  }

  lemma KeyedKept(s: State, step: Step)
    requires Keyed(s) && Enabled(s, step)
    ensures Keyed(Do(s, step))
  {
  }

  /** Memberships are only ever added, and never change role. */
  lemma RolesStick(s: State, step: Step, o: OrgId, u: UserId)
    requires Keyed(s) && Enabled(s, step) && (o, u) in s.members
    ensures (o, u) in Do(s, step).members && Do(s, step).members[(o, u)] == s.members[(o, u)]
  {
  }

  lemma OwnersKept(s: State, step: Step)
    requires Keyed(s) && OneOwnerEach(s) && Enabled(s, step)
    ensures OneOwnerEach(Do(s, step))
  {
    var t := Do(s, step);
    forall o | o in t.orgs ensures exists u :: OwnsIt(t, o, u) {
      if o in s.orgs {
        var u :| OwnsIt(s, o, u);
        RolesStick(s, step, o, u);
        assert OwnsIt(t, o, u);
      } else {
        assert OwnsIt(t, o, step.user);
      }
    }
    forall o, u, v | OwnsIt(t, o, u) && OwnsIt(t, o, v) ensures u == v {
      OwnerFrom(s, step, o, u);
      OwnerFrom(s, step, o, v);
    }
  }

  /** Only provisioning makes an owner. */
  lemma OwnerFrom(s: State, step: Step, o: OrgId, u: UserId)
    requires Keyed(s) && Enabled(s, step) && OwnsIt(Do(s, step), o, u)
    ensures OwnsIt(s, o, u) || (step == Provision(u, o) && forall v :: !OwnsIt(s, o, v))
  {
  }

  lemma OwnsAfter(s: State, step: Step, o: OrgId, u: UserId)
    requires Keyed(s) && Enabled(s, step)
    ensures OwnsIt(Do(s, step), o, u) <==> OwnsIt(s, o, u) || step == Provision(u, o)
  {
    if OwnsIt(s, o, u) {
      RolesStick(s, step, o, u);
    } else if OwnsIt(Do(s, step), o, u) {
      OwnerFrom(s, step, o, u);
    }
  }

  lemma OwnedIsOwnsIt(s: State, u: UserId)
    requires Keyed(s)
    ensures forall o :: o in Owned(s, u) <==> OwnsIt(s, o, u)
  {
  }

  lemma NewIsUnowned(s: State, step: Step, u: UserId)
    requires Keyed(s) && Enabled(s, step) && step.Provision?
    ensures !OwnsIt(s, step.org, u)
  {
  }

  lemma OwnedAfter(s: State, step: Step, u: UserId)
    requires Keyed(s) && Enabled(s, step)
    ensures |Owned(Do(s, step), u)| == |Owned(s, u)| + if step.Provision? && step.user == u then 1 else 0
  {
    hide Do, Owned, OwnsIt, Keyed, Enabled;
    var t := Do(s, step);
    KeyedKept(s, step);
    OwnedIsOwnsIt(s, u);
    OwnedIsOwnsIt(t, u);
    var added: set<OrgId> := if step.Provision? && step.user == u then {step.org} else {};
    forall o ensures o in Owned(t, u) <==> o in Owned(s, u) || o in added {
      OwnsAfter(s, step, o, u);
    }
    if step.Provision? { NewIsUnowned(s, step, u); }
    assert Owned(t, u) == Owned(s, u) + added;
  }

  lemma CappedKept(s: State, step: Step)
    requires Keyed(s) && Capped(s) && Enabled(s, step)
    ensures Capped(Do(s, step))
  {
    hide Owned, Do, Enabled, Keyed;
    var t := Do(s, step);
    forall u ensures t.pending[u] <= t.peak[u] && |Owned(t, u)| + t.pending[u] <= MAX_OWNED - 1 + t.peak[u] {
      OwnedAfter(s, step, u);
      PendingAfter(s, step, u);
      if t.pending[u] > s.pending[u] { PassedSmall(s, step, u); }
    }
  }

  lemma PendingAfter(s: State, step: Step, u: UserId)
    requires Keyed(s) && s.pending[u] <= s.peak[u] && Enabled(s, step)
    ensures var t := Do(s, step);
            && t.pending[u] <= t.peak[u] && s.peak[u] <= t.peak[u]
            && t.pending[u] <= s.pending[u] + 1
            && (step.Provision? && step.user == u ==> t.pending[u] == s.pending[u] - 1)
  {
  }

  /** A check is only passed by an account below the cap. */
  lemma PassedSmall(s: State, step: Step, u: UserId)
    requires Keyed(s) && Enabled(s, step) && Do(s, step).pending[u] > s.pending[u]
    ensures |Owned(s, u)| <= MAX_OWNED - 1
  {
    if OrgsOf(s, u) == {} || u !in s.users {
      assert Owned(s, u) == {};
    }
  }

  lemma TokensKept(s: State, step: Step)
    requires Keyed(s) && TokensHonest(s) && Enabled(s, step)
    ensures TokensHonest(Do(s, step))
  {
    var t := Do(s, step);
    forall token | token in t.tokens ensures (token.org, token.user) in t.members && t.members[(token.org, token.user)] == token.role {
      if token in s.tokens { RolesStick(s, step, token.org, token.user); }
    }
  }

  lemma StepKeepsInv(s: State, step: Step)
    requires Inv(s) && Enabled(s, step)
    ensures Inv(Do(s, step))
  {
    hide OneOwnerEach, Capped, TokensHonest;
    KeyedKept(s, step);
    OwnersKept(s, step);
    CappedKept(s, step);
    TokensKept(s, step);
  }

  // --------------------------------------------------------------------- runs

  predicate Legal(s: State, steps: seq<Step>)
    decreases |steps|
  {
    steps == [] || (Enabled(s, steps[0]) && Legal(Do(s, steps[0]), steps[1..]))
  }

  function Run(s: State, steps: seq<Step>): State
    requires Legal(s, steps)
    decreases |steps|
  {
    if steps == [] then s else Run(Do(s, steps[0]), steps[1..])
  }

  lemma StartHolds()
    ensures Inv(Start)
  {
    assert forall u :: Owned(Start, u) == {};
  }

  lemma {:induction false} RunKeepsInv(s: State, steps: seq<Step>)
    requires Inv(s) && Legal(s, steps)
    ensures Inv(Run(s, steps))
    decreases |steps|
  {
    if steps != [] {
      StepKeepsInv(s, steps[0]);
      hide Inv, Do, Enabled;
      RunKeepsInv(Do(s, steps[0]), steps[1..]);
    }
  }

  /**
   * Over every interleaving of transactions, with crashes between a check and its
   * provisioning: every organization has exactly one owner, an account owns at
   * most four organizations more than it itself ever had checks outstanding at once,
   * so at most five while its own come one at a time, and every token names a
   * tenant its subject belongs to, with the role it has there.
   */
  lemma AccountsStayInOrder(steps: seq<Step>, o: OrgId, u: UserId, t: Token)
    requires Legal(Start, steps)
    ensures var s := Run(Start, steps);
            && (o in s.orgs ==> exists owner :: OwnsIt(s, o, owner) && forall other :: OwnsIt(s, o, other) ==> other == owner)
            && |Owned(s, u)| <= MAX_OWNED - 1 + s.peak[u]
            && (s.peak[u] <= 1 ==> |Owned(s, u)| <= MAX_OWNED)
            && (t in s.tokens ==> (t.org, t.user) in s.members && s.members[(t.org, t.user)] == t.role)
  {
    StartHolds();
    RunKeepsInv(Start, steps);
    var s := Run(Start, steps);
    hide Legal, Run, Owned;
    if o in s.orgs {
      var owner :| OwnsIt(s, o, owner);
    }
  }

  lemma First(s: State, step: Step, rest: seq<Step>)
    requires Enabled(s, step) && Legal(Do(s, step), rest)
    ensures Legal(s, [step] + rest) && Run(s, [step] + rest) == Run(Do(s, step), rest)
  {
    hide Enabled, Do;
    assert ([step] + rest)[1..] == rest;
  }

  // ------------------------------------------------- when the cap can be broken

  predicate IsCheckOf(step: Step, u: UserId) {
    (step.Register? || step.CheckFirst? || step.CheckAdditional?) && step.user == u
  }

  predicate NoCheckOf(steps: seq<Step>, u: UserId) {
    forall i :: 0 <= i < |steps| ==> !IsCheckOf(steps[i], u)
  }

  /** What an account owns or has already been cleared to be given. */
  function Claimed(s: State, u: UserId): nat {
    |Owned(s, u)| + s.pending[u]
  }

  /** Some continuation in which the account passes no further check leaves it `n` organizations. */
  ghost predicate CanOwn(s: State, u: UserId, n: nat) {
    exists steps :: Legal(s, steps) && NoCheckOf(steps, u) && |Owned(Run(s, steps), u)| >= n
  }

  lemma ClaimsDoNotGrow(s: State, step: Step, u: UserId)
    requires Keyed(s) && Enabled(s, step) && !IsCheckOf(step, u)
    ensures Claimed(Do(s, step), u) <= Claimed(s, u)
  {
    OwnedAfter(s, step, u);
    hide Owned, Keyed;
  }

  lemma {:induction false} RunsDoNotGrowClaims(s: State, steps: seq<Step>, u: UserId)
    requires Keyed(s) && Legal(s, steps) && NoCheckOf(steps, u)
    ensures |Owned(Run(s, steps), u)| <= Claimed(s, u)
    decreases |steps|
  {
    if steps != [] {
      ClaimsDoNotGrow(s, steps[0], u);
      KeyedKept(s, steps[0]);
      hide Do, Enabled, Keyed, Owned;
      RunsDoNotGrowClaims(Do(s, steps[0]), steps[1..], u);
    }
  }

  lemma Later(s: State, step: Step, u: UserId, n: nat)
    requires Enabled(s, step) && !IsCheckOf(step, u) && CanOwn(Do(s, step), u, n)
    ensures CanOwn(s, u, n)
  {
    var steps :| Legal(Do(s, step), steps) && NoCheckOf(steps, u) && |Owned(Run(Do(s, step), steps), u)| >= n;
    hide Enabled, Do, Owned;
    First(s, step, steps);
    assert NoCheckOf([step] + steps, u);
  }

  lemma {:induction false} FreshOrg(orgs: set<OrgId>) returns (org: OrgId)
    ensures forall o :: o in orgs ==> o < org
  {
    org := 0;
    if orgs != {} {
      var one :| one in orgs;
      var other := FreshOrg(orgs - {one});
      org := Larger(other, one + 1);
      forall o | o in orgs ensures o < org { assert o == one || o in orgs - {one}; }
    }
  }

  lemma {:induction false} ClaimsCanBeOwned(s: State, u: UserId, n: nat)
    requires Keyed(s) && Claimed(s, u) >= n
    ensures CanOwn(s, u, n)
    decreases s.pending[u]
  {
    if s.pending[u] == 0 {
      hide Owned;
      assert Legal(s, []) && NoCheckOf([], u) && Run(s, []) == s;
    } else {
      var org := FreshOrg(s.orgs);
      var t := Do(s, Provision(u, org));
      OwnedAfter(s, Provision(u, org), u);
      KeyedKept(s, Provision(u, org));
      assert t.pending[u] == s.pending[u] - 1;
      hide Owned, Keyed, CanOwn;
      ClaimsCanBeOwned(t, u, n);
      Later(s, Provision(u, org), u, n);
    }
  }

  /**
   * Exactly how many organizations an account can come to own without passing
   * another check: what it owns and what it has been cleared for. So the cap can
   * be exceeded if and only if those two already exceed it.
   */
  lemma OwnableExactly(s: State, u: UserId, n: nat)
    requires Keyed(s)
    ensures CanOwn(s, u, n) <==> |Owned(s, u)| + s.pending[u] >= n
    ensures CanOwn(s, u, MAX_OWNED + 1) <==> |Owned(s, u)| + s.pending[u] > MAX_OWNED
  {
    forall m: nat ensures CanOwn(s, u, m) <==> Claimed(s, u) >= m {
      if Claimed(s, u) >= m {
        ClaimsCanBeOwned(s, u, m);
      } else {
        forall steps | Legal(s, steps) && NoCheckOf(steps, u) ensures |Owned(Run(s, steps), u)| < m {
          RunsDoNotGrowClaims(s, steps, u);
        }
      }
    }
  }

  lemma {:induction false} Concat(s: State, first: seq<Step>, second: seq<Step>)
    requires Legal(s, first) && Legal(Run(s, first), second)
    ensures Legal(s, first + second) && Run(s, first + second) == Run(Run(s, first), second)
    decreases |first|
  {
    hide Enabled, Do;
    if first == [] {
      assert first + second == second;
    } else {
      assert (first + second)[1..] == first[1..] + second;
      Concat(Do(s, first[0]), first[1..], second);
    }
  }

  /** One account by itself: its organizations are the ids below `owned`. */
  ghost predicate Alone(s: State, u: UserId, owned: nat, pending: nat) {
    && Keyed(s) && u in s.users && s.pending[u] == pending && |Owned(s, u)| == owned
    && (forall o :: o in s.orgs ==> o < owned)
  }

  lemma Checks(s: State, u: UserId, owned: nat, pending: nat)
    requires Alone(s, u, owned, pending) && owned < MAX_OWNED
    ensures Legal(s, [CheckAdditional(u)]) && Alone(Run(s, [CheckAdditional(u)]), u, owned, pending + 1)
  {
    var t := Do(s, CheckAdditional(u));
    OwnedAfter(s, CheckAdditional(u), u);
    KeyedKept(s, CheckAdditional(u));
    assert Alone(t, u, owned, pending + 1);
    hide Alone, Do;
    assert [CheckAdditional(u)][1..] == [];
  }

  lemma Provisions(s: State, u: UserId, owned: nat, pending: nat)
    requires Alone(s, u, owned, pending) && pending > 0
    ensures Legal(s, [Provision(u, owned)]) && Alone(Run(s, [Provision(u, owned)]), u, owned + 1, pending - 1)
  {
    var t := Do(s, Provision(u, owned));
    OwnedAfter(s, Provision(u, owned), u);
    KeyedKept(s, Provision(u, owned));
    assert Alone(t, u, owned + 1, pending - 1);
    hide Alone, Do;
    assert [Provision(u, owned)][1..] == [];
  }

  /** One organization after another, each with its own check. */
  function OneByOne(u: UserId, owned: nat): seq<Step>
    decreases MAX_OWNED - owned
  {
    if owned + 1 >= MAX_OWNED then [] else [CheckAdditional(u)] + ([Provision(u, owned)] + OneByOne(u, owned + 1))
  }

  lemma {:induction false} GrowsOneByOne(s: State, u: UserId, owned: nat)
    requires Alone(s, u, owned, 0) && owned < MAX_OWNED
    ensures Legal(s, OneByOne(u, owned)) && Alone(Run(s, OneByOne(u, owned)), u, MAX_OWNED - 1, 0)
    decreases MAX_OWNED - owned
  {
    hide Alone, Do, Enabled, Run, Legal;
    if owned + 1 >= MAX_OWNED {
      Nothing(s);
    } else {
      Checks(s, u, owned, 0);
      var s1 := Run(s, [CheckAdditional(u)]);
      Provisions(s1, u, owned, 1);
      var s2 := Run(s1, [Provision(u, owned)]);
      GrowsOneByOne(s2, u, owned + 1);
      Concat(s1, [Provision(u, owned)], OneByOne(u, owned + 1));
      Concat(s, [CheckAdditional(u)], [Provision(u, owned)] + OneByOne(u, owned + 1));
    }
  }

  lemma Nothing(s: State)
    ensures Legal(s, []) && Run(s, []) == s
  {
  }

  lemma Registers(u: UserId)
    ensures Legal(Start, [Step.Register(u)]) && Alone(Run(Start, [Step.Register(u)]), u, 0, 1)
  {
    var t := Do(Start, Step.Register(u));
    assert Keyed(Start);
    KeyedKept(Start, Step.Register(u));
    assert Owned(t, u) == {};
    assert [Step.Register(u)][1..] == [];
  }

  function SixScript(u: UserId): seq<Step> {
    [Step.Register(u)] + ([Provision(u, 0)] + (OneByOne(u, 1)
    + ([CheckAdditional(u)] + ([CheckAdditional(u)] + ([Provision(u, 4)] + [Provision(u, 5)])))))
  }

  /** Four organizations one at a time, and then two checks at once, leave six. */
  lemma TwoChecksAtOnceMakeSix(u: UserId)
    ensures Legal(Start, SixScript(u)) && |Owned(Run(Start, SixScript(u)), u)| == MAX_OWNED + 1
  {
    hide Alone, Do, Enabled, Run, Legal, OneByOne;
    Registers(u);
    var s1 := Run(Start, [Step.Register(u)]);
    Provisions(s1, u, 0, 1);
    var s2 := Run(s1, [Provision(u, 0)]);
    GrowsOneByOne(s2, u, 1);
    var s3 := Run(s2, OneByOne(u, 1));
    Checks(s3, u, 4, 0);
    var s4 := Run(s3, [CheckAdditional(u)]);
    Checks(s4, u, 4, 1);
    var s5 := Run(s4, [CheckAdditional(u)]);
    Provisions(s5, u, 4, 2);
    var s6 := Run(s5, [Provision(u, 4)]);
    Provisions(s6, u, 5, 1);
    Concat(s5, [Provision(u, 4)], [Provision(u, 5)]);
    Concat(s4, [CheckAdditional(u)], [Provision(u, 4)] + [Provision(u, 5)]);
    Concat(s3, [CheckAdditional(u)], [CheckAdditional(u)] + ([Provision(u, 4)] + [Provision(u, 5)]));
    Concat(s2, OneByOne(u, 1), [CheckAdditional(u)] + ([CheckAdditional(u)] + ([Provision(u, 4)] + [Provision(u, 5)])));
    Concat(s1, [Provision(u, 0)],
           OneByOne(u, 1) + ([CheckAdditional(u)] + ([CheckAdditional(u)] + ([Provision(u, 4)] + [Provision(u, 5)]))));
    Concat(Start, [Step.Register(u)], [Provision(u, 0)] + (OneByOne(u, 1)
           + ([CheckAdditional(u)] + ([CheckAdditional(u)] + ([Provision(u, 4)] + [Provision(u, 5)])))));
    AloneOwns(Run(s6, [Provision(u, 5)]), u, 6, 0);
  }

  lemma AloneOwns(s: State, u: UserId, owned: nat, pending: nat)
    requires Alone(s, u, owned, pending)
    ensures |Owned(s, u)| == owned
  {
  }

  /** Adding a member never makes an owner, and makes an admin only when the actor owns the organization as it is written. */
  lemma OnlyOwnersMakeAdmins(s: State, step: Step, o: OrgId, u: UserId)
    requires Inv(s) && Enabled(s, step) && (o, u) !in s.members && (o, u) in Do(s, step).members
    ensures match Do(s, step).members[(o, u)]
            case Owner => step == Provision(u, o)
            case Admin => step.WriteAddition? && OwnsIt(s, o, step.addition.actor)
            case Member => step.WriteAddition? && (o, step.addition.actor) in s.members && !s.members[(o, step.addition.actor)].Member?
  {
  }

  /** A registration cut off between its transactions leaves an account with no organization, and nothing that will still make one. */
  lemma ACrashedRegistrationIsStranded(s: State, u: UserId)
    requires Keyed(s) && u !in s.users
    ensures Legal(s, [Step.Register(u)] + [Crash(u)])
    ensures var t := Run(s, [Step.Register(u)] + [Crash(u)]);
            && t.users == s.users + {u} && t.orgs == s.orgs && t.members == s.members && t.tokens == s.tokens
            && OrgsOf(t, u) == {} && forall org :: !Enabled(t, Provision(u, org))
  {
    var s1 := Do(s, Step.Register(u));
    assert s.pending[u] == 0 && s1.pending[u] == 1;
    var t := Do(s1, Crash(u));
    assert t.pending[u] == 0 && OrgsOf(t, u) == {};
    assert Enabled(s, Step.Register(u)) && Enabled(s1, Crash(u));
    hide Do, Enabled, OrgsOf, Keyed;
    First(s1, Crash(u), []);
    assert [Crash(u)] + [] == [Crash(u)];
    First(s, Step.Register(u), [Crash(u)]);
  }

  /** A token for a tenant is issued to a member of it, with the role the membership has, and to nobody else; nothing else changes. */
  lemma TokensAreIssuedToMembers(s: State, u: UserId, org: OrgId)
    requires Keyed(s)
    ensures Enabled(s, Issue(u, org))
    ensures Do(s, Issue(u, org)) == s.(tokens := s.tokens + if (org, u) in s.members then {Token(u, org, s.members[(org, u)])} else {})
  {
  }

  // ---------------------------------------------------- who may add whom, as what

  function RoleIn(s: State, org: OrgId, user: UserId): Option<Role> {
    if (org, user) in s.members then Some(s.members[(org, user)]) else None
  }

  /** An owner may add members and admins, an admin members only, nobody an owner. */
  predicate MayAdd(role: Option<Role>, requested: Option<Role>) {
    || (role == Some(Owner) && requested != Some(Owner))
    || (role == Some(Admin) && (requested == None || requested == Some(Member)))
  }

  /**
   * Exactly when an addition begins, what it is to grant, and why it is refused
   * otherwise: the role asked for first, then the actor's own, then the address.
   */
  lemma AdditionsExactly(s: State, actor: UserId, org: OrgId, target: UserId, requested: Option<Role>)
    ensures var r := AdditionBegun(s, actor, org, target, requested);
            && (r.Success? <==> MayAdd(RoleIn(s, org, actor), requested) && target in s.users)
            && (r.Success? ==>
                  r.value == s.(adding := s.adding + {Addition(actor, org, target, if requested == Some(Admin) then Admin else Member)}))
            && (r == Failure(InvalidRole) <==> requested == Some(Owner))
            && (r == Failure(NotAMember) <==> requested != Some(Owner) && RoleIn(s, org, actor) == None)
            && (r == Failure(InsufficientRole) <==>
                  requested != Some(Owner) && RoleIn(s, org, actor) != None && !MayAdd(RoleIn(s, org, actor), requested))
            && (r == Failure(NoSuchAccount) <==> MayAdd(RoleIn(s, org, actor), requested) && target !in s.users)
  {
  }

  /** The same authority is asked for where the row is written, and a member is not added again. */
  lemma WritesExactly(s: State, a: Addition)
    requires !a.role.Owner?
    ensures var r := AdditionWritten(s, a);
            && (r.Success? <==> MayAdd(RoleIn(s, a.org, a.actor), Some(a.role)) && RoleIn(s, a.org, a.target) == None)
            && (r.Success? ==> r.value == s.(members := s.members[(a.org, a.target) := a.role]))
            && (r == Failure(AlreadyMember) <==>
                  MayAdd(RoleIn(s, a.org, a.actor), Some(a.role)) && RoleIn(s, a.org, a.target) != None)
            && (r == Failure(NotAMember) <==> RoleIn(s, a.org, a.actor) == None)
            && (r == Failure(InsufficientRole) <==>
                  RoleIn(s, a.org, a.actor) != None && !MayAdd(RoleIn(s, a.org, a.actor), Some(a.role)))
  {
  }

  lemma {:induction false} RunsKeepRoles(s: State, steps: seq<Step>)
    requires Keyed(s) && Legal(s, steps)
    ensures forall o, u :: RoleIn(s, o, u).Some? ==> RoleIn(Run(s, steps), o, u) == RoleIn(s, o, u)
    ensures s.adding <= Run(s, steps).adding
    decreases |steps|
  {
    if steps != [] {
      var t := Do(s, steps[0]);
      KeyedKept(s, steps[0]);
      forall o, u | RoleIn(s, o, u).Some? ensures RoleIn(t, o, u) == RoleIn(s, o, u) { RolesStick(s, steps[0], o, u); }
      AddingGrows(s, steps[0]);
      hide Do, Enabled, Keyed, RoleIn;
      RunsKeepRoles(t, steps[1..]);
    }
  }

  lemma AddingGrows(s: State, step: Step)
    requires Enabled(s, step)
    ensures s.adding <= Do(s, step).adding
  {
  }

  /**
   * From the request to the row, whatever happens in between: an addition that
   * began can be written, and makes the target an admin if one was asked for and a
   * member otherwise, unless the target has become a member of it meanwhile, whose
   * role then stands.
   */
  lemma AdditionsGrantWhatWasAsked(s: State, actor: UserId, org: OrgId, target: UserId, requested: Option<Role>, steps: seq<Step>)
    requires Keyed(s) && MayAdd(RoleIn(s, org, actor), requested) && target in s.users
    requires Legal(Do(s, BeginAddition(actor, org, target, requested)), steps)
    ensures var t := Run(Do(s, BeginAddition(actor, org, target, requested)), steps);
            var write := WriteAddition(Addition(actor, org, target, if requested == Some(Admin) then Admin else Member));
            && Enabled(t, write)
            && RoleIn(Do(t, write), org, target) ==
               if RoleIn(t, org, target) != None then RoleIn(t, org, target)
               else Some(if requested == Some(Admin) then Admin else Member)
  {
    var begin := BeginAddition(actor, org, target, requested);
    var begun := Do(s, begin);
    AdditionsExactly(s, actor, org, target, requested);
    KeyedKept(s, begin);
    RunsKeepRoles(begun, steps);
    assert RoleIn(begun, org, actor) == RoleIn(s, org, actor);
    var t := Run(begun, steps);
    var a := Addition(actor, org, target, if requested == Some(Admin) then Admin else Member);
    assert a in begun.adding;
    WritesExactly(t, a);
    hide Legal, Run, Keyed;
  }

  /** An account that belongs nowhere, as a crashed registration leaves it, can get an organization of its own, once. */
  lemma StrandedAccountRecovers(s: State, u: UserId, org: OrgId)
    requires Inv(s) && u in s.users && OrgsOf(s, u) == {} && org !in s.orgs
    ensures Legal(s, [CheckFirst(u)] + [Provision(u, org)])
    ensures var t := Run(s, [CheckFirst(u)] + [Provision(u, org)]);
            OrgsOf(t, u) == {org} && OwnsIt(t, org, u) && FirstChecked(t, u) == Failure(AlreadyHasOrganization)
  {
    var s1 := Do(s, CheckFirst(u));
    assert s1 == Passed(s, u) && u in s1.pending;
    var t := Do(s1, Provision(u, org));
    assert forall o :: o in OrgsOf(t, u) <==> o in OrgsOf(s, u) || o == org;
    assert OrgsOf(t, u) == {org} && OwnsIt(t, org, u);
    assert Enabled(s, CheckFirst(u)) && Enabled(s1, Provision(u, org));
    hide Do, Enabled, OrgsOf, OwnsIt, Inv;
    First(s1, Provision(u, org), []);
    assert [Provision(u, org)] + [] == [Provision(u, org)];
    First(s, CheckFirst(u), [Provision(u, org)]);
  }
}
