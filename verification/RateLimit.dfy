/** Login attempts against two fixed-window budgets sharing one store. */
module RateLimit {
  import opened Wrappers
  import opened KeyValue

  datatype Config = Config(perAccount: int, perAddress: int, window: int)

  predicate Valid(cfg: Config) {
    cfg.perAccount >= 1 && cfg.perAddress >= 1 && cfg.window > 0
  }

  datatype Scope = Account | Address

  datatype Decision = Decision(allowed: bool, retryAfter: Time, scope: Option<Scope>)

  // ---------------------------------------------------- the account's one name

  predicate IsSpace(c: char) {
    c == ' ' || '\t' <= c <= '\r'
  }

  function Lower(c: char): char {
    if 'A' <= c <= 'Z' then (c as int + 32) as char else c
  }

  function LowerAll(s: string): (r: string)
    ensures |r| == |s| && forall i :: 0 <= i < |s| ==> r[i] == Lower(s[i])
  {
    seq(|s|, i requires 0 <= i < |s| => Lower(s[i]))
  }

  function TrimLeft(s: string): string {
    if s != [] && IsSpace(s[0]) then TrimLeft(s[1..]) else s
  }

  function TrimRight(s: string): string {
    if s != [] && IsSpace(s[|s| - 1]) then TrimRight(s[..|s| - 1]) else s
  }

  function NormalizeEmail(email: string): string {
    LowerAll(TrimRight(TrimLeft(email)))
  }

  predicate Blank(s: string) {
    forall c :: c in s ==> IsSpace(c)
  }

  lemma {:induction false} TrimLeftLower(s: string)
    ensures LowerAll(TrimLeft(s)) == TrimLeft(LowerAll(s))
  {
    if s != [] && IsSpace(s[0]) {
      assert LowerAll(s)[1..] == LowerAll(s[1..]);
      TrimLeftLower(s[1..]);
    }
  }

  lemma {:induction false} TrimRightLower(s: string)
    ensures LowerAll(TrimRight(s)) == TrimRight(LowerAll(s))
  {
    if s != [] && IsSpace(s[|s| - 1]) {
      assert LowerAll(s)[..|s| - 1] == LowerAll(s[..|s| - 1]);
      TrimRightLower(s[..|s| - 1]);
    }
  }

  lemma {:induction false} TrimLeftPadded(p: string, s: string)
    requires Blank(p)
    ensures TrimLeft(p + s) == TrimLeft(s)
  {
    if p == [] {
      assert p + s == s;
    } else {
      assert (p + s)[1..] == p[1..] + s && p[0] in p;
      TrimLeftPadded(p[1..], s);
    }
  }

  lemma {:induction false} TrimRightPadded(s: string, q: string)
    requires Blank(q)
    ensures TrimRight(s + q) == TrimRight(s)
  {
    if q == [] {
      assert s + q == s;
    } else {
      var last := |q| - 1;
      assert (s + q)[..|s + q| - 1] == s + q[..last] && q[last] in q;
      TrimRightPadded(s, q[..last]);
    }
  }

  lemma {:induction false} TrimLeftThenPadded(s: string, q: string)
    requires Blank(q)
    ensures TrimRight(TrimLeft(s + q)) == TrimRight(TrimLeft(s))
  {
    if s == [] {
      assert s + q == q + [];
      TrimLeftPadded(q, []);
    } else if IsSpace(s[0]) {
      assert (s + q)[1..] == s[1..] + q;
      TrimLeftThenPadded(s[1..], q);
    } else {
      TrimRightPadded(s, q);
    }
  }

  /** Capitals and surrounding blanks never make a second account of an address. */
  lemma OneNamePerAccount(p: string, email: string, q: string, other: string)
    requires Blank(p) && Blank(q) && LowerAll(other) == LowerAll(email)
    ensures NormalizeEmail(p + other + q) == NormalizeEmail(email)
  {
    TrimLeftLower(p + other + q);
    TrimRightLower(TrimLeft(p + other + q));
    TrimLeftLower(email);
    TrimRightLower(TrimLeft(email));
    assert forall c :: c in p + q ==> Lower(c) == c;
    assert LowerAll(p + other + q) == p + (LowerAll(email) + q);
    TrimLeftPadded(p, LowerAll(email) + q);
    TrimLeftThenPadded(LowerAll(email), q);
  }

  /** The six blanks of ASCII. */
  predicate AsciiBlank(c: char) {
    c as int == 32 || c as int == 9 || c as int == 10 || c as int == 11 || c as int == 12 || c as int == 13
  }

  /** A letter and the small letter it stands for: the capitals A to Z stand for the letters 32 places on. */
  predicate StandsFor(c: char, d: char) {
    d as int == c as int + if 65 <= c as int <= 90 then 32 else 0
  }

  lemma {:induction false} LeftTrimmed(s: string)
    ensures var t := TrimLeft(s);
            && |t| <= |s| && t == s[|s| - |t|..] && (forall i :: 0 <= i < |s| - |t| ==> AsciiBlank(s[i]))
            && (t != [] ==> !AsciiBlank(t[0]))
  {
    if s != [] && IsSpace(s[0]) {
      var rest, t := s[1..], TrimLeft(s[1..]);
      LeftTrimmed(rest);
      assert TrimLeft(s) == t;
      hide TrimLeft;
      assert s[|s| - |t|..] == rest[|rest| - |t|..];
      forall i | 0 <= i < |s| - |t| ensures AsciiBlank(s[i]) {
        if i > 0 { assert s[i] == rest[i - 1]; }
      }
    }
  }

  lemma {:induction false} RightTrimmed(s: string)
    ensures var t := TrimRight(s);
            && |t| <= |s| && t == s[..|t|] && (forall i :: |t| <= i < |s| ==> AsciiBlank(s[i]))
            && (t != [] ==> !AsciiBlank(t[|t| - 1]))
  {
    if s != [] && IsSpace(s[|s| - 1]) {
      var rest, t := s[..|s| - 1], TrimRight(s[..|s| - 1]);
      RightTrimmed(rest);
      assert TrimRight(s) == t;
      hide TrimRight;
      assert s[..|t|] == rest[..|t|];
      forall i | |t| <= i < |s| ensures AsciiBlank(s[i]) {
        if i < |rest| { assert s[i] == rest[i]; }
      }
    }
  }

  /** `name` is what was typed from one place to another, in small letters, with only blanks around it and none at its ends. */
  predicate IsMiddle(typed: string, lo: nat, hi: nat, name: string) {
    && lo <= hi <= |typed| && |name| == hi - lo
    && (forall i :: 0 <= i < |typed| && (i < lo || hi <= i) ==> AsciiBlank(typed[i]))
    && (lo < hi ==> !AsciiBlank(typed[lo]) && !AsciiBlank(typed[hi - 1]))
    && (forall i :: 0 <= i < |name| ==> StandsFor(typed[lo + i], name[i]))
  }

  /** The one name of an account: what was typed, trimmed and in small letters. */
  lemma NormalIsTrimmedAndLower(email: string)
    ensures exists lo: nat, hi: nat :: IsMiddle(email, lo, hi, NormalizeEmail(email))
  {
    LeftTrimmed(email);
    var left := TrimLeft(email);
    RightTrimmed(left);
    var middle := TrimRight(left);
    hide TrimLeft, TrimRight;
    var lo := |email| - |left|;
    var hi := lo + |middle|;
    assert forall i :: 0 <= i < |left| ==> left[i] == email[lo + i];
    forall i | hi <= i < |email| ensures AsciiBlank(email[i]) { assert email[i] == left[i - lo]; }
    assert IsMiddle(email, lo, hi, NormalizeEmail(email));
  }

  /** A budget of one is a budget; none, and no window, are not. */
  lemma ValidBudgets()
    ensures Valid(Config(1, 1, 1)) && !Valid(Config(0, 1, 1)) && !Valid(Config(1, 0, 1)) && !Valid(Config(1, 1, 0))
  {
  }

  // ------------------------------------------------------------ one attempt

  datatype Attempt = Attempt(now: Time, email: string, ip: string)

  function KeyOf(a: Attempt, scope: Scope): Key {
    if scope.Account? then AccountKey(NormalizeEmail(a.email)) else AddressKey(a.ip)
  }

  function LimitOf(cfg: Config, scope: Scope): int {
    if scope.Account? then cfg.perAccount else cfg.perAddress
  }

  /** Budget keys only ever hold counters, and a counter has counted something. */
  ghost predicate CountersOnly(s: Entries) {
    forall key :: key in s && (key.AccountKey? || key.AddressKey?) ==> s[key].value.Counter? && s[key].value.count >= 1
  }

  function Counted(s: Entries, cfg: Config, a: Attempt, scope: Scope): Entries
    requires Valid(cfg) && CountersOnly(s)
  {
    s[KeyOf(a, scope) := Incremented(s, KeyOf(a, scope), cfg.window, a.now)]
  }

  /** The store after an attempt: both budgets are counted, whatever either says. */
  function After(s: Entries, cfg: Config, a: Attempt): Entries
    requires Valid(cfg) && CountersOnly(s)
  {
    Counted(Counted(s, cfg, a, Account), cfg, a, Address)
  }

  /** The counter of one budget right after an attempt. */
  function Budget(s: Entries, cfg: Config, a: Attempt, scope: Scope): Entry
    requires Valid(cfg) && CountersOnly(s)
  {
    Incremented(s, KeyOf(a, scope), cfg.window, a.now)
  }

  predicate Refuses(s: Entries, cfg: Config, a: Attempt, scope: Scope)
    requires Valid(cfg) && CountersOnly(s)
  {
    Budget(s, cfg, a, scope).value.count > LimitOf(cfg, scope)
  }

  class Limiter {
    const kv: Store
    const cfg: Config

    constructor (kv: Store, cfg: Config)
      ensures this.kv == kv && this.cfg == cfg
    {
      this.kv, this.cfg := kv, cfg;
    }

    /**
     * Counts one attempt. `up` says for each budget whether the store answered:
     * one that did not is skipped, which allows.
     */
    method Allow(a: Attempt, up: seq<bool>) returns (decision: Decision)
      requires Valid(cfg) && CountersOnly(kv.entries) && |up| == 2
      modifies kv
      ensures CountersOnly(kv.entries)
      ensures var account, address := AccountKey(NormalizeEmail(a.email)), AddressKey(a.ip);
              && (up[0] ==> account in kv.entries && kv.entries[account] == Incremented(old(kv.entries), account, cfg.window, a.now))
              && (up[1] ==> address in kv.entries && kv.entries[address] == Incremented(old(kv.entries), address, cfg.window, a.now))
              && (forall key :: !(up[0] && key == account) && !(up[1] && key == address) ==>
                    CounterOf(kv.entries, key) == CounterOf(old(kv.entries), key))
      ensures var account := Incremented(old(kv.entries), AccountKey(NormalizeEmail(a.email)), cfg.window, a.now);
              var address := Incremented(old(kv.entries), AddressKey(a.ip), cfg.window, a.now);
              var one, two := up[0] && account.value.count > cfg.perAccount, up[1] && address.value.count > cfg.perAddress;
              var left1, left2 := account.expires - a.now, address.expires - a.now;
              decision == if one && (!two || left1 >= left2) then Decision(false, left1, Some(Account))
                          else if two then Decision(false, left2, Some(Address))
                          else Decision(true, 0, None)
      ensures up == [true, true] ==> kv.entries == After(old(kv.entries), cfg, a)
                                     && (decision.allowed <==> Allowed(old(kv.entries), cfg, a))
    {
      var budgets, limits := [Account, Address], [cfg.perAccount, cfg.perAddress];
      decision := Decision(true, 0, None);
      ghost var before := kv.entries;
      ghost var first := if up[0] then Counted(before, cfg, a, Account) else before;
      for i := 0 to 2
        invariant kv.entries == if i == 0 then before else if i == 1 then first else if up[1] then Counted(first, cfg, a, Address) else first
        invariant i == 0 ==> decision == Decision(true, 0, None)
        invariant i == 1 ==> decision == if up[0] && Refuses(before, cfg, a, Account)
                                         then Decision(false, Budget(before, cfg, a, Account).expires - a.now, Some(Account))
                                         else Decision(true, 0, None)
        invariant i == 2 ==>
          var one := up[0] && Refuses(before, cfg, a, Account);
          var two := up[1] && Refuses(before, cfg, a, Address);
          var left1 := Budget(before, cfg, a, Account).expires - a.now;
          var left2 := Budget(before, cfg, a, Address).expires - a.now;
          decision == if one && two then (if left2 > left1 then Decision(false, left2, Some(Address)) else Decision(false, left1, Some(Account)))
                      else if one then Decision(false, left1, Some(Account))
                      else if two then Decision(false, left2, Some(Address))
                      else Decision(true, 0, None)
      {
        var scope := budgets[i];
        if up[i] {
          var r := kv.Increment(KeyOf(a, scope), cfg.window, a.now);
          match r {
            case Failure(_) =>
            case Success((count, remaining)) =>
              if count > limits[i] {
                decision := decision.(allowed := false);
                if remaining > decision.retryAfter {
                  decision := decision.(retryAfter := remaining, scope := Some(scope));
                }
              }
          }
        }
      }
    }
  }

  // --------------------------------------------------------- one budget's life

  /** What one budget's counter is before an attempt: none, or a live or expired one. */
  function Step(c: Option<Entry>, now: Time, window: Time): Entry
    requires c.Some? ==> c.value.value.Counter?
  {
    if c.Some? && now < c.value.expires then Entry(Counter(c.value.value.count + 1), c.value.expires)
    else Entry(Counter(1), now + window)
  }

  predicate Ordered(times: seq<Time>) {
    forall i, j :: 0 <= i < j < |times| ==> times[i] <= times[j]
  }

  /** How many of these attempts in [lo, hi) the one budget lets through. */
  function Passed(c: Option<Entry>, times: seq<Time>, limit: nat, window: Time, lo: Time, hi: Time): nat
    requires c.Some? ==> c.value.value.Counter?
    decreases |times|
  {
    if times == [] then 0
    else
      var next := Step(c, times[0], window);
      (if lo <= times[0] < hi && next.value.count <= limit then 1 else 0)
      + Passed(Some(next), times[1..], limit, window, lo, hi)
  }

  /** What is left of a counter's budget while its window is open. */
  function Room(c: Option<Entry>, limit: nat): nat
    requires c.Some? ==> c.value.value.Counter?
  {
    if c.None? then limit else if c.value.value.count <= limit then limit - c.value.value.count else 0
  }

  lemma {:induction false} NonePassed(c: Option<Entry>, times: seq<Time>, limit: nat, window: Time, lo: Time, hi: Time)
    requires c.Some? ==> c.value.value.Counter?
    requires Ordered(times) && (times != [] ==> times[0] >= hi)
    ensures Passed(c, times, limit, window, lo, hi) == 0
    decreases |times|
  {
    if times != [] {
      NonePassed(Some(Step(c, times[0], window)), times[1..], limit, window, lo, hi);
    }
  }

  /** Inside an open window no more pass than the budget has left. */
  lemma {:induction false} WithinOneWindow(c: Entry, times: seq<Time>, limit: nat, window: Time, lo: Time, hi: Time)
    requires c.value.Counter? && Ordered(times) && hi <= c.expires
    ensures Passed(Some(c), times, limit, window, lo, hi) <= Room(Some(c), limit)
    decreases |times|
  {
    if times != [] {
      if times[0] < hi {
        WithinOneWindow(Step(Some(c), times[0], window), times[1..], limit, window, lo, hi);
      } else {
        NonePassed(Some(c), times, limit, window, lo, hi);
      }
    }
  }

  /** From an open window up to one window past its end, at most what it has left and one budget more. */
  lemma {:induction false} AcrossTwoWindows(c: Entry, times: seq<Time>, limit: nat, window: Time, lo: Time, hi: Time)
    requires c.value.Counter? && Ordered(times) && hi <= c.expires + window
    ensures Passed(Some(c), times, limit, window, lo, hi) <= Room(Some(c), limit) + limit
    decreases |times|
  {
    if times != [] {
      var next := Step(Some(c), times[0], window);
      if times[0] < c.expires {
        AcrossTwoWindows(next, times[1..], limit, window, lo, hi);
      } else {
        WithinOneWindow(next, times[1..], limit, window, lo, hi);
      }
    }
  }

  /**
   * Any half-open interval as long as the window lets through at most two budgets
   * less one: to reach the second window it must miss the attempt that opened the first.
   */
  lemma {:induction false} AnyInterval(c: Option<Entry>, times: seq<Time>, limit: nat, window: Time, lo: Time)
    requires (c.Some? ==> c.value.value.Counter? && c.value.value.count >= 1) && Ordered(times) && limit >= 1
    ensures Passed(c, times, limit, window, lo, lo + window) <= 2 * limit - 1
    decreases |times|
  {
    if times != [] {
      var next := Step(c, times[0], window);
      if times[0] < lo {
        AnyInterval(Some(next), times[1..], limit, window, lo);
      } else if c.Some? && times[0] < c.value.expires {
        AcrossTwoWindows(c.value, times, limit, window, lo, lo + window);
      } else {
        WithinOneWindow(next, times[1..], limit, window, lo, lo + window);
      }
    }
  }

  function Repeat(n: nat, now: Time): seq<Time> {
    if n == 0 then [] else [now] + Repeat(n - 1, now)
  }

  lemma {:induction false} RepeatPasses(c: Entry, n: nat, now: Time, more: seq<Time>, limit: nat, window: Time, lo: Time, hi: Time)
    requires c.value.Counter? && now < c.expires && c.value.count + n <= limit && lo <= now < hi
    ensures Passed(Some(c), Repeat(n, now) + more, limit, window, lo, hi)
            == n + Passed(Some(Entry(Counter(c.value.count + n), c.expires)), more, limit, window, lo, hi)
    decreases n
  {
    if n == 0 {
      assert Repeat(n, now) + more == more;
    } else {
      assert (Repeat(n, now) + more)[1..] == Repeat(n - 1, now) + more;
      RepeatPasses(Step(Some(c), now, window), n - 1, now, more, limit, window, lo, hi);
    }
  }

  /** One attempt opens a window, the rest of the budget comes at its very end, and a whole one right after. */
  function WorstTimes(limit: nat, window: Time): seq<Time>
    requires limit >= 1 && window >= 2
  {
    [0] + (Repeat(limit - 1, window - 1) + ([window] + Repeat(limit - 1, window)))
  }

  lemma WindowRenewed(c: Entry, limit: nat, window: Time, lo: Time, hi: Time)
    requires limit >= 1 && window >= 2 && c.value.Counter? && c.expires == window && lo <= window < hi
    ensures Passed(Some(c), [window] + Repeat(limit - 1, window), limit, window, lo, hi) == limit
  {
    hide Repeat;
    var times := [window] + Repeat(limit - 1, window);
    var next := Entry(Counter(1), window + window);
    assert times[0] == window && times[1..] == Repeat(limit - 1, window) + [];
    assert Step(Some(c), window, window) == next;
    RepeatPasses(next, limit - 1, window, [], limit, window, lo, hi);
  }

  lemma OneCounterPasses(limit: nat, window: Time)
    requires limit >= 1 && window >= 2
    ensures Passed(None, WorstTimes(limit, window), limit, window, window - 1, window - 1 + window) == 2 * limit - 1
  {
    hide Repeat;
    var lo, hi := window - 1, window - 1 + window;
    var second := [window] + Repeat(limit - 1, window);
    var times := WorstTimes(limit, window);
    var first := Entry(Counter(1), window);
    assert times[0] == 0 && times[1..] == Repeat(limit - 1, window - 1) + second;
    assert Step(None, 0, window) == first;
    WindowRenewed(Entry(Counter(1 + (limit - 1)), window), limit, window, lo, hi);
    RepeatPasses(first, limit - 1, window - 1, second, limit, window, lo, hi);
  }

  // --------------------------------------------------------------------- runs

  predicate InOrder(run: seq<Attempt>) {
    forall i, j :: 0 <= i < j < |run| ==> run[i].now <= run[j].now
  }

  predicate Allowed(s: Entries, cfg: Config, a: Attempt)
    requires Valid(cfg) && CountersOnly(s)
  {
    !Refuses(s, cfg, a, Account) && !Refuses(s, cfg, a, Address)
  }

  /** How many attempts of a run in [lo, hi) are allowed for one account, or one address. */
  function AllowedFor(s: Entries, cfg: Config, run: seq<Attempt>, scope: Scope, key: Key, lo: Time, hi: Time): nat
    requires Valid(cfg) && CountersOnly(s)
    decreases |run|
  {
    if run == [] then 0
    else
      (if KeyOf(run[0], scope) == key && lo <= run[0].now < hi && Allowed(s, cfg, run[0]) then 1 else 0)
      + AllowedFor(After(s, cfg, run[0]), cfg, run[1..], scope, key, lo, hi)
  }

  function TimesOf(run: seq<Attempt>, scope: Scope, key: Key): seq<Time> {
    if run == [] then []
    else (if KeyOf(run[0], scope) == key then [run[0].now] else []) + TimesOf(run[1..], scope, key)
  }

  lemma {:induction false} TimesInOrder(run: seq<Attempt>, scope: Scope, key: Key)
    requires InOrder(run)
    ensures Ordered(TimesOf(run, scope, key))
    ensures run != [] ==> forall i :: 0 <= i < |TimesOf(run, scope, key)| ==> run[0].now <= TimesOf(run, scope, key)[i]
  {
    hide KeyOf;
    if run != [] {
      var rest := TimesOf(run[1..], scope, key);
      assert TimesOf(run, scope, key) == (if KeyOf(run[0], scope) == key then [run[0].now] else []) + rest;
      hide TimesOf;
      TimesInOrder(run[1..], scope, key);
      forall i | 0 <= i < |rest| ensures run[0].now <= rest[i] {
        assert run[1..] != [] ==> run[1..][0] == run[1];
      }
    }
  }

  function CounterOf(s: Entries, key: Key): Option<Entry> {
    if key in s then Some(s[key]) else None
  }

  lemma CounterAfter(s: Entries, cfg: Config, a: Attempt, scope: Scope, key: Key)
    requires Valid(cfg) && CountersOnly(s) && (if scope.Account? then key.AccountKey? else key.AddressKey?)
    ensures CounterOf(After(s, cfg, a), key) ==
            if KeyOf(a, scope) == key then Some(Step(CounterOf(s, key), a.now, cfg.window)) else CounterOf(s, key)
    ensures KeyOf(a, scope) == key && Allowed(s, cfg, a) ==>
            Step(CounterOf(s, key), a.now, cfg.window).value.count <= LimitOf(cfg, scope)
  {
    hide NormalizeEmail;
  }

  /** What the limiter allows a budget's key, that budget alone would pass. */
  lemma {:induction false} BudgetAlone(s: Entries, cfg: Config, run: seq<Attempt>, scope: Scope, key: Key, lo: Time, hi: Time)
    requires Valid(cfg) && CountersOnly(s) && (if scope.Account? then key.AccountKey? else key.AddressKey?)
    ensures AllowedFor(s, cfg, run, scope, key, lo, hi)
            <= Passed(CounterOf(s, key), TimesOf(run, scope, key), (if scope.Account? then cfg.perAccount else cfg.perAddress), cfg.window, lo, hi)
    decreases |run|
  {
    if run != [] {
      CounterAfter(s, cfg, run[0], scope, key);
      BudgetAlone(After(s, cfg, run[0]), cfg, run[1..], scope, key, lo, hi);
      hide KeyOf, After, Allowed, Live;
      if KeyOf(run[0], scope) == key {
        assert TimesOf(run, scope, key)[1..] == TimesOf(run[1..], scope, key);
      } else {
        assert TimesOf(run, scope, key) == TimesOf(run[1..], scope, key);
      }
    }
  }

  lemma BudgetBound(s: Entries, cfg: Config, run: seq<Attempt>, scope: Scope, key: Key, lo: Time)
    requires Valid(cfg) && CountersOnly(s) && InOrder(run)
    requires if scope.Account? then key.AccountKey? else key.AddressKey?
    ensures AllowedFor(s, cfg, run, scope, key, lo, lo + cfg.window) <= 2 * LimitOf(cfg, scope) - 1
  {
    hide KeyOf, AllowedFor, Passed, TimesOf, Live;
    BudgetAlone(s, cfg, run, scope, key, lo, lo + cfg.window);
    TimesInOrder(run, scope, key);
    AnyInterval(CounterOf(s, key), TimesOf(run, scope, key), LimitOf(cfg, scope), cfg.window, lo);
  }

  /**
   * Rate bound: whatever the store held, in any run with a monotone clock and an
   * available store, any half-open interval of one window's length holds at most
   * twice the account's budget less one of allowed attempts for one account, and
   * at most twice the address's less one for one address.
   */
  lemma AtMostTwoBudgetsLessOne(s: Entries, cfg: Config, run: seq<Attempt>, name: string, ip: string, lo: Time)
    requires Valid(cfg) && CountersOnly(s) && InOrder(run)
    ensures AllowedFor(s, cfg, run, Account, AccountKey(name), lo, lo + cfg.window) <= 2 * cfg.perAccount - 1
    ensures AllowedFor(s, cfg, run, Address, AddressKey(ip), lo, lo + cfg.window) <= 2 * cfg.perAddress - 1
  {
    hide AllowedFor;
    BudgetBound(s, cfg, run, Account, AccountKey(name), lo);
    BudgetBound(s, cfg, run, Address, AddressKey(ip), lo);
  }

  /** Names no two of which are the same account, or the same address. */
  function Name(i: nat): string {
    seq(i + 1, _ => 'a')
  }

  lemma NameIsNormal(i: nat)
    ensures NormalizeEmail(Name(i)) == Name(i)
  {
    assert Name(i)[0] == 'a' && Name(i)[|Name(i)| - 1] == 'a';
  }

  lemma NamesDiffer(i: nat, j: nat)
    requires i != j
    ensures Name(i) != Name(j)
  {
    assert |Name(i)| == i + 1 && |Name(j)| == j + 1;
  }

  /** Attempts on one account from an address each, or from one address on an account each. */
  function Attempts(times: seq<Time>, scope: Scope, i: nat): seq<Attempt>
    decreases |times|
  {
    if times == [] then []
    else [if scope.Account? then Attempt(times[0], Name(0), Name(i)) else Attempt(times[0], Name(i), Name(0))]
         + Attempts(times[1..], scope, i + 1)
  }

  function NameKey(scope: Scope, i: nat): Key {
    if scope.Account? then AccountKey(Name(i)) else AddressKey(Name(i))
  }

  function Other(scope: Scope): Scope {
    if scope.Account? then Address else Account
  }

  lemma KeysOf(times: seq<Time>, scope: Scope, i: nat)
    requires times != []
    ensures var a := Attempts(times, scope, i)[0];
            a.now == times[0] && KeyOf(a, scope) == NameKey(scope, 0) && KeyOf(a, Other(scope)) == NameKey(Other(scope), i)
  {
    NameIsNormal(0);
    NameIsNormal(i);
    hide NormalizeEmail, Name;
  }

  /** Nobody has used the other budget's names from this one on. */
  ghost predicate Unused(s: Entries, scope: Scope, i: nat) {
    forall j :: j >= i ==> NameKey(Other(scope), j) !in s
  }

  lemma AllowedByItsOwn(s: Entries, cfg: Config, times: seq<Time>, scope: Scope, i: nat)
    requires Valid(cfg) && CountersOnly(s) && Unused(s, scope, i) && times != []
    ensures var a := Attempts(times, scope, i)[0];
            && (Allowed(s, cfg, a) <==> Step(CounterOf(s, NameKey(scope, 0)), times[0], cfg.window).value.count <= LimitOf(cfg, scope))
            && CounterOf(After(s, cfg, a), NameKey(scope, 0)) == Some(Step(CounterOf(s, NameKey(scope, 0)), times[0], cfg.window))
            && Unused(After(s, cfg, a), scope, i + 1)
  {
    var a := Attempts(times, scope, i)[0];
    KeysOf(times, scope, i);
    assert NameKey(Other(scope), i) !in s;
    hide Attempts, KeyOf, Name;
    assert Budget(s, cfg, a, Other(scope)).value.count == 1;
    assert Budget(s, cfg, a, scope) == Step(CounterOf(s, NameKey(scope, 0)), times[0], cfg.window);
    assert Refuses(s, cfg, a, Other(scope)) == false;
    forall j | j >= i + 1 ensures NameKey(Other(scope), j) !in After(s, cfg, a) {
      NamesDiffer(i, j);
    }
  }

  /** Then the limiter allows exactly what that budget alone passes. */
  lemma {:induction false} BudgetDecides(s: Entries, cfg: Config, times: seq<Time>, scope: Scope, i: nat, lo: Time, hi: Time)
    requires Valid(cfg) && CountersOnly(s) && Unused(s, scope, i)
    ensures AllowedFor(s, cfg, Attempts(times, scope, i), scope, NameKey(scope, 0), lo, hi)
            == Passed(CounterOf(s, NameKey(scope, 0)), times, (if scope.Account? then cfg.perAccount else cfg.perAddress), cfg.window, lo, hi)
    decreases |times|
  {
    if times != [] {
      var run := Attempts(times, scope, i);
      KeysOf(times, scope, i);
      AllowedByItsOwn(s, cfg, times, scope, i);
      assert run[1..] == Attempts(times[1..], scope, i + 1);
      hide Attempts, KeyOf, NameKey, After, Allowed, Step, Unused, CounterOf;
      BudgetDecides(After(s, cfg, run[0]), cfg, times[1..], scope, i + 1, lo, hi);
    }
  }

  lemma {:induction false} AttemptsInOrder(times: seq<Time>, scope: Scope, i: nat)
    requires Ordered(times)
    ensures InOrder(Attempts(times, scope, i)) && |Attempts(times, scope, i)| == |times|
    ensures forall j :: 0 <= j < |times| ==> Attempts(times, scope, i)[j].now == times[j]
    decreases |times|
  {
    hide Name;
    if times != [] { AttemptsInOrder(times[1..], scope, i + 1); }
  }

  lemma {:induction false} Repeated(n: nat, now: Time)
    ensures |Repeat(n, now)| == n && forall i :: 0 <= i < n ==> Repeat(n, now)[i] == now
  {
    if n > 0 { Repeated(n - 1, now); }
  }

  lemma BudgetIsReached(cfg: Config, scope: Scope, limit: nat)
    requires Valid(cfg) && cfg.window >= 2 && limit == LimitOf(cfg, scope)
    ensures var run := Attempts(WorstTimes(limit, cfg.window), scope, 0); var lo := cfg.window - 1;
            && InOrder(run)
            && AllowedFor(map[], cfg, run, scope, NameKey(scope, 0), lo, lo + cfg.window) == 2 * limit - 1
  {
    var times := WorstTimes(limit, cfg.window);
    Repeated(limit - 1, cfg.window - 1);
    Repeated(limit - 1, cfg.window);
    hide Repeat, AllowedFor, Passed, Attempts, NameKey;
    AttemptsInOrder(times, scope, 0);
    OneCounterPasses(limit, cfg.window);
    BudgetDecides(map[], cfg, times, scope, 0, cfg.window - 1, cfg.window - 1 + cfg.window);
  }

  /**
   * The bound is met, for an account and for an address, under every
   * configuration: from an empty store, over a monotone clock, the limiter allows
   * two budgets less one within a window's length.
   */
  lemma TwoBudgetsLessOneIsReached(cfg: Config)
    requires Valid(cfg) && cfg.window >= 2
    ensures var run := Attempts(WorstTimes(cfg.perAccount, cfg.window), Account, 0); var lo := cfg.window - 1;
            && InOrder(run)
            && AllowedFor(map[], cfg, run, Account, AccountKey("a"), lo, lo + cfg.window) == 2 * cfg.perAccount - 1
    ensures var run := Attempts(WorstTimes(cfg.perAddress, cfg.window), Address, 0); var lo := cfg.window - 1;
            && InOrder(run)
            && AllowedFor(map[], cfg, run, Address, AddressKey("a"), lo, lo + cfg.window) == 2 * cfg.perAddress - 1
  {
    assert Name(0) == "a";
    hide AllowedFor, WorstTimes, Attempts, InOrder;
    BudgetIsReached(cfg, Account, cfg.perAccount);
    BudgetIsReached(cfg, Address, cfg.perAddress);
  }

  function RunAll(s: Entries, cfg: Config, run: seq<Attempt>): (t: Entries)
    requires Valid(cfg) && CountersOnly(s)
    ensures CountersOnly(t)
    decreases |run|
  {
    if run == [] then s else RunAll(After(s, cfg, run[0]), cfg, run[1..])
  }

  /** An open window ends when it was always going to, however many attempts are made in it, allowed or refused. */
  lemma {:induction false} AttemptsNeverExtendAWindow(s: Entries, cfg: Config, run: seq<Attempt>, key: Key)
    requires Valid(cfg) && CountersOnly(s) && key in s && (key.AccountKey? || key.AddressKey?)
    requires forall i :: 0 <= i < |run| ==> run[i].now < s[key].expires
    ensures key in RunAll(s, cfg, run) && RunAll(s, cfg, run)[key].expires == s[key].expires
    decreases |run|
  {
    if run != [] {
      var t := After(s, cfg, run[0]);
      assert key in t && t[key].expires == s[key].expires;
      AttemptsNeverExtendAWindow(t, cfg, run[1..], key);
    }
  }

  /**
   * At the moment of a refusal plus its retry-after, the longest any refusing
   * budget has left, every budget that refused has reset.
   */
  lemma RetryAfterIsLongEnough(s: Entries, cfg: Config, a: Attempt, retryAfter: Time, later: Time)
    requires Valid(cfg) && CountersOnly(s) && later >= a.now + retryAfter
    requires var account := Incremented(s, AccountKey(NormalizeEmail(a.email)), cfg.window, a.now);
             account.value.count > cfg.perAccount ==> account.expires - a.now <= retryAfter
    requires var address := Incremented(s, AddressKey(a.ip), cfg.window, a.now);
             address.value.count > cfg.perAddress ==> address.expires - a.now <= retryAfter
    ensures var account := AccountKey(NormalizeEmail(a.email));
            Incremented(s, account, cfg.window, a.now).value.count > cfg.perAccount ==> !Live(After(s, cfg, a), account, later)
    ensures var address := AddressKey(a.ip);
            Incremented(s, address, cfg.window, a.now).value.count > cfg.perAddress ==> !Live(After(s, cfg, a), address, later)
  {
    hide NormalizeEmail;
    assert After(s, cfg, a)[AccountKey(NormalizeEmail(a.email))] == Budget(s, cfg, a, Account);
    assert After(s, cfg, a)[AddressKey(a.ip)] == Budget(s, cfg, a, Address);
  }

  // ------------------------------------------------- what is allowed, exactly

  /** A window by itself: when it was opened, and how many attempts it has seen; none so far when zero. */
  datatype Window = Window(start: Time, seen: nat)

  const NoWindow: Window := Window(0, 0)

  /** An attempt falls in the window open at its time, or opens one. */
  function Falls(w: Window, now: Time, length: Time): Window {
    if w.seen > 0 && now < w.start + length then Window(w.start, w.seen + 1) else Window(now, 1)
  }

  /** The window the last of these attempts falls in. */
  function Latest(w: Window, times: seq<Time>, length: Time): Window
    decreases |times|
  {
    if times == [] then w else Latest(Falls(w, times[0], length), times[1..], length)
  }

  /** When an account was tried, under any spelling of its name, and when an address tried. */
  function AccountTimes(run: seq<Attempt>, name: string): seq<Time> {
    if run == [] then []
    else (if NormalizeEmail(run[0].email) == name then [run[0].now] else []) + AccountTimes(run[1..], name)
  }

  function AddressTimes(run: seq<Attempt>, ip: string): seq<Time> {
    if run == [] then []
    else (if run[0].ip == ip then [run[0].now] else []) + AddressTimes(run[1..], ip)
  }

  predicate Tracks(c: Option<Entry>, w: Window, length: Time) {
    if c.None? then w.seen == 0
    else w.seen > 0 && c.value == Entry(Counter(w.seen), w.start + length)
  }

  lemma {:induction false} AccountTracked(s: Entries, cfg: Config, run: seq<Attempt>, name: string, w: Window)
    requires Valid(cfg) && CountersOnly(s) && Tracks(CounterOf(s, AccountKey(name)), w, cfg.window)
    ensures Tracks(CounterOf(RunAll(s, cfg, run), AccountKey(name)), Latest(w, AccountTimes(run, name), cfg.window), cfg.window)
    decreases |run|
  {
    if run != [] {
      CounterAfter(s, cfg, run[0], Account, AccountKey(name));
      var next := Latest(w, if NormalizeEmail(run[0].email) == name then [run[0].now] else [], cfg.window);
      LatestInParts(w, if NormalizeEmail(run[0].email) == name then [run[0].now] else [], AccountTimes(run[1..], name), cfg.window);
      hide After, NormalizeEmail;
      AccountTracked(After(s, cfg, run[0]), cfg, run[1..], name, next);
    }
  }

  lemma {:induction false} AddressTracked(s: Entries, cfg: Config, run: seq<Attempt>, ip: string, w: Window)
    requires Valid(cfg) && CountersOnly(s) && Tracks(CounterOf(s, AddressKey(ip)), w, cfg.window)
    ensures Tracks(CounterOf(RunAll(s, cfg, run), AddressKey(ip)), Latest(w, AddressTimes(run, ip), cfg.window), cfg.window)
    decreases |run|
  {
    if run != [] {
      CounterAfter(s, cfg, run[0], Address, AddressKey(ip));
      var next := Latest(w, if run[0].ip == ip then [run[0].now] else [], cfg.window);
      LatestInParts(w, if run[0].ip == ip then [run[0].now] else [], AddressTimes(run[1..], ip), cfg.window);
      hide After, NormalizeEmail;
      AddressTracked(After(s, cfg, run[0]), cfg, run[1..], ip, next);
    }
  }

  lemma {:induction false} LatestInParts(w: Window, first: seq<Time>, second: seq<Time>, length: Time)
    ensures Latest(w, first + second, length) == Latest(Latest(w, first, length), second, length)
    decreases |first|
  {
    if first == [] {
      assert first + second == second;
    } else {
      assert (first + second)[1..] == first[1..] + second;
      LatestInParts(Falls(w, first[0], length), first[1..], second, length);
    }
  }

  /**
   * Exactly which attempts are allowed. Over any run from an empty store, the next
   * one is allowed if and only if it is within the account's budget among the
   * attempts on that account in its current window, however its name was spelt,
   * and within the address's among those from that address in its own.
   */
  lemma AllowedExactly(cfg: Config, run: seq<Attempt>, a: Attempt)
    requires Valid(cfg)
    ensures Allowed(RunAll(map[], cfg, run), cfg, a) <==>
            && Latest(NoWindow, AccountTimes(run, NormalizeEmail(a.email)) + [a.now], cfg.window).seen <= cfg.perAccount
            && Latest(NoWindow, AddressTimes(run, a.ip) + [a.now], cfg.window).seen <= cfg.perAddress
  {
    var name, s := NormalizeEmail(a.email), RunAll(map[], cfg, run);
    AccountTracked(map[], cfg, run, name, NoWindow);
    AddressTracked(map[], cfg, run, a.ip, NoWindow);
    LatestInParts(NoWindow, AccountTimes(run, name), [a.now], cfg.window);
    LatestInParts(NoWindow, AddressTimes(run, a.ip), [a.now], cfg.window);
    hide NormalizeEmail, RunAll, AccountTimes, AddressTimes;
    assert [a.now][1..] == [];
  }
}
