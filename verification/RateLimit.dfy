/** The fixed-window request limiter: one counter per organisation and minute, living 60 s from its first hit. */
module RateLimit {
  import opened Prelude

  /** Time is in milliseconds. */
  const WINDOW: nat := 60_000

  function WindowOf(now: nat): nat {
    now / WINDOW
  }

  type Org = string
  type Key = (Org, nat)

  datatype Counter = Counter(count: nat, expires: Option<nat>)

  predicate Live(c: Counter, now: nat) {
    c.expires.None? || now < c.expires.value
  }

  /** SET NX EX: creates the counter with its lifetime unless a live one exists. */
  function SetNx(store: map<Key, Counter>, key: Key, now: nat): (map<Key, Counter>, bool) {
    if key in store && Live(store[key], now) then (store, false)
    else (store[key := Counter(1, Some(now + WINDOW))], true)
  }

  /** INCR: an expired or absent counter restarts at one and then never expires. */
  function Incr(store: map<Key, Counter>, key: Key, now: nat): (map<Key, Counter>, nat) {
    if key in store && Live(store[key], now) then
      var c := store[key].(count := store[key].count + 1);
      (store[key := c], c.count)
    else (store[key := Counter(1, None)], 1)
  }

  class RedisCounter {
    var now: nat
    var store: map<Key, Counter>

    constructor ()
      ensures now == 0 && store == map[]
    {
      now, store := 0, map[];
    }

    /** Both commands back to back. */
    method Increment(key: Key) returns (n: nat)
      modifies this`store
      ensures key in store && Live(store[key], now) && store[key].count == n
      ensures old(key in store && Live(store[key], now)) ==>
                n == old(store)[key].count + 1 && store[key].expires == old(store)[key].expires
      ensures !old(key in store && Live(store[key], now)) ==> n == 1 && store[key].expires == Some(now + 60_000)
      ensures forall k: Key | k != key :: (k in store <==> k in old(store)) && (k in store ==> store[k] == old(store)[k])
    {
      var (store1, created) := SetNx(store, key, now);
      store := store1;
      if created {
        return 1;
      }
      var (store2, count) := Incr(store, key, now);
      store := store2;
      return count;
    }
  }

  /** Allowed up to the policy's count in the organisation's current window. */
  method Enforce(counter: RedisCounter, org: Org, rpm: nat) returns (allowed: bool)
    modifies counter`store
    ensures var key := (org, counter.now / 60_000);
      allowed <==> (if old(key in counter.store && Live(counter.store[key], counter.now))
                    then old(counter.store)[key].count < rpm else rpm >= 1)
    ensures forall k: Key | k.0 != org :: (k in counter.store <==> k in old(counter.store))
              && (k in counter.store ==> counter.store[k] == old(counter.store)[k])
  {
    var n := counter.Increment((org, WindowOf(counter.now)));
    allowed := n <= rpm;
  }

  // ----- Any number of requests, command by command -----

  datatype Request =
    | Keyed(key: Key) // window computed, nothing sent yet
    | Missed(key: Key) // SET NX found a live counter, INCR still to run
    | Ended(key: Key, allowed: bool)

  datatype Grant = Grant(key: Key, at: nat)

  /** `lives` counts the requests under each key, one number for each life of its counter; nothing reads it. */
  datatype System = System(
    now: nat,
    store: map<Key, Counter>,
    requests: map<nat, Request>,
    grants: seq<Grant>,
    lives: map<Key, seq<nat>>)

  datatype Action = Begin(rid: nat, org: Org) | Create(rid: nat) | Bump(rid: nat) | Tick(duration: nat)

  const EMPTY := System(0, map[], map[], [], map[])

  function LivesOf(s: System, key: Key): seq<nat> {
    if key in s.lives then s.lives[key] else []
  }

  /** A count of one starts a life; any other belongs to the current one. */
  function Counted(lives: seq<nat>, n: nat): seq<nat> {
    if n == 1 || lives == [] then lives + [n] else lives[..|lives| - 1] + [n]
  }

  function Finish(s: System, rid: nat, key: Key, n: nat, rpm: nat): System {
    s.(requests := s.requests[rid := Ended(key, n <= rpm)],
       grants := if n <= rpm then s.grants + [Grant(key, s.now)] else s.grants,
       lives := s.lives[key := Counted(LivesOf(s, key), n)])
  }

  function Apply(rpm: nat, s: System, a: Action): System {
    match a
    case Begin(rid, org) =>
      if rid in s.requests then s else s.(requests := s.requests[rid := Keyed((org, WindowOf(s.now)))])
    case Create(rid) =>
      if rid !in s.requests || !s.requests[rid].Keyed? then s
      else
        var key := s.requests[rid].key;
        var (store, created) := SetNx(s.store, key, s.now);
        if created then Finish(s.(store := store), rid, key, 1, rpm)
        else s.(store := store, requests := s.requests[rid := Missed(key)])
    case Bump(rid) =>
      if rid !in s.requests || !s.requests[rid].Missed? then s
      else
        var key := s.requests[rid].key;
        var (store, n) := Incr(s.store, key, s.now);
        Finish(s.(store := store), rid, key, n, rpm)
    case Tick(d) => s.(now := s.now + d)
  }

  function Run(rpm: nat, actions: seq<Action>): System {
    if actions == [] then EMPTY else Apply(rpm, Run(rpm, actions[..|actions| - 1]), actions[|actions| - 1])
  }

  lemma Snoc(rpm: nat, actions: seq<Action>, a: Action)
    ensures Run(rpm, actions + [a]) == Apply(rpm, Run(rpm, actions), a)
    ensures AllTimely(rpm, actions + [a]) <==> AllTimely(rpm, actions) && Timely(Run(rpm, actions), a)
    ensures Run(rpm, []) == EMPTY && AllTimely(rpm, [])
  {
  }

  // ----- Every run: what is allowed, life by life -----

  function Granted(grants: seq<Grant>, key: Key): nat {
    if grants == [] then 0
    else Granted(grants[..|grants| - 1], key) + (if grants[|grants| - 1].key == key then 1 else 0)
  }

  lemma GrantedSnoc(grants: seq<Grant>, g: Grant, key: Key)
    ensures Granted(grants + [g], key) == Granted(grants, key) + if g.key == key then 1 else 0
  {
  }

  /** The first `rpm` requests of each life. */
  function Allowed(rpm: nat, lives: seq<nat>): nat {
    if lives == [] then 0 else Allowed(rpm, lives[..|lives| - 1]) + Min(rpm, lives[|lives| - 1])
  }

  function Total(lives: seq<nat>): nat {
    if lives == [] then 0 else Total(lives[..|lives| - 1]) + lives[|lives| - 1]
  }

  /** The last life of a key is what its counter counts now. */
  ghost predicate LivesFit(s: System) {
    && s.lives.Keys == s.store.Keys
    && (forall key: Key | key in s.store ::
          && s.lives[key] != [] && s.lives[key][|s.lives[key]| - 1] == s.store[key].count
          && forall i | 0 <= i < |s.lives[key]| :: s.lives[key][i] >= 1)
  }

  ghost predicate LivesOk(rpm: nat, s: System) {
    LivesFit(s) && forall key: Key :: Granted(s.grants, key) == Allowed(rpm, LivesOf(s, key))
  }

  lemma CountedAllowed(rpm: nat, lives: seq<nat>, n: nat)
    requires n == 1 || (lives != [] && lives[|lives| - 1] + 1 == n)
    ensures Allowed(rpm, Counted(lives, n)) == Allowed(rpm, lives) + if n <= rpm then 1 else 0
  {
  }

  lemma CountedLivesOk(rpm: nat, s: System, rid: nat, key: Key, counter: Counter)
    requires LivesOk(rpm, s)
    requires counter.count == 1 || (key in s.store && counter.count == s.store[key].count + 1)
    ensures LivesOk(rpm, Finish(s.(store := s.store[key := counter]), rid, key, counter.count, rpm))
  {
    var s' := Finish(s.(store := s.store[key := counter]), rid, key, counter.count, rpm);
    CountedFit(rpm, s, rid, key, counter);
    CountedAllowed(rpm, LivesOf(s, key), counter.count);
    hide Allowed, Granted, Counted;
    forall k: Key ensures Granted(s'.grants, k) == Allowed(rpm, LivesOf(s', k)) {
      GrantedSnoc(s.grants, Grant(key, s.now), k);
      assert Granted(s.grants, k) == Allowed(rpm, LivesOf(s, k));
    }
    hide LivesFit;
  }

  lemma CountedFit(rpm: nat, s: System, rid: nat, key: Key, counter: Counter)
    requires LivesFit(s)
    requires counter.count == 1 || (key in s.store && counter.count == s.store[key].count + 1)
    ensures LivesFit(Finish(s.(store := s.store[key := counter]), rid, key, counter.count, rpm))
  {
  }

  lemma ApplyLivesOk(rpm: nat, s: System, a: Action)
    requires LivesOk(rpm, s)
    ensures LivesOk(rpm, Apply(rpm, s, a))
  {
    var s' := Apply(rpm, s, a);
    if s'.lives != s.lives {
      var key := s.requests[a.rid].key;
      CountedLivesOk(rpm, s, a.rid, key, s'.store[key]);
      hide LivesOk;
    } else {
      hide Granted, Allowed;
    }
  }

  lemma {:induction false} RunLivesOk(rpm: nat, actions: seq<Action>)
    ensures LivesOk(rpm, Run(rpm, actions))
  {
    if actions != [] {
      RunLivesOk(rpm, actions[..|actions| - 1]);
      ApplyLivesOk(rpm, Run(rpm, actions[..|actions| - 1]), actions[|actions| - 1]);
      hide Apply, LivesOk;
    }
  }

  lemma {:induction false} AllowedShape(rpm: nat, lives: seq<nat>)
    requires forall i | 0 <= i < |lives| :: lives[i] >= 1
    ensures |lives| <= 1 ==> Allowed(rpm, lives) == Min(rpm, Total(lives))
    ensures Allowed(rpm, lives) > rpm <==> rpm > 0 && |lives| > 1 && Total(lives) > rpm
    ensures Allowed(rpm, lives) <= Total(lives)
    ensures rpm > 0 && lives != [] ==> Allowed(rpm, lives) >= 1
    ensures Allowed(rpm, lives) < Total(lives) ==> Allowed(rpm, lives) >= rpm
    ensures rpm == 0 ==> Allowed(rpm, lives) == 0
  {
    if lives != [] {
      AllowedShape(rpm, lives[..|lives| - 1]);
    }
  }

  /**
   In every run, however late its commands: a window lets through the first `rpm` requests of each life of its
   counter. So it lets through more than `rpm` exactly when its counter restarted and more than `rpm` requests
   were counted under it; a window whose counter never restarted lets through exactly its first `rpm`.
   */
  lemma OverrunIff(rpm: nat, actions: seq<Action>, key: Key)
    ensures var s := Run(rpm, actions);
      var lives := LivesOf(s, key);
      && Granted(s.grants, key) == Allowed(rpm, lives)
      && (Granted(s.grants, key) > rpm <==> rpm > 0 && |lives| > 1 && Total(lives) > rpm)
      && (|lives| <= 1 ==> Granted(s.grants, key) == Min(rpm, CountOf(s.store, key)))
  {
    RunLivesOk(rpm, actions);
    var s := Run(rpm, actions);
    hide Run;
    var lives := LivesOf(s, key);
    AllowedShape(rpm, lives);
    if |lives| == 1 {
      assert lives[..0] == [];
    }
    hide Allowed;
  }

  /** The action is the next counter command of a request for `key`. */
  predicate Commands(s: System, a: Action, key: Key) {
    && (a.Create? || a.Bump?) && a.rid in s.requests
    && s.requests[a.rid] == (if a.Create? then Keyed(key) else Missed(key))
  }

  /** A command restarts a counter exactly when it finds it expired. */
  lemma RestartsIff(rpm: nat, actions: seq<Action>, a: Action, key: Key)
    ensures var s := Run(rpm, actions);
      |LivesOf(Run(rpm, actions + [a]), key)| > |LivesOf(s, key)| > 0 <==>
        Commands(s, a, key) && key in s.store && !Live(s.store[key], s.now)
  {
    RunLivesOk(rpm, actions);
    Snoc(rpm, actions, a);
    hide Run, Granted, Allowed, AllTimely;
  }

  // ----- Commands that land in their own window -----

  /** The command lands while the request's own window is still current. */
  predicate Timely(s: System, a: Action) {
    (a.Create? || a.Bump?) && a.rid in s.requests && !s.requests[a.rid].Ended? ==>
      WindowOf(s.now) == s.requests[a.rid].key.1
  }

  predicate AllTimely(rpm: nat, actions: seq<Action>) {
    actions == [] ||
    (AllTimely(rpm, actions[..|actions| - 1])
     && Timely(Run(rpm, actions[..|actions| - 1]), actions[|actions| - 1]))
  }

  function CountOf(store: map<Key, Counter>, key: Key): nat {
    if key in store then store[key].count else 0
  }

  /** Counters outlive their window, none has restarted, and every request was allowed inside its own window. */
  ghost predicate Punctual(s: System) {
    && s.lives.Keys == s.store.Keys
    && (forall key: Key | key in s.store ::
          && s.store[key].expires.Some? && s.store[key].expires.value >= (key.1 + 1) * WINDOW
          && |s.lives[key]| == 1 && s.store[key].count >= 1)
    && (forall i | 0 <= i < |s.grants| :: WindowOf(s.grants[i].at) == s.grants[i].key.1)
    && (forall rid | rid in s.requests && s.requests[rid].Missed? :: s.requests[rid].key in s.store)
  }

  /** Inside its window a counter is alive, so it cannot restart. */
  lemma LiveInWindow(c: Counter, w: nat, now: nat)
    requires c.expires.Some? && c.expires.value >= (w + 1) * WINDOW && WindowOf(now) == w
    ensures Live(c, now)
  {
  }

  lemma CreatedOutlives(now: nat)
    ensures now + WINDOW >= (WindowOf(now) + 1) * WINDOW
  {
  }

  lemma ApplyPunctual(rpm: nat, s: System, a: Action)
    requires Punctual(s) && Timely(s, a)
    ensures Punctual(Apply(rpm, s, a))
  {
    CreatedOutlives(s.now);
    if (a.Create? || a.Bump?) && a.rid in s.requests && !s.requests[a.rid].Ended? {
      var key := s.requests[a.rid].key;
      if key in s.store {
        LiveInWindow(s.store[key], key.1, s.now);
      }
    }
    hide WindowOf;
  }

  /** With every command landing in its own window no counter ever restarts. */
  lemma {:induction false} TimelyPunctual(rpm: nat, actions: seq<Action>)
    requires AllTimely(rpm, actions)
    ensures Punctual(Run(rpm, actions))
  {
    if actions != [] {
      TimelyPunctual(rpm, actions[..|actions| - 1]);
      ApplyPunctual(rpm, Run(rpm, actions[..|actions| - 1]), actions[|actions| - 1]);
      hide Apply, Punctual;
    }
  }

  /** Grants to one organisation at times in [from, to). */
  function GrantedDuring(grants: seq<Grant>, org: Org, from: nat, to: nat): nat {
    if grants == [] then 0
    else
      var g := grants[|grants| - 1];
      GrantedDuring(grants[..|grants| - 1], org, from, to) + (if g.key.0 == org && from <= g.at < to then 1 else 0)
  }

  /** Every request of `org` that was allowed was allowed inside its own window. */
  predicate InOwnWindow(grants: seq<Grant>, org: Org) {
    forall i | 0 <= i < |grants| && grants[i].key.0 == org :: WindowOf(grants[i].at) == grants[i].key.1
  }

  lemma {:induction false} TwoWindows(grants: seq<Grant>, org: Org, from: nat)
    requires InOwnWindow(grants, org)
    ensures GrantedDuring(grants, org, from, from + WINDOW) <=
      Granted(grants, (org, WindowOf(from))) + Granted(grants, (org, WindowOf(from) + 1))
  {
    if grants != [] {
      TwoWindows(grants[..|grants| - 1], org, from);
      NextWindow(grants[|grants| - 1].at, from);
    }
  }

  lemma NextWindow(at: nat, from: nat)
    ensures from <= at < from + WINDOW ==> WindowOf(at) == WindowOf(from) || WindowOf(at) == WindowOf(from) + 1
  {
  }

  /** At most twice the limit in any sixty seconds, if neither window restarted and no allowed request was late. */
  lemma SixtySeconds(rpm: nat, actions: seq<Action>, org: Org, from: nat)
    requires var s := Run(rpm, actions);
      && InOwnWindow(s.grants, org)
      && |LivesOf(s, (org, WindowOf(from)))| <= 1 && |LivesOf(s, (org, WindowOf(from) + 1))| <= 1
    ensures GrantedDuring(Run(rpm, actions).grants, org, from, from + 60_000) <= 2 * rpm
  {
    OverrunIff(rpm, actions, (org, WindowOf(from)));
    OverrunIff(rpm, actions, (org, WindowOf(from) + 1));
    TwoWindows(Run(rpm, actions).grants, org, from);
    hide Run, Granted, GrantedDuring;
  }

  /**
   With every command landing in its own window, an organisation is allowed exactly its first `rpm` counted
   requests of each window, whatever others do, and so at most twice that in any sixty seconds.
   */
  lemma AtMostRpm(rpm: nat, actions: seq<Action>, org: Org, window: nat, from: nat)
    requires AllTimely(rpm, actions)
    ensures var s := Run(rpm, actions);
      && |LivesOf(s, (org, window))| <= 1
      && Granted(s.grants, (org, window)) == Min(rpm, CountOf(s.store, (org, window)))
      && GrantedDuring(s.grants, org, from, from + 60_000) <= 2 * rpm
  {
    TimelyPunctual(rpm, actions);
    OverrunIff(rpm, actions, (org, window));
    SixtySeconds(rpm, actions, org, from);
    hide Run, Granted, GrantedDuring;
  }

  // ----- The doubled bound is reached -----

  /** `n` requests of `org`, one after another, each with both commands if it needs them. */
  function Burst(org: Org, first: nat, n: nat): seq<Action> {
    if n == 0 then [] else Burst(org, first, n - 1) + OneRequest(org, first + n - 1)
  }

  function OneRequest(org: Org, rid: nat): seq<Action> {
    [Begin(rid, org), Create(rid), Bump(rid)]
  }

  /** What a burst leaves behind: `n` counted and allowed at the moment it ran, earlier grants untouched. */
  ghost predicate Burned(s: System, s': System, org: Org, first: nat, n: nat) {
    var key := (org, WindowOf(s.now));
    && s'.now == s.now
    && (if n == 0 then key !in s'.store else key in s'.store && s'.store[key] == Counter(n, Some(s.now + WINDOW)))
    && (forall k: Key | k != key :: k in s'.store <==> k in s.store)
    && (forall rid | rid in s'.requests :: rid < first + n)
    && Granted(s'.grants, key) == Granted(s.grants, key) + n
    && forall from: nat, to: nat | from <= s.now < to ::
         GrantedDuring(s'.grants, org, from, to) == GrantedDuring(s.grants, org, from, to) + n
  }

  lemma OneMore(rpm: nat, s: System, s0: System, org: Org, first: nat, n: nat)
    requires Burned(s0, s, org, first, n) && n < rpm
    ensures var s1 := Apply(rpm, s, Begin(first + n, org));
      var s2 := Apply(rpm, s1, Create(first + n));
      && Timely(s1, Create(first + n)) && Timely(s2, Bump(first + n))
      && Burned(s0, Apply(rpm, s2, Bump(first + n)), org, first, n + 1)
  {
    var rid := first + n;
    OneAllowed(rpm, s, rid, org, n);
    hide Apply, Timely, Burned;
    BurnedMore(s0, s, Apply(rpm, Apply(rpm, Apply(rpm, s, Begin(rid, org)), Create(rid)), Bump(rid)), org, first, n);
  }

  lemma BurnedMore(s0: System, s: System, s': System, org: Org, first: nat, n: nat)
    requires Burned(s0, s, org, first, n)
    requires var key := (org, WindowOf(s.now));
      && s'.now == s.now && s'.grants == s.grants + [Grant(key, s.now)]
      && s'.store == s.store[key := Counter(n + 1, Some(s.now + WINDOW))]
      && s'.requests.Keys == s.requests.Keys + {first + n}
    ensures Burned(s0, s', org, first, n + 1)
  {
  }

  /** A request below the limit, undisturbed from beginning to end. */
  lemma OneAllowed(rpm: nat, s: System, rid: nat, org: Org, n: nat)
    requires rid !in s.requests && n < rpm
    requires var key := (org, WindowOf(s.now));
      if n == 0 then key !in s.store else key in s.store && s.store[key] == Counter(n, Some(s.now + WINDOW))
    ensures var key := (org, WindowOf(s.now));
      var s1 := Apply(rpm, s, Begin(rid, org));
      var s2 := Apply(rpm, s1, Create(rid));
      var s3 := Apply(rpm, s2, Bump(rid));
      && Timely(s1, Create(rid)) && Timely(s2, Bump(rid))
      && s3.now == s.now && s3.grants == s.grants + [Grant(key, s.now)]
      && s3.store == s.store[key := Counter(n + 1, Some(s.now + WINDOW))]
      && s3.requests == s.requests[rid := Ended(key, true)]
  {
    hide WindowOf;
  }

  lemma {:induction false} BurstGrants(rpm: nat, pre: seq<Action>, org: Org, first: nat, n: nat)
    requires AllTimely(rpm, pre) && n <= rpm
    requires Burned(Run(rpm, pre), Run(rpm, pre), org, first, 0)
    ensures var all := pre + Burst(org, first, n);
      AllTimely(rpm, all) && Burned(Run(rpm, pre), Run(rpm, all), org, first, n)
  {
    hide Apply, Timely, Burned;
    if n == 0 {
      assert pre + [] == pre;
    } else {
      BurstGrants(rpm, pre, org, first, n - 1);
      var b0 := pre + Burst(org, first, n - 1);
      var rid := first + n - 1;
      OneMore(rpm, Run(rpm, b0), Run(rpm, pre), org, first, n - 1);
      BeginTimely(Run(rpm, b0), rid, org);
      ThreeMore(rpm, b0, org, rid);
      assert pre + Burst(org, first, n) == b0 + OneRequest(org, rid);
    }
  }

  lemma BeginTimely(s: System, rid: nat, org: Org)
    ensures Timely(s, Begin(rid, org))
  {
  }

  lemma ThreeMore(rpm: nat, b0: seq<Action>, org: Org, rid: nat)
    requires var s1 := Apply(rpm, Run(rpm, b0), Begin(rid, org));
      AllTimely(rpm, b0) && Timely(s1, Create(rid)) && Timely(Apply(rpm, s1, Create(rid)), Bump(rid))
    ensures AllTimely(rpm, b0 + OneRequest(org, rid))
    ensures Run(rpm, b0 + OneRequest(org, rid)) ==
      Apply(rpm, Apply(rpm, Apply(rpm, Run(rpm, b0), Begin(rid, org)), Create(rid)), Bump(rid))
  {
    var b1 := b0 + [Begin(rid, org)];
    var b2 := b1 + [Create(rid)];
    BeginTimely(Run(rpm, b0), rid, org);
    Snoc(rpm, b0, Begin(rid, org));
    Snoc(rpm, b1, Create(rid));
    Snoc(rpm, b2, Bump(rid));
    assert b0 + OneRequest(org, rid) == b2 + [Bump(rid)];
  }

  /** A full burst in the last millisecond of a window and one in the first of the next. */
  function TwoBursts(rpm: nat, org: Org): seq<Action> {
    [Tick(WINDOW - 1)] + Burst(org, 0, rpm) + [Tick(1)] + Burst(org, rpm, rpm)
  }

  /** Whatever the limit, twice the limit is allowed within two milliseconds, all commands in their own windows. */
  lemma TwiceRpmReached(rpm: nat, org: Org)
    ensures AllTimely(rpm, TwoBursts(rpm, org))
    ensures GrantedDuring(Run(rpm, TwoBursts(rpm, org)).grants, org, 59_999, 60_001) == 2 * rpm
  {
    var p0 := [Tick(WINDOW - 1)];
    var p1 := p0 + Burst(org, 0, rpm);
    var p2 := p1 + [Tick(1)];
    Snoc(rpm, [], Tick(WINDOW - 1));
    assert [] + [Tick(WINDOW - 1)] == p0;
    assert Burned(Run(rpm, p0), Run(rpm, p0), org, 0, 0);
    BurstGrants(rpm, p0, org, 0, rpm);
    Snoc(rpm, p1, Tick(1));
    hide Run, AllTimely;
    assert WindowOf(WINDOW) == 1 && WindowOf(WINDOW - 1) == 0;
    assert Burned(Run(rpm, p2), Run(rpm, p2), org, rpm, 0);
    BurstGrants(rpm, p2, org, rpm, rpm);
    assert TwoBursts(rpm, org) == p2 + Burst(org, rpm, rpm);
  }

  // ----- A window that lets too many through -----

  /** A full window, one request that found it full but has not counted yet, and its second command a minute late. */
  function LateBump(rpm: nat, org: Org): seq<Action> {
    Burst(org, 0, rpm) + [Begin(rpm, org)] + [Create(rpm)] + [Tick(WINDOW)] + [Bump(rpm)]
  }

  /**
   Counters do restart: when the second command of a request arrives after the counter it saw has expired, the
   count starts over and the window lets one request too many through, whatever the limit.
   */
  lemma LateIncrementRestarts(rpm: nat, org: Org)
    requires rpm > 0
    ensures Granted(Run(rpm, LateBump(rpm, org)).grants, (org, 0)) == rpm + 1
  {
    var b0 := Burst(org, 0, rpm);
    var b1 := b0 + [Begin(rpm, org)];
    var b2 := b1 + [Create(rpm)];
    var b3 := b2 + [Tick(WINDOW)];
    assert Burned(Run(rpm, []), Run(rpm, []), org, 0, 0);
    BurstGrants(rpm, [], org, 0, rpm);
    assert [] + b0 == b0;
    Snoc(rpm, b0, Begin(rpm, org));
    Snoc(rpm, b1, Create(rpm));
    Snoc(rpm, b2, Tick(WINDOW));
    Snoc(rpm, b3, Bump(rpm));
    hide Run, AllTimely, Burst, GrantedDuring;
    LateBumpGrants(rpm, Run(rpm, b0), org);
  }

  lemma LateBumpGrants(rpm: nat, s: System, org: Org)
    requires s.now == 0 && (org, 0) in s.store && s.store[(org, 0)] == Counter(rpm, Some(WINDOW))
    requires rpm > 0 && rpm !in s.requests
    ensures var s1 := Apply(rpm, Apply(rpm, s, Begin(rpm, org)), Create(rpm));
      Granted(Apply(rpm, Apply(rpm, s1, Tick(WINDOW)), Bump(rpm)).grants, (org, 0)) == Granted(s.grants, (org, 0)) + 1
  {
    GrantedSnoc(s.grants, Grant((org, 0), WINDOW), (org, 0));
    hide Granted;
  }
}
