/**
 The in-memory fixed-window rate limiter. Time is an integer count of clock ticks;
 every operation carries the clock reading it took, which the code takes before it
 locks, so readings need not follow lock order. Lemmas that need them to do so say
 `Monotone`.
 */
module RateLimiter {
  type Key = string

  datatype Config = Config(limit: int, window: int)

  datatype Result = Result(allowed: bool, limit: int, remaining: int, resetTime: int, retryAfter: int)

  /** The two maps of the limiter. */
  datatype State = State(requests: map<Key, int>, resetTime: map<Key, int>)

  /** `until` is the second clock reading, taken for a denied call only. */
  datatype Op = Allow(key: Key, now: int, until: int) | Reset(key: Key) | Cleanup(now: int)

  const INITIAL := State(map[], map[])

  function Max(a: int, b: int): int {
    if a > b then a else b
  }

  predicate Restarts(s: State, key: Key, now: int) {
    key !in s.resetTime || now > s.resetTime[key]
  }

  function AllowState(s: State, cfg: Config, key: Key, now: int): State {
    if Restarts(s, key, now) then
      State(s.requests[key := 1], s.resetTime[key := now + cfg.window])
    else
      s.(requests := s.requests[key := (if key in s.requests then s.requests[key] else 0) + 1])
  }

  function AllowResult(s: State, cfg: Config, key: Key, now: int, until: int): Result {
    var s' := AllowState(s, cfg, key, now);
    var count, reset := s'.requests[key], s'.resetTime[key];
    Result(count <= cfg.limit, cfg.limit, Max(0, cfg.limit - count), reset,
           if count <= cfg.limit then 0 else reset - until)
  }

  function Forget(s: State, keys: set<Key>): State {
    State(s.requests - keys, s.resetTime - keys)
  }

  function Expired(s: State, now: int): set<Key> {
    set k | k in s.resetTime && now > s.resetTime[k]
  }

  function Apply(s: State, cfg: Config, op: Op): State {
    match op
    case Allow(key, now, _) => AllowState(s, cfg, key, now)
    case Reset(key) => Forget(s, {key})
    case Cleanup(now) => Forget(s, Expired(s, now))
  }

  // ---------------------------------------------------------------------------
  // The limiter object
  // ---------------------------------------------------------------------------

  class InMemoryRateLimiter {
    var requests: map<Key, int>
    var resetTime: map<Key, int>
    const limit: int
    const window: int

    function View(): State
      reads this
    {
      State(requests, resetTime)
    }

    function Settings(): Config {
      Config(limit, window)
    }

    ghost predicate Valid()
      reads this
    {
      Sound(View())
    }

    /** A zero window selects the default of `defaultWindow` (one minute). */
    constructor (cfg: Config, defaultWindow: int)
      ensures Valid() && View() == INITIAL
      ensures Settings() == Config(cfg.limit, if cfg.window == 0 then defaultWindow else cfg.window)
    {
      requests, resetTime := map[], map[];
      limit := cfg.limit;
      window := if cfg.window == 0 then defaultWindow else cfg.window;
    }

    method Allow(key: Key, now: int, until: int) returns (r: Result)
      requires Valid()
      modifies this
      ensures Valid()
      ensures View() == AllowState(old(View()), Settings(), key, now)
      ensures r == AllowResult(old(View()), Settings(), key, now, until)
      ensures key in requests && key in resetTime && r.resetTime == resetTime[key] && r.limit == limit
      ensures (r.allowed <==> requests[key] <= limit) && r.remaining == Max(0, limit - requests[key])
    {
      if key !in resetTime || now > resetTime[key] {
        requests := requests[key := 0];
        resetTime := resetTime[key := now + window];
      }
      requests := requests[key := requests[key] + 1];
      var currentCount := requests[key];
      var reset := resetTime[key];
      r := Result(currentCount <= limit, limit, Max(0, limit - currentCount), reset, 0);
      if !r.allowed {
        r := r.(retryAfter := reset - until);
      }
    }

    method Reset(key: Key)
      requires Valid()
      modifies this
      ensures Valid()
      ensures View() == Forget(old(View()), {key})
    {
      requests := requests - {key};
      resetTime := resetTime - {key};
    }

    /** Visits the entries in any order and deletes the expired ones as it goes. */
    method Cleanup(now: int)
      requires Valid()
      modifies this
      ensures Valid()
      ensures View() == Forget(old(View()), Expired(old(View()), now))
    {
      ghost var before := View();
      var unseen := resetTime.Keys;
      while unseen != {}
        invariant unseen <= before.resetTime.Keys
        invariant View() == Forget(before, Expired(before, now) - unseen)
        decreases unseen
      {
        var key :| key in unseen;
        unseen := unseen - {key};
        if now > resetTime[key] {
          requests := requests - {key};
          resetTime := resetTime - {key};
        }
      }
    }
  }

  // ---------------------------------------------------------------------------
  // Runs
  // ---------------------------------------------------------------------------

  /** Both maps hold the same keys and every recorded count is at least one. */
  ghost predicate Sound(s: State) {
    s.requests.Keys == s.resetTime.Keys && forall k <- s.requests :: s.requests[k] >= 1
  }

  lemma ApplySound(s: State, cfg: Config, op: Op)
    requires Sound(s)
    ensures Sound(Apply(s, cfg, op))
  {
  }

  function Replay(s: State, cfg: Config, ops: seq<Op>): State
    decreases |ops|
  {
    if ops == [] then s else Replay(Apply(s, cfg, ops[0]), cfg, ops[1..])
  }

  /** The results of the `Allow` calls of a run, in order. */
  function Results(s: State, cfg: Config, ops: seq<Op>): seq<Result>
    decreases |ops|
  {
    if ops == [] then [] else ResultOf(s, cfg, ops[0]) + Results(Apply(s, cfg, ops[0]), cfg, ops[1..])
  }

  function ResultOf(s: State, cfg: Config, op: Op): seq<Result> {
    if op.Allow? then [AllowResult(s, cfg, op.key, op.now, op.until)] else []
  }

  predicate Timed(op: Op) {
    !op.Reset?
  }

  /** The clock readings of the run never decrease and are at least `start`. */
  ghost predicate Monotone(ops: seq<Op>, start: int) {
    ops != [] ==>
      if Timed(ops[0]) then start <= ops[0].now && Monotone(ops[1..], ops[0].now)
      else Monotone(ops[1..], start)
  }

  /** The operations that can touch the entry of `key`. */
  predicate About(op: Op, key: Key) {
    op.Cleanup? || op.key == key
  }

  predicate AllowedFor(s: State, cfg: Config, op: Op, key: Key) {
    op.Allow? && op.key == key && AllowResult(s, cfg, key, op.now, op.until).allowed
  }

  /** How many calls for `key` with a clock reading in `[from, to]` the run allows. */
  function AllowedIn(s: State, cfg: Config, ops: seq<Op>, key: Key, from: int, to: int): nat
    decreases |ops|
  {
    if ops == [] then 0 else
      (if AllowedFor(s, cfg, ops[0], key) && from <= ops[0].now <= to then 1 else 0)
      + AllowedIn(Apply(s, cfg, ops[0]), cfg, ops[1..], key, from, to)
  }

  function Allowed(s: State, cfg: Config, ops: seq<Op>, key: Key): nat
    decreases |ops|
  {
    if ops == [] then 0 else
      (if AllowedFor(s, cfg, ops[0], key) then 1 else 0) + Allowed(Apply(s, cfg, ops[0]), cfg, ops[1..], key)
  }

  ghost predicate NoReset(ops: seq<Op>, key: Key) {
    ops != [] ==> ops[0] != Reset(key) && NoReset(ops[1..], key)
  }

  // ---------------------------------------------------------------------------
  // At most `limit` per window, in any run
  // ---------------------------------------------------------------------------

  /** No operation of the run opens a new window for `key`. */
  ghost predicate NoRestart(s: State, cfg: Config, ops: seq<Op>, key: Key)
    decreases |ops|
  {
    ops != [] ==>
      && !(ops[0].Allow? && ops[0].key == key && Restarts(s, key, ops[0].now))
      && NoRestart(Apply(s, cfg, ops[0]), cfg, ops[1..], key)
  }

  function Budget(s: State, cfg: Config, key: Key): int {
    if key in s.requests then Max(0, cfg.limit - s.requests[key]) else 0
  }

  lemma {:induction false} WithinBudget(s: State, cfg: Config, ops: seq<Op>, key: Key)
    requires Sound(s) && NoRestart(s, cfg, ops, key)
    ensures Allowed(s, cfg, ops, key) <= Budget(s, cfg, key)
    decreases |ops|
  {
    if ops != [] {
      ApplySound(s, cfg, ops[0]);
      WithinBudget(Apply(s, cfg, ops[0]), cfg, ops[1..], key);
    }
  }

  /**
   Between two consecutive window restarts of a key, at most `limit` of its calls are
   allowed, whatever the clock readings and whatever resets and clean-ups intervene.
   */
  lemma {:induction false} AtMostLimitPerWindow(cfg: Config, run: seq<Op>, i: nat, j: nat, key: Key)
    requires i < j <= |run|
    requires NoRestart(Replay(INITIAL, cfg, run[..i + 1]), cfg, run[i + 1..j], key)
    ensures Allowed(Replay(INITIAL, cfg, run[..i]), cfg, run[i..j], key) <= Max(0, cfg.limit)
  {
    var s := Replay(INITIAL, cfg, run[..i]);
    var s' := Replay(INITIAL, cfg, run[..i + 1]);
    ReplaySound(INITIAL, cfg, run[..i]);
    ReplaySound(INITIAL, cfg, run[..i + 1]);
    assert run[..i + 1] == run[..i] + [run[i]];
    ReplayAppend(INITIAL, cfg, run[..i], [run[i]]);
    assert s' == Apply(s, cfg, run[i]) by {
      assert Replay(s, cfg, [run[i]]) == Replay(Apply(s, cfg, run[i]), cfg, [run[i]][1..]);
    }
    assert run[i..j][1..] == run[i + 1..j];
    WithinBudget(s', cfg, run[i + 1..j], key);
  }

  lemma {:induction false} ReplayAppend(s: State, cfg: Config, a: seq<Op>, b: seq<Op>)
    ensures Replay(s, cfg, a + b) == Replay(Replay(s, cfg, a), cfg, b)
    decreases |a|
  {
    if a == [] {
      assert a + b == b;
    } else {
      assert (a + b)[1..] == a[1..] + b;
      ReplayAppend(Apply(s, cfg, a[0]), cfg, a[1..], b);
    }
  }

  lemma {:induction false} ReplaySound(s: State, cfg: Config, ops: seq<Op>)
    requires Sound(s)
    ensures Sound(Replay(s, cfg, ops))
    decreases |ops|
  {
    if ops != [] {
      ApplySound(s, cfg, ops[0]);
      ReplaySound(Apply(s, cfg, ops[0]), cfg, ops[1..]);
    }
  }

  // ---------------------------------------------------------------------------
  // At most 2 * limit - 1 in any closed interval as long as the window
  // ---------------------------------------------------------------------------

  /** Once a window is open at `from` or later, nothing up to `from + window` reopens it. */
  lemma {:induction false} OpenWindowLasts(s: State, cfg: Config, ops: seq<Op>, key: Key, from: int, now: int)
    requires Sound(s) && NoReset(ops, key) && Monotone(ops, now)
    requires key in s.resetTime && from + cfg.window <= s.resetTime[key]
    ensures AllowedIn(s, cfg, ops, key, from, from + cfg.window) <= Budget(s, cfg, key)
    decreases |ops|
  {
    if ops != [] {
      var op := ops[0];
      var s' := Apply(s, cfg, op);
      ApplySound(s, cfg, op);
      var now' := if Timed(op) then op.now else now;
      if Timed(op) && op.now > from + cfg.window {
        NothingAfter(s, cfg, ops, key, from, from + cfg.window, now);
      } else {
        OpenWindowLasts(s', cfg, ops[1..], key, from, now');
      }
    }
  }

  lemma {:induction false} NothingAfter(s: State, cfg: Config, ops: seq<Op>, key: Key, from: int, to: int, now: int)
    requires Monotone(ops, now) && ops != [] && Timed(ops[0]) && to < ops[0].now
    ensures AllowedIn(s, cfg, ops, key, from, to) == 0
    decreases |ops|
  {
    NothingLate(Apply(s, cfg, ops[0]), cfg, ops[1..], key, from, to, ops[0].now);
  }

  lemma {:induction false} NothingLate(s: State, cfg: Config, ops: seq<Op>, key: Key, from: int, to: int, now: int)
    requires Monotone(ops, now) && to < now
    ensures AllowedIn(s, cfg, ops, key, from, to) == 0
    decreases |ops|
  {
    if ops != [] {
      NothingLate(Apply(s, cfg, ops[0]), cfg, ops[1..], key, from, to, if Timed(ops[0]) then ops[0].now else now);
    }
  }

  /** From `from` on: the calls left in the current window, then one whole new window. */
  lemma {:induction false} TwoWindows(s: State, cfg: Config, ops: seq<Op>, key: Key, from: int, now: int)
    requires Sound(s) && NoReset(ops, key) && Monotone(ops, now) && from <= now
    ensures AllowedIn(s, cfg, ops, key, from, from + cfg.window) <= Budget(s, cfg, key) + Max(0, cfg.limit)
    decreases |ops|
  {
    if ops != [] {
      var op := ops[0];
      var s' := Apply(s, cfg, op);
      ApplySound(s, cfg, op);
      if op.Allow? && op.key == key && Restarts(s, key, op.now) {
        OpenWindowLasts(s', cfg, ops[1..], key, from, op.now);
      } else {
        TwoWindows(s', cfg, ops[1..], key, from, if Timed(op) then op.now else now);
      }
    }
  }

  /**
   On a run whose clock readings do not go back and that never resets `key`, every
   closed interval as long as the window sees at most `2 * limit - 1` allowed calls:
   the call that opened the earlier of two windows falls before the interval.
   */
  lemma {:induction false} AtMostTwiceLimitPerInterval(s: State, cfg: Config, ops: seq<Op>, key: Key, from: int,
                                                       now: int)
    requires Sound(s) && NoReset(ops, key) && Monotone(ops, now)
    ensures AllowedIn(s, cfg, ops, key, from, from + cfg.window) <= Max(0, 2 * cfg.limit - 1)
    decreases |ops|
  {
    if from <= now {
      TwoWindows(s, cfg, ops, key, from, now);
    } else if ops != [] {
      var op := ops[0];
      ApplySound(s, cfg, op);
      if Timed(op) && from <= op.now {
        MonotoneFrom(ops, now, from);
        TwoWindows(s, cfg, ops, key, from, from);
      } else {
        AtMostTwiceLimitPerInterval(Apply(s, cfg, op), cfg, ops[1..], key, from, if Timed(op) then op.now else now);
      }
    }
  }

  lemma MonotoneFrom(ops: seq<Op>, now: int, from: int)
    requires Monotone(ops, now) && ops != [] && Timed(ops[0]) && from <= ops[0].now
    ensures Monotone(ops, from)
  {
  }

  function Repeat(op: Op, n: nat): seq<Op> {
    if n == 0 then [] else [op] + Repeat(op, n - 1)
  }

  /** One call, `limit - 1` calls when its window ends, and `limit` calls one tick later. */
  function Burst(cfg: Config, key: Key): seq<Op>
    requires cfg.limit >= 1
  {
    [Allow(key, 0, 0)] + Repeat(Allow(key, cfg.window, cfg.window), cfg.limit - 1)
    + Repeat(Allow(key, cfg.window + 1, cfg.window + 1), cfg.limit)
  }

  /** `s` after `n` more calls for `key` in its open window. */
  function Spent(s: State, key: Key, n: nat): State
    requires key in s.requests
  {
    s.(requests := s.requests[key := s.requests[key] + n])
  }

  lemma SpendOne(s: State, cfg: Config, key: Key, now: int, n: nat)
    requires Sound(s) && key in s.requests && now <= s.resetTime[key] && s.requests[key] < cfg.limit
    ensures Apply(s, cfg, Allow(key, now, now)) == Spent(s, key, 1)
    ensures AllowedFor(s, cfg, Allow(key, now, now), key)
    ensures Sound(Spent(s, key, 1)) && Spent(Spent(s, key, 1), key, n) == Spent(s, key, n + 1)
  {
  }

  /** Repeated calls in an open window are allowed while they fit in its budget. */
  lemma {:induction false} RepeatSpends(s: State, cfg: Config, key: Key, now: int, n: nat, rest: seq<Op>, from: int,
                                        to: int)
    requires Sound(s) && key in s.requests && now <= s.resetTime[key] && from <= now <= to
    requires s.requests[key] + n <= cfg.limit
    ensures AllowedIn(s, cfg, Repeat(Allow(key, now, now), n) + rest, key, from, to)
         == n + AllowedIn(Spent(s, key, n), cfg, rest, key, from, to)
    decreases n
  {
    var op := Allow(key, now, now);
    var ops := Repeat(op, n) + rest;
    if n == 0 {
      assert ops == rest && Spent(s, key, 0) == s;
    } else {
      var ops' := Repeat(op, n - 1) + rest;
      assert ops == [op] + ops' && ops[1..] == ops';
      assert AllowedIn(s, cfg, ops, key, from, to) == 1 + AllowedIn(Spent(s, key, 1), cfg, ops', key, from, to)
          && Sound(Spent(s, key, 1)) && Spent(Spent(s, key, 1), key, n - 1) == Spent(s, key, n) by {
        SpendOne(s, cfg, key, now, n - 1);
      }
      RepeatSpends(Spent(s, key, 1), cfg, key, now, n - 1, rest, from, to);
    }
  }

  /** `limit` calls just after a full window has ended are all allowed. */
  lemma NewWindowAllowsLimit(cfg: Config, key: Key, to: int)
    requires cfg.limit >= 1 && cfg.window >= 1 && to == 1 + cfg.window
    ensures var full := State(map[key := cfg.limit], map[key := cfg.window]);
            AllowedIn(full, cfg, Repeat(Allow(key, to, to), cfg.limit), key, 1, to) == cfg.limit
  {
    var full := State(map[key := cfg.limit], map[key := cfg.window]);
    var calls := Repeat(Allow(key, to, to), cfg.limit);
    var s := Apply(full, cfg, calls[0]);
    assert s == State(map[key := 1], map[key := to + cfg.window]);
    assert calls[1..] == Repeat(Allow(key, to, to), cfg.limit - 1) == Repeat(Allow(key, to, to), cfg.limit - 1) + [];
    RepeatSpends(s, cfg, key, to, cfg.limit - 1, [], 1, to);
  }

  lemma BurstReachesBound(cfg: Config, key: Key)
    requires cfg.limit >= 1 && cfg.window >= 1
    ensures AllowedIn(INITIAL, cfg, Burst(cfg, key), key, 1, 1 + cfg.window) == 2 * cfg.limit - 1
  {
    var w, to := cfg.window, 1 + cfg.window;
    var third := Repeat(Allow(key, to, to), cfg.limit);
    var rest := Repeat(Allow(key, w, w), cfg.limit - 1) + third;
    var s := State(map[key := 1], map[key := w]);
    assert AllowedIn(s, cfg, rest, key, 1, to) == 2 * cfg.limit - 1 by {
      RepeatSpends(s, cfg, key, w, cfg.limit - 1, third, 1, to);
      assert Spent(s, key, cfg.limit - 1) == State(map[key := cfg.limit], map[key := w]);
      NewWindowAllowsLimit(cfg, key, to);
    }
    var ops := Burst(cfg, key);
    assert ops == [Allow(key, 0, 0)] + rest && ops[1..] == rest;
    assert Apply(INITIAL, cfg, Allow(key, 0, 0)) == s;
  }

  /** The bound is met: for every limit and window of at least one, `Burst` reaches it. */
  lemma TwiceLimitIsReached(cfg: Config, key: Key)
    requires cfg.limit >= 1 && cfg.window >= 1
    ensures AllowedIn(INITIAL, cfg, Burst(cfg, key), key, 1, 1 + cfg.window) == 2 * cfg.limit - 1
    ensures NoReset(Burst(cfg, key), key) && Monotone(Burst(cfg, key), 0)
  {
    BurstReachesBound(cfg, key);
    var w := cfg.window;
    var second, third := Repeat(Allow(key, w, w), cfg.limit - 1), Repeat(Allow(key, w + 1, w + 1), cfg.limit);
    var ops := Burst(cfg, key);
    assert ops[0] == Allow(key, 0, 0) && ops[1..] == second + third;
    RepeatWellTimed(key, w + 1, cfg.limit, [], w);
    assert third + [] == third;
    RepeatWellTimed(key, w, cfg.limit - 1, third, 0);
  }

  lemma {:induction false} RepeatWellTimed(key: Key, now: int, n: nat, rest: seq<Op>, start: int)
    requires start <= now && Monotone(rest, now) && NoReset(rest, key)
    ensures Monotone(Repeat(Allow(key, now, now), n) + rest, start)
    ensures NoReset(Repeat(Allow(key, now, now), n) + rest, key)
    decreases n
  {
    var ops := Repeat(Allow(key, now, now), n) + rest;
    if n == 0 {
      assert ops == rest;
      MonotoneEarlier(rest, now, start);
    } else {
      assert ops[1..] == Repeat(Allow(key, now, now), n - 1) + rest;
      RepeatWellTimed(key, now, n - 1, rest, now);
    }
  }

  lemma {:induction false} MonotoneEarlier(ops: seq<Op>, now: int, start: int)
    requires start <= now && Monotone(ops, now)
    ensures Monotone(ops, start)
    decreases |ops|
  {
    if ops != [] && !Timed(ops[0]) {
      MonotoneEarlier(ops[1..], now, start);
    }
  }

  // ---------------------------------------------------------------------------
  // When clean-up is invisible
  // ---------------------------------------------------------------------------

  function WithoutCleanups(ops: seq<Op>): seq<Op> {
    if ops == [] then []
    else if ops[0].Cleanup? then WithoutCleanups(ops[1..])
    else [ops[0]] + WithoutCleanups(ops[1..])
  }

  /** The reset times of the entries that clean-ups have removed and nothing has replaced since. */
  function RemovedAfter(s: State, removed: map<Key, int>, op: Op): map<Key, int> {
    match op
    case Cleanup(now) => removed + (map k | k in Expired(s, now) :: s.resetTime[k])
    case Allow(key, _, _) => removed - {key}
    case Reset(key) => removed - {key}
  }

  /**
   A call that reads a clock at or before the reset time of a removed entry of its own
   key. When the limit is below one every call is denied, so it can only notice that
   the window it opens ends at another time.
   */
  predicate Notices(removed: map<Key, int>, cfg: Config, op: Op) {
    && op.Allow? && op.key in removed && op.now <= removed[op.key]
    && (cfg.limit >= 1 || op.now + cfg.window != removed[op.key])
  }

  predicate Unnoticed(s: State, removed: map<Key, int>, cfg: Config, ops: seq<Op>)
    decreases |ops|
  {
    ops != [] ==>
      && !Notices(removed, cfg, ops[0])
      && Unnoticed(Apply(s, cfg, ops[0]), RemovedAfter(s, removed, ops[0]), cfg, ops[1..])
  }

  /** `s` is `whole` without the removed entries; counts matter only if some call can be allowed. */
  ghost predicate CutFrom(s: State, removed: map<Key, int>, whole: State, cfg: Config) {
    && Sound(s) && Sound(whole)
    && s.resetTime.Keys !! removed.Keys && whole.resetTime == s.resetTime + removed
    && (cfg.limit >= 1 ==> forall k <- s.requests :: k in whole.requests && whole.requests[k] == s.requests[k])
  }

  lemma CleanupCuts(s: State, removed: map<Key, int>, whole: State, cfg: Config, now: int)
    requires CutFrom(s, removed, whole, cfg)
    ensures CutFrom(Forget(s, Expired(s, now)), RemovedAfter(s, removed, Cleanup(now)), whole, cfg)
  {
    var s', removed' := Forget(s, Expired(s, now)), RemovedAfter(s, removed, Cleanup(now));
    assert s'.resetTime + removed' == s.resetTime + removed;
  }

  lemma ResetCuts(s: State, removed: map<Key, int>, whole: State, cfg: Config, key: Key)
    requires CutFrom(s, removed, whole, cfg)
    ensures CutFrom(Forget(s, {key}), removed - {key}, Forget(whole, {key}), cfg)
  {
    assert (s.resetTime + removed) - {key} == (s.resetTime - {key}) + (removed - {key});
  }

  lemma NoticedAnswersDiffer(s: State, removed: map<Key, int>, whole: State, cfg: Config, op: Op)
    requires CutFrom(s, removed, whole, cfg) && Notices(removed, cfg, op)
    ensures ResultOf(s, cfg, op) != ResultOf(whole, cfg, op)
  {
    var Allow(key, now, until) := op;
    var r, r' := AllowResult(s, cfg, key, now, until), AllowResult(whole, cfg, key, now, until);
    assert r.allowed != r'.allowed || r.remaining != r'.remaining || r.resetTime != r'.resetTime;
  }

  lemma UnnoticedAnswersAgree(s: State, removed: map<Key, int>, whole: State, cfg: Config, op: Op)
    requires CutFrom(s, removed, whole, cfg) && op.Allow? && !Notices(removed, cfg, op)
    ensures ResultOf(s, cfg, op) == ResultOf(whole, cfg, op)
  {
    assert Restarts(s, op.key, op.now) == Restarts(whole, op.key, op.now) || cfg.limit < 1;
  }

  lemma UnnoticedStaysCut(s: State, removed: map<Key, int>, whole: State, cfg: Config, op: Op)
    requires CutFrom(s, removed, whole, cfg) && op.Allow? && !Notices(removed, cfg, op)
    ensures CutFrom(Apply(s, cfg, op), RemovedAfter(s, removed, op), Apply(whole, cfg, op), cfg)
  {
    ApplySound(s, cfg, op);
    ApplySound(whole, cfg, op);
    var s', whole' := Apply(s, cfg, op), Apply(whole, cfg, op);
    assert whole'.resetTime[op.key] == s'.resetTime[op.key];
    assert whole'.resetTime == s'.resetTime + (removed - {op.key});
  }

  /** With and without the clean-ups, from a state and from the same state with nothing removed. */
  lemma {:induction false} CleanupsDropped(s: State, removed: map<Key, int>, whole: State, cfg: Config, ops: seq<Op>)
    requires CutFrom(s, removed, whole, cfg)
    ensures Results(s, cfg, ops) == Results(whole, cfg, WithoutCleanups(ops)) <==> Unnoticed(s, removed, cfg, ops)
    decreases |ops|
  {
    if ops != [] {
      var op, rest := ops[0], WithoutCleanups(ops[1..]);
      var s', removed' := Apply(s, cfg, op), RemovedAfter(s, removed, op);
      match op {
        case Cleanup(now) =>
          CleanupCuts(s, removed, whole, cfg, now);
          CleanupsDropped(s', removed', whole, cfg, ops[1..]);
        case Reset(key) =>
          ResetCuts(s, removed, whole, cfg, key);
          CleanupsDropped(s', removed', Apply(whole, cfg, op), cfg, ops[1..]);
          assert ([op] + rest)[1..] == rest;
          assert Results(s, cfg, ops) == Results(s', cfg, ops[1..]);
          assert Results(whole, cfg, [op] + rest) == Results(Apply(whole, cfg, op), cfg, rest);
        case Allow(_, _, _) =>
          assert ([op] + rest)[1..] == rest;
          FirstResult(s, whole, cfg, op, ops[1..], rest);
          if Notices(removed, cfg, op) {
            NoticedAnswersDiffer(s, removed, whole, cfg, op);
          } else {
            UnnoticedAnswersAgree(s, removed, whole, cfg, op);
            UnnoticedStaysCut(s, removed, whole, cfg, op);
            CleanupsDropped(s', removed', Apply(whole, cfg, op), cfg, ops[1..]);
          }
      }
    }
  }

  lemma FirstResult(a: State, b: State, cfg: Config, op: Op, rest: seq<Op>, rest': seq<Op>)
    requires op.Allow?
    ensures Results(a, cfg, [op] + rest) == Results(b, cfg, [op] + rest') <==>
              && ResultOf(a, cfg, op) == ResultOf(b, cfg, op)
              && Results(Apply(a, cfg, op), cfg, rest) == Results(Apply(b, cfg, op), cfg, rest')
  {
    var ra, rb := Results(a, cfg, [op] + rest), Results(b, cfg, [op] + rest');
    assert ([op] + rest)[1..] == rest && ([op] + rest')[1..] == rest';
    assert ra[0] == ResultOf(a, cfg, op)[0] && ra[1..] == Results(Apply(a, cfg, op), cfg, rest);
    assert rb[0] == ResultOf(b, cfg, op)[0] && rb[1..] == Results(Apply(b, cfg, op), cfg, rest');
  }

  /**
   Whatever the clock readings, a run answers as it would without its clean-ups if and
   only if no call reads a clock at or before the reset time of an entry of its own key
   that a clean-up has removed and nothing has replaced since.
   */
  lemma CleanupIsInvisibleIff(s: State, cfg: Config, ops: seq<Op>)
    requires Sound(s)
    ensures Results(s, cfg, ops) == Results(s, cfg, WithoutCleanups(ops)) <==> Unnoticed(s, map[], cfg, ops)
  {
    assert s.resetTime + map[] == s.resetTime;
    CleanupsDropped(s, map[], s, cfg, ops);
  }

  lemma {:induction false} MonotoneIsUnnoticed(s: State, removed: map<Key, int>, cfg: Config, ops: seq<Op>, now: int)
    requires Monotone(ops, now) && forall k <- removed :: removed[k] < now
    ensures Unnoticed(s, removed, cfg, ops)
    decreases |ops|
  {
    if ops != [] {
      var later := if Timed(ops[0]) then ops[0].now else now;
      MonotoneIsUnnoticed(Apply(s, cfg, ops[0]), RemovedAfter(s, removed, ops[0]), cfg, ops[1..], later);
    }
  }

  /**
   Two runs that make the same calls, and place any clean-ups anywhere between them,
   answer every call alike, as long as neither clock goes back.
   */
  lemma CleanupIsInvisible(s: State, cfg: Config, ops: seq<Op>, ops': seq<Op>, now: int)
    requires Sound(s) && Monotone(ops, now) && Monotone(ops', now)
    requires WithoutCleanups(ops) == WithoutCleanups(ops')
    ensures Results(s, cfg, ops) == Results(s, cfg, ops')
  {
    MonotoneIsUnnoticed(s, map[], cfg, ops, now);
    MonotoneIsUnnoticed(s, map[], cfg, ops', now);
    CleanupIsInvisibleIff(s, cfg, ops);
    CleanupIsInvisibleIff(s, cfg, ops');
  }

  /** A call whose reading is one tick older than the clean-up before it does see the clean-up. */
  lemma LateReadingSeesCleanup(cfg: Config, key: Key)
    requires cfg.limit >= 1
    ensures var ops := [Allow(key, 0, 0), Cleanup(cfg.window + 1), Allow(key, cfg.window, cfg.window)];
            Results(INITIAL, cfg, ops) != Results(INITIAL, cfg, WithoutCleanups(ops))
  {
    var a, c, b := Allow(key, 0, 0), Cleanup(cfg.window + 1), Allow(key, cfg.window, cfg.window);
    assert [a, c, b][1..] == [c, b] && [c, b][1..] == [b];
    var s := Apply(INITIAL, cfg, a);
    assert RemovedAfter(s, map[], c)[key] == cfg.window;
    assert !Unnoticed(Apply(s, cfg, c), RemovedAfter(s, map[], c), cfg, [b]);
    assert RemovedAfter(INITIAL, map[], a) == map[];
    assert !Unnoticed(s, map[], cfg, [c, b]);
    CleanupIsInvisibleIff(INITIAL, cfg, [a, c, b]);
  }

  // ---------------------------------------------------------------------------
  // Denials are honest
  // ---------------------------------------------------------------------------

  /** Every call for `key` in the run reads a clock up to `last` and is denied with reset time `last`. */
  ghost predicate AllDenied(s: State, cfg: Config, ops: seq<Op>, key: Key, last: int)
    decreases |ops|
  {
    ops != [] ==>
      && (ops[0].Allow? && ops[0].key == key ==>
            var r := AllowResult(s, cfg, key, ops[0].now, ops[0].until);
            !r.allowed && r.remaining == 0 && r.resetTime == last)
      && AllDenied(Apply(s, cfg, ops[0]), cfg, ops[1..], key, last)
  }

  /** The calls for `key`, and the clean-ups, read no clock past `last`. */
  ghost predicate ReadingsUpTo(ops: seq<Op>, key: Key, last: int) {
    ops != [] ==> (Timed(ops[0]) && About(ops[0], key) ==> ops[0].now <= last) && ReadingsUpTo(ops[1..], key, last)
  }

  /** `key` has used up a window that lasts until `last`. */
  ghost predicate Exhausted(s: State, cfg: Config, key: Key, last: int) {
    key in s.requests && key in s.resetTime && s.resetTime[key] == last && s.requests[key] >= cfg.limit
  }

  /**
   After a denial, without a reset of the key, every call for it up to the announced
   reset time is denied with the same reset time. No order of the readings is assumed.
   */
  lemma {:induction false} DeniedUntilReset(s: State, cfg: Config, ops: seq<Op>, key: Key, last: int)
    requires Sound(s) && Exhausted(s, cfg, key, last) && NoReset(ops, key) && ReadingsUpTo(ops, key, last)
    ensures AllDenied(s, cfg, ops, key, last)
    ensures Exhausted(Replay(s, cfg, ops), cfg, key, last)
    decreases |ops|
  {
    if ops != [] {
      ApplySound(s, cfg, ops[0]);
      DeniedUntilReset(Apply(s, cfg, ops[0]), cfg, ops[1..], key, last);
    }
  }

  /**
   A denied call leaves its key exhausted until the reset time it reports, which its
   reading does not pass; whatever calls for other keys follow, and whatever clean-ups and
   calls for the key up to that time, the first later call that reads a clock past it is
   allowed if and only if `limit >= 1`.
   */
  lemma DenialIsHonest(s: State, cfg: Config, key: Key, now: int, until: int, ops: seq<Op>, after: int, until': int)
    requires Sound(s)
    requires var r := AllowResult(s, cfg, key, now, until);
             !r.allowed && NoReset(ops, key) && ReadingsUpTo(ops, key, r.resetTime) && r.resetTime < after
    ensures var r, s' := AllowResult(s, cfg, key, now, until), AllowState(s, cfg, key, now);
            && (cfg.window >= 0 ==> now <= r.resetTime)
            && r.retryAfter == r.resetTime - until
            && AllDenied(s', cfg, ops, key, r.resetTime)
            && (AllowResult(Replay(s', cfg, ops), cfg, key, after, until').allowed <==> cfg.limit >= 1)
  {
    var r, s' := AllowResult(s, cfg, key, now, until), AllowState(s, cfg, key, now);
    ApplySound(s, cfg, Allow(key, now, until));
    DeniedUntilReset(s', cfg, ops, key, r.resetTime);
  }

  // ---------------------------------------------------------------------------
  // What a result promises
  // ---------------------------------------------------------------------------

  function Min(a: int, b: int): int {
    if a < b then a else b
  }

  /** The calls for `key` in the run, allowed or not. */
  function CallsFor(ops: seq<Op>, key: Key): nat {
    if ops == [] then 0 else (if ops[0].Allow? && ops[0].key == key then 1 else 0) + CallsFor(ops[1..], key)
  }

  /** While a window of `key` covers the readings of its calls, exactly the first ones are allowed. */
  lemma {:induction false} WindowAllowsFirst(s: State, cfg: Config, ops: seq<Op>, key: Key, last: int)
    requires Sound(s) && key in s.requests && s.resetTime[key] == last
    requires NoReset(ops, key) && ReadingsUpTo(ops, key, last)
    ensures Allowed(s, cfg, ops, key) == Min(CallsFor(ops, key), Max(0, cfg.limit - s.requests[key]))
    ensures Sound(Replay(s, cfg, ops)) && key in Replay(s, cfg, ops).requests
    ensures Replay(s, cfg, ops).resetTime[key] == last
    decreases |ops|
  {
    if ops != [] {
      ApplySound(s, cfg, ops[0]);
      WindowAllowsFirst(Apply(s, cfg, ops[0]), cfg, ops[1..], key, last);
    }
  }

  /**
   What a result tells its caller. `limit` is the configured one. `remaining` is exactly
   the number of further calls the window allows: no run without a restart of the key
   gets more, and of the calls up to `resetTime`, whatever other keys do, it gets that
   many of the first ones. The first call after `resetTime` finds a new window. Only a
   denied caller is told to wait, until `resetTime`.
   */
  lemma ResultIsExact(s: State, cfg: Config, key: Key, now: int, until: int, ops: seq<Op>, after: int, until': int)
    requires Sound(s)
    ensures var r, s' := AllowResult(s, cfg, key, now, until), AllowState(s, cfg, key, now);
            && r.limit == cfg.limit && r.remaining >= 0
            && r.retryAfter == (if r.allowed then 0 else r.resetTime - until)
            && (NoRestart(s', cfg, ops, key) ==> Allowed(s', cfg, ops, key) <= r.remaining)
            && (NoReset(ops, key) && ReadingsUpTo(ops, key, r.resetTime) ==>
                  && Allowed(s', cfg, ops, key) == Min(CallsFor(ops, key), r.remaining)
                  && (r.resetTime < after ==>
                        var next := AllowResult(Replay(s', cfg, ops), cfg, key, after, until');
                        && (next.allowed <==> cfg.limit >= 1) && next.remaining == Max(0, cfg.limit - 1)
                        && next.resetTime == after + cfg.window))
  {
    var r, s' := AllowResult(s, cfg, key, now, until), AllowState(s, cfg, key, now);
    ApplySound(s, cfg, Allow(key, now, until));
    if NoRestart(s', cfg, ops, key) {
      WithinBudget(s', cfg, ops, key);
    }
    if NoReset(ops, key) && ReadingsUpTo(ops, key, r.resetTime) {
      WindowAllowsFirst(s', cfg, ops, key, r.resetTime);
    }
  }

  // ---------------------------------------------------------------------------
  // Keys are independent
  // ---------------------------------------------------------------------------

  /** The operations on `key`, and the clean-ups. */
  function OnlyAbout(ops: seq<Op>, key: Key): seq<Op> {
    if ops == [] then [] else
      (if About(ops[0], key) then [ops[0]] else []) + OnlyAbout(ops[1..], key)
  }

  function ResultsFor(s: State, cfg: Config, ops: seq<Op>, key: Key): seq<Result>
    decreases |ops|
  {
    if ops == [] then [] else
      (if ops[0].Allow? && ops[0].key == key then ResultOf(s, cfg, ops[0]) else [])
      + ResultsFor(Apply(s, cfg, ops[0]), cfg, ops[1..], key)
  }

  ghost predicate SameEntry(a: State, b: State, key: Key) {
    && Sound(a) && Sound(b)
    && (key in a.requests <==> key in b.requests)
    && (key in a.requests ==> a.requests[key] == b.requests[key] && a.resetTime[key] == b.resetTime[key])
  }

  lemma SameEntryStep(a: State, b: State, cfg: Config, op: Op, key: Key)
    requires SameEntry(a, b, key)
    ensures if About(op, key) then SameEntry(Apply(a, cfg, op), Apply(b, cfg, op), key)
            else SameEntry(Apply(a, cfg, op), b, key)
    ensures op.Allow? && op.key == key ==> ResultOf(a, cfg, op) == ResultOf(b, cfg, op)
  {
    ApplySound(a, cfg, op);
    ApplySound(b, cfg, op);
  }

  /** The results for a key are those of the run restricted to that key. */
  lemma {:induction false} KeysAreIndependent(a: State, b: State, cfg: Config, ops: seq<Op>, key: Key)
    requires SameEntry(a, b, key)
    ensures ResultsFor(a, cfg, ops, key) == Results(b, cfg, OnlyAbout(ops, key))
    decreases |ops|
  {
    if ops != [] {
      var op := ops[0];
      SameEntryStep(a, b, cfg, op, key);
      var rest, restricted := OnlyAbout(ops[1..], key), OnlyAbout(ops, key);
      if About(op, key) {
        assert restricted == [op] + rest && restricted[1..] == rest;
        KeysAreIndependent(Apply(a, cfg, op), Apply(b, cfg, op), cfg, ops[1..], key);
      } else {
        assert restricted == rest;
        KeysAreIndependent(Apply(a, cfg, op), b, cfg, ops[1..], key);
      }
    }
  }
}
