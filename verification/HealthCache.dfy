/**
 The TTL cache in front of the health service. A cached value may be nil (`None`), which
 counts as nothing cached. Calls are sequential; `reply` is what the wrapped service
 would answer if it were asked at that moment.
 */
module HealthCache {
  import opened GoErrors

  datatype Slot<V> = Slot(value: Option<V>, time: int)

  predicate Stale<V>(slot: Slot<V>, ttl: int, now: int) {
    slot.value.None? || now - slot.time > ttl
  }

  function Refreshed<V>(slot: Slot<V>, ttl: int, now: int, reply: Option<V>): Slot<V> {
    if Stale(slot, ttl, now) then Slot(reply, now) else slot
  }

  datatype Call<V> = Call(now: int, reply: Option<V>)

  /** The slot after a run of calls of one kind. */
  function After<V>(slot: Slot<V>, ttl: int, calls: seq<Call<V>>): Slot<V>
    decreases |calls|
  {
    if calls == [] then slot else
      var n := |calls| - 1;
      Refreshed(After(slot, ttl, calls[..n]), ttl, calls[n].now, calls[n].reply)
  }

  /** The answer to the i-th call. */
  function Answer<V>(slot: Slot<V>, ttl: int, calls: seq<Call<V>>, i: nat): Option<V>
    requires i < |calls|
  {
    After(slot, ttl, calls[..i + 1]).value
  }

  /** The i-th call asks the wrapped service. */
  predicate Refreshes<V>(slot: Slot<V>, ttl: int, calls: seq<Call<V>>, i: nat)
    requires i < |calls|
  {
    Stale(After(slot, ttl, calls[..i]), ttl, calls[i].now)
  }

  /** How many of the calls ask the wrapped service. */
  function Refreshments<V>(slot: Slot<V>, ttl: int, calls: seq<Call<V>>): nat
    decreases |calls|
  {
    if calls == [] then 0 else
      var n := |calls| - 1;
      Refreshments(slot, ttl, calls[..n]) + (if Refreshes(slot, ttl, calls, n) then 1 else 0)
  }

  ghost predicate Monotone<V>(calls: seq<Call<V>>) {
    forall i, j :: 0 <= i < j < |calls| ==> calls[i].now <= calls[j].now
  }

  const EMPTY_TIME := 0

  function Empty<V>(): Slot<V> {
    Slot(None, EMPTY_TIME)
  }

  lemma RefreshesInPrefix<V>(ttl: int, calls: seq<Call<V>>, n: nat, k: nat)
    requires k < n <= |calls|
    ensures Refreshes(Empty(), ttl, calls[..n], k) == Refreshes(Empty(), ttl, calls, k)
  {
    assert calls[..n][..k] == calls[..k];
  }

  /** The last call of the run that asked the wrapped service is the one whose answer is kept. */
  lemma {:induction false} KeptFromLastRefresh<V>(ttl: int, calls: seq<Call<V>>) returns (j: nat)
    requires calls != [] && ttl >= 0
    ensures j < |calls| && Refreshes(Empty(), ttl, calls, j)
    ensures After(Empty(), ttl, calls) == Slot(calls[j].reply, calls[j].now)
    ensures j < |calls| - 1 ==> calls[|calls| - 1].now - calls[j].now <= ttl && calls[j].reply.Some?
    ensures forall k :: j < k < |calls| ==> !Refreshes(Empty(), ttl, calls, k)
    ensures Refreshments(Empty(), ttl, calls) == Refreshments(Empty(), ttl, calls[..j + 1])
    decreases |calls|
  {
    var n := |calls| - 1;
    if Refreshes(Empty(), ttl, calls, n) {
      j := n;
      assert calls[..n + 1] == calls;
    } else {
      assert calls[..0] == [];
      j := KeptFromLastRefresh(ttl, calls[..n]);
      RefreshesInPrefix(ttl, calls, n, j);
      assert calls[..n][..j + 1] == calls[..j + 1];
      forall k | j < k < |calls| ensures !Refreshes(Empty(), ttl, calls, k) {
        if k < n {
          RefreshesInPrefix(ttl, calls, n, k);
        }
      }
    }
  }

  /**
   Every answer is what the wrapped service gave to a call made at most `ttl` earlier;
   an answer that is not nil is never older, and a nil one is not kept at all.
   */
  lemma AnswersAreFresh<V>(ttl: int, calls: seq<Call<V>>, i: nat)
    requires i < |calls| && ttl >= 0 && Monotone(calls)
    ensures exists j :: 0 <= j <= i && Refreshes(Empty(), ttl, calls, j)
                        && Answer(Empty(), ttl, calls, i) == calls[j].reply
                        && 0 <= calls[i].now - calls[j].now <= ttl
                        && (calls[j].reply.None? ==> j == i)
  {
    var j := KeptFromLastRefresh(ttl, calls[..i + 1]);
    RefreshesInPrefix(ttl, calls, i + 1, j);
  }

  ghost predicate NeverNil<V>(calls: seq<Call<V>>) {
    forall c <- calls :: c.reply.Some?
  }

  /**
   While the wrapped service answers, `r >= 2` consecutive calls to it span more than
   `(r - 1) * ttl`, measured from the first of them to the last.
   */
  lemma {:induction false} RefreshesAreSpaced<V>(ttl: int, calls: seq<Call<V>>, i: nat, j: nat)
    requires i <= j < |calls| && ttl >= 0 && NeverNil(calls)
    requires Refreshes(Empty(), ttl, calls, i) && Refreshes(Empty(), ttl, calls, j)
    ensures var r := Refreshments(Empty(), ttl, calls[..j + 1]) - Refreshments(Empty(), ttl, calls[..i]);
            var span := calls[j].now - calls[i].now;
            r >= 1 && (r - 1) * (ttl + 1) <= span && (r >= 2 ==> (r - 1) * ttl < span)
    decreases j
  {
    CountOne(ttl, calls, j);
    if i < j {
      var k := KeptFromLastRefresh(ttl, calls[..j]);
      RefreshesInPrefix(ttl, calls, j, k);
      RefreshesInPrefix(ttl, calls, j, i);
      assert k >= i;
      assert calls[..j][..k + 1] == calls[..k + 1] && calls[k] in calls;
      RefreshesAreSpaced(ttl, calls, i, k);
      var r := Refreshments(Empty(), ttl, calls[..k + 1]) - Refreshments(Empty(), ttl, calls[..i]);
      assert calls[j].now - calls[k].now >= ttl + 1;
      assert r * (ttl + 1) == (r - 1) * (ttl + 1) + (ttl + 1) && r * (ttl + 1) == r * ttl + r;
    }
  }

  lemma CountOne<V>(ttl: int, calls: seq<Call<V>>, j: nat)
    requires j < |calls| && Refreshes(Empty(), ttl, calls, j)
    ensures Refreshments(Empty(), ttl, calls[..j + 1]) == Refreshments(Empty(), ttl, calls[..j]) + 1
  {
    assert calls[..j + 1][..j] == calls[..j];
  }

  // ---------------------------------------------------------------------------
  // The three caches
  // ---------------------------------------------------------------------------

  class CachedHealthService<H, R, I> {
    const cacheTTL: int
    var lastHealth: Option<H>
    var lastHealthTime: int
    var lastReadiness: Option<R>
    var lastReadinessTime: int
    var lastInfo: Option<I>
    var lastInfoTime: int
    // The calls made so far, by kind
    ghost var healthCalls: seq<Call<H>>
    ghost var readinessCalls: seq<Call<R>>
    ghost var infoCalls: seq<Call<I>>

    /** Each cache is what its own calls alone have made of it. */
    ghost predicate Valid()
      reads this
    {
      && Slot(lastHealth, lastHealthTime) == After(Empty(), cacheTTL, healthCalls)
      && Slot(lastReadiness, lastReadinessTime) == After(Empty(), cacheTTL, readinessCalls)
      && Slot(lastInfo, lastInfoTime) == After(Empty(), cacheTTL, infoCalls)
    }

    constructor (cacheTTL: int)
      ensures Valid() && this.cacheTTL == cacheTTL
      ensures healthCalls == [] && readinessCalls == [] && infoCalls == []
    {
      this.cacheTTL := cacheTTL;
      lastHealth, lastHealthTime := None, EMPTY_TIME;
      lastReadiness, lastReadinessTime := None, EMPTY_TIME;
      lastInfo, lastInfoTime := None, EMPTY_TIME;
      healthCalls, readinessCalls, infoCalls := [], [], [];
    }

    method GetHealth(now: int, reply: Option<H>) returns (r: Option<H>)
      requires Valid()
      modifies `lastHealth, `lastHealthTime, `healthCalls
      ensures Valid() && healthCalls == old(healthCalls) + [Call(now, reply)]
      ensures r == Answer(Empty(), cacheTTL, healthCalls, |healthCalls| - 1)
    {
      if lastHealth.None? || now - lastHealthTime > cacheTTL {
        lastHealth := reply;
        lastHealthTime := now;
      }
      healthCalls := healthCalls + [Call(now, reply)];
      LastCall(healthCalls);
      r := lastHealth;
    }

    method GetReadiness(now: int, reply: Option<R>) returns (r: Option<R>)
      requires Valid()
      modifies `lastReadiness, `lastReadinessTime, `readinessCalls
      ensures Valid() && readinessCalls == old(readinessCalls) + [Call(now, reply)]
      ensures r == Answer(Empty(), cacheTTL, readinessCalls, |readinessCalls| - 1)
    {
      if lastReadiness.None? || now - lastReadinessTime > cacheTTL {
        lastReadiness := reply;
        lastReadinessTime := now;
      }
      readinessCalls := readinessCalls + [Call(now, reply)];
      LastCall(readinessCalls);
      r := lastReadiness;
    }

    method GetSystemInfo(now: int, reply: Option<I>) returns (r: Option<I>)
      requires Valid()
      modifies `lastInfo, `lastInfoTime, `infoCalls
      ensures Valid() && infoCalls == old(infoCalls) + [Call(now, reply)]
      ensures r == Answer(Empty(), cacheTTL, infoCalls, |infoCalls| - 1)
    {
      if lastInfo.None? || now - lastInfoTime > cacheTTL {
        lastInfo := reply;
        lastInfoTime := now;
      }
      infoCalls := infoCalls + [Call(now, reply)];
      LastCall(infoCalls);
      r := lastInfo;
    }
  }

  lemma LastCall<V>(calls: seq<Call<V>>)
    requires calls != []
    ensures calls[..|calls| - 1 + 1] == calls && calls[..|calls| - 1] + [calls[|calls| - 1]] == calls
  {
  }
}
