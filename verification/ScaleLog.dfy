/**
 The audit log of the scale calls in the order it was written. Two calls can write
 their records in the other order than they updated the object, so a log read from the
 top need not tell the object's history, although no record is missing.
 */
module ScaleLog {
  import opened GoErrors
  import opened ApiServer
  import opened Scale

  /** The logged updates of `key` are its first updates, in the order they were made. */
  ghost predicate InUpdateOrder(s: State, key: Key) {
    UpdatesOf(s.audits, key) <= UpdatesOf(s.decisions, key)
  }

  predicate LogsUpdate(s: State, step: Step, key: Key) {
    && step.Log? && s.auditOn && step.call in s.calls && s.calls[step.call].Decided?
    && var r := s.calls[step.call].record;
    r.key == key && r.status.Success?
  }

  /** Whenever a call logs its update of `key`, it is the oldest one not logged yet. */
  predicate LogsOldestFirst(s: State, steps: seq<Step>, key: Key)
    decreases |steps|
  {
    steps != [] ==>
      && (LogsUpdate(s, steps[0], key) ==> LogsOldest(s, s.calls[steps[0].call].record, key))
      && LogsOldestFirst(Apply(s, steps[0]), steps[1..], key)
  }

  predicate LogsOldest(s: State, r: Record, key: Key) {
    var logged, updates := |UpdatesOf(s.audits, key)|, UpdatesOf(s.decisions, key);
    logged < |updates| && updates[logged] == r
  }

  ghost predicate Books(s: State) {
    FreshReads(s) && Decisions(s) && Audited(s)
  }

  lemma BooksStep(s: State, step: Step)
    requires Books(s)
    ensures Books(Apply(s, step))
  {
    FreshReadsStep(s, step);
    AuditedStep(s, step);
  }

  lemma {:induction false} UpdatesIn(records: seq<Record>, key: Key, r: Record)
    ensures r in UpdatesOf(records, key) <==> r in records && r.key == key && r.status.Success?
    decreases |records|
  {
    if records != [] {
      assert records == [records[0]] + records[1..];
      UpdatesIn(records[1..], key, r);
    }
  }

  lemma {:induction false} UpdatesDistinct(records: seq<Record>, key: Key)
    requires DistinctCalls(records)
    ensures DistinctCalls(UpdatesOf(records, key))
    decreases |records|
  {
    if records != [] {
      var rest := UpdatesOf(records[1..], key);
      UpdatesDistinct(records[1..], key);
      forall r <- rest ensures r.call != records[0].call {
        UpdatesIn(records[1..], key, r);
      }
    }
  }

  /** A step appends at most one record to each list. */
  lemma UpdatesStep(s: State, step: Step, key: Key)
    ensures UpdatesOf(s.decisions, key) <= UpdatesOf(Apply(s, step).decisions, key)
    ensures UpdatesOf(Apply(s, step).audits, key) ==
              UpdatesOf(s.audits, key) + (if LogsUpdate(s, step, key) then [s.calls[step.call].record] else [])
  {
    var s' := Apply(s, step);
    if s'.decisions != s.decisions {
      UpdatesAppend(s.decisions, s'.decisions[|s.decisions|], key);
    }
    if step.Log? && s.auditOn && step.call in s.calls && s.calls[step.call].Decided? {
      UpdatesAppend(s.audits, s.calls[step.call].record, key);
    }
  }

  lemma {:induction false} UpdatesGrow(s: State, steps: seq<Step>, key: Key)
    ensures UpdatesOf(s.decisions, key) <= UpdatesOf(Replay(s, steps).decisions, key)
    ensures UpdatesOf(s.audits, key) <= UpdatesOf(Replay(s, steps).audits, key)
    decreases |steps|
  {
    if steps != [] {
      UpdatesStep(s, steps[0], key);
      UpdatesGrow(Apply(s, steps[0]), steps[1..], key);
    }
  }

  /** A record about to be logged is an update not logged yet. */
  lemma StillToLog(s: State, step: Step, key: Key)
    requires Books(s) && InUpdateOrder(s, key) && LogsUpdate(s, step, key)
    ensures |UpdatesOf(s.audits, key)| < |UpdatesOf(s.decisions, key)|
  {
    var r := s.calls[step.call].record;
    UpdatesIn(s.decisions, key, r);
    UpdatesIn(s.audits, key, r);
    assert r !in s.audits;
  }

  /** Some record is logged at the place of another. */
  ghost predicate Misplaced(log: seq<Record>, updates: seq<Record>) {
    exists i :: 0 <= i < |log| && i < |updates| && log[i] != updates[i]
  }

  lemma MisplacedStays(log: seq<Record>, updates: seq<Record>, log': seq<Record>, updates': seq<Record>)
    requires Misplaced(log, updates) && log <= log' && updates <= updates'
    ensures !(log' <= updates')
  {
    var i :| 0 <= i < |log| && i < |updates| && log[i] != updates[i];
    assert log'[i] == log[i] && updates'[i] == updates[i];
  }

  lemma AppendInOrder(log: seq<Record>, r: Record, updates: seq<Record>)
    requires log <= updates && |log| < |updates|
    ensures if updates[|log|] == r then log + [r] <= updates else Misplaced(log + [r], updates)
  {
    assert (log + [r])[|log|] == r;
  }

  lemma LogOrderStep(s: State, step: Step, key: Key)
    requires Books(s) && InUpdateOrder(s, key)
    ensures var s', good := Apply(s, step), LogsUpdate(s, step, key) ==> LogsOldest(s, s.calls[step.call].record, key);
            if good then InUpdateOrder(s', key) else Misplaced(UpdatesOf(s'.audits, key), UpdatesOf(s'.decisions, key))
  {
    UpdatesStep(s, step, key);
    if LogsUpdate(s, step, key) {
      StillToLog(s, step, key);
      assert Apply(s, step).decisions == s.decisions;
      AppendInOrder(UpdatesOf(s.audits, key), s.calls[step.call].record, UpdatesOf(s.decisions, key));
    }
  }

  /** The log keeps the order of the updates of `key` if and only if every call logs the oldest one. */
  lemma {:induction false} LogOrderIff(s: State, steps: seq<Step>, key: Key)
    requires Books(s) && InUpdateOrder(s, key)
    ensures InUpdateOrder(Replay(s, steps), key) <==> LogsOldestFirst(s, steps, key)
    decreases |steps|
  {
    if steps != [] {
      var s', end := Apply(s, steps[0]), Replay(s, steps);
      BooksStep(s, steps[0]);
      LogOrderStep(s, steps[0], key);
      if InUpdateOrder(s', key) {
        LogOrderIff(s', steps[1..], key);
      } else {
        UpdatesGrow(s', steps[1..], key);
        MisplacedStays(UpdatesOf(s'.audits, key), UpdatesOf(s'.decisions, key),
                       UpdatesOf(end.audits, key), UpdatesOf(end.decisions, key));
      }
    }
  }

  function LastCount(records: seq<Record>, start: int): int {
    if records == [] then start else LastCount(records[1..], records[0].next)
  }

  lemma {:induction false} ChainedPrefix(a: seq<Record>, b: seq<Record>, start: int, end: int)
    requires a <= b && Chained(b, start, end)
    ensures Chained(a, start, LastCount(a, start)) && LastCount(b, start) == end
    decreases |b|
  {
    if b != [] {
      ChainedPrefix(if a == [] then [] else a[1..], b[1..], b[0].next, end);
    }
  }

  lemma PrefixMissesNext(a: seq<Record>, b: seq<Record>)
    requires a <= b && DistinctCalls(b)
    ensures a == b || b[|a|] !in a
  {
    assert forall i :: 0 <= i < |a| ==> a[i] == b[i];
  }

  lemma AllUpdatesLogged(s: State, key: Key)
    requires Books(s) && s.auditOn && AllLogged(s) && InUpdateOrder(s, key)
    ensures UpdatesOf(s.audits, key) == UpdatesOf(s.decisions, key)
  {
    UpdatesDistinct(s.decisions, key);
    forall r <- UpdatesOf(s.decisions, key) ensures r in UpdatesOf(s.audits, key) {
      UpdatesIn(s.decisions, key, r);
      assert Decides(s, r);
      UpdatesIn(s.audits, key, r);
    }
    PrefixMissesNext(UpdatesOf(s.audits, key), UpdatesOf(s.decisions, key));
  }

  /**
   The log of an object is in the order of its updates if and only if each call logs the
   oldest update not yet logged. Then its records chain from the first replica count,
   and, once every call has logged, up to the current one.
   */
  lemma LogTellsHistory(auditOn: bool, objects: map<Key, Workload>, steps: seq<Step>, key: Key)
    requires key in objects
    ensures var s := Replay(Initial(auditOn, objects), steps);
            && key in s.objects
            && (InUpdateOrder(s, key) <==> LogsOldestFirst(Initial(auditOn, objects), steps, key))
            && (InUpdateOrder(s, key) ==>
                  var log, start := UpdatesOf(s.audits, key), Count(objects[key]);
                  && Chained(log, start, LastCount(log, start))
                  && (auditOn && AllLogged(s) ==> LastCount(log, start) == Count(s.objects[key])))
  {
    var s0 := Initial(auditOn, objects);
    var s, start := Replay(s0, steps), Count(objects[key]);
    ReplayKeeps(objects, s0, steps);
    LogOrderIff(s0, steps, key);
    assert HistoryOf(objects, s, key);
    if InUpdateOrder(s, key) {
      ChainedPrefix(UpdatesOf(s.audits, key), UpdatesOf(s.decisions, key), start, Count(s.objects[key]));
      if auditOn && AllLogged(s) {
        AllUpdatesLogged(s, key);
      }
    }
  }

  // ---------------------------------------------------------------------------
  // A log out of order
  // ---------------------------------------------------------------------------

  /** Call 1 scales to `b`, then call 2 to `c`, and call 2 is the first to log. */
  function Overtaking(key: Key, user: string, b: int32, c: int32): seq<Step> {
    [Begin(1, Request(key, b, user)), Get(1, false), Update(1, false)]
    + [Begin(2, Request(key, c, user)), Get(2, false), Update(2, false)]
    + [Log(2), Log(1)]
  }

  lemma ReplayCons(s: State, step: Step, rest: seq<Step>)
    ensures Replay(s, [step] + rest) == Replay(Apply(s, step), rest)
  {
    assert ([step] + rest)[1..] == rest;
  }

  lemma ReplayThree(s: State, x: Step, y: Step, z: Step, rest: seq<Step>)
    ensures Replay(s, [x, y, z] + rest) == Replay(Apply(Apply(Apply(s, x), y), z), rest)
  {
    ReplayCons(s, x, [y, z] + rest);
    ReplayCons(Apply(s, x), y, [z] + rest);
    ReplayCons(Apply(Apply(s, x), y), z, rest);
    assert [x, y, z] + rest == [x] + ([y, z] + rest) && [y, z] + rest == [y] + ([z] + rest);
  }

  lemma ReplayTwo(s: State, x: Step, y: Step)
    ensures Replay(s, [x, y]) == Apply(Apply(s, x), y)
  {
    ReplayCons(s, x, [y]);
    ReplayCons(Apply(s, x), y, []);
    assert [x, y] == [x] + [y] && [y] == [y] + [];
  }

  /** The state after an undisturbed read and update. */
  function Updated(s: State, id: CallId, req: Request): State
    requires req.key in s.objects
  {
    var read := s.objects[req.key];
    s.(calls := s.calls[id := Decided(req, RecordOf(id, req, read, Success))],
       decisions := s.decisions + [RecordOf(id, req, read, Success)],
       objects := s.objects[req.key := read.(replicas := Some(req.replicas), version := read.version + 1)])
  }

  lemma UpdateSteps(s: State, id: CallId, req: Request)
    requires id !in s.calls && ValidParams(req) && req.key in s.objects && Count(s.objects[req.key]) != req.replicas
    ensures Apply(Apply(Apply(s, Begin(id, req)), Get(id, false)), Update(id, false)) == Updated(s, id, req)
  {
    var s2 := Apply(Apply(s, Begin(id, req)), Get(id, false));
    assert s2.calls == s.calls[id := Got(req, s.objects[req.key])];
    assert Apply(s2, Update(id, false)).calls == Updated(s, id, req).calls;
  }

  lemma UpdateAlone(s: State, id: CallId, req: Request, rest: seq<Step>)
    requires id !in s.calls && ValidParams(req) && req.key in s.objects && Count(s.objects[req.key]) != req.replicas
    ensures Replay(s, [Begin(id, req), Get(id, false), Update(id, false)] + rest) == Replay(Updated(s, id, req), rest)
  {
    UpdateSteps(s, id, req);
    ReplayThree(s, Begin(id, req), Get(id, false), Update(id, false), rest);
  }

  /** Two calls have updated, and log in the other order. */
  lemma LogsSwapped(s: State)
    requires s.auditOn && s.audits == [] && s.calls.Keys == {1, 2} && s.calls[1].Decided? && s.calls[2].Decided?
    ensures var s' := Replay(s, [Log(2), Log(1)]);
            s'.audits == [s.calls[2].record, s.calls[1].record] && AllLogged(s')
  {
    ReplayTwo(s, Log(2), Log(1));
    assert Apply(s, Log(2)).audits == [s.calls[2].record];
  }

  lemma OvertakingEnds(key: Key, user: string, w: Workload, b: int32, c: int32)
    requires ValidParams(Request(key, b, user)) && c >= 0 && Count(w) != b && b != c
    ensures var s := Replay(Initial(true, map[key := w]), Overtaking(key, user, b, c));
            && AllLogged(s) && |s.audits| == 2
            && s.audits[0].key == key && s.audits[0].status.Success? && s.audits[0].previous == b
  {
    var req1, req2 := Request(key, b, user), Request(key, c, user);
    var s0 := Initial(true, map[key := w]);
    var s1 := Updated(s0, 1, req1);
    var logs := [Log(2), Log(1)];
    var second := [Begin(2, req2), Get(2, false), Update(2, false)] + logs;
    assert Overtaking(key, user, b, c) == [Begin(1, req1), Get(1, false), Update(1, false)] + second;
    UpdateAlone(s0, 1, req1, second);
    UpdateAlone(s1, 2, req2, logs);
    LogsSwapped(Updated(s1, 2, req2));
  }

  /** For every object and any two changes of its count: all updates are logged, and the log does not chain. */
  lemma OvertakingBreaksLog(key: Key, user: string, w: Workload, b: int32, c: int32)
    requires ValidParams(Request(key, b, user)) && c >= 0 && Count(w) != b && b != c
    ensures var s := Replay(Initial(true, map[key := w]), Overtaking(key, user, b, c));
            && AllLogged(s) && multiset(s.audits) == multiset(s.decisions)
            && key in s.objects && Chained(UpdatesOf(s.decisions, key), Count(w), Count(s.objects[key]))
            && !Chained(UpdatesOf(s.audits, key), Count(w), Count(s.objects[key]))
  {
    OvertakingEnds(key, user, w, b, c);
    AuditsAreTheHistory(true, map[key := w], Overtaking(key, user, b, c));
  }
}
