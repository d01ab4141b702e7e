/**
 The scale protocol: `ScaleDeployment` and `ScaleStatefulSet` read an object, decide,
 update it and log, as separate API calls that interleave with other scale calls and
 with rollout patches.
 */
module Scale {
  import opened GoErrors
  import opened ApiServer
  import opened Text

  type CallId = nat

  datatype Request = Request(key: Key, replicas: int32, user: string)

  datatype Status = Success | Failed

  /** A `ScaleOperationAudit` record; `call` names the scale call that wrote it. */
  datatype Record = Record(call: CallId, key: Key, previous: int32, next: int32, user: string, status: Status,
                           reason: string)

  datatype Result =
    | Invalid                                             // a parameter check failed
    | NotFound                                            // the object could not be read
    | NoChange(replicas: int32)
    | Scaled(previous: int32, replicas: int32, action: string)
    | UpdateFailed

  datatype Call =
    | Begun(req: Request)
    | Got(req: Request, read: Workload)
    | Decided(req: Request, record: Record)               // updated or rejected; the audit is still to be written
    | Finished(result: Result)

  datatype State = State(
    auditOn: bool,
    objects: map<Key, Workload>,
    calls: map<CallId, Call>,
    audits: seq<Record>,
    decisions: seq<Record>) // what every Update really did, in the order they happened

  datatype Step =
    | Begin(call: CallId, req: Request)
    | Get(call: CallId, fault: bool)
    | Update(call: CallId, fault: bool)
    | Log(call: CallId)
    | RolloutPatch(key: Key, restartedAt: string)

  function ScaleAction(previous: int32, next: int32): string {
    if next == 0 then "stopping"
    else if previous == 0 then "starting"
    else if next > previous then "scaling-up-from-" + DecimalInt(previous) + "-to-" + DecimalInt(next)
    else if next < previous then "scaling-down-from-" + DecimalInt(previous) + "-to-" + DecimalInt(next)
    else "no-change"
  }

  predicate ValidParams(req: Request) {
    req.key.at.namespace != "" && req.key.at.name != "" && req.user != "" && req.replicas >= 0
  }

  /** What a call does once it has read the object. */
  function Decide(req: Request, read: Workload): Call {
    if Count(read) == req.replicas then Finished(NoChange(req.replicas)) else Got(req, read)
  }

  function RecordOf(call: CallId, req: Request, read: Workload, status: Status): Record {
    Record(call, req.key, Count(read), req.replicas, req.user, status, ScaleAction(Count(read), req.replicas))
  }

  function ResultOf(r: Record): Result {
    if r.status.Success? then Scaled(r.previous, r.next, r.reason) else UpdateFailed
  }

  /** One step; a step that its call is not at does nothing. */
  function Apply(s: State, step: Step): State {
    match step
    case Begin(id, req) =>
      if id in s.calls then s else
        s.(calls := s.calls[id := if ValidParams(req) then Begun(req) else Finished(Invalid)])
    case Get(id, fault) =>
      if id !in s.calls || !s.calls[id].Begun? then s else
        var req := s.calls[id].req;
        s.(calls := s.calls[id := if fault || req.key !in s.objects then Finished(NotFound)
                                  else Decide(req, s.objects[req.key])])
    case Update(id, fault) =>
      if id !in s.calls || !s.calls[id].Got? then s else
        var Got(req, read) := s.calls[id];
        var written := if fault then None else ApiServer.Update(s.objects, req.key, read, req.replicas);
        var record := RecordOf(id, req, read, if written.Some? then Success else Failed);
        s.(calls := s.calls[id := Decided(req, record)], decisions := s.decisions + [record],
           objects := if written.Some? then written.value else s.objects)
    case Log(id) =>
      if id !in s.calls || !s.calls[id].Decided? then s else
        var record := s.calls[id].record;
        s.(calls := s.calls[id := Finished(ResultOf(record))],
           audits := if s.auditOn then s.audits + [record] else s.audits)
    case RolloutPatch(key, at) =>
      var patched := ApiServer.Patch(s.objects, key, at);
      if patched.Some? then s.(objects := patched.value) else s
  }

  function Replay(s: State, steps: seq<Step>): State
    decreases |steps|
  {
    if steps == [] then s else Replay(Apply(s, steps[0]), steps[1..])
  }

  function Initial(auditOn: bool, objects: map<Key, Workload>): State {
    State(auditOn, objects, map[], [], [])
  }

  // ---------------------------------------------------------------------------
  // The updates of one object form a chain
  // ---------------------------------------------------------------------------

  /** The successful updates of one object, in order. */
  function UpdatesOf(records: seq<Record>, key: Key): seq<Record> {
    if records == [] then [] else
      (if records[0].key == key && records[0].status.Success? then [records[0]] else []) + UpdatesOf(records[1..], key)
  }

  /** Each record starts from the count the one before it left, the first from `start`, and the last leaves `end`. */
  ghost predicate Chained(records: seq<Record>, start: int, end: int) {
    if records == [] then start == end
    else records[0].previous == start && Chained(records[1..], records[0].next, end)
  }

  lemma {:induction false} UpdatesAppend(records: seq<Record>, r: Record, key: Key)
    ensures UpdatesOf(records + [r], key)
         == UpdatesOf(records, key) + (if r.key == key && r.status.Success? then [r] else [])
    decreases |records|
  {
    if records == [] {
      assert records + [r] == [r] && [r][1..] == [];
    } else {
      assert (records + [r])[1..] == records[1..] + [r];
      UpdatesAppend(records[1..], r, key);
    }
  }

  lemma {:induction false} ChainedAppend(records: seq<Record>, r: Record, start: int)
    requires Chained(records, start, r.previous)
    ensures Chained(records + [r], start, r.next)
    decreases |records|
  {
    if records == [] {
      assert records + [r] == [r] && [r][1..] == [];
    } else {
      assert (records + [r])[1..] == records[1..] + [r];
      ChainedAppend(records[1..], r, records[0].next);
    }
  }

  /** From the first object map to the current one, through the updates made. */
  ghost predicate History(first: map<Key, Workload>, s: State) {
    s.objects.Keys == first.Keys && forall key <- first :: HistoryOf(first, s, key)
  }

  ghost predicate HistoryOf(first: map<Key, Workload>, s: State, key: Key)
    requires key in first && key in s.objects
  {
    Chained(UpdatesOf(s.decisions, key), Count(first[key]), Count(s.objects[key]))
  }

  /** A call that has read its object: a matching version means the object is what was read. */
  ghost predicate FreshRead(s: State, req: Request, read: Workload) {
    && req.key in s.objects && Count(read) != req.replicas
    && read.version <= s.objects[req.key].version
    && (read.version == s.objects[req.key].version ==> read == s.objects[req.key])
  }

  ghost predicate FreshReads(s: State) {
    forall id <- s.calls :: s.calls[id].Got? ==> FreshRead(s, s.calls[id].req, s.calls[id].read)
  }

  lemma FreshReadsStep(s: State, step: Step)
    requires FreshReads(s)
    ensures FreshReads(Apply(s, step))
  {
    var s' := Apply(s, step);
    forall id <- s'.calls | s'.calls[id].Got? ensures FreshRead(s', s'.calls[id].req, s'.calls[id].read) {
      if id in s.calls && s.calls[id].Got? {
        assert FreshRead(s, s.calls[id].req, s.calls[id].read);
      }
    }
  }

  lemma HistoryOfUpdate(first: map<Key, Workload>, s: State, id: CallId, fault: bool, key: Key)
    requires FreshReads(s) && id in s.calls && s.calls[id].Got?
    requires key in first && key in s.objects && HistoryOf(first, s, key)
    ensures key in Apply(s, Update(id, fault)).objects && HistoryOf(first, Apply(s, Update(id, fault)), key)
  {
    var s' := Apply(s, Update(id, fault));
    var record := s'.decisions[|s.decisions|];
    assert FreshRead(s, s.calls[id].req, s.calls[id].read);
    UpdatesAppend(s.decisions, record, key);
    if key == record.key && record.status.Success? {
      ChainedAppend(UpdatesOf(s.decisions, key), record, Count(first[key]));
    } else {
      assert UpdatesOf(s'.decisions, key) == UpdatesOf(s.decisions, key);
    }
  }

  lemma HistoryStep(first: map<Key, Workload>, s: State, step: Step)
    requires History(first, s) && FreshReads(s)
    ensures History(first, Apply(s, step))
  {
    var s' := Apply(s, step);
    if step.Update? && step.call in s.calls && s.calls[step.call].Got? {
      assert FreshRead(s, s.calls[step.call].req, s.calls[step.call].read);
      assert s'.objects.Keys == s.objects.Keys;
      forall key <- first ensures HistoryOf(first, s', key) {
        HistoryOfUpdate(first, s, step.call, step.fault, key);
      }
    } else {
      assert s'.objects.Keys == s.objects.Keys;
      assert s'.decisions == s.decisions;
      forall key <- first ensures HistoryOf(first, s', key) {
        assert HistoryOf(first, s, key) && Count(s'.objects[key]) == Count(s.objects[key]);
      }
    }
  }

  // ---------------------------------------------------------------------------
  // The audit records are the decisions
  // ---------------------------------------------------------------------------

  ghost predicate DistinctCalls(records: seq<Record>) {
    forall i, j :: 0 <= i < j < |records| ==> records[i].call != records[j].call
  }

  /** `r` is the record its own call decided on. */
  ghost predicate Decides(s: State, r: Record) {
    && r.call in s.calls
    && (s.calls[r.call] == Finished(ResultOf(r)) || (s.calls[r.call].Decided? && s.calls[r.call].record == r))
    && r.previous != r.next && r.reason == ScaleAction(r.previous, r.next)
  }

  ghost predicate Decisions(s: State) {
    && DistinctCalls(s.decisions)
    && (forall r <- s.decisions :: Decides(s, r))
    && (forall id <- s.calls :: s.calls[id].Decided? ==>
          s.calls[id].record.call == id && s.calls[id].record in s.decisions)
  }

  ghost predicate Audited(s: State) {
    && DistinctCalls(s.audits)
    && (!s.auditOn ==> s.audits == [])
    && forall r :: r in s.audits <==> s.auditOn && r in s.decisions && r.call in s.calls && s.calls[r.call].Finished?
  }

  lemma DecisionsStep(s: State, step: Step)
    requires FreshReads(s) && Decisions(s)
    ensures Decisions(Apply(s, step))
  {
    var s' := Apply(s, step);
    if step.Update? && s' != s {
      var record := s'.decisions[|s.decisions|];
      assert FreshRead(s, s.calls[step.call].req, s.calls[step.call].read);
      forall r <- s'.decisions ensures Decides(s', r) {
        if r != record {
          assert Decides(s, r);
        }
      }
      forall i | 0 <= i < |s.decisions| ensures s.decisions[i].call != record.call {
        assert Decides(s, s.decisions[i]);
      }
    } else {
      forall r <- s'.decisions ensures Decides(s', r) {
        assert Decides(s, r);
      }
    }
  }

  lemma AuditedStep(s: State, step: Step)
    requires FreshReads(s) && Decisions(s) && Audited(s)
    ensures Decisions(Apply(s, step)) && Audited(Apply(s, step))
  {
    DecisionsStep(s, step);
    var s' := Apply(s, step);
    forall r ensures r in s'.audits <==> s'.auditOn && r in s'.decisions && s'.calls[r.call].Finished? {
      if r in s.decisions {
        assert Decides(s, r);
      }
    }
    if s'.audits != s.audits {
      forall i | 0 <= i < |s.audits| ensures s.audits[i].call != step.call {
        assert s.audits[i] in s.audits;
      }
    }
  }

  lemma StepKeeps(first: map<Key, Workload>, s: State, step: Step)
    requires History(first, s) && FreshReads(s) && Decisions(s) && Audited(s)
    ensures var s' := Apply(s, step);
            History(first, s') && FreshReads(s') && Decisions(s') && Audited(s') && s'.auditOn == s.auditOn
  {
    HistoryStep(first, s, step);
    FreshReadsStep(s, step);
    AuditedStep(s, step);
  }

  lemma {:induction false} ReplayKeeps(first: map<Key, Workload>, s: State, steps: seq<Step>)
    requires History(first, s) && FreshReads(s) && Decisions(s) && Audited(s)
    ensures var s' := Replay(s, steps);
            History(first, s') && FreshReads(s') && Decisions(s') && Audited(s') && s'.auditOn == s.auditOn
    decreases |steps|
  {
    if steps != [] {
      StepKeeps(first, s, steps[0]);
      ReplayKeeps(first, Apply(s, steps[0]), steps[1..]);
    }
  }

  lemma {:induction false} DistinctCounts(records: seq<Record>, r: Record)
    requires DistinctCalls(records)
    ensures multiset(records)[r] == if r in records then 1 else 0
    decreases |records|
  {
    if records != [] {
      assert records == [records[0]] + records[1..];
      DistinctCounts(records[1..], r);
    }
  }

  lemma SameRecords(a: seq<Record>, b: seq<Record>)
    requires DistinctCalls(a) && DistinctCalls(b)
    requires forall r :: r in a <==> r in b
    ensures multiset(a) == multiset(b)
  {
    forall r ensures multiset(a)[r] == multiset(b)[r] {
      DistinctCounts(a, r);
      DistinctCounts(b, r);
    }
  }

  /** No call is between its Update and its audit. */
  ghost predicate AllLogged(s: State) {
    forall id <- s.calls :: !s.calls[id].Decided?
  }

  /**
   Over any interleaving of scale calls and rollout patches: the successful updates of an
   object, in order, lead from its first replica count to its current one with no gap;
   in every state the audit records are, one for one, the decisions of the calls that
   have finished, and once no call is on its way to its audit, all the decisions.
   */
  lemma AuditsAreTheHistory(auditOn: bool, objects: map<Key, Workload>, steps: seq<Step>)
    ensures var s := Replay(Initial(auditOn, objects), steps);
            && s.objects.Keys == objects.Keys
            && (forall key <- objects ::
                  Chained(UpdatesOf(s.decisions, key), Count(objects[key]), Count(s.objects[key])))
            && DistinctCalls(s.audits) && DistinctCalls(s.decisions)
            && (forall r :: r in s.audits <==>
                  auditOn && r in s.decisions && r.call in s.calls && s.calls[r.call] == Finished(ResultOf(r)))
            && (auditOn && AllLogged(s) ==> multiset(s.audits) == multiset(s.decisions))
            && (!auditOn ==> s.audits == [])
            && (forall r <- s.decisions :: r.previous != r.next && r.reason != "no-change")
  {
    ReplayKeeps(objects, Initial(auditOn, objects), steps);
    var s := Replay(Initial(auditOn, objects), steps);
    forall r <- s.decisions ensures r.previous != r.next && r.reason != "no-change" {
      assert Decides(s, r);
      ActionNamesTheChange(r.previous, r.next);
    }
    forall key <- objects ensures Chained(UpdatesOf(s.decisions, key), Count(objects[key]), Count(s.objects[key])) {
      assert HistoryOf(objects, s, key);
    }
    AuditedExactly(s);
    if auditOn && AllLogged(s) {
      forall r ensures r in s.audits <==> r in s.decisions {
        if r in s.decisions {
          assert Decides(s, r);
        }
      }
      SameRecords(s.audits, s.decisions);
    }
  }

  lemma AuditedExactly(s: State)
    requires Decisions(s) && Audited(s)
    ensures forall r :: r in s.audits <==>
              s.auditOn && r in s.decisions && r.call in s.calls && s.calls[r.call] == Finished(ResultOf(r))
  {
    forall r <- s.decisions ensures Decides(s, r) {
    }
  }

  /** An Update is accepted exactly when the object is still what the call read and the API does not fail. */
  lemma AcceptedIffUnchanged(s: State, id: CallId, fault: bool)
    requires FreshReads(s) && id in s.calls && s.calls[id].Got?
    ensures var Got(req, read) := s.calls[id];
            var s' := Apply(s, Update(id, fault));
            var record := s'.decisions[|s.decisions|];
            && (record.status.Success? <==> !fault && s.objects[req.key] == read)
            && (record.status.Success? ==>
                  record.previous == Count(s.objects[req.key]) && Count(s'.objects[req.key]) == record.next)
            && (record.status.Failed? ==> s'.objects == s.objects)
  {
    assert FreshRead(s, s.calls[id].req, s.calls[id].read);
  }

  /** The action word tells the direction of the change, and "no-change" the absence of one. */
  lemma ActionNamesTheChange(previous: int32, next: int32)
    ensures ScaleAction(previous, next) == "stopping" <==> next == 0
    ensures ScaleAction(previous, next) == "starting" <==> previous == 0 && next != 0
    ensures ScaleAction(previous, next) == "no-change" <==> previous == next && next != 0
    ensures "scaling-up-from-" <= ScaleAction(previous, next) <==> previous < next && previous != 0 && next != 0
    ensures "scaling-down-from-" <= ScaleAction(previous, next) <==> next < previous && previous != 0 && next != 0
  {
    var a := ScaleAction(previous, next);
    assert "scaling-up-from-"[8] == 'u' && "scaling-down-from-"[8] == 'd' && "no-change"[0] == 'n';
    assert "scaling-up-from-"[1] == 'c' && "scaling-down-from-"[1] == 'c';
    assert next != 0 && previous != 0 && previous != next ==>
      a[0] == 's' && a[1] == 'c' && a[8] == (if previous < next then 'u' else 'd');
    assert "stopping"[1] == 't' && "starting"[2] == 'a' && "stopping"[2] == 'o';
  }
}
