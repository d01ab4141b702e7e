/**
 `ScaleDeployment` and `ScaleStatefulSet` as straight-line code against a shared API
 server. Between its API calls, whatever steps other callers take are replayed.
 */
module ScaleService {
  import opened GoErrors
  import opened ApiServer
  import opened Scale

  /** No step of the list belongs to call `id`. */
  ghost predicate NotAbout(steps: seq<Step>, id: CallId) {
    steps != [] ==> (steps[0].RolloutPatch? || steps[0].call != id) && NotAbout(steps[1..], id)
  }

  lemma {:induction false} OthersLeaveCall(s: State, steps: seq<Step>, id: CallId)
    requires NotAbout(steps, id) && id in s.calls
    ensures id in Replay(s, steps).calls && Replay(s, steps).calls[id] == s.calls[id]
    decreases |steps|
  {
    if steps != [] {
      OthersLeaveCall(Apply(s, steps[0]), steps[1..], id);
    }
  }

  lemma {:induction false} ReplayAppend(s: State, a: seq<Step>, b: seq<Step>)
    ensures Replay(s, a + b) == Replay(Replay(s, a), b)
    decreases |a|
  {
    if a == [] {
      assert a + b == b;
    } else {
      assert (a + b)[1..] == a[1..] + b;
      ReplayAppend(Apply(s, a[0]), a[1..], b);
    }
  }

  lemma ReplayOne(s: State, step: Step)
    ensures Replay(s, [step]) == Apply(s, step)
  {
    assert [step][1..] == [];
  }

  class Server {
    ghost const first: map<Key, Workload>
    const auditOn: bool
    var objects: map<Key, Workload>
    var calls: map<CallId, Call>
    var audits: seq<Record>
    var decisions: seq<Record>
    ghost var trace: seq<Step> // every step taken so far

    function View(): State
      reads this
    {
      State(auditOn, objects, calls, audits, decisions)
    }

    ghost predicate Valid()
      reads this
    {
      View() == Replay(Initial(auditOn, first), trace)
    }

    constructor (auditOn: bool, objects: map<Key, Workload>)
      ensures Valid() && View() == Initial(auditOn, objects) && first == objects && trace == []
    {
      first := objects;
      this.auditOn, this.objects, calls, audits, decisions := auditOn, objects, map[], [], [];
      trace := [];
    }

    /** What is known of the state at any time. */
    lemma Known()
      requires Valid()
      ensures History(first, View()) && FreshReads(View()) && Decisions(View()) && Audited(View())
    {
      ReplayKeeps(first, Initial(auditOn, first), trace);
    }

    /** The steps of other callers. */
    method Interleave(steps: seq<Step>)
      requires Valid()
      modifies this
      ensures Valid() && trace == old(trace) + steps && View() == Replay(old(View()), steps)
    {
      ReplayAppend(Initial(auditOn, first), trace, steps);
      KeepsAuditOn(View(), steps);
      var s := Replay(View(), steps);
      objects, calls, audits, decisions := s.objects, s.calls, s.audits, s.decisions;
      trace := trace + steps;
    }

    /** Up to the Get and the no-change test. */
    method Read(id: CallId, req: Request, fault: bool) returns (early: Option<Result>)
      requires Valid() && id !in calls
      modifies this
      ensures Valid() && trace == old(trace) + [Begin(id, req)] + [Get(id, fault)]
      ensures objects == old(objects) && id in calls
      ensures match early
              case Some(result) =>
                && calls[id] == Finished(result)
                && (result.NoChange? ==> req.key in objects && Count(objects[req.key]) == req.replicas)
                && !result.Scaled? && !result.UpdateFailed?
              case None =>
                req.key in objects && calls[id] == Got(req, objects[req.key])
    {
      Extend(Begin(id, req));
      trace := trace + [Begin(id, req)];
      ghost var begun := Apply(View(), Begin(id, req));
      ReplayAppend(Initial(auditOn, first), trace, [Get(id, fault)]);
      ReplayOne(begun, Get(id, fault));
      trace := trace + [Get(id, fault)];
      if req.key.at.namespace == "" || req.key.at.name == "" || req.user == "" || req.replicas < 0 {
        early := Some(Invalid);
        calls := calls[id := Finished(Invalid)];
        return;
      }
      calls := calls[id := Begun(req)];
      if fault || req.key !in objects {
        early := Some(NotFound);
      } else if Count(objects[req.key]) == req.replicas {
        early := Some(NoChange(Count(objects[req.key])));
      } else {
        early := None;
      }
      calls := calls[id := if early.Some? then Finished(early.value) else Got(req, objects[req.key])];
    }

    /** The Update, with the object as it was read. */
    method Write(id: CallId, fault: bool) returns (scaleAudit: Record)
      requires Valid() && id in calls && calls[id].Got?
      modifies this
      ensures Valid() && trace == old(trace) + [Update(id, fault)]
      ensures id in calls && calls[id] == Decided(old(calls)[id].req, scaleAudit)
      ensures scaleAudit.call == id && scaleAudit.next == old(calls)[id].req.replicas
    {
      Extend(Update(id, fault));
      trace := trace + [Update(id, fault)];
      var Got(req, workload) := calls[id];
      var previousReplicas := Count(workload);
      scaleAudit := Record(id, req.key, previousReplicas, req.replicas, req.user, Failed,
                           ScaleAction(previousReplicas, req.replicas));
      var updated := if fault then None else ApiServer.Update(objects, req.key, workload, req.replicas);
      if updated.Some? {
        scaleAudit := scaleAudit.(status := Success);
        objects := updated.value;
      }
      calls := calls[id := Decided(req, scaleAudit)];
      decisions := decisions + [scaleAudit];
    }

    /** The audit record and the return. */
    method Audit(id: CallId, scaleAudit: Record) returns (result: Result)
      requires Valid() && id in calls && calls[id].Decided? && calls[id].record == scaleAudit
      modifies this
      ensures Valid() && trace == old(trace) + [Log(id)]
      ensures id in calls && calls[id] == Finished(result)
      ensures auditOn ==> audits == old(audits) + [scaleAudit]
      ensures result == if scaleAudit.status.Success?
                        then Scaled(scaleAudit.previous, scaleAudit.next, scaleAudit.reason)
                        else UpdateFailed
    {
      Extend(Log(id));
      trace := trace + [Log(id)];
      if auditOn {
        audits := audits + [scaleAudit];
      }
      result := if scaleAudit.status.Success? then Scaled(scaleAudit.previous, scaleAudit.next, scaleAudit.reason)
                else UpdateFailed;
      calls := calls[id := Finished(result)];
    }

    /**
     One scale call. `others` are the steps other callers take before its Update and
     before its audit. The server goes through exactly the interleaving this makes, and
     keeps one audit record of the call, with the result returned, exactly when the call
     came to an Update and auditing is on.
     */
    method ScaleWorkload(id: CallId, req: Request, getFault: bool, updateFault: bool,
                         others: (seq<Step>, seq<Step>))
      returns (result: Result)
      requires Valid() && id !in calls
      requires NotAbout(others.0, id) && NotAbout(others.1, id)
      modifies this
      ensures Valid()
      ensures id in calls && calls[id] == Finished(result)
      ensures var own := old(trace) + [Begin(id, req)] + [Get(id, getFault)];
              trace == if result.Scaled? || result.UpdateFailed?
                       then own + others.0 + [Update(id, updateFault)] + others.1 + [Log(id)] else own
      ensures result.Scaled? ==> result.replicas == req.replicas
      ensures result.NoChange? ==> req.key in old(objects) && Count(old(objects)[req.key]) == req.replicas
      ensures DistinctCalls(audits) && forall r <- audits :: r.call == id ==> ResultOf(r) == result
      ensures (exists r :: r in audits && r.call == id) <==> auditOn && (result.Scaled? || result.UpdateFailed?)
    {
      var early := Read(id, req, getFault);
      if early.Some? {
        Known();
        AuditedExactly(View());
        return early.value;
      }
      OthersLeaveCall(View(), others.0, id);
      Interleave(others.0);
      var scaleAudit := Write(id, updateFault);
      OthersLeaveCall(View(), others.1, id);
      Interleave(others.1);
      result := Audit(id, scaleAudit);
      Known();
      AuditedExactly(View());
      assert auditOn ==> audits[|audits| - 1] == scaleAudit;
    }

    lemma Extend(step: Step)
      requires Valid()
      ensures Replay(Initial(auditOn, first), trace + [step]) == Apply(View(), step)
    {
      ReplayAppend(Initial(auditOn, first), trace, [step]);
      ReplayOne(View(), step);
    }
  }

  lemma {:induction false} KeepsAuditOn(s: State, steps: seq<Step>)
    ensures Replay(s, steps).auditOn == s.auditOn
    decreases |steps|
  {
    if steps != [] {
      KeepsAuditOn(Apply(s, steps[0]), steps[1..]);
    }
  }
}
