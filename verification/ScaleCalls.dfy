/** What each scale call ends in, and what is recorded of it, in terms of the request it began with. */
module ScaleCalls {
  import opened GoErrors
  import opened ApiServer
  import opened Scale
  import opened Text

  function BegunBy(step: Step, begun: map<CallId, Request>): map<CallId, Request> {
    if step.Begin? && step.call !in begun then begun[step.call := step.req] else begun
  }

  /** The request each call began with: the first one, as a call begins once. */
  function Requests(steps: seq<Step>, begun: map<CallId, Request>): map<CallId, Request>
    decreases |steps|
  {
    if steps == [] then begun else Requests(steps[1..], BegunBy(steps[0], begun))
  }

  predicate WellFormed(req: Request) {
    |req.key.at.namespace| > 0 && |req.key.at.name| > 0 && |req.user| > 0 && req.replicas >= 0
  }

  /** The record is about the object, the count and the user of the request. */
  ghost predicate RecordFits(req: Request, r: Record) {
    r.key == req.key && r.next == req.replicas && r.user == req.user && r.previous != req.replicas
  }

  /** A call that began with `req` can be in this state. */
  ghost predicate Fits(req: Request, call: Call) {
    match call
    case Begun(r) => r == req && WellFormed(req)
    case Got(r, read) => r == req && WellFormed(req) && Count(read) != req.replicas
    case Decided(r, record) => r == req && WellFormed(req) && RecordFits(req, record)
    case Finished(result) =>
      && (result.Invalid? <==> !WellFormed(req))
      && (result.NoChange? ==> result.replicas == req.replicas)
      && (result.Scaled? ==> result.replicas == req.replicas && result.previous != req.replicas)
  }

  ghost predicate CallsFit(s: State, begun: map<CallId, Request>) {
    s.calls.Keys == begun.Keys && forall id <- s.calls :: Fits(begun[id], s.calls[id])
  }

  ghost predicate RecordsFit(s: State, begun: map<CallId, Request>) {
    forall r <- s.decisions :: r.call in begun && RecordFits(begun[r.call], r)
  }

  lemma CallsFitStep(s: State, step: Step, begun: map<CallId, Request>)
    requires CallsFit(s, begun)
    ensures CallsFit(Apply(s, step), BegunBy(step, begun))
  {
    var s', begun' := Apply(s, step), BegunBy(step, begun);
    assert s'.calls.Keys == begun'.Keys;
    forall id <- s'.calls ensures Fits(begun'[id], s'.calls[id]) {
      if id in s.calls {
        assert Fits(begun[id], s.calls[id]) && begun'[id] == begun[id];
      }
    }
  }

  lemma RecordsFitStep(s: State, step: Step, begun: map<CallId, Request>)
    requires CallsFit(s, begun) && RecordsFit(s, begun)
    ensures RecordsFit(Apply(s, step), BegunBy(step, begun))
  {
    var s' := Apply(s, step);
    if s'.decisions != s.decisions {
      assert Fits(begun[step.call], s.calls[step.call]);
      assert s'.decisions == s.decisions + [s'.decisions[|s.decisions|]];
    }
  }

  lemma {:induction false} RunFits(s: State, steps: seq<Step>, begun: map<CallId, Request>)
    requires CallsFit(s, begun) && RecordsFit(s, begun)
    ensures CallsFit(Replay(s, steps), Requests(steps, begun)) && RecordsFit(Replay(s, steps), Requests(steps, begun))
    decreases |steps|
  {
    if steps != [] {
      CallsFitStep(s, steps[0], begun);
      RecordsFitStep(s, steps[0], begun);
      RunFits(Apply(s, steps[0]), steps[1..], BegunBy(steps[0], begun));
    }
  }

  /**
   Over any interleaving: a call is refused exactly when its request lacks a namespace, a
   name or a user or asks for a negative count; any other result is about the count asked
   for; and every record, in the audit too, names the object, the count and the user of
   its call's request.
   */
  lemma CallsAnswerTheirRequests(auditOn: bool, objects: map<Key, Workload>, steps: seq<Step>)
    ensures var s, begun := Replay(Initial(auditOn, objects), steps), Requests(steps, map[]);
            && s.calls.Keys == begun.Keys
            && (forall id <- s.calls :: Fits(begun[id], s.calls[id]))
            && (forall r <- s.decisions :: r.call in begun && RecordFits(begun[r.call], r))
            && (forall r <- s.audits :: r.call in begun && RecordFits(begun[r.call], r))
  {
    RunFits(Initial(auditOn, objects), steps, map[]);
    AuditsAreTheHistory(auditOn, objects, steps);
  }

  /** The two counts can be read back from the action of a scaling up or down. */
  lemma ActionReadsBack(previous: int32, next: int32)
    requires previous != 0 && next != 0 && previous != next
    ensures exists x, y ::
              && ScaleAction(previous, next)
                 == (if previous < next then "scaling-up-from-" else "scaling-down-from-") + x + "-to-" + y
              && ReadInt(x) == Some(previous) && ReadInt(y) == Some(next)
  {
    var x, y := DecimalInt(previous), DecimalInt(next);
    IntReadsBack(previous);
    IntReadsBack(next);
    assert ScaleAction(previous, next)
        == (if previous < next then "scaling-up-from-" else "scaling-down-from-") + x + "-to-" + y;
  }
}
