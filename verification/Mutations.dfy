/**
 The four GraphQL mutations: validate, call the service, audit. Strings are byte
 strings, as the length checks of the validators count them.
 */
module Mutations {
  import opened GoErrors
  import opened ApiServer
  import Restart
  import Scale

  // ---------------------------------------------------------------------------
  // Input validation
  // ---------------------------------------------------------------------------

  predicate Alphanumeric(c: char) {
    'a' <= c <= 'z' || '0' <= c <= '9'
  }

  /** The name pattern: letters and digits, with hyphens inside. */
  predicate NamePattern(s: string) {
    && s != ""
    && Alphanumeric(s[0]) && Alphanumeric(s[|s| - 1])
    && forall c <- s :: Alphanumeric(c) || c == '-'
  }

  predicate ValidNamespace(s: string) {
    s != "" && |s| <= 63 && NamePattern(s) && s !in ["kube-system", "kube-public", "kube-node-lease"]
  }

  predicate ValidPodName(s: string) {
    s != "" && |s| <= 63 && NamePattern(s) && !("kube-" <= s) && !("system-" <= s)
  }

  predicate ValidScaleInput(replicas: int) {
    0 <= replicas <= 1000
  }

  predicate ValidUserInput(user: Option<string>) {
    user.Some? ==> user.value != "" && |user.value| <= 100 && forall c <- user.value :: c !in "<>\"'&"
  }

  function UserOrDefault(user: Option<string>): string {
    if user.Some? then user.value else "system"
  }

  /** Go's `int32(n)`: keeps the low 32 bits, so it changes no number that fits and every number that does not. */
  function ToInt32(n: int): (r: int32)
    ensures r == n <==> -0x8000_0000 <= n < 0x8000_0000
    ensures (r - n) % 0x1_0000_0000 == 0
  {
    (n + 0x8000_0000) % 0x1_0000_0000 - 0x8000_0000
  }

  // ---------------------------------------------------------------------------
  // Requests, replies and audit records
  // ---------------------------------------------------------------------------

  datatype Mutation =
    | RestartPod(namespace: string, name: string, user: Option<string>)
    | DeletePod(namespace: string, name: string, user: Option<string>)
    | ScaleWorkload(kind: Kind, namespace: string, name: string, replicas: int, user: Option<string>)

  /** Which API calls fail while a request is served, and the clock it reads. */
  datatype Environment = Environment(faults: Restart.Faults, getFault: bool, updateFault: bool, now: string)

  datatype Response =
    | PodRestarted(message: string, warning: Option<string>)
    | PodDeleted
    | WorkloadScaled(previousReplicas: int, newReplicas: int)

  datatype Failure =
    | BadInput(field: string)
    | BadParameters               // a parameter check of the service layer
    | RestartFailed(error: Restart.RestartError)
    | DeleteFailed
    | ScaleFailed(result: Scale.Result)

  datatype Reply = Reply(response: Response) | Error(failure: Failure)

  /** A `LogMutation` record. */
  datatype AuditRecord = AuditRecord(operation: string, namespace: string, resource: string, user: string,
                                     success: bool)

  function Operation(m: Mutation): string {
    match m
    case RestartPod(_, _, _) => "restartPod"
    case DeletePod(_, _, _) => "deletePod"
    case ScaleWorkload(kind, _, _, _, _) => if kind.Deployment? then "scaleDeployment" else "scaleStatefulSet"
  }

  function Validate(m: Mutation): Option<Failure> {
    if !ValidNamespace(m.namespace) then Some(BadInput("namespace"))
    else if !ValidPodName(m.name) then Some(BadInput("name"))
    else if m.ScaleWorkload? && !ValidScaleInput(m.replicas) then Some(BadInput("input"))
    else if !ValidUserInput(m.user) then Some(BadInput("user"))
    else None
  }

  // ---------------------------------------------------------------------------
  // The service layer
  // ---------------------------------------------------------------------------

  predicate PodParams(namespace: string, name: string, executedBy: string) {
    namespace != "" && name != "" && executedBy != ""
  }

  function ServeRestart(c: Cluster, at: Name, executedBy: string, env: Environment, title: string -> string)
    : (Cluster, Reply)
  {
    if !PodParams(at.namespace, at.name, executedBy) then (c, Error(BadParameters)) else
      var r := Restart.RestartPod(c, at, env.faults, env.now, title);
      if r.error.Some? || r.result.None? then
        (r.cluster, Error(RestartFailed(if r.error.Some? then r.error.value else Restart.UnknownMethod)))
      else
        var RestartResult(message, warning, _, _) := r.result.value;
        (r.cluster, Reply(PodRestarted(message, if warning != "" then Some(warning) else None)))
  }

  function ServeDelete(c: Cluster, at: Name, executedBy: string, env: Environment): (Cluster, Reply) {
    if !PodParams(at.namespace, at.name, executedBy) then (c, Error(BadParameters)) else
      var deleted := Restart.DeletePod(c, at, env.faults.write);
      if deleted.None? then (c, Error(DeleteFailed)) else (deleted.value, Reply(PodDeleted))
  }

  /** One scale call that nothing interrupts. */
  function ScaleOnce(ws: map<Key, Workload>, req: Scale.Request, getFault: bool, updateFault: bool)
    : (map<Key, Workload>, Scale.Result)
  {
    if !Scale.ValidParams(req) then (ws, Scale.Invalid)
    else if getFault || req.key !in ws then (ws, Scale.NotFound)
    else
      var read := ws[req.key];
      if Count(read) == req.replicas then (ws, Scale.NoChange(req.replicas)) else
        var written := if updateFault then None else Update(ws, req.key, read, req.replicas);
        if written.None? then (ws, Scale.UpdateFailed) else
          (written.value, Scale.Scaled(Count(read), req.replicas, Scale.ScaleAction(Count(read), req.replicas)))
  }

  function ServeScale(c: Cluster, req: Scale.Request, env: Environment): (Cluster, Reply) {
    var (ws, result) := ScaleOnce(c.workloads, req, env.getFault, env.updateFault);
    (c.(workloads := ws),
     match result
     case Invalid => Error(BadParameters)
     case NoChange(replicas) => Reply(WorkloadScaled(replicas, replicas))
     case Scaled(previous, replicas, _) => Reply(WorkloadScaled(previous, replicas))
     case _ => Error(ScaleFailed(result)))
  }

  function Serve(c: Cluster, m: Mutation, env: Environment, title: string -> string): (Cluster, Reply) {
    var at, executedBy := Name(m.namespace, m.name), UserOrDefault(m.user);
    match m
    case RestartPod(_, _, _) => ServeRestart(c, at, executedBy, env, title)
    case DeletePod(_, _, _) => ServeDelete(c, at, executedBy, env)
    case ScaleWorkload(kind, _, _, replicas, _) =>
      ServeScale(c, Scale.Request(Key(kind, at), ToInt32(replicas), executedBy), env)
  }

  /** What serving a request does: the cluster after it, and its reply. */
  function Execute(c: Cluster, m: Mutation, env: Environment, title: string -> string): (Cluster, Reply) {
    var invalid := Validate(m);
    if invalid.Some? then (c, Error(invalid.value)) else Serve(c, m, env, title)
  }

  function AuditOf(m: Mutation, reply: Reply): AuditRecord {
    AuditRecord(Operation(m), m.namespace, m.name, UserOrDefault(m.user), reply.Reply?)
  }

  // ---------------------------------------------------------------------------
  // The resolver object
  // ---------------------------------------------------------------------------

  class MutationResolver {
    const title: string -> string
    var cluster: Cluster
    var audits: seq<AuditRecord>

    constructor (cluster: Cluster, title: string -> string)
      ensures this.cluster == cluster && this.title == title && audits == []
    {
      this.cluster, this.title, audits := cluster, title, [];
    }

    method LogMutation(operation: string, namespace: string, resource: string, user: string, success: bool)
      modifies this`audits
      ensures audits == old(audits) + [AuditRecord(operation, namespace, resource, user, success)]
    {
      audits := audits + [AuditRecord(operation, namespace, resource, user, success)];
    }

    method Resolve(m: Mutation, env: Environment) returns (reply: Reply)
      modifies this
      ensures (cluster, reply) == Execute(old(cluster), m, env, title)
      ensures audits == old(audits) + [AuditOf(m, reply)]
      ensures reply.Error? ==> cluster == old(cluster)
      ensures m.DeletePod? && reply.Reply? ==> Restart.OnlyDeleted(old(cluster), cluster, Name(m.namespace, m.name))
      ensures m.ScaleWorkload? && reply.Reply? ==>
                var key := Key(m.kind, Name(m.namespace, m.name));
                key in cluster.workloads && Count(cluster.workloads[key]) == m.replicas
    {
      FailureChangesNothing(cluster, m, env, title);
      if !ValidNamespace(m.namespace) {
        LogMutation(Operation(m), m.namespace, m.name, UserOrDefault(m.user), false);
        return Error(BadInput("namespace"));
      }
      if !ValidPodName(m.name) {
        LogMutation(Operation(m), m.namespace, m.name, UserOrDefault(m.user), false);
        return Error(BadInput("name"));
      }
      if m.ScaleWorkload? && !ValidScaleInput(m.replicas) {
        LogMutation(Operation(m), m.namespace, m.name, UserOrDefault(m.user), false);
        return Error(BadInput("input"));
      }
      if !ValidUserInput(m.user) {
        LogMutation(Operation(m), m.namespace, m.name, UserOrDefault(m.user), false);
        return Error(BadInput("user"));
      }
      var executedBy := UserOrDefault(m.user);
      var (c', served) := Serve(cluster, m, env, title);
      cluster, reply := c', served;
      LogMutation(Operation(m), m.namespace, m.name, executedBy, reply.Reply?);
    }
  }

  // ---------------------------------------------------------------------------
  // Failed mutations can be erased
  // ---------------------------------------------------------------------------

  /** A mutation that returns an error has changed nothing. */
  lemma FailureChangesNothing(c: Cluster, m: Mutation, env: Environment, title: string -> string)
    ensures Execute(c, m, env, title).1.Error? ==> Execute(c, m, env, title).0 == c
  {
    if m.RestartPod? {
      Restart.RestartWritesOneObject(c, Name(m.namespace, m.name), env.faults, env.now, title);
    } else if m.ScaleWorkload? {
      var req := Scale.Request(Key(m.kind, Name(m.namespace, m.name)), ToInt32(m.replicas), UserOrDefault(m.user));
      var (ws, result) := ScaleOnce(c.workloads, req, env.getFault, env.updateFault);
      assert !result.Scaled? ==> ws == c.workloads;
    }
  }

  function Run(c: Cluster, requests: seq<(Mutation, Environment)>, title: string -> string): (Cluster, seq<Reply>)
    decreases |requests|
  {
    if requests == [] then (c, []) else
      var (c', reply) := Execute(c, requests[0].0, requests[0].1, title);
      var (c'', replies) := Run(c', requests[1..], title);
      (c'', [reply] + replies)
  }

  /** The requests whose audit record is flagged as a success. */
  function Flagged(requests: seq<(Mutation, Environment)>, replies: seq<Reply>): seq<(Mutation, Environment)>
    requires |requests| == |replies|
  {
    if requests == [] then [] else
      (if AuditOf(requests[0].0, replies[0]).success then [requests[0]] else []) + Flagged(requests[1..], replies[1..])
  }

  function Responses(replies: seq<Reply>): seq<Reply> {
    if replies == [] then [] else (if replies[0].Reply? then [replies[0]] else []) + Responses(replies[1..])
  }

  lemma {:induction false} RunLength(c: Cluster, requests: seq<(Mutation, Environment)>, title: string -> string)
    ensures |Run(c, requests, title).1| == |requests|
    decreases |requests|
  {
    if requests != [] {
      RunLength(Execute(c, requests[0].0, requests[0].1, title).0, requests[1..], title);
    }
  }

  /**
   Replaying only the requests the audit flags as successes reaches the same cluster,
   with the same replies.
   */
  lemma {:induction false} FailedMutationsErasable(c: Cluster, requests: seq<(Mutation, Environment)>,
                                                   title: string -> string)
    ensures |Run(c, requests, title).1| == |requests|
    ensures var (c', replies) := Run(c, requests, title);
            Run(c, Flagged(requests, replies), title) == (c', Responses(replies))
    decreases |requests|
  {
    RunLength(c, requests, title);
    if requests != [] {
      var (c1, reply) := Execute(c, requests[0].0, requests[0].1, title);
      var (c2, replies) := Run(c1, requests[1..], title);
      FailureChangesNothing(c, requests[0].0, requests[0].1, title);
      FailedMutationsErasable(c1, requests[1..], title);
      var all := [reply] + replies;
      assert all[1..] == replies;
      var kept := Flagged(requests[1..], replies);
      if reply.Reply? {
        assert Flagged(requests, all) == [requests[0]] + kept;
        assert ([requests[0]] + kept)[1..] == kept;
      } else {
        assert Flagged(requests, all) == kept;
        assert Responses(all) == Responses(replies);
      }
    }
  }

  // ---------------------------------------------------------------------------
  // The layers agree
  // ---------------------------------------------------------------------------

  /**
   A request that passes the resolver's validation never fails a parameter check of the
   service layer, and its replica count survives the conversion to 32 bits: what the
   service is asked for, and what a success reports, is what the client sent.
   */
  lemma ValidatedRequestsReachService(c: Cluster, m: Mutation, env: Environment, title: string -> string)
    requires Validate(m).None?
    ensures Execute(c, m, env, title).1 != Error(BadParameters)
    ensures m.ScaleWorkload? ==>
              && ToInt32(m.replicas) == m.replicas
              && (var reply := Execute(c, m, env, title).1;
                  reply.Reply? ==> reply.response.WorkloadScaled? && reply.response.newReplicas == m.replicas)
  {
    assert UserOrDefault(m.user) != "";
  }

  lemma ReplayFour(s: Scale.State, a: Scale.Step, b: Scale.Step, c: Scale.Step, d: Scale.Step)
    ensures Scale.Replay(s, [a, b, c, d]) == Scale.Apply(Scale.Apply(Scale.Apply(Scale.Apply(s, a), b), c), d)
  {
    assert [a, b, c, d][1..] == [b, c, d] && [b, c, d][1..] == [c, d] && [c, d][1..] == [d] && [d][1..] == [];
    var s2 := Scale.Apply(Scale.Apply(s, a), b);
    assert Scale.Replay(s, [a, b, c, d]) == Scale.Replay(Scale.Apply(s, a), [b, c, d]) == Scale.Replay(s2, [c, d]);
    assert Scale.Replay(s2, [c, d]) == Scale.Replay(Scale.Apply(s2, c), [d]);
  }

  /** An uninterrupted scale call is the scale protocol with no other steps in between. */
  lemma ScaleOnceIsTheProtocol(s: Scale.State, id: Scale.CallId, req: Scale.Request, getFault: bool, updateFault: bool)
    requires id !in s.calls
    ensures var (ws, result) := ScaleOnce(s.objects, req, getFault, updateFault);
            var s' := Scale.Replay(
              s, [Scale.Begin(id, req), Scale.Get(id, getFault), Scale.Update(id, updateFault), Scale.Log(id)]);
            s'.objects == ws && id in s'.calls && s'.calls[id] == Scale.Finished(result)
  {
    ReplayFour(s, Scale.Begin(id, req), Scale.Get(id, getFault), Scale.Update(id, updateFault), Scale.Log(id));
  }

  /** A restart response carries a warning exactly when a standalone pod was deleted. */
  lemma WarningMeansStandalone(c: Cluster, m: Mutation, env: Environment, title: string -> string)
    requires m.RestartPod? && Execute(c, m, env, title).1.Reply?
    ensures var at := Name(m.namespace, m.name);
            && at in c.pods && Execute(c, m, env, title).1.response.PodRestarted?
            && (Execute(c, m, env, title).1.response.warning.Some?
                <==> Restart.DetectController(c, at.namespace, c.pods[at], env.faults, title).kind.StandaloneType?)
            && (Execute(c, m, env, title).1.response.warning.Some? ==>
                  Restart.OnlyDeleted(c, Execute(c, m, env, title).0, at))
  {
    Restart.RestartWritesOneObject(c, Name(m.namespace, m.name), env.faults, env.now, title);
  }
}
