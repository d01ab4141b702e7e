/** What the four mutations refuse, and what a success means for the cluster, from the request itself. */
module MutationEffects {
  import opened GoErrors
  import opened ApiServer
  import opened Mutations
  import Restart
  import Scale

  // ---------------------------------------------------------------------------
  // Refused requests
  // ---------------------------------------------------------------------------

  /** Not a name: empty, longer than 63, with a character of another kind, or with a hyphen at an end. */
  ghost predicate NotAName(s: string) {
    || |s| == 0 || |s| > 63
    || (exists c <- s :: !('a' <= c <= 'z') && !('0' <= c <= '9') && c != '-')
    || s[0] == '-' || s[|s| - 1] == '-'
  }

  ghost predicate NamespaceRefused(m: Mutation) {
    || NotAName(m.namespace)
    || m.namespace == "kube-system" || m.namespace == "kube-public" || m.namespace == "kube-node-lease"
  }

  ghost predicate NameRefused(m: Mutation) {
    NotAName(m.name) || "kube-" <= m.name || "system-" <= m.name
  }

  predicate CountRefused(m: Mutation) {
    m.ScaleWorkload? && (m.replicas < 0 || m.replicas > 1000)
  }

  ghost predicate UserRefused(m: Mutation) {
    m.user.Some? && (|m.user.value| == 0 || |m.user.value| > 100
                     || exists c <- m.user.value :: c == '<' || c == '>' || c == '"' || c == '\'' || c == '&')
  }

  ghost predicate Refused(m: Mutation) {
    NamespaceRefused(m) || NameRefused(m) || CountRefused(m) || UserRefused(m)
  }

  lemma NameRules(s: string)
    ensures NotAName(s) <==> !(s != "" && |s| <= 63 && NamePattern(s))
  {
    if s != "" {
      assert s[0] in s && s[|s| - 1] in s;
    }
  }

  lemma UserRules(m: Mutation)
    ensures UserRefused(m) <==> !ValidUserInput(m.user)
  {
    assert forall c :: c in "<>\"'&" <==> c == '<' || c == '>' || c == '"' || c == '\'' || c == '&';
  }

  lemma ReservedNamespaces(s: string)
    ensures s in ["kube-system", "kube-public", "kube-node-lease"] <==>
            s == "kube-system" || s == "kube-public" || s == "kube-node-lease"
  {
  }

  /**
   A request is refused for its namespace, its name, its count or its user, the first of
   them in this order being named, and for nothing else; a refused one changes nothing.
   */
  lemma RefusedRequests(c: Cluster, m: Mutation, env: Environment, title: string -> string)
    ensures var (c', reply) := Execute(c, m, env, title);
            if NamespaceRefused(m) then c' == c && reply == Error(BadInput("namespace"))
            else if NameRefused(m) then c' == c && reply == Error(BadInput("name"))
            else if CountRefused(m) then c' == c && reply == Error(BadInput("input"))
            else if UserRefused(m) then c' == c && reply == Error(BadInput("user"))
            else reply.Reply? || !reply.failure.BadInput?
    ensures Refused(m) <==> Validate(m).Some?
  {
    NameRules(m.namespace);
    NameRules(m.name);
    UserRules(m);
    ReservedNamespaces(m.namespace);
  }

  /**
   Called without the resolver, the services themselves refuse a request that lacks a
   namespace, a name or a user, or scales to a negative count, for nothing else, and
   without effect.
   */
  lemma ServicesRefuseMissingParameters(c: Cluster, at: Name, user: string, env: Environment, title: string -> string,
                                        kind: Kind, replicas: int32)
    ensures var missing := |at.namespace| == 0 || |at.name| == 0 || |user| == 0;
            var restarted, deleted := ServeRestart(c, at, user, env, title), ServeDelete(c, at, user, env);
            var scaled := ServeScale(c, Scale.Request(Key(kind, at), replicas, user), env);
            && (restarted.1 == Error(BadParameters) <==> missing) && (deleted.1 == Error(BadParameters) <==> missing)
            && (scaled.1 == Error(BadParameters) <==> missing || replicas < 0)
            && (missing ==> restarted.0 == c && deleted.0 == c)
            && (missing || replicas < 0 ==> scaled.0 == c)
  {
  }

  // ---------------------------------------------------------------------------
  // Successful requests
  // ---------------------------------------------------------------------------

  /** A deletion succeeds exactly when it is not refused and the pod can be deleted; then just that pod is gone. */
  lemma DeletionDeletes(c: Cluster, m: Mutation, env: Environment, title: string -> string)
    requires m.DeletePod?
    ensures var (c', reply) := Execute(c, m, env, title);
            var at := Name(m.namespace, m.name);
            && (reply.Reply? <==> !Refused(m) && at in c.pods && !env.faults.write)
            && (reply.Reply? ==> reply.response == PodDeleted && Restart.OnlyDeleted(c, c', at))
            && (reply.Error? && !Refused(m) ==> reply == Error(DeleteFailed))
  {
    RefusedRequests(c, m, env, title);
  }

  /** `c'` is `c` but for one workload, which keeps its annotation. */
  ghost predicate OnlyScaled(c: Cluster, c': Cluster, key: Key) {
    && c'.pods == c.pods && c'.replicaSets == c.replicaSets && c'.jobs == c.jobs
    && key in c.workloads && c'.workloads.Keys == c.workloads.Keys
    && c'.workloads[key].restartedAt == c.workloads[key].restartedAt
    && forall k <- c.workloads :: k != key ==> c'.workloads[k] == c.workloads[k]
  }

  function SpecReplicas(w: Workload): int {
    match w.replicas
    case Some(n) => n
    case None => 0
  }

  /**
   A scale request succeeds exactly when it is not refused, the object can be read, and it
   either has the count already or can be updated. Then that object has the count asked
   for, and nothing else has changed; the reply gives the count it had before.
   */
  lemma ScaleSetsTheCount(c: Cluster, m: Mutation, env: Environment, title: string -> string)
    requires m.ScaleWorkload?
    ensures var (c', reply) := Execute(c, m, env, title);
            var key := Key(m.kind, Name(m.namespace, m.name));
            && (reply.Reply? <==>
                  && !Refused(m) && key in c.workloads && !env.getFault
                  && (SpecReplicas(c.workloads[key]) == m.replicas || !env.updateFault))
            && (reply.Reply? ==>
                  && OnlyScaled(c, c', key) && SpecReplicas(c'.workloads[key]) == m.replicas
                  && reply.response == WorkloadScaled(SpecReplicas(c.workloads[key]), m.replicas)
                  && (SpecReplicas(c.workloads[key]) == m.replicas ==> c' == c))
            && (reply.Error? && !Refused(m) ==>
                  reply.failure == ScaleFailed(if key !in c.workloads || env.getFault then Scale.NotFound
                                               else Scale.UpdateFailed))
  {
    RefusedRequests(c, m, env, title);
    if Validate(m).None? {
      ValidatedRequestsReachService(c, m, env, title);
    }
  }

  /**
   A restart succeeds exactly when it is not refused, the pod can be read, its controller
   can be restarted and the object to write exists and can be written; it writes that
   object only, and the reply carries what is reported for such a controller.
   */
  lemma RestartRestarts(c: Cluster, m: Mutation, env: Environment, title: string -> string)
    requires m.RestartPod?
    ensures var (c', reply) := Execute(c, m, env, title);
            var at := Name(m.namespace, m.name);
            && (reply.Reply? <==>
                  && !Refused(m) && !env.faults.getPod && at in c.pods && !env.faults.write
                  && var info := Restart.DetectController(c, at.namespace, c.pods[at], env.faults, title);
                     info.kind in Restart.RESTARTABLE && Restart.TargetExists(c, at, info))
            && (reply.Reply? ==>
                  var info := Restart.DetectController(c, at.namespace, c.pods[at], env.faults, title);
                  var report := Restart.ReportFor(info);
                  && Restart.RightObject(c, c', at, info, env.now)
                  && reply.response == PodRestarted(report.message,
                                                    if info.kind.StandaloneType? then Some(report.warning) else None))
            && (reply.Error? && !Refused(m) ==>
                  reply.failure == RestartFailed(
                    if env.faults.getPod || at !in c.pods then Restart.PodNotFound
                    else if Restart.DetectController(c, at.namespace, c.pods[at], env.faults, title).kind
                            !in Restart.RESTARTABLE then Restart.NotSupported
                    else Restart.WriteFailed))
  {
    RefusedRequests(c, m, env, title);
    if Validate(m).None? {
      ValidatedRequestsReachService(c, m, env, title);
      Restart.RestartWritesOneObject(c, Name(m.namespace, m.name), env.faults, env.now, title);
      Restart.RestartReports(c, Name(m.namespace, m.name), env.faults, env.now, title);
    }
  }

  /** The audit record names the operation, the object and the user asked for, "system" when none is. */
  lemma AuditNamesRequest(m: Mutation, reply: Reply)
    ensures var record := AuditOf(m, reply);
            && record.namespace == m.namespace && record.resource == m.name && record.success == reply.Reply?
            && (m.user.Some? ==> record.user == m.user.value) && (m.user.None? ==> record.user == "system")
            && (m.RestartPod? ==> record.operation == "restartPod")
            && (m.DeletePod? ==> record.operation == "deletePod")
            && (m.ScaleWorkload? ==>
                  record.operation == if m.kind == Deployment then "scaleDeployment" else "scaleStatefulSet")
  {
  }
}
