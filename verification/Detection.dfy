/** What controller detection answers, and what a restart then does, from the pod and the cluster alone. */
module Detection {
  import opened GoErrors
  import opened ApiServer
  import opened Restart

  /** The first owner that has the controller flag and this kind is called `name`. */
  ghost predicate FirstController(owners: seq<Owner>, kind: string, name: string) {
    exists i :: 0 <= i < |owners| && Flagged(owners[i], kind) && owners[i].name == name
                && forall j :: 0 <= j < i ==> !Flagged(owners[j], kind)
  }

  ghost predicate NoController(owners: seq<Owner>, kind: string) {
    forall o <- owners :: !Flagged(o, kind)
  }

  predicate Flagged(o: Owner, kind: string) {
    o.controller == Some(true) && o.kind == kind
  }

  /** The first owner with the controller flag is of this kind and name. */
  ghost predicate Controller(owners: seq<Owner>, kind: string, name: string) {
    exists i :: 0 <= i < |owners| && owners[i].controller == Some(true)
                && owners[i].kind == kind && owners[i].name == name
                && forall j :: 0 <= j < i ==> owners[j].controller != Some(true)
  }

  lemma {:induction false} OwnerSearch(owners: seq<Owner>, kind: string, name: string)
    ensures FirstController(owners, kind, name) ==> ControllerOfKind(owners, TypeOf(kind)) == name
    ensures NoController(owners, kind) ==> ControllerOfKind(owners, TypeOf(kind)) == ""
    decreases |owners|
  {
    if owners != [] && !Flagged(owners[0], kind) {
      var rest := owners[1..];
      OwnerSearch(rest, kind, name);
      if FirstController(owners, kind, name) {
        var i :| 0 <= i < |owners| && Flagged(owners[i], kind) && owners[i].name == name
                 && forall j :: 0 <= j < i ==> !Flagged(owners[j], kind);
        assert rest[i - 1] == owners[i];
        assert forall j :: 0 <= j < i - 1 ==> rest[j] == owners[j + 1];
      }
      assert TypeText(TypeOf(owners[0].kind)) == owners[0].kind && TypeText(TypeOf(kind)) == kind;
    }
  }

  lemma ControllerControls(owners: seq<Owner>, kind: string, name: string) returns (o: Owner)
    requires Controller(owners, kind, name)
    ensures ControlledBy(owners, o) && o.kind == kind && o.name == name
  {
    var i :| 0 <= i < |owners| && owners[i].controller == Some(true) && owners[i].kind == kind && owners[i].name == name
             && forall j :: 0 <= j < i ==> owners[j].controller != Some(true);
    o := owners[i];
  }

  /**
   A pod whose controller is a Job is the CronJob's that controls the Job, if the Job can be read
   and the CronJob has a name, and the Job's otherwise. A list query always says the Job.
   */
  lemma JobPodsBelongToCronJob(c: Cluster, namespace: string, pod: Pod, faults: Faults, title: string -> string,
                               job: string, cronJob: string)
    requires Controller(pod.owners, "Job", job)
    ensures var at, info := Name(namespace, job), DetectController(c, namespace, pod, faults, title);
            && (!faults.getJob && at in c.jobs && FirstController(c.jobs[at], "CronJob", cronJob) && cronJob != "" ==>
                  info == ControllerInfo(CronJobType, cronJob))
            && (faults.getJob || at !in c.jobs || NoController(c.jobs[at], "CronJob")
                || FirstController(c.jobs[at], "CronJob", "") ==>
                  info == ControllerInfo(JobType, job))
    ensures DetectBasic(pod, pod.owners) == ControllerInfo(JobType, job)
  {
    var o := ControllerControls(pod.owners, "Job", job);
    ControllingOwnerDecides(c, namespace, pod, pod.owners, o, faults, title);
    var at := Name(namespace, job);
    if at in c.jobs {
      OwnerSearch(c.jobs[at], "CronJob", cronJob);
      OwnerSearch(c.jobs[at], "CronJob", "");
    }
  }

  /** Likewise for a ReplicaSet and the Deployment that controls it. */
  lemma ReplicaSetPodsBelongToDeployment(c: Cluster, namespace: string, pod: Pod, faults: Faults,
                                         title: string -> string, replicaSet: string, deployment: string)
    requires Controller(pod.owners, "ReplicaSet", replicaSet)
    ensures var at, info := Name(namespace, replicaSet), DetectController(c, namespace, pod, faults, title);
            && (!faults.getReplicaSet && at in c.replicaSets && deployment != ""
                && FirstController(c.replicaSets[at], "Deployment", deployment) ==>
                  info == ControllerInfo(DeploymentType, deployment))
            && (faults.getReplicaSet || at !in c.replicaSets || NoController(c.replicaSets[at], "Deployment")
                || FirstController(c.replicaSets[at], "Deployment", "") ==>
                  info == ControllerInfo(ReplicaSetType, replicaSet))
    ensures DetectBasic(pod, pod.owners) == ControllerInfo(ReplicaSetType, replicaSet)
  {
    var o := ControllerControls(pod.owners, "ReplicaSet", replicaSet);
    ControllingOwnerDecides(c, namespace, pod, pod.owners, o, faults, title);
    var at := Name(namespace, replicaSet);
    if at in c.replicaSets {
      OwnerSearch(c.replicaSets[at], "Deployment", deployment);
      OwnerSearch(c.replicaSets[at], "Deployment", "");
    }
  }

  /** Every other controlling owner is the answer itself, in both queries and whatever the cluster holds. */
  lemma OtherOwnersAreTheAnswer(c: Cluster, namespace: string, pod: Pod, faults: Faults, title: string -> string,
                                kind: string, name: string)
    requires Controller(pod.owners, kind, name) && kind != "Job" && kind != "ReplicaSet"
    ensures var info := DetectController(c, namespace, pod, faults, title);
            && info == DetectBasic(pod, pod.owners)
            && TypeText(info.kind) == kind && info.name == name
            && (info.kind.OtherType? <==>
                  kind !in {"Deployment", "StatefulSet", "DaemonSet", "CronJob", "Node", "Standalone"})
            && (info.kind.DeploymentType? <==> kind == "Deployment")
            && (info.kind.StatefulSetType? <==> kind == "StatefulSet")
            && (info.kind.DaemonSetType? <==> kind == "DaemonSet")
            && (info.kind.StandaloneType? <==> kind == "Standalone")
  {
    var o := ControllerControls(pod.owners, kind, name);
    ControllingOwnerDecides(c, namespace, pod, pod.owners, o, faults, title);
  }

  const MANAGED_BY := "app.kubernetes.io/managed-by"
  const BATCH_JOB := "batch.kubernetes.io/job-name"
  const STATIC_POD := "kubernetes.io/config.source"

  /**
   Without a controlling owner, in this order: the managed-by label, the two job labels, the
   node, standalone. A managed-by label hides the job labels even if the case mapping
   makes nothing of it. The list query knows the job labels only.
   */
  lemma LabelsNodeStandalone(c: Cluster, namespace: string, pod: Pod, faults: Faults, title: string -> string)
    requires forall o <- pod.owners :: o.controller != Some(true)
    ensures var info := DetectController(c, namespace, pod, faults, title);
            var managed := MANAGED_BY in pod.labels && pod.labels[MANAGED_BY] != "";
            var node := STATIC_POD in pod.annotations || exists o <- pod.owners :: o.kind == "Node";
            && (managed && title(pod.labels[MANAGED_BY]) != "" ==>
                  TypeText(info.kind) == title(pod.labels[MANAGED_BY]) && info.name == "")
            && (!managed && "job-name" in pod.labels ==> info == ControllerInfo(JobType, pod.labels["job-name"]))
            && (!managed && "job-name" !in pod.labels && BATCH_JOB in pod.labels ==>
                  info == ControllerInfo(JobType, pod.labels[BATCH_JOB]))
            && ((if managed then title(pod.labels[MANAGED_BY]) == ""
                 else "job-name" !in pod.labels && BATCH_JOB !in pod.labels) ==>
                  info == if node then ControllerInfo(NodeType, pod.nodeName) else ControllerInfo(StandaloneType, ""))
    ensures DetectBasic(pod, pod.owners) ==
              if "job-name" in pod.labels then ControllerInfo(JobType, pod.labels["job-name"])
              else if BATCH_JOB in pod.labels then ControllerInfo(JobType, pod.labels[BATCH_JOB])
              else ControllerInfo(StandaloneType, "")
  {
    UncontrolledFallsThrough(c, namespace, pod, pod.owners, faults, title);
    NodeOwners(pod);
  }

  lemma NodeOwners(pod: Pod)
    ensures NodeManaged(pod) <==> STATIC_POD in pod.annotations || exists o <- pod.owners :: o.kind == "Node"
  {
    forall o <- pod.owners ensures TypeOf(o.kind).NodeType? <==> o.kind == "Node" {
    }
    if exists o <- pod.owners :: o.kind == "Node" {
      var o :| o in pod.owners && o.kind == "Node";
      assert TypeOf(o.kind).NodeType?;
    }
  }

  /** A pod without a controlling owner that carries a job label, and no managed-by label, is never touched. */
  lemma LabelledJobPodsUntouched(c: Cluster, at: Name, faults: Faults, now: string, title: string -> string)
    requires at in c.pods && forall o <- c.pods[at].owners :: o.controller != Some(true)
    requires "job-name" in c.pods[at].labels || BATCH_JOB in c.pods[at].labels
    requires MANAGED_BY !in c.pods[at].labels || c.pods[at].labels[MANAGED_BY] == ""
    ensures RestartPod(c, at, faults, now, title).cluster == c
    ensures RestartPod(c, at, faults, now, title).error.Some?
  {
    LabelsNodeStandalone(c, at.namespace, c.pods[at], faults, title);
  }
}
