/** Which controller a pod belongs to, and what restarting it does to the cluster. */
module Restart {
  import opened GoErrors
  import opened ApiServer

  /** A `ControllerType`: the known ones, and any other kind or label value. */
  datatype ControllerType =
    | DeploymentType | StatefulSetType | DaemonSetType | ReplicaSetType
    | JobType | CronJobType | NodeType | StandaloneType | OtherType(text: string)

  datatype ControllerInfo = ControllerInfo(kind: ControllerType, name: string)

  /** How a controller type prints. */
  function TypeText(kind: ControllerType): string {
    match kind
    case DeploymentType => "Deployment"
    case StatefulSetType => "StatefulSet"
    case DaemonSetType => "DaemonSet"
    case ReplicaSetType => "ReplicaSet"
    case JobType => "Job"
    case CronJobType => "CronJob"
    case NodeType => "Node"
    case StandaloneType => "Standalone"
    case OtherType(text) => text
  }

  /** The conversion of a kind string to a `ControllerType`, which loses nothing. */
  function TypeOf(kind: string): (t: ControllerType)
    ensures TypeText(t) == kind
  {
    if kind == "Deployment" then DeploymentType
    else if kind == "StatefulSet" then StatefulSetType
    else if kind == "DaemonSet" then DaemonSetType
    else if kind == "ReplicaSet" then ReplicaSetType
    else if kind == "Job" then JobType
    else if kind == "CronJob" then CronJobType
    else if kind == "Node" then NodeType
    else if kind == "Standalone" then StandaloneType
    else OtherType(kind)
  }

  /** Which of the reads and writes of a restart the API fails. */
  datatype Faults = Faults(getPod: bool, getReplicaSet: bool, getJob: bool, write: bool)

  // ---------------------------------------------------------------------------
  // Detection
  // ---------------------------------------------------------------------------

  predicate Controls(o: Owner) {
    o.controller == Some(true)
  }

  /** The name of the first controlling owner of the given kind, or "". */
  function ControllerOfKind(owners: seq<Owner>, kind: ControllerType): string {
    if owners == [] then ""
    else if Controls(owners[0]) && TypeOf(owners[0].kind) == kind then owners[0].name
    else ControllerOfKind(owners[1..], kind)
  }

  /** The owner of an object that was read, or "" when it could not be. */
  function Promoted(objects: map<Name, seq<Owner>>, at: Name, fault: bool, kind: ControllerType): string {
    if fault || at !in objects then "" else ControllerOfKind(objects[at], kind)
  }

  function DetectFromOwner(c: Cluster, namespace: string, o: Owner, faults: Faults): ControllerInfo {
    match TypeOf(o.kind)
    case ReplicaSetType =>
      var deployment := Promoted(c.replicaSets, Name(namespace, o.name), faults.getReplicaSet, DeploymentType);
      if deployment != "" then ControllerInfo(DeploymentType, deployment) else ControllerInfo(ReplicaSetType, o.name)
    case JobType =>
      var cronJob := Promoted(c.jobs, Name(namespace, o.name), faults.getJob, CronJobType);
      if cronJob != "" then ControllerInfo(CronJobType, cronJob) else ControllerInfo(JobType, o.name)
    case other => ControllerInfo(other, o.name)
  }

  /** `title` is the case mapping applied to the managed-by label. */
  function DetectFromLabels(pod: Pod, title: string -> string): Option<ControllerInfo> {
    var labels := pod.labels;
    if "app.kubernetes.io/managed-by" in labels && labels["app.kubernetes.io/managed-by"] != "" then
      var kind := title(labels["app.kubernetes.io/managed-by"]);
      if kind == "" then None else Some(ControllerInfo(TypeOf(kind), ""))
    else
      JobFromLabels(labels)
  }

  function JobFromLabels(labels: map<string, string>): Option<ControllerInfo> {
    if "job-name" in labels then Some(ControllerInfo(JobType, labels["job-name"]))
    else if "batch.kubernetes.io/job-name" in labels then
      Some(ControllerInfo(JobType, labels["batch.kubernetes.io/job-name"]))
    else None
  }

  predicate NodeManaged(pod: Pod) {
    (exists o <- pod.owners :: TypeOf(o.kind).NodeType?) || "kubernetes.io/config.source" in pod.annotations
  }

  function DetectWithoutOwner(pod: Pod, title: string -> string): ControllerInfo {
    var info := DetectFromLabels(pod, title);
    if info.Some? then info.value
    else if NodeManaged(pod) then ControllerInfo(NodeType, pod.nodeName)
    else ControllerInfo(StandaloneType, "")
  }

  function DetectFrom(c: Cluster, namespace: string, pod: Pod, owners: seq<Owner>, faults: Faults,
                      title: string -> string)
    : ControllerInfo
    decreases |owners|
  {
    if owners == [] then DetectWithoutOwner(pod, title)
    else if Controls(owners[0]) then DetectFromOwner(c, namespace, owners[0], faults)
    else DetectFrom(c, namespace, pod, owners[1..], faults, title)
  }

  function DetectController(c: Cluster, namespace: string, pod: Pod, faults: Faults, title: string -> string)
    : ControllerInfo
  {
    DetectFrom(c, namespace, pod, pod.owners, faults, title)
  }

  /** The detection of the list queries, which makes no API calls. */
  function DetectBasic(pod: Pod, owners: seq<Owner>): ControllerInfo {
    if owners != [] then
      if Controls(owners[0]) then ControllerInfo(TypeOf(owners[0].kind), owners[0].name)
      else DetectBasic(pod, owners[1..])
    else
      var job := JobFromLabels(pod.labels);
      if job.Some? then job.value else ControllerInfo(StandaloneType, "")
  }

  /** The controlling owner: the first owner whose controller flag is set. */
  ghost predicate ControlledBy(owners: seq<Owner>, o: Owner) {
    exists i :: 0 <= i < |owners| && owners[i] == o && Controls(o) && forall j :: 0 <= j < i ==> !Controls(owners[j])
  }

  ghost predicate Uncontrolled(owners: seq<Owner>) {
    forall o <- owners :: !Controls(o)
  }

  lemma {:induction false} ControllingOwnerDecides(c: Cluster, namespace: string, pod: Pod, owners: seq<Owner>,
                                                   o: Owner, faults: Faults, title: string -> string)
    requires ControlledBy(owners, o)
    ensures DetectFrom(c, namespace, pod, owners, faults, title) == DetectFromOwner(c, namespace, o, faults)
    ensures DetectBasic(pod, owners) == ControllerInfo(TypeOf(o.kind), o.name)
    decreases |owners|
  {
    var i :| 0 <= i < |owners| && owners[i] == o && Controls(o) && forall j :: 0 <= j < i ==> !Controls(owners[j]);
    if i > 0 {
      assert !Controls(owners[0]);
      assert owners[1..][i - 1] == o;
      assert forall j :: 0 <= j < i - 1 ==> owners[1..][j] == owners[j + 1];
      ControllingOwnerDecides(c, namespace, pod, owners[1..], o, faults, title);
    }
  }

  lemma {:induction false} UncontrolledFallsThrough(c: Cluster, namespace: string, pod: Pod, owners: seq<Owner>,
                                                    faults: Faults, title: string -> string)
    requires Uncontrolled(owners)
    ensures DetectFrom(c, namespace, pod, owners, faults, title) == DetectWithoutOwner(pod, title)
    ensures DetectBasic(pod, owners) == DetectBasic(pod, [])
    decreases |owners|
  {
    if owners != [] {
      UncontrolledFallsThrough(c, namespace, pod, owners[1..], faults, title);
    }
  }

  lemma {:induction false} ControlledOrNot(owners: seq<Owner>)
    ensures Uncontrolled(owners) || exists o :: ControlledBy(owners, o)
    decreases |owners|
  {
    if owners != [] && !Controls(owners[0]) {
      ControlledOrNot(owners[1..]);
      if o :| ControlledBy(owners[1..], o) {
        var i :| 0 <= i < |owners[1..]| && owners[1..][i] == o && Controls(o)
                 && forall j :: 0 <= j < i ==> !Controls(owners[1..][j]);
        assert owners[i + 1] == o;
        assert forall j :: 0 < j < i + 1 ==> owners[j] == owners[1..][j - 1];
        assert ControlledBy(owners, o);
      }
    } else if owners != [] {
      assert ControlledBy(owners, owners[0]);
    }
  }

  /** A ReplicaSet that belongs to a Deployment, or a Job that belongs to a CronJob, as far as can be read. */
  predicate OwnedAbove(c: Cluster, namespace: string, o: Owner, faults: Faults) {
    match TypeOf(o.kind)
    case ReplicaSetType => Promoted(c.replicaSets, Name(namespace, o.name), faults.getReplicaSet, DeploymentType) != ""
    case JobType => Promoted(c.jobs, Name(namespace, o.name), faults.getJob, CronJobType) != ""
    case _ => false
  }

  /**
   Without a controlling owner. A managed-by label decides the detail query alone, so it
   must name what the list query finds: a job without a name, or a standalone pod. A
   label that the case mapping makes empty hides the job labels too, and only an
   unlabelled pod that no node manages is left. Without such a label, a job label or
   the absence of a node is enough.
   */
  predicate LabelsAgree(pod: Pod, title: string -> string) {
    var job := JobFromLabels(pod.labels);
    if "app.kubernetes.io/managed-by" in pod.labels && pod.labels["app.kubernetes.io/managed-by"] != "" then
      var kind := title(pod.labels["app.kubernetes.io/managed-by"]);
      if kind == "" then job.None? && !NodeManaged(pod)
      else if job.Some? then kind == "Job" && job.value.name == ""
      else kind == "Standalone"
    else
      job.Some? || !NodeManaged(pod)
  }

  /**
   The list queries and the single-pod query give the same controller type and name if
   and only if the pod's controlling owner does not itself belong to a Deployment or CronJob, or the pod
   has no controlling owner and its labels and node say the same to both.
   */
  lemma ListAndDetailAgree(c: Cluster, namespace: string, pod: Pod, faults: Faults, title: string -> string)
    ensures DetectController(c, namespace, pod, faults, title) == DetectBasic(pod, pod.owners) <==>
              || (exists o :: ControlledBy(pod.owners, o) && !OwnedAbove(c, namespace, o, faults))
              || (Uncontrolled(pod.owners) && LabelsAgree(pod, title))
  {
    ControlledOrNot(pod.owners);
    if Uncontrolled(pod.owners) {
      UncontrolledFallsThrough(c, namespace, pod, pod.owners, faults, title);
    }
    forall o | ControlledBy(pod.owners, o)
      ensures DetectController(c, namespace, pod, faults, title) == DetectBasic(pod, pod.owners)
           <==> !OwnedAbove(c, namespace, o, faults)
    {
      ControllingOwnerDecides(c, namespace, pod, pod.owners, o, faults, title);
    }
  }

  // ---------------------------------------------------------------------------
  // Restarting
  // ---------------------------------------------------------------------------

  datatype Method = Rollout | Delete | Warning

  datatype RestartError =
    | PodNotFound
    | NotSupported          // the controller type cannot be restarted
    | WriteFailed
    | UnknownMethod         // the fallback of the method switch
    | NoRollout             // the fallback of the rollout switch

  datatype RestartResult = RestartResult(message: string, warning: string, how: Method, info: ControllerInfo)

  datatype Restarted = Restarted(cluster: Cluster, error: Option<RestartError>, result: Option<RestartResult>)

  predicate CanRestart(kind: ControllerType) {
    kind.DeploymentType? || kind.StatefulSetType? || kind.DaemonSetType? || kind.ReplicaSetType? || kind.StandaloneType?
  }

  function GetRestartMethod(kind: ControllerType): Method {
    match kind
    case DeploymentType | StatefulSetType => Rollout
    case DaemonSetType | ReplicaSetType => Delete
    case _ => Warning
  }

  function RolloutRestart(c: Cluster, namespace: string, info: ControllerInfo, fault: bool, now: string): Restarted {
    if !info.kind.DeploymentType? && !info.kind.StatefulSetType? then Restarted(c, Some(NoRollout), None) else
      var key := Key(if info.kind.DeploymentType? then Deployment else StatefulSet, Name(namespace, info.name));
      var patched := if fault then None else Patch(c.workloads, key, now);
      if patched.None? then Restarted(c, Some(WriteFailed), None) else
        var message := if info.kind.DeploymentType? then "Rollout restart initiated for deployment"
                       else "Rollout restart initiated for statefulset";
        Restarted(c.(workloads := patched.value), None, Some(RestartResult(message, "", Rollout, info)))
  }

  function DeletePod(c: Cluster, at: Name, fault: bool): Option<Cluster> {
    if fault || at !in c.pods then None else Some(c.(pods := c.pods - {at}))
  }

  function DeleteRestart(c: Cluster, at: Name, info: ControllerInfo, fault: bool): Restarted {
    var deleted := DeletePod(c, at, fault);
    if deleted.None? then Restarted(c, Some(WriteFailed), None) else
      Restarted(deleted.value, None,
                Some(RestartResult("Pod deleted for recreation by " + TypeText(info.kind), "", Delete, info)))
  }

  function WarningRestart(c: Cluster, at: Name, info: ControllerInfo, fault: bool): Restarted {
    var deleted := DeletePod(c, at, fault);
    if deleted.None? then Restarted(c, Some(WriteFailed), None) else
      var warning := if info.kind.StandaloneType? then "Standalone pod deleted - no controller will recreate it"
                     else "Pod deleted but will not be automatically recreated";
      Restarted(deleted.value, None,
                Some(RestartResult("Pod deleted (manual intervention may be required)", warning, Warning, info)))
  }

  function ExecuteRestart(c: Cluster, at: Name, info: ControllerInfo, fault: bool, now: string): Restarted {
    match GetRestartMethod(info.kind)
    case Rollout => RolloutRestart(c, at.namespace, info, fault, now)
    case Delete => DeleteRestart(c, at, info, fault)
    case Warning => WarningRestart(c, at, info, fault)
  }

  function RestartPod(c: Cluster, at: Name, faults: Faults, now: string, title: string -> string): Restarted {
    if faults.getPod || at !in c.pods then Restarted(c, Some(PodNotFound), None) else
      var info := DetectController(c, at.namespace, c.pods[at], faults, title);
      if !CanRestart(info.kind) then Restarted(c, Some(NotSupported), None) else
        ExecuteRestart(c, at, info, faults.write, now)
  }

  /** `c'` is `c` with one workload restarted: a new annotation and version, the same replicas. */
  ghost predicate OnlyRolledOut(c: Cluster, c': Cluster, key: Key, now: string) {
    && key in c.workloads && c'.workloads.Keys == c.workloads.Keys
    && c'.workloads[key].replicas == c.workloads[key].replicas
    && c'.workloads[key].restartedAt == now && c'.workloads[key].version > c.workloads[key].version
    && (forall k <- c.workloads :: k != key ==> c'.workloads[k] == c.workloads[k])
    && c'.pods == c.pods && c'.replicaSets == c.replicaSets && c'.jobs == c.jobs
  }

  ghost predicate OnlyDeleted(c: Cluster, c': Cluster, at: Name) {
    && at in c.pods && c'.pods.Keys == c.pods.Keys - {at}
    && (forall p <- c'.pods :: c'.pods[p] == c.pods[p])
    && c'.workloads == c.workloads && c'.replicaSets == c.replicaSets && c'.jobs == c.jobs
  }

  lemma RolloutEffect(c: Cluster, namespace: string, info: ControllerInfo, fault: bool, now: string)
    requires info.kind.DeploymentType? || info.kind.StatefulSetType?
    ensures var r := RolloutRestart(c, namespace, info, fault, now);
            if r.error.Some? then r.error == Some(WriteFailed) && r.cluster == c && r.result.None? else
              && r.result.Some? && r.result.value.info == info && r.result.value.warning == ""
              && OnlyRolledOut(c, r.cluster, Key(if info.kind.DeploymentType? then Deployment else StatefulSet,
                                                 Name(namespace, info.name)), now)
    ensures RolloutRestart(c, namespace, info, fault, now).error.None? <==>
              !fault && info.name != ""
              && Key(if info.kind.DeploymentType? then Deployment else StatefulSet,
                     Name(namespace, info.name)) in c.workloads
  {
  }

  lemma DeleteEffect(c: Cluster, at: Name, info: ControllerInfo, fault: bool)
    ensures var r := DeleteRestart(c, at, info, fault);
            if r.error.Some? then r.error == Some(WriteFailed) && r.cluster == c && r.result.None? else
              && r.result.Some? && r.result.value.info == info && r.result.value.warning == ""
              && OnlyDeleted(c, r.cluster, at)
    ensures var r := WarningRestart(c, at, info, fault);
            if r.error.Some? then r.error == Some(WriteFailed) && r.cluster == c && r.result.None? else
              && r.result.Some? && r.result.value.info == info && r.result.value.warning != ""
              && OnlyDeleted(c, r.cluster, at)
    ensures DeleteRestart(c, at, info, fault).error.None? <==> !fault && at in c.pods
    ensures WarningRestart(c, at, info, fault).error.None? <==> !fault && at in c.pods
  {
  }

  /** What a successful restart of a pod with this controller does to the cluster. */
  ghost predicate RightObject(c: Cluster, c': Cluster, at: Name, info: ControllerInfo, now: string) {
    if info.kind.DeploymentType? then OnlyRolledOut(c, c', Key(Deployment, Name(at.namespace, info.name)), now)
    else if info.kind.StatefulSetType? then OnlyRolledOut(c, c', Key(StatefulSet, Name(at.namespace, info.name)), now)
    else (info.kind.DaemonSetType? || info.kind.ReplicaSetType? || info.kind.StandaloneType?) && OnlyDeleted(c, c', at)
  }

  const RESTARTABLE := {DeploymentType, StatefulSetType, DaemonSetType, ReplicaSetType, StandaloneType}

  /** The object a restart of a pod with this controller has to write is there and has a name. */
  predicate TargetExists(c: Cluster, at: Name, info: ControllerInfo) {
    match info.kind
    case DeploymentType => info.name != "" && Key(Deployment, Name(at.namespace, info.name)) in c.workloads
    case StatefulSetType => info.name != "" && Key(StatefulSet, Name(at.namespace, info.name)) in c.workloads
    case _ => at in c.pods
  }

  lemma ExecuteEffect(c: Cluster, at: Name, info: ControllerInfo, fault: bool, now: string)
    requires CanRestart(info.kind) && at in c.pods
    ensures var r := ExecuteRestart(c, at, info, fault, now);
            if r.error.Some? then r.cluster == c && r.result.None? && r.error == Some(WriteFailed) else
              && r.result.Some? && r.result.value.info == info && RightObject(c, r.cluster, at, info, now)
              && (r.result.value.warning != "" <==> info.kind.StandaloneType?)
    ensures ExecuteRestart(c, at, info, fault, now).error.None? <==> !fault && TargetExists(c, at, info)
  {
    if GetRestartMethod(info.kind).Rollout? {
      RolloutEffect(c, at.namespace, info, fault, now);
    } else {
      DeleteEffect(c, at, info, fault);
    }
  }

  /**
   A restart succeeds exactly when the pod can be read, its controller type can be
   restarted, and the object to write exists and can be written. It writes at most one
   object, the one its controller type calls for; it fails without writing; the
   fallbacks of its two switches are never taken; and it warns exactly for a standalone
   pod.
   */
  lemma RestartWritesOneObject(c: Cluster, at: Name, faults: Faults, now: string, title: string -> string)
    ensures var r := RestartPod(c, at, faults, now, title);
            if r.error.Some? then
              r.cluster == c && r.result.None? && r.error != Some(UnknownMethod) && r.error != Some(NoRollout)
            else
              && r.result.Some? && at in c.pods
              && r.result.value.info == DetectController(c, at.namespace, c.pods[at], faults, title)
              && RightObject(c, r.cluster, at, r.result.value.info, now)
              && (r.result.value.warning != "" <==> r.result.value.info.kind.StandaloneType?)
    ensures RestartPod(c, at, faults, now, title).error.None? <==>
              && !faults.getPod && at in c.pods && !faults.write
              && var info := DetectController(c, at.namespace, c.pods[at], faults, title);
                 info.kind in RESTARTABLE && TargetExists(c, at, info)
  {
    if !faults.getPod && at in c.pods {
      var info := DetectController(c, at.namespace, c.pods[at], faults, title);
      if CanRestart(info.kind) {
        ExecuteEffect(c, at, info, faults.write, now);
      }
    }
  }

  /** What the client is told of a successful restart, by controller type. */
  function ReportFor(info: ControllerInfo): RestartResult
    requires info.kind in RESTARTABLE
  {
    match info.kind
    case DeploymentType => RestartResult("Rollout restart initiated for deployment", "", Rollout, info)
    case StatefulSetType => RestartResult("Rollout restart initiated for statefulset", "", Rollout, info)
    case DaemonSetType => RestartResult("Pod deleted for recreation by " + "DaemonSet", "", Delete, info)
    case ReplicaSetType => RestartResult("Pod deleted for recreation by " + "ReplicaSet", "", Delete, info)
    case _ => RestartResult("Pod deleted (manual intervention may be required)",
                            "Standalone pod deleted - no controller will recreate it", Warning, info)
  }

  lemma ReportOf(c: Cluster, at: Name, info: ControllerInfo, fault: bool, now: string)
    requires info.kind in RESTARTABLE && at in c.pods && !fault && TargetExists(c, at, info)
    ensures ExecuteRestart(c, at, info, fault, now).result == Some(ReportFor(info))
  {
  }

  /**
   Why a restart fails, and what a successful one reports: the method follows from what
   was written, the message names the kind of controller, and only a standalone pod is
   warned about.
   */
  lemma RestartReports(c: Cluster, at: Name, faults: Faults, now: string, title: string -> string)
    ensures var r := RestartPod(c, at, faults, now, title);
            if faults.getPod || at !in c.pods then r.error == Some(PodNotFound) else
              var info := DetectController(c, at.namespace, c.pods[at], faults, title);
              if info.kind !in RESTARTABLE then r.error == Some(NotSupported)
              else if faults.write || !TargetExists(c, at, info) then r.error == Some(WriteFailed)
              else r.error.None? && r.result == Some(ReportFor(info))
  {
    if !faults.getPod && at in c.pods {
      var info := DetectController(c, at.namespace, c.pods[at], faults, title);
      if info.kind in RESTARTABLE {
        ExecuteEffect(c, at, info, faults.write, now);
        if !faults.write && TargetExists(c, at, info) {
          ReportOf(c, at, info, faults.write, now);
        }
      }
    }
  }

  /** A pod whose controlling owner is a Job or CronJob is never touched. */
  lemma JobPodsUntouched(c: Cluster, at: Name, faults: Faults, now: string, title: string -> string, o: Owner)
    requires at in c.pods && ControlledBy(c.pods[at].owners, o)
         && (TypeOf(o.kind).JobType? || TypeOf(o.kind).CronJobType?)
    ensures RestartPod(c, at, faults, now, title).cluster == c
    ensures RestartPod(c, at, faults, now, title).error.Some?
  {
    ControllingOwnerDecides(c, at.namespace, c.pods[at], c.pods[at].owners, o, faults, title);
  }

  /**
   A pod of a Deployment's ReplicaSet is restarted by rolling out that Deployment when
   the ReplicaSet can be read, and by deleting the pod itself when it cannot.
   */
  lemma DeploymentPodNeedsReplicaSet(c: Cluster, at: Name, faults: Faults, now: string,
                                     title: string -> string, o: Owner, name: string)
    requires at in c.pods && ControlledBy(c.pods[at].owners, o) && TypeOf(o.kind).ReplicaSetType?
    requires Name(at.namespace, o.name) in c.replicaSets
    requires name != "" && ControllerOfKind(c.replicaSets[Name(at.namespace, o.name)], DeploymentType) == name
    requires Key(Deployment, Name(at.namespace, name)) in c.workloads && !faults.getPod && !faults.write
    ensures var c' := RestartPod(c, at, faults, now, title).cluster;
            if faults.getReplicaSet then OnlyDeleted(c, c', at)
            else OnlyRolledOut(c, c', Key(Deployment, Name(at.namespace, name)), now)
  {
    ControllingOwnerDecides(c, at.namespace, c.pods[at], c.pods[at].owners, o, faults, title);
  }
}
