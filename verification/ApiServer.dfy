/** The part of a Kubernetes API server that scaling and restarting touch. */
module ApiServer {
  import opened GoErrors

  type int32 = x: int | -0x8000_0000 <= x < 0x8000_0000

  datatype Kind = Deployment | StatefulSet

  datatype Name = Name(namespace: string, name: string)

  datatype Key = Key(kind: Kind, at: Name)

  /** A Deployment or StatefulSet: `Spec.Replicas`, the resource version, the restart annotation. */
  datatype Workload = Workload(replicas: Option<int32>, version: nat, restartedAt: string)

  datatype Owner = Owner(kind: string, name: string, controller: Option<bool>)

  datatype Pod = Pod(owners: seq<Owner>, labels: map<string, string>, annotations: map<string, string>,
                     nodeName: string)

  datatype Cluster = Cluster(
    pods: map<Name, Pod>,
    workloads: map<Key, Workload>,
    replicaSets: map<Name, seq<Owner>>,
    jobs: map<Name, seq<Owner>>)

  /** A nil replica count reads as zero when scaling. */
  function Count(w: Workload): int32 {
    if w.replicas.Some? then w.replicas.value else 0
  }

  /** `Update` with the version that was read: rejected when the object is gone or has moved on. */
  function Update(ws: map<Key, Workload>, key: Key, read: Workload, replicas: int32): Option<map<Key, Workload>> {
    if key !in ws || ws[key].version != read.version then None
    else Some(ws[key := read.(replicas := Some(replicas), version := read.version + 1)])
  }

  /** The rollout-restart `Patch`: sets the annotation and leaves the replica count alone. */
  function Patch(ws: map<Key, Workload>, key: Key, restartedAt: string): Option<map<Key, Workload>> {
    if key !in ws || key.at.name == "" then None
    else Some(ws[key := ws[key].(restartedAt := restartedAt, version := ws[key].version + 1)])
  }
}
