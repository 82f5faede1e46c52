/** What the operator's API calls read and change, what the environment may do to it, and the log of what happened. */
module World {
  import opened ArkTypes
  import Slugs
  import Drift

  /** A server pod. Its API name is fixed by `slug` and `hash`. */
  datatype Pod = Pod(slug: string, hash: string, volume: Volume, terminating: bool, ready: bool, crashing: bool)

  datatype JobConditionType = Complete | JobFailed | OtherJobCondition
  datatype JobCondition = JobCondition(kind: JobConditionType, status: bool)

  /** The parts of an init Job's name; `image` stands for its injective digest. */
  datatype JobKey = JobKey(slug: string, side: Side, image: string)

  datatype Verdict = JobMissing | JobRunning | JobSucceeded | JobGaveUp

  datatype WriteKind = DrainStart(since: int, grace: int) | Swap | Rollback | Final

  datatype DeleteReason = ByRoll | ByRollback | Orphaned

  datatype Event =
    | Began
    | JobSeen(id: string, key: JobKey, verdict: Verdict, rolling: bool, gated: bool, start: seq<MapStatus>,
              at: int)
    | Installed(id: string, key: JobKey, mounted: bool)
    | Wrote(kind: WriteKind, id: string, at: int, stored: bool, gated: bool,
            start: seq<MapStatus>, before: Cluster, after: Cluster)
    | Announced(id: string)
    | SavedAndExited(id: string)
    | Deleted(why: DeleteReason, id: string, at: int, applied: bool)
    | Created(id: string, key: JobKey, volume: Volume, recorded: Volume)
    | OrphansUnlisted

  /** `hash` is the pod-template hash function; nothing but its being a function is used unless said so. */
  datatype World = World(
    hash: Drift.HashInput -> string,
    cluster: Cluster,
    pods: seq<Pod>,
    jobs: map<JobKey, seq<JobCondition>>,
    iniRevs: map<string, string>,
    secretsRev: string,
    addresses: map<string, string>,
    clock: int,
    log: seq<Event>)

  const DEFAULT_IMAGE := "docker.io/sknnr/ark-ascended-server:latest"

  function InstallImage(spec: Spec): string {
    if spec.image == "" then DEFAULT_IMAGE else spec.image
  }

  function Job(spec: Spec, id: string, side: Side): JobKey {
    JobKey(Slugs.MapSlug(id), side, InstallImage(spec))
  }

  /* ---------- pods ---------- */

  predicate SameName(p: Pod, q: Pod) {
    p.slug == q.slug && p.hash == q.hash
  }

  predicate Live(p: Pod, slug: string) {
    !p.terminating && p.slug == slug
  }

  predicate MountedLive(pods: seq<Pod>, slug: string, side: Side) {
    exists i :: 0 <= i < |pods| && Live(pods[i], slug) && VolumeSide(pods[i].volume) == side
  }

  predicate Named(pods: seq<Pod>, slug: string, hash: string) {
    exists i :: 0 <= i < |pods| && pods[i].slug == slug && pods[i].hash == hash
  }

  /** Delete by name: the pod stays listed with a deletion timestamp until the kubelet is done. */
  function DeletePod(pods: seq<Pod>, slug: string, hash: string): (r: seq<Pod>)
    ensures |r| == |pods|
    ensures forall i :: 0 <= i < |pods| ==>
      r[i] == if pods[i].slug == slug && pods[i].hash == hash then pods[i].(terminating := true) else pods[i]
  {
    seq(|pods|, i requires 0 <= i < |pods| =>
      if pods[i].slug == slug && pods[i].hash == hash then pods[i].(terminating := true) else pods[i])
  }

  /** q is p some time later. */
  predicate SamePod(p: Pod, q: Pod) {
    SameName(p, q) && p.volume == q.volume && (p.terminating ==> q.terminating)
  }

  predicate UniqueNames(pods: seq<Pod>) {
    forall i, j :: 0 <= i < j < |pods| ==> !SameName(pods[i], pods[j])
  }

  /* ---------- the environment ---------- */

  /** Everything the operator does not do: spec edits and the mod controller's status and annotation writes
      (each raises the resource version and leaves the per-map statuses alone), Jobs coming, progressing and
      being collected, pods becoming ready, crashing, terminating, vanishing and being listed in another order,
      edits of ConfigMaps, Secrets and Services, and time. It never creates a server pod. */
  predicate EnvMay(w: World, v: World) {
    && v.log == w.log
    && v.clock >= w.clock
    && v.cluster.status == w.cluster.status
    && (v.cluster == w.cluster || v.cluster.rev > w.cluster.rev)
    && UniqueNames(v.pods)
    && (forall q :: q in v.pods ==> exists p :: p in w.pods && SamePod(p, q))
  }
}
