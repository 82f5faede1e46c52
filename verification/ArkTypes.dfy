/** The ArkCluster API types the controllers read and write, cut down to the fields that decide anything. */
module ArkTypes {

  datatype Option<+T> = None | Some(value: T)

  /** The values of the ActiveVolume and LastGoodVolume strings: empty, the two the operator writes,
      and everything else a hand-edited status could hold. */
  datatype Volume = Unset | ServerA | ServerB | Other(name: string)

  datatype Side = SideA | SideB

  datatype MapPhase =
    | NoPhase
    | Pending
    | Provisioning
    | InstallingActive
    | InstallingInactive
    | Running
    | DrainingActive
    | Swapping
    | MapFailed

  datatype ClusterPhase = ClusterPending | Initializing | ClusterRunning | Updating | Degraded

  datatype ConditionType = PodReady | InstallSucceeded | RollbackOccurred | OtherCondition(name: string)

  datatype Condition = Condition(kind: ConditionType, status: bool, reason: string, since: int)

  datatype MapStatus = MapStatus(
    id: string,
    phase: MapPhase,
    active: Volume,
    lastGood: Volume,
    deadline: Option<int>,
    rcon: string,
    conditions: seq<Condition>)

  datatype MapSpec = MapSpec(id: string, mods: seq<int>)

  /** UnsetRollout is the empty string, which the controller reads as OneAtATime. */
  datatype Rollout = UnsetRollout | OneAtATime | Parallel

  datatype Spec = Spec(
    image: string,
    maps: seq<MapSpec>,
    mods: seq<int>,
    gamePortStart: int,
    rconPortStart: int,
    launchRev: string,
    modsChanged: string,
    rollout: Rollout,
    grace: int)

  datatype Summary = Summary(total: int, ready: int, phase: ClusterPhase)

  /** The custom resource. `rev` is its resource version. */
  datatype Cluster = Cluster(spec: Spec, status: seq<MapStatus>, summary: Summary, rev: int)

  function VolumeSide(v: Volume): Side {
    if v == ServerB then SideB else SideA
  }

  function OtherVolume(v: Volume): Volume {
    if v == ServerA then ServerB else ServerA
  }

  /** The volume a map runs on: the controller fills in server-a when none is recorded. */
  function Defaulted(v: Volume): Volume {
    if v == Unset then ServerA else v
  }

  predicate IsServer(v: Volume) {
    v == ServerA || v == ServerB
  }

  predicate InFlight(p: MapPhase) {
    p == DrainingActive || p == Swapping || p == InstallingInactive
  }
}
