/** internal/controller/arkcluster_controller.go as a step system. A step makes one API call of the running
    Reconcile pass and the in-memory computation up to its next call; between any two steps the environment may
    move and the operator may die, which loses the pass and nothing else. */
module Operator {
  import opened ArkTypes
  import opened Statuses
  import opened World
  import Slugs
  import Drift

  /** How the API server answers. Lost: carried out, but the caller sees an error. Clash: the name is taken. */
  datatype Outcome = Ok | Fail | Lost | Clash

  datatype Label = Env(world: World) | Act(outcome: Outcome) | Cut

  /** The next API call of the pass; `pod` is the server pod found for the map it is at. */
  datatype Call =
    | EnsureCluster
    | EnsureMap
    | ReadRevisions
    | ListPods(hash: string)
    | ReadAddress(hash: string, found: Option<Pod>)
    | FirstJob(hash: string)
    | FirstInstall
    | FirstCreate(hash: string)
    | RollbackPersist(pod: Pod)
    | RollbackDelete(pod: Pod)
    | RollJob(pod: Pod)
    | RollInstall
    | DrainPersist(since: int)
    | Announce
    | SaveAndExit(pod: Pod)
    | SwapPersist(pod: Pod)
    | SwapDelete(pod: Pod)
    | Rehash
    | SwapCreate(hash: string)
    | ListOrphans
    | DeleteOrphan(todo: seq<Pod>)
    | FinalWrite

  /** The pass in memory: its next call, the index in spec of the map it is at, its copy of the cluster, the
      mid-flight map and the statuses it began with. */
  datatype Pass = Pass(call: Call, at: nat, cluster: Cluster, busy: bool, gate: string, start: seq<MapStatus>)

  datatype State = State(w: World, pass: Option<Pass>)

  /* ---------- pure parts of the pass ---------- */

  function FirstInFlight(maps: seq<MapStatus>): string {
    if maps == [] then ""
    else if InFlight(maps[0].phase) then maps[0].id
    else FirstInFlight(maps[1..])
  }

  function Gate(c: Cluster): string {
    if c.spec.rollout == Parallel then "" else FirstInFlight(c.status)
  }

  function VolumeName(v: Volume): string {
    match v
    case Unset => ""
    case ServerA => "server-a"
    case ServerB => "server-b"
    case Other(name) => name
  }

  function EffectiveMods(spec: Spec, m: MapSpec): seq<int> {
    if m.mods != [] then m.mods else spec.mods
  }

  /** The inputs computePodHash gathers. */
  function Template(spec: Spec, i: nat, volume: Volume, iniRev: string, secretsRev: string): Drift.HashInput
    requires i < |spec.maps|
  {
    Drift.HashInput(
      spec.image, EffectiveMods(spec, spec.maps[i]), spec.gamePortStart + i, spec.rconPortStart + i, secretsRev,
      iniRev + (if spec.modsChanged != "" then "|mods=" + spec.modsChanged else ""),
      spec.launchRev, VolumeName(volume))
  }

  /** computePodHash; a revision that cannot be read counts as empty. */
  function ReadHash(w: World, o: Outcome, spec: Spec, i: nat, volume: Volume): string
    requires i < |spec.maps|
  {
    var id := spec.maps[i].id;
    if o == Ok then w.hash(Template(spec, i, volume, if id in w.iniRevs then w.iniRevs[id] else "|", w.secretsRev))
    else w.hash(Template(spec, i, volume, "|", ""))
  }

  function FirstWith(pods: seq<Pod>, slug: string, hash: Option<string>): (r: Option<Pod>)
    ensures r.Some? ==> r.value in pods && Live(r.value, slug) && (hash.Some? ==> r.value.hash == hash.value)
    ensures r.None? ==> forall p :: p in pods && Live(p, slug) ==> hash.Some? && p.hash != hash.value
  {
    if pods == [] then None
    else if Live(pods[0], slug) && (hash.None? || pods[0].hash == hash.value) then Some(pods[0])
    else FirstWith(pods[1..], slug, hash)
  }

  /** findActivePod over the pods labelled with the map's slug. */
  function FindActivePod(pods: seq<Pod>, slug: string, hash: string): (r: Option<Pod>)
    ensures r.Some? ==> r.value in pods && Live(r.value, slug)
    ensures r.None? <==> forall p :: p in pods ==> !Live(p, slug)
  {
    var wanted := FirstWith(pods, slug, Some(hash));
    if wanted.Some? then wanted else FirstWith(pods, slug, None)
  }

  /** InitJobStatus: the first decisive condition wins. */
  function JobVerdict(conditions: seq<JobCondition>): (v: Verdict)
    ensures v != JobMissing
  {
    if conditions == [] then JobRunning
    else if conditions[0] == JobCondition(Complete, true) then JobSucceeded
    else if conditions[0] == JobCondition(JobFailed, true) then JobGaveUp
    else JobVerdict(conditions[1..])
  }

  function ReadJob(w: World, o: Outcome, key: JobKey): Verdict {
    if o != Ok then JobGaveUp
    else if key !in w.jobs then JobMissing
    else JobVerdict(w.jobs[key])
  }

  /* ---------- status edits ---------- */

  /** SetMapCondition on one entry. */
  function SetCondition(conditions: seq<Condition>, kind: ConditionType, status: bool, reason: string,
      now: int): seq<Condition>
  {
    if conditions == [] then [Condition(kind, status, reason, now)]
    else if conditions[0].kind == kind then
      [if conditions[0].status != status then Condition(kind, status, reason, now)
       else conditions[0].(reason := reason)] + conditions[1..]
    else [conditions[0]] + SetCondition(conditions[1..], kind, status, reason, now)
  }

  function WithCondition(e: MapStatus, kind: ConditionType, status: bool, reason: string, now: int): MapStatus {
    e.(conditions := SetCondition(e.conditions, kind, status, reason, now))
  }

  function AtReady(e: MapStatus, now: int): MapStatus {
    WithCondition(e.(phase := Running, lastGood := e.active), PodReady, true, "RCONReachable", now)
  }

  function AtSwap(e: MapStatus): MapStatus {
    e.(active := OtherVolume(e.active), deadline := None, phase := Swapping)
  }

  function AtRollback(e: MapStatus, now: int): MapStatus {
    WithCondition(e.(active := e.lastGood), RollbackOccurred, true, "PodCrashLooping", now)
  }

  function Grace(spec: Spec): int {
    if spec.grace < 0 then 0 else spec.grace
  }

  function AtDrainStart(e: MapStatus, since: int, spec: Spec): MapStatus {
    e.(deadline := Some(since + Grace(spec)), phase := DrainingActive)
  }

  predicate ShouldRollBack(e: MapStatus, pod: Pod) {
    pod.crashing && e.lastGood != Unset && e.lastGood != e.active
  }

  /* ---------- the end of a pass ---------- */

  predicate Kept(spec: Spec, slug: string) {
    exists i :: 0 <= i < |spec.maps| && Slugs.MapSlug(spec.maps[i].id) == slug
  }

  function Prune(maps: seq<MapStatus>, spec: Spec): (r: seq<MapStatus>) {
    if maps == [] then []
    else if Kept(spec, Slugs.MapSlug(maps[0].id)) then [maps[0]] + Prune(maps[1..], spec)
    else Prune(maps[1..], spec)
  }

  function CountReady(maps: seq<MapStatus>): nat {
    if maps == [] then 0 else (if maps[0].phase == Running then 1 else 0) + CountReady(maps[1..])
  }

  /** The pods the orphan collector deletes: those labelled with a slug no map in spec has. */
  function Orphans(pods: seq<Pod>, spec: Spec): (r: seq<Pod>)
    ensures forall p :: p in r <==> p in pods && p.slug != "" && !Kept(spec, p.slug)
  {
    if pods == [] then []
    else if pods[0].slug != "" && !Kept(spec, pods[0].slug) then [pods[0]] + Orphans(pods[1..], spec)
    else Orphans(pods[1..], spec)
  }

  function Finished(c: Cluster): Cluster {
    var maps := Prune(c.status, c.spec);
    c.(status := maps, summary := Summary(|c.spec.maps|, CountReady(maps), AggregatePhase(maps)))
  }

  /* ---------- the pass in memory ---------- */

  predicate IsMapCall(call: Call) {
    !call.EnsureCluster? && !call.ListOrphans? && !call.DeleteOrphan? && !call.FinalWrite?
  }

  /** A pass whose next call names a map in its spec. */
  predicate InPass(s: State) {
    && s.pass.Some?
    && (IsMapCall(s.pass.value.call) ==> AtMap(s))
    && (s.pass.value.call.DeleteOrphan? ==> s.pass.value.call.todo != [])
    && (EndsPass(s.pass.value.call) ==> |s.pass.value.cluster.spec.maps| <= s.pass.value.at)
  }

  /** Calls made once every map has been seen to. */
  predicate EndsPass(call: Call) {
    call.ListOrphans? || call.DeleteOrphan? || call.FinalWrite?
  }

  predicate Wf(s: State) {
    s.pass.Some? ==> InPass(s)
  }

  predicate AtMap(s: State) {
    s.pass.Some? && s.pass.value.at < |s.pass.value.cluster.spec.maps|
  }

  function Id(s: State): string
    requires AtMap(s)
  {
    s.pass.value.cluster.spec.maps[s.pass.value.at].id
  }

  function Slug(s: State): string
    requires AtMap(s)
  {
    Slugs.MapSlug(Id(s))
  }

  /** The status entry of the map the pass is at, as the pass has it in memory. */
  function Mine(s: State): MapStatus
    requires AtMap(s)
  {
    Entry(s.pass.value.cluster.status, Id(s))
  }

  function Log(s: State, e: Event): State {
    s.(w := s.w.(log := s.w.log + [e]))
  }

  function Goto(s: State, call: Call): (t: State)
    requires s.pass.Some?
    ensures t.w == s.w && t.pass == Some(s.pass.value.(call := call))
  {
    s.(pass := Some(s.pass.value.(call := call)))
  }

  function GotoMap(s: State, i: nat): State
    requires s.pass.Some?
  {
    var p := s.pass.value;
    s.(pass := Some(p.(call := if i < |p.cluster.spec.maps| then EnsureMap else ListOrphans, at := i)))
  }

  /** The map is done for this pass. */
  function Leave(s: State): (t: State)
    requires s.pass.Some?
    ensures InPass(t) && StartsMap(t.pass.value.call) && t.pass.value.at == s.pass.value.at + 1 && t.w == s.w
  {
    GotoMap(s, s.pass.value.at + 1)
  }

  /** The pass returns an error, or the operator dies: the memory of the pass is gone. */
  function Abandon(s: State): State {
    s.(pass := None)
  }

  function Busy(s: State): State
    requires s.pass.Some?
  {
    s.(pass := Some(s.pass.value.(busy := true)))
  }

  function Edit(s: State, e: MapStatus): (t: State)
    requires s.pass.Some?
    ensures t.w == s.w && t.pass.Some?
    ensures t.pass.value.call == s.pass.value.call && t.pass.value.at == s.pass.value.at
    ensures t.pass.value.cluster.spec == s.pass.value.cluster.spec
  {
    var p := s.pass.value;
    s.(pass := Some(p.(cluster := p.cluster.(status := Put(p.cluster.status, e)))))
  }

  predicate StartsMap(call: Call) {
    call.EnsureMap? || call.ListOrphans?
  }

  predicate EndsMap(call: Call) {
    call.FirstInstall? || call.FirstCreate? || call.RollbackDelete? || call.RollInstall? || call.Announce?
    || call.SwapCreate?
  }

  /** Which call can come after which. */
  predicate Follows(c: Call, d: Call) {
    && (c.EnsureCluster? || EndsMap(c) ==> StartsMap(d))
    && (c.EnsureMap? ==> d.ReadRevisions?)
    && (c.ReadRevisions? ==> d.ListPods?)
    && (c.ListPods? ==> d.ReadAddress?)
    && (c.ReadAddress? ==> d.FirstJob? || d.RollbackPersist? || d.RollJob? || StartsMap(d))
    && (c.FirstJob? ==> d.FirstInstall? || d.FirstCreate? || StartsMap(d))
    && (c.RollbackPersist? ==> d.RollbackDelete?)
    && (c.RollJob? ==> d.RollInstall? || d.DrainPersist? || d.SaveAndExit? || d.SwapPersist? || StartsMap(d))
    && (c.DrainPersist? ==> d.Announce? || StartsMap(d))
    && (c.SaveAndExit? ==> d.SwapPersist?)
    && (c.SwapPersist? ==> d.SwapDelete?)
    && (c.SwapDelete? ==> d.Rehash?)
    && (c.Rehash? ==> d.SwapCreate?)
    && (c.ListOrphans? || c.DeleteOrphan? ==> d.DeleteOrphan? || d.FinalWrite?)
    && !c.FinalWrite?
  }

  predicate Moves(s: State, t: State) {
    s.pass.Some? && t.pass.Some? ==>
      Follows(s.pass.value.call, t.pass.value.call)
      && t.pass.value.at == (if !StartsMap(t.pass.value.call) then s.pass.value.at
                             else if s.pass.value.call.EnsureCluster? then 0
                             else s.pass.value.at + 1)
  }

  /* ---------- writing calls ---------- */

  /** At most one event per step, and none is ever lost. */
  predicate LogGrows(s: State, t: State) {
    |s.w.log| <= |t.w.log| <= |s.w.log| + 1 && t.w.log[..|s.w.log|] == s.w.log
  }

  /** Which event which call can report. */
  predicate Speaks(call: Call, e: Event) {
    && (e.Began? ==> false)
    && (e.JobSeen? ==> if e.rolling then call.RollJob? else call.FirstJob?)
    && (e.Installed? ==> call.FirstInstall? || call.RollInstall?)
    && (e.Created? ==> call.FirstCreate? || call.SwapCreate?)
    && (e.Announced? ==> call.Announce?)
    && (e.SavedAndExited? ==> call.SaveAndExit?)
    && (e.OrphansUnlisted? ==> call.ListOrphans?)
    && (e.Deleted? ==>
          match e.why
          case ByRoll => call.SwapDelete?
          case ByRollback => call.RollbackDelete?
          case Orphaned => call.DeleteOrphan?)
    && (e.Wrote? ==>
          match e.kind
          case DrainStart(_, _) => call.DrainPersist?
          case Swap => call.SwapPersist?
          case Rollback => call.RollbackPersist?
          case Final => call.FinalWrite?)
  }

  predicate Reports(s: State, t: State) {
    s.pass.Some? && |t.w.log| > |s.w.log| ==> Speaks(s.pass.value.call, t.w.log[|s.w.log|])
  }

  /** A status write under optimistic concurrency. A conflict is swallowed; on success the copy in memory
      takes the new resource version. */
  function Write(s: State, o: Outcome, kind: WriteKind, id: string): (t: State)
    requires s.pass.Some?
    ensures LogGrows(s, t)
    ensures |t.w.log| > |s.w.log| ==>
      var e := t.w.log[|s.w.log|]; e.Wrote? && e.kind == kind && e.id == id && e.at == s.w.clock
    ensures t.w.cluster.spec == s.w.cluster.spec && t.w.pods == s.w.pods
    ensures t.pass.Some? ==> t.pass.value.cluster.spec == s.pass.value.cluster.spec
  {
    var p := s.pass.value;
    var gated := p.cluster.spec.rollout != Parallel;
    var before := s.w.cluster;
    if o == Fail || o == Clash then Abandon(s)
    else if p.cluster.rev != before.rev then
      Log(s, Wrote(kind, id, s.w.clock, false, gated, p.start, before, before))
    else
      var after := before.(status := p.cluster.status, summary := p.cluster.summary, rev := before.rev + 1);
      var write := Wrote(kind, id, s.w.clock, true, gated, p.start, before, after);
      var w := s.w.(cluster := after, log := s.w.log + [write]);
      if o == Lost then State(w, None) else State(w, Some(p.(cluster := p.cluster.(rev := after.rev))))
  }

  function SeenVerdict(s: State, o: Outcome, side: Side): Verdict
    requires AtMap(s)
  {
    ReadJob(s.w, o, Job(s.pass.value.cluster.spec, Id(s), side))
  }

  function SeeJob(s: State, o: Outcome, side: Side, rolling: bool): (t: State)
    requires AtMap(s)
    ensures t.pass == s.pass && t.w.pods == s.w.pods
  {
    var key := Job(s.pass.value.cluster.spec, Id(s), side);
    var gated := s.pass.value.cluster.spec.rollout != Parallel;
    Log(s, JobSeen(Id(s), key, ReadJob(s.w, o, key), rolling, gated, s.pass.value.start, s.w.clock))
  }

  /** EnsureInitJob, then the phase it leaves behind. A taken name counts as already there. */
  function Install(s: State, o: Outcome, side: Side, phase: MapPhase): (t: State)
    requires AtMap(s)
    ensures t.pass.Some? ==> InPass(t) && StartsMap(t.pass.value.call) && t.pass.value.at == s.pass.value.at + 1
    ensures LogGrows(s, t) && t.w.pods == s.w.pods
  {
    var key := Job(s.pass.value.cluster.spec, Id(s), side);
    var asked := Log(s, Installed(Id(s), key, MountedLive(s.w.pods, key.slug, side)));
    var t := if key in s.w.jobs || o == Fail || o == Clash then asked
             else asked.(w := asked.w.(jobs := asked.w.jobs[key := []]));
    if o == Fail || o == Lost then Abandon(t)
    else Leave(Edit(t, Mine(s).(phase := phase)))
  }

  function CreatedEvent(s: State): (e: Event)
    requires AtMap(s)
    ensures e.Created?
  {
    var volume := Mine(s).active;
    Created(Id(s), Job(s.pass.value.cluster.spec, Id(s), VolumeSide(volume)), volume,
            Defaulted(Entry(s.w.cluster.status, Id(s)).active))
  }

  function NewPod(s: State, hash: string): Pod
    requires AtMap(s)
  {
    Pod(Slugs.MapSlug(Id(s)), hash, Mine(s).active, false, false, false)
  }

  /** ensurePodForMap on the volume recorded in memory. */
  function Create(s: State, o: Outcome, hash: string): (t: State)
    requires AtMap(s)
    ensures t.pass == s.pass || t.pass == None
    ensures LogGrows(s, t) && (|t.w.log| > |s.w.log| ==> t.w.log[|s.w.log|].Created?)
  {
    var pod := NewPod(s, hash);
    var t := if (o == Ok || o == Lost) && !Named(s.w.pods, pod.slug, hash)
             then Log(s.(w := s.w.(pods := s.w.pods + [pod])), CreatedEvent(s))
             else s;
    if o == Fail || o == Lost then Abandon(t) else t
  }

  /** Deletes a pod by name; the error is ignored. */
  function Delete(s: State, o: Outcome, why: DeleteReason, id: string, pod: Pod): (t: State)
    ensures t.pass == s.pass && LogGrows(s, t)
    ensures |t.w.log| == |s.w.log| + 1 && t.w.log[|s.w.log|] == Deleted(why, id, s.w.clock, o == Ok || o == Lost)
  {
    var applied := o == Ok || o == Lost;
    var t := Log(s, Deleted(why, id, s.w.clock, applied));
    if applied then t.(w := t.w.(pods := DeletePod(t.w.pods, pod.slug, pod.hash))) else t
  }

  /* ---------- reconcileMap up to the dispatch ---------- */

  function ActPrepare(s: State, o: Outcome): (t: State)
    requires InPass(s)
      && (s.pass.value.call.EnsureMap? || s.pass.value.call.ReadRevisions? || s.pass.value.call.ListPods?)
    ensures Wf(t) && Moves(s, t) && LogGrows(s, t)
    ensures Reports(s, t) && t.w.pods == s.w.pods
  {
    var p := s.pass.value;
    match p.call
    case EnsureMap =>
      if o == Ok then Goto(Edit(s, Mine(s).(active := Defaulted(Mine(s).active))), ReadRevisions) else Abandon(s)
    case ReadRevisions =>
      Goto(s, ListPods(ReadHash(s.w, o, p.cluster.spec, p.at, Mine(s).active)))
    case ListPods(hash) =>
      if o == Ok then Goto(s, ReadAddress(hash, FindActivePod(s.w.pods, Slugs.MapSlug(Id(s)), hash))) else Abandon(s)
  }

  function Addressed(e: MapStatus, w: World, o: Outcome): MapStatus {
    if o == Ok && e.id in w.addresses then e.(rcon := w.addresses[e.id]) else e
  }

  /** refreshAddress, then the choice between firstStart, steady, hold-back and rollUpdate. */
  function ActDispatch(s0: State, o: Outcome): (t: State)
    requires InPass(s0) && s0.pass.value.call.ReadAddress?
    ensures Wf(t) && Moves(s0, t) && LogGrows(s0, t)
    ensures Reports(s0, t) && t.w.pods == s0.w.pods
  {
    var ReadAddress(hash, found) := s0.pass.value.call;
    var gate := s0.pass.value.gate;
    var s := Edit(s0, Addressed(Mine(s0), s0.w, o));
    if found.None? then Goto(s, FirstJob(hash))
    else if found.value.hash == hash then Steady(s, found.value)
    else if gate != "" && gate != Id(s) then Leave(Busy(s))
    else Goto(Busy(s), RollJob(found.value))
  }

  function Steady(s: State, pod: Pod): State
    requires AtMap(s)
  {
    var e := Mine(s);
    if ShouldRollBack(e, pod) then Goto(Busy(s), RollbackPersist(pod))
    else if pod.crashing then Leave(Edit(Busy(s), WithCondition(e, PodReady, false, "PodCrashLooping", s.w.clock)))
    else if pod.ready then Leave(Edit(s, AtReady(e, s.w.clock)))
    else Leave(Edit(Busy(s), WithCondition(e, PodReady, false, "PodNotReady", s.w.clock)))
  }

  /* ---------- firstStart ---------- */

  function ActFirst(s: State, o: Outcome): (t: State)
    requires InPass(s)
      && (s.pass.value.call.FirstJob? || s.pass.value.call.FirstInstall? || s.pass.value.call.FirstCreate?)
    ensures Wf(t) && Moves(s, t) && LogGrows(s, t)
    ensures Reports(s, t) && (!s.pass.value.call.FirstCreate? ==> t.w.pods == s.w.pods)
  {
    match s.pass.value.call
    case FirstJob(hash) => AskFirst(s, o, hash)
    case FirstInstall => InstallFirst(s, o)
    case FirstCreate(hash) => FirstPod(s, o, hash)
  }

  function AskFirst(s: State, o: Outcome, hash: string): (t: State)
    requires InPass(s) && s.pass.value.call.FirstJob?
    ensures Wf(t) && Moves(s, t) && LogGrows(s, t)
    ensures Reports(s, t) && t.w.pods == s.w.pods
  {
    var side := VolumeSide(Mine(s).active);
    FirstStart(SeeJob(s, o, side, false), SeenVerdict(s, o, side), hash)
  }

  function InstallFirst(s: State, o: Outcome): (t: State)
    requires InPass(s) && s.pass.value.call.FirstInstall?
    ensures Wf(t) && Moves(s, t) && LogGrows(s, t)
    ensures Reports(s, t) && t.w.pods == s.w.pods
  {
    Install(Busy(s), o, VolumeSide(Mine(s).active), InstallingActive)
  }

  function FirstPod(s: State, o: Outcome, hash: string): (t: State)
    requires InPass(s) && s.pass.value.call.FirstCreate?
    ensures Wf(t) && Moves(s, t) && LogGrows(s, t)
    ensures Reports(s, t)
  {
    var t := Create(Busy(s), o, hash);
    if t.pass.None? then t else Leave(Edit(t, Mine(s).(phase := Provisioning)))
  }

  function FirstStart(s: State, verdict: Verdict, hash: string): (t: State)
    requires AtMap(s) && s.pass.value.call.FirstJob?
    ensures Wf(t) && Moves(s, t) && t.w == s.w
  {
    match verdict
    case JobMissing => Goto(s, FirstInstall)
    case JobRunning => Leave(Edit(Busy(s), Mine(s).(phase := InstallingActive)))
    case JobGaveUp => Leave(Edit(s, AtInstallFailure(Mine(s), s.w.clock)))
    case JobSucceeded => Goto(s, FirstCreate(hash))
  }

  function AtInstallFailure(e: MapStatus, now: int): MapStatus {
    WithCondition(e.(phase := MapFailed), InstallSucceeded, false, "InstallJobFailed", now)
  }

  /* ---------- rollback ---------- */

  function ActRollback(s: State, o: Outcome): (t: State)
    requires InPass(s) && (s.pass.value.call.RollbackPersist? || s.pass.value.call.RollbackDelete?)
    ensures Wf(t) && Moves(s, t) && LogGrows(s, t)
    ensures Reports(s, t) && (s.pass.value.call.RollbackPersist? ==> t.w.pods == s.w.pods)
  {
    match s.pass.value.call
    case RollbackPersist(pod) => (
      var t := Write(Edit(s, AtRollback(Mine(s), s.w.clock)), o, Rollback, Id(s));
      if t.pass.None? then t else Goto(t, RollbackDelete(pod)))
    case RollbackDelete(pod) => Leave(Delete(s, o, ByRollback, Id(s), pod))
  }

  /* ---------- rollUpdate ---------- */

  function ActRoll(s: State, o: Outcome): (t: State)
    requires InPass(s) && (s.pass.value.call.RollJob? || s.pass.value.call.RollInstall?)
    ensures Wf(t) && Moves(s, t) && LogGrows(s, t)
    ensures Reports(s, t) && t.w.pods == s.w.pods
  {
    match s.pass.value.call
    case RollJob(pod) => AskRoll(s, o, pod)
    case RollInstall => InstallOther(s, o)
  }

  function AskRoll(s: State, o: Outcome, pod: Pod): (t: State)
    requires InPass(s) && s.pass.value.call.RollJob?
    ensures Wf(t) && Moves(s, t) && LogGrows(s, t)
    ensures Reports(s, t) && t.w.pods == s.w.pods
  {
    var side := VolumeSide(OtherVolume(Mine(s).active));
    RollUpdate(SeeJob(s, o, side, true), SeenVerdict(s, o, side), pod)
  }

  function InstallOther(s: State, o: Outcome): (t: State)
    requires InPass(s) && s.pass.value.call.RollInstall?
    ensures Wf(t) && Moves(s, t) && LogGrows(s, t)
    ensures Reports(s, t) && t.w.pods == s.w.pods
  {
    Install(s, o, VolumeSide(OtherVolume(Mine(s).active)), InstallingInactive)
  }

  function RollUpdate(s: State, verdict: Verdict, pod: Pod): (t: State)
    requires AtMap(s) && s.pass.value.call.RollJob?
    ensures Wf(t) && Moves(s, t) && t.w == s.w
  {
    match verdict
    case JobMissing => Goto(s, RollInstall)
    case JobRunning => Leave(Edit(s, Mine(s).(phase := InstallingInactive)))
    case JobGaveUp => Leave(Edit(s, AtInstallFailure(Mine(s), s.w.clock)))
    case JobSucceeded => DrainOrSwap(s, pod)
  }

  /** Step B and the start of step C: the stored deadline alone says how far the drain is. */
  function DrainOrSwap(s: State, pod: Pod): (t: State)
    requires AtMap(s) && s.pass.value.call.RollJob?
    ensures Wf(t) && Moves(s, t) && t.w == s.w
  {
    var e := Mine(s);
    if e.deadline.None? then Goto(s, DrainPersist(s.w.clock))
    else if s.w.clock < e.deadline.value then Leave(Edit(s, e.(phase := DrainingActive)))
    else if e.rcon != "" then Goto(s, SaveAndExit(pod))
    else Goto(s, SwapPersist(pod))
  }

  function ActDrain(s: State, o: Outcome): (t: State)
    requires InPass(s) && (s.pass.value.call.DrainPersist? || s.pass.value.call.Announce?)
    ensures Wf(t) && Moves(s, t) && LogGrows(s, t)
    ensures Reports(s, t) && t.w.pods == s.w.pods
  {
    var spec := s.pass.value.cluster.spec;
    match s.pass.value.call
    case DrainPersist(since) => (
      var t := Write(Edit(s, AtDrainStart(Mine(s), since, spec)), o, DrainStart(since, Grace(spec)), Id(s));
      if t.pass.None? then t
      else if Grace(spec) > 0 && Mine(s).rcon != "" then Goto(t, Announce)
      else Leave(t))
    case Announce => Leave(Log(s, Announced(Id(s))))
  }

  function ActSwap(s: State, o: Outcome): (t: State)
    requires InPass(s) && (s.pass.value.call.SaveAndExit? || s.pass.value.call.SwapPersist?)
    ensures Wf(t) && Moves(s, t) && LogGrows(s, t)
    ensures Reports(s, t) && t.w.pods == s.w.pods
  {
    match s.pass.value.call
    case SaveAndExit(pod) => Goto(Log(s, SavedAndExited(Id(s))), SwapPersist(pod))
    case SwapPersist(pod) => (
      var t := Write(Edit(s, AtSwap(Mine(s))), o, Swap, Id(s));
      if t.pass.None? then t else Goto(t, SwapDelete(pod)))
  }

  /** The world actions behind a swap. */
  function ActSwapped(s: State, o: Outcome): (t: State)
    requires InPass(s) && (s.pass.value.call.SwapDelete? || s.pass.value.call.Rehash? || s.pass.value.call.SwapCreate?)
    ensures Wf(t) && Moves(s, t) && LogGrows(s, t)
    ensures Reports(s, t) && (s.pass.value.call.Rehash? ==> t.w.pods == s.w.pods)
  {
    var p := s.pass.value;
    match p.call
    case SwapDelete(pod) => Goto(Delete(s, o, ByRoll, Id(s), pod), Rehash)
    case Rehash => Goto(s, SwapCreate(ReadHash(s.w, o, p.cluster.spec, p.at, Mine(s).active)))
    case SwapCreate(hash) => NextPod(s, o, hash)
  }

  function NextPod(s: State, o: Outcome, hash: string): (t: State)
    requires InPass(s) && s.pass.value.call.SwapCreate?
    ensures Wf(t) && Moves(s, t) && LogGrows(s, t)
    ensures Reports(s, t)
  {
    var t := Create(s, o, hash);
    if t.pass.None? then t else Leave(t)
  }

  /* ---------- the start and the end of a pass ---------- */

  function ActBegin(s: State, o: Outcome): (t: State)
    requires s.pass.None?
    ensures Wf(t) && Moves(s, t) && LogGrows(s, t) && t.w.pods == s.w.pods
  {
    if o != Ok then s
    else Log(s, Began).(pass := Some(Pass(EnsureCluster, 0, s.w.cluster, false, Gate(s.w.cluster), s.w.cluster.status)))
  }

  function DeleteNext(todo: seq<Pod>): Call {
    if todo == [] then FinalWrite else DeleteOrphan(todo)
  }

  function ActFinish(s: State, o: Outcome): (t: State)
    requires InPass(s)
    requires s.pass.value.call.EnsureCluster? || s.pass.value.call.ListOrphans? || s.pass.value.call.DeleteOrphan?
          || s.pass.value.call.FinalWrite?
    ensures Wf(t) && Moves(s, t) && LogGrows(s, t)
    ensures Reports(s, t) && (!s.pass.value.call.DeleteOrphan? ==> t.w.pods == s.w.pods)
  {
    var p := s.pass.value;
    match p.call
    case EnsureCluster => if o == Ok then GotoMap(s, 0) else Abandon(s)
    case ListOrphans =>
      if o == Ok then Goto(s, DeleteNext(Orphans(s.w.pods, p.cluster.spec)))
      else Goto(Log(s, OrphansUnlisted), FinalWrite)
    case DeleteOrphan(todo) => Goto(Delete(s, o, Orphaned, todo[0].slug, todo[0]), DeleteNext(todo[1..]))
    case FinalWrite => Abandon(Write(s.(pass := Some(p.(cluster := Finished(p.cluster)))), o, Final, ""))
  }

  /* ---------- runs ---------- */

  function Action(s: State, o: Outcome): (t: State)
    requires Wf(s)
    ensures Wf(t) && Moves(s, t) && LogGrows(s, t)
    ensures Reports(s, t)
  {
    if s.pass.None? then ActBegin(s, o)
    else
      match s.pass.value.call
      case EnsureMap | ReadRevisions | ListPods(_) => ActPrepare(s, o)
      case ReadAddress(_, _) => ActDispatch(s, o)
      case FirstJob(_) | FirstInstall | FirstCreate(_) => ActFirst(s, o)
      case RollbackPersist(_) | RollbackDelete(_) => ActRollback(s, o)
      case RollJob(_) | RollInstall => ActRoll(s, o)
      case DrainPersist(_) | Announce => ActDrain(s, o)
      case SaveAndExit(_) | SwapPersist(_) => ActSwap(s, o)
      case SwapDelete(_) | Rehash | SwapCreate(_) => ActSwapped(s, o)
      case EnsureCluster | ListOrphans | DeleteOrphan(_) | FinalWrite => ActFinish(s, o)
  }

  function Step(s: State, l: Label): (t: State)
    requires Wf(s)
    ensures Wf(t) && LogGrows(s, t)
  {
    match l
    case Env(w) => if EnvMay(s.w, w) then s.(w := w.(hash := s.w.hash)) else s
    case Cut => Abandon(s)
    case Act(o) => Action(s, o)
  }

  function Run(s: State, labels: seq<Label>): (t: State)
    requires Wf(s)
    ensures Wf(t)
    ensures s.w.log <= t.w.log
    decreases |labels|
  {
    if labels == [] then s
    else
      var r := Run(s, labels[..|labels| - 1]);
      var t := Step(r, labels[|labels| - 1]);
      assert t.w.log[..|r.w.log|] == r.w.log;
      t
  }
}
