/** What the calls of one map hand on to each other, the server pod found for it or that there is none, and what
    each call does to the pods and reports. */
module Handover {
  import opened ArkTypes
  import opened Statuses
  import opened World
  import opened Operator
  import opened Transitions
  import Slugs

  function PodOf(call: Call): Option<Pod> {
    match call
    case ReadAddress(_, found) => found
    case RollbackPersist(pod) => Some(pod)
    case RollbackDelete(pod) => Some(pod)
    case RollJob(pod) => Some(pod)
    case SaveAndExit(pod) => Some(pod)
    case SwapPersist(pod) => Some(pod)
    case SwapDelete(pod) => Some(pod)
    case _ => None
  }

  /** Calls made because the map has no live pod. */
  predicate ForVacant(call: Call) {
    (call.ReadAddress? && call.found.None?) || call.FirstJob? || call.FirstInstall? || call.FirstCreate?
    || call.Rehash? || call.SwapCreate?
  }

  ghost predicate HandsOn(s: State, t: State) {
    s.pass.Some? && t.pass.Some? && !s.pass.value.call.ListPods? ==>
      && (PodOf(t.pass.value.call).Some? ==> PodOf(t.pass.value.call) == PodOf(s.pass.value.call))
      && (ForVacant(t.pass.value.call) ==> ForVacant(s.pass.value.call) || s.pass.value.call.SwapDelete?)
  }

  lemma DispatchHandsOn(s: State, o: Outcome)
    requires InPass(s) && s.pass.value.call.ReadAddress?
    ensures HandsOn(s, ActDispatch(s, o))
  {
  }

  lemma RollbackHandsOn(s: State, o: Outcome)
    requires InPass(s) && s.pass.value.call.RollbackPersist?
    ensures HandsOn(s, ActRollback(s, o))
  {
    hide Write;
  }

  lemma RollUpdateHandsOn(s: State, verdict: Verdict, pod: Pod)
    requires InPass(s) && s.pass.value.call == RollJob(pod)
    ensures HandsOn(s, RollUpdate(s, verdict, pod))
  {
  }

  lemma RollHandsOn(s: State, o: Outcome)
    requires InPass(s) && s.pass.value.call.RollJob?
    ensures HandsOn(s, ActRoll(s, o))
  {
    hide RollUpdate, ReadJob;
    var side := VolumeSide(OtherVolume(Mine(s).active));
    RollUpdateHandsOn(SeeJob(s, o, side, true), SeenVerdict(s, o, side), s.pass.value.call.pod);
  }

  lemma SwapHandsOn(s: State, o: Outcome)
    requires InPass(s) && (s.pass.value.call.SaveAndExit? || s.pass.value.call.SwapPersist?)
    ensures HandsOn(s, ActSwap(s, o))
  {
    hide Write;
  }

  lemma ActionHandsOn(s: State, o: Outcome)
    requires InPass(s)
    ensures HandsOn(s, Action(s, o))
  {
    hide ActPrepare, ActDispatch, ActFirst, ActRollback, ActRoll, ActDrain, ActSwap, ActSwapped, ActFinish;
    match s.pass.value.call
    case ReadAddress(_, _) => DispatchHandsOn(s, o);
    case RollbackPersist(_) => RollbackHandsOn(s, o);
    case RollJob(_) => RollHandsOn(s, o);
    case SaveAndExit(_) | SwapPersist(_) => SwapHandsOn(s, o);
    case _ =>
  }

  /* ---------- what the calls do to pods ---------- */

  /** Calls after which the pods and what is remembered of them are as before. */
  predicate LeavesPods(call: Call) {
    && !call.ListPods? && !call.ListOrphans? && !Vacating(call) && !call.DeleteOrphan? && !Creates(call)
  }

  /** The deletions that follow a volume change. */
  predicate Vacating(call: Call) {
    call.SwapDelete? || call.RollbackDelete?
  }

  predicate Creates(call: Call) {
    call.FirstCreate? || call.SwapCreate?
  }

  lemma PodsStay(s: State, o: Outcome)
    requires InPass(s) && LeavesPods(s.pass.value.call)
    ensures Action(s, o).w.pods == s.w.pods
  {
    hide ActPrepare, ActDispatch, ActFirst, ActRollback, ActRoll, ActDrain, ActSwap, ActSwapped, ActFinish;
  }

  lemma ListingKeepsPods(s: State, o: Outcome)
    requires InPass(s) && (s.pass.value.call.ListPods? || s.pass.value.call.ListOrphans?)
    ensures Action(s, o).w.pods == s.w.pods
  {
    hide ActPrepare, ActFinish;
  }

  lemma OrphanDeletion(s: State, o: Outcome)
    requires InPass(s) && s.pass.value.call.DeleteOrphan?
    ensures var todo, t := s.pass.value.call.todo, ActFinish(s, o);
      && t.w == Delete(s, o, Orphaned, todo[0].slug, todo[0]).w
      && t.pass == Some(s.pass.value.(call := DeleteNext(todo[1..])))
  {
    hide Delete;
  }

  lemma SwapDeletion(s: State, o: Outcome)
    requires InPass(s) && s.pass.value.call.SwapDelete?
    ensures var t := ActSwapped(s, o);
      && t.w == Delete(s, o, ByRoll, Id(s), s.pass.value.call.pod).w
      && t.pass == Some(s.pass.value.(call := Rehash))
  {
    hide Delete;
  }

  lemma RollbackDeletion(s: State, o: Outcome)
    requires InPass(s) && s.pass.value.call.RollbackDelete?
    ensures var t := ActRollback(s, o);
      && t.w == Delete(s, o, ByRollback, Id(s), s.pass.value.call.pod).w
      && t.pass.Some? && StartsMap(t.pass.value.call)
  {
    hide Delete;
  }

  /** The state whose Create the call makes. */
  function Creator(s: State): State
    requires InPass(s) && Creates(s.pass.value.call)
  {
    if s.pass.value.call.FirstCreate? then Busy(s) else s
  }

  lemma CreatedWorld(s: State, o: Outcome)
    requires InPass(s) && Creates(s.pass.value.call)
    ensures var t := Action(s, o);
      && t.w == Create(Creator(s), o, s.pass.value.call.hash).w
      && (t.pass.Some? ==> StartsMap(t.pass.value.call))
  {
    hide Create;
  }

  /* ---------- quiet steps, in brief ---------- */

  lemma QuietKeepsCluster(s: State, t: State)
    requires InPass(s) && Quiet(s, t)
    ensures t.w.cluster == s.w.cluster
    ensures |t.w.log| > |s.w.log| ==> !t.w.log[|s.w.log|].Wrote?
  {
  }

  lemma QuietKeepsSpec(s: State, t: State)
    requires InPass(s) && Quiet(s, t)
    ensures t.pass.Some? ==> t.pass.value.cluster.spec == s.pass.value.cluster.spec
  {
  }

  /* ---------- what the calls report ---------- */

  lemma InstallEvent(s: State, o: Outcome, side: Side, phase: MapPhase)
    requires AtMap(s)
    ensures var t := Install(s, o, side, phase);
      && |t.w.log| == |s.w.log| + 1
      && t.w.log[|s.w.log|].Installed? && t.w.log[|s.w.log|].id == Id(s)
      && t.w.log[|s.w.log|].mounted == MountedLive(s.w.pods, Slug(s), side)
  {
    hide Slugs.MapSlug;
  }

  /** The event tells the pod the call is to create. */
  predicate TellsPod(s: State, e: Event)
    requires AtMap(s)
  {
    && e.Created? && e.id == Id(s) && e.volume == Mine(s).active
    && e.key == Job(s.pass.value.cluster.spec, Id(s), VolumeSide(Mine(s).active))
    && e.recorded == Defaulted(Entry(s.w.cluster.status, Id(s)).active)
  }

  lemma CreationTellsPod(s: State, o: Outcome)
    requires InPass(s) && Creates(s.pass.value.call)
    ensures |Action(s, o).w.log| > |s.w.log| ==> TellsPod(s, Action(s, o).w.log[|s.w.log|])
  {
    CreatedWorld(s, o);
    CreateTellsPod(s, Creator(s), o, s.pass.value.call.hash);
    hide Action, Create, TellsPod, Reports, Moves;
  }

  lemma CreateTellsPod(s: State, u: State, o: Outcome, hash: string)
    requires AtMap(s) && AtMap(u) && u.w == s.w && u.pass.value.cluster == s.pass.value.cluster
      && u.pass.value.at == s.pass.value.at
    ensures var t := Create(u, o, hash); |t.w.log| > |s.w.log| ==> TellsPod(s, t.w.log[|s.w.log|])
  {
    hide Named, Slugs.MapSlug;
  }

  lemma OthersCreateNothing(s: State, o: Outcome)
    requires InPass(s) && !Creates(s.pass.value.call)
    ensures |Action(s, o).w.log| > |s.w.log| ==> !Action(s, o).w.log[|s.w.log|].Created?
  {
    hide Action;
  }

  lemma OthersInstallNothing(s: State, o: Outcome)
    requires InPass(s) && !s.pass.value.call.FirstInstall? && !s.pass.value.call.RollInstall?
    ensures |Action(s, o).w.log| > |s.w.log| ==> !Action(s, o).w.log[|s.w.log|].Installed?
  {
    hide Action;
  }

  lemma BeginReports(s: State, o: Outcome)
    requires s.pass.None?
    ensures |ActBegin(s, o).w.log| > |s.w.log| ==> ActBegin(s, o).w.log[|s.w.log|] == Began
  {
  }
}
