/** The step system call by call, written out: the world and the pass that each call leaves behind. */
module Effects {
  import opened ArkTypes
  import opened Statuses
  import opened World
  import opened Operator
  import Slugs

  /* ---------- what the calls that write leave behind ---------- */

  /** The world after EnsureInitJob. */
  function InstalledWorld(w: World, key: JobKey, id: string, o: Outcome): World {
    var asked := w.(log := w.log + [Installed(id, key, MountedLive(w.pods, key.slug, key.side))]);
    if key in w.jobs || o == Fail || o == Clash then asked else asked.(jobs := asked.jobs[key := []])
  }

  /** The world after ensurePodForMap. */
  function CreatedWorld(w: World, key: JobKey, id: string, pod: Pod, o: Outcome): World {
    if (o == Ok || o == Lost) && !Named(w.pods, pod.slug, pod.hash)
    then w.(pods := w.pods + [pod],
            log := w.log + [Created(id, key, pod.volume, Defaulted(Entry(w.cluster.status, id).active))])
    else w
  }

  function NextCallOf(spec: Spec, at: nat): Call {
    if at < |spec.maps| then EnsureMap else ListOrphans
  }

  /** The pass moves on to the next map. */
  function NextPass(p: Pass, c: Cluster, busy: bool): Pass {
    Pass(NextCallOf(c.spec, p.at + 1), p.at + 1, c, busy, p.gate, p.start)
  }

  lemma FirstInstallResult(s: State, o: Outcome)
    requires InPass(s) && s.pass.value.call.FirstInstall?
    ensures var p, e := s.pass.value, Mine(s);
      var c := p.cluster.(status := Put(p.cluster.status, e.(phase := InstallingActive)));
      var w := InstalledWorld(s.w, Job(p.cluster.spec, Id(s), VolumeSide(e.active)), Id(s), o);
      Action(s, o) == State(w, if o == Ok || o == Clash then Some(NextPass(p, c, true)) else None)
  {
    hide Slugs.MapSlug, MountedLive;
  }

  lemma RollInstallResult(s: State, o: Outcome)
    requires InPass(s) && s.pass.value.call.RollInstall?
    ensures var p, e := s.pass.value, Mine(s);
      var c := p.cluster.(status := Put(p.cluster.status, e.(phase := InstallingInactive)));
      var w := InstalledWorld(s.w, Job(p.cluster.spec, Id(s), VolumeSide(OtherVolume(e.active))), Id(s), o);
      Action(s, o) == State(w, if o == Ok || o == Clash then Some(NextPass(p, c, p.busy)) else None)
  {
    hide Slugs.MapSlug, MountedLive;
  }

  lemma FirstCreateResult(s: State, o: Outcome)
    requires InPass(s) && s.pass.value.call.FirstCreate?
    ensures var p, e := s.pass.value, Mine(s);
      var c := p.cluster.(status := Put(p.cluster.status, e.(phase := Provisioning)));
      var w := CreatedWorld(s.w, Job(p.cluster.spec, Id(s), VolumeSide(e.active)), Id(s), NewPod(s, p.call.hash), o);
      Action(s, o) == State(w, if o == Ok || o == Clash then Some(NextPass(p, c, true)) else None)
  {
    hide Slugs.MapSlug, Named;
  }

  lemma SwapCreateResult(s: State, o: Outcome)
    requires InPass(s) && s.pass.value.call.SwapCreate?
    ensures var p, e := s.pass.value, Mine(s);
      var w := CreatedWorld(s.w, Job(p.cluster.spec, Id(s), VolumeSide(e.active)), Id(s), NewPod(s, p.call.hash), o);
      Action(s, o) == State(w, if o == Ok || o == Clash then Some(NextPass(p, p.cluster, p.busy)) else None)
  {
    hide Slugs.MapSlug, Named;
  }

  function SeenWorld(w: World, key: JobKey, id: string, verdict: Verdict, rolling: bool, gated: bool,
      start: seq<MapStatus>): World
  {
    w.(log := w.log + [JobSeen(id, key, verdict, rolling, gated, start, w.clock)])
  }

  /** What firstStart makes of the Job's verdict before its next call, if any. */
  function FirstPass(p: Pass, e: MapStatus, verdict: Verdict, hash: string, now: int): Pass {
    match verdict
    case JobMissing => p.(call := FirstInstall)
    case JobRunning => NextPass(p, p.cluster.(status := Put(p.cluster.status, e.(phase := InstallingActive))), true)
    case JobGaveUp => NextPass(p, p.cluster.(status := Put(p.cluster.status, AtInstallFailure(e, now))), p.busy)
    case JobSucceeded => p.(call := FirstCreate(hash))
  }

  lemma FirstJobResult(s: State, o: Outcome)
    requires InPass(s) && s.pass.value.call.FirstJob?
    ensures var p, e := s.pass.value, Mine(s);
      var key := Job(p.cluster.spec, Id(s), VolumeSide(e.active));
      var verdict := ReadJob(s.w, o, key);
      Action(s, o)
        == State(SeenWorld(s.w, key, Id(s), verdict, false, p.cluster.spec.rollout != Parallel, p.start),
        Some(FirstPass(p, e, verdict, p.call.hash, s.w.clock)))
  {
    hide Slugs.MapSlug, ReadJob, SetCondition;
  }

  /** What rollUpdate makes of the Job's verdict before its next call, if any. */
  function RollPass(p: Pass, e: MapStatus, verdict: Verdict, pod: Pod, now: int): Pass {
    match verdict
    case JobMissing => p.(call := RollInstall)
    case JobRunning => NextPass(p, p.cluster.(status := Put(p.cluster.status, e.(phase := InstallingInactive))), p.busy)
    case JobGaveUp => NextPass(p, p.cluster.(status := Put(p.cluster.status, AtInstallFailure(e, now))), p.busy)
    case JobSucceeded =>
      if e.deadline.None? then p.(call := DrainPersist(now))
      else if now < e.deadline.value then
        NextPass(p, p.cluster.(status := Put(p.cluster.status, e.(phase := DrainingActive))), p.busy)
      else p.(call := if e.rcon != "" then SaveAndExit(pod) else SwapPersist(pod))
  }

  lemma RollUpdateResult(s: State, verdict: Verdict, pod: Pod)
    requires AtMap(s) && s.pass.value.call.RollJob?
    ensures Operator.RollUpdate(s, verdict, pod)
      == State(s.w, Some(RollPass(s.pass.value, Mine(s), verdict, pod, s.w.clock)))
  {
    hide SetCondition;
  }

  lemma RollJobResult(s: State, o: Outcome)
    requires InPass(s) && s.pass.value.call.RollJob?
    ensures var p, e := s.pass.value, Mine(s);
      var key := Job(p.cluster.spec, Id(s), VolumeSide(OtherVolume(e.active)));
      var verdict := ReadJob(s.w, o, key);
      Action(s, o)
        == State(SeenWorld(s.w, key, Id(s), verdict, true, p.cluster.spec.rollout != Parallel, p.start),
        Some(RollPass(p, e, verdict, p.call.pod, s.w.clock)))
  {
    hide Slugs.MapSlug, ReadJob, Operator.RollUpdate;
    var side := VolumeSide(OtherVolume(Mine(s).active));
    RollUpdateResult(SeeJob(s, o, side, true), SeenVerdict(s, o, side), s.pass.value.call.pod);
  }

  /** What steady makes of a pod with the wanted hash before its next call, if any. */
  function SteadyPass(p: Pass, e: MapStatus, pod: Pod, now: int): Pass {
    if ShouldRollBack(e, pod) then p.(busy := true, call := RollbackPersist(pod))
    else
      var f := if pod.crashing then WithCondition(e, PodReady, false, "PodCrashLooping", now)
               else if pod.ready then AtReady(e, now)
               else WithCondition(e, PodReady, false, "PodNotReady", now);
      NextPass(p, p.cluster.(status := Put(p.cluster.status, f)), p.busy || pod.crashing || !pod.ready)
  }

  lemma SteadyResult(s: State, pod: Pod)
    requires AtMap(s)
    ensures Operator.Steady(s, pod) == State(s.w, Some(SteadyPass(s.pass.value, Mine(s), pod, s.w.clock)))
  {
    hide SetCondition;
  }

  /** reconcileMap once the pod is found and the address refreshed. */
  function DispatchPass(p: Pass, id: string, e: MapStatus, hash: string, found: Option<Pod>, now: int): Pass {
    if found.None? then p.(call := FirstJob(hash))
    else if found.value.hash == hash then SteadyPass(p, e, found.value, now)
    else if p.gate != "" && p.gate != id then NextPass(p, p.cluster, true)
    else p.(busy := true, call := RollJob(found.value))
  }

  lemma DispatchResult(s: State, o: Outcome)
    requires InPass(s) && s.pass.value.call.ReadAddress?
    ensures var p, e := s.pass.value, Addressed(Mine(s), s.w, o);
      var q := p.(cluster := p.cluster.(status := Put(p.cluster.status, e)));
      Action(s, o) == State(s.w, Some(DispatchPass(q, Id(s), e, p.call.hash, p.call.found, s.w.clock)))
  {
    hide SetCondition, SteadyPass, Operator.Steady;
    var e := Addressed(Mine(s), s.w, o);
    if s.pass.value.call.found.Some? {
      SteadyResult(Edit(s, e), s.pass.value.call.found.value);
    }
  }

  lemma PrepareResult(s: State, o: Outcome)
    requires InPass(s)
      && (s.pass.value.call.EnsureMap? || s.pass.value.call.ReadRevisions? || s.pass.value.call.ListPods?)
    ensures var p, e := s.pass.value, Mine(s);
      Action(s, o) == State(s.w, match p.call
        case EnsureMap =>
          if o == Ok
          then Some(p.(call := ReadRevisions,
            cluster := p.cluster.(status := Put(p.cluster.status, e.(active := Defaulted(e.active))))))
          else None
        case ReadRevisions => Some(p.(call := ListPods(ReadHash(s.w, o, p.cluster.spec, p.at, e.active))))
        case ListPods(hash) =>
          if o == Ok then Some(p.(call := ReadAddress(hash, FindActivePod(s.w.pods, Slugs.MapSlug(Id(s)), hash))))
            else None
        case _ => None)
  {
    hide Slugs.MapSlug, FindActivePod, ReadHash;
  }

  /** The pass once its write is answered. */
  lemma DrainResult(s: State, o: Outcome)
    requires InPass(s) && s.pass.value.call.DrainPersist?
    ensures var p, e, since := s.pass.value, Mine(s), s.pass.value.call.since;
      var spec := p.cluster.spec;
      var q := p.(cluster := p.cluster.(status := Put(p.cluster.status, AtDrainStart(e, since, spec))));
      var t := Write(State(s.w, Some(q)), o, DrainStart(since, Grace(spec)), Id(s));
      Action(s, o) == State(t.w,
        if t.pass.None? then None
        else Some(if Grace(spec) > 0 && e.rcon != "" then t.pass.value.(call := Announce)
                  else NextPass(p, t.pass.value.cluster, p.busy)))
  {
  }

  lemma SwapResult(s: State, o: Outcome)
    requires InPass(s) && s.pass.value.call.SwapPersist?
    ensures var p := s.pass.value;
      var q := p.(cluster := p.cluster.(status := Put(p.cluster.status, AtSwap(Mine(s)))));
      var t := Write(State(s.w, Some(q)), o, Swap, Id(s));
      Action(s, o) == State(t.w, if t.pass.None? then None else Some(t.pass.value.(call := SwapDelete(p.call.pod))))
  {
  }

  lemma RollbackResult(s: State, o: Outcome)
    requires InPass(s) && s.pass.value.call.RollbackPersist?
    ensures var p := s.pass.value;
      var q := p.(cluster := p.cluster.(status := Put(p.cluster.status, AtRollback(Mine(s), s.w.clock))));
      var t := Write(State(s.w, Some(q)), o, Rollback, Id(s));
      Action(s, o) == State(t.w, if t.pass.None? then None else Some(t.pass.value.(call := RollbackDelete(p.call.pod))))
  {
    hide SetCondition;
  }

  lemma FinalResult(s: State, o: Outcome)
    requires InPass(s) && s.pass.value.call.FinalWrite?
    ensures var p := s.pass.value;
      Action(s, o) == State(Write(State(s.w, Some(p.(cluster := Finished(p.cluster)))), o, Final, "").w, None)
  {
    hide Finished;
  }

  /** The world after a deletion whose error is ignored. */
  function DeletedWorld(w: World, o: Outcome, why: DeleteReason, id: string, pod: Pod): World {
    var applied := o == Ok || o == Lost;
    var told := w.(log := w.log + [Deleted(why, id, w.clock, applied)]);
    if applied then told.(pods := DeletePod(told.pods, pod.slug, pod.hash)) else told
  }

  lemma RollbackDeleteResult(s: State, o: Outcome)
    requires InPass(s) && s.pass.value.call.RollbackDelete?
    ensures var p := s.pass.value;
      Action(s, o) == State(DeletedWorld(s.w, o, ByRollback, Id(s), p.call.pod), Some(NextPass(p, p.cluster, p.busy)))
  {
    hide DeletePod;
  }

  lemma SwappedResult(s: State, o: Outcome)
    requires InPass(s) && (s.pass.value.call.SwapDelete? || s.pass.value.call.Rehash?)
    ensures var p := s.pass.value;
      && (p.call.SwapDelete? ==>
            Action(s, o) == State(DeletedWorld(s.w, o, ByRoll, Id(s), p.call.pod), Some(p.(call := Rehash))))
      && (p.call.Rehash? ==>
            Action(s, o)
              == State(s.w, Some(p.(call := SwapCreate(ReadHash(s.w, o, p.cluster.spec, p.at, Mine(s).active))))))
  {
    hide DeletePod, ReadHash;
  }

  lemma MessageResult(s: State, o: Outcome)
    requires InPass(s) && (s.pass.value.call.Announce? || s.pass.value.call.SaveAndExit?)
    ensures var p := s.pass.value;
      && (p.call.Announce? ==>
            Action(s, o) == State(s.w.(log := s.w.log + [Announced(Id(s))]), Some(NextPass(p, p.cluster, p.busy))))
      && (p.call.SaveAndExit? ==>
            Action(s, o)
              == State(s.w.(log := s.w.log + [SavedAndExited(Id(s))]), Some(p.(call := SwapPersist(p.call.pod)))))
  {
  }

  lemma BeginResult(w: World, o: Outcome)
    ensures var s := State(w, None);
      Action(s, o) == if o != Ok then s
        else State(w.(log := w.log + [Began]),
          Some(Pass(EnsureCluster, 0, w.cluster, false, Gate(w.cluster), w.cluster.status)))
  {
  }

  lemma EnsureClusterResult(s: State, o: Outcome)
    requires InPass(s) && s.pass.value.call.EnsureCluster?
    ensures var p := s.pass.value;
      Action(s, o) == State(s.w, if o == Ok then Some(p.(call := NextCallOf(p.cluster.spec, 0), at := 0)) else None)
  {
  }

  lemma ListOrphansResult(s: State, o: Outcome)
    requires InPass(s) && s.pass.value.call.ListOrphans?
    ensures var p := s.pass.value;
      Action(s, o) ==
        if o == Ok then State(s.w, Some(p.(call := DeleteNext(Orphans(s.w.pods, p.cluster.spec)))))
        else State(s.w.(log := s.w.log + [OrphansUnlisted]), Some(p.(call := FinalWrite)))
  {
    hide Orphans;
  }

  lemma DeleteOrphanResult(s: State, o: Outcome)
    requires InPass(s) && s.pass.value.call.DeleteOrphan?
    ensures var p, todo := s.pass.value, s.pass.value.call.todo;
      Action(s, o)
        == State(DeletedWorld(s.w, o, Orphaned, todo[0].slug, todo[0]), Some(p.(call := DeleteNext(todo[1..]))))
  {
    hide DeletePod;
  }
}
