/** internal/controller/arkcluster_controller.go and internal/reconcile/job.go as the code is written: methods that
    edit the cluster object in memory and call the API, one call at a time. What the API answers, what moves between
    two calls and when the operator dies is scripted by a list of labels of the step system, and the methods are
    proved to go through the very states the step system goes through under those labels. */
module Reconciler {
  import opened ArkTypes
  import opened Statuses
  import opened World
  import opened Effects
  import opened Loops
  import opened Operator
  import Coherence
  import Slugs

  /** Whether the pass goes on. It ends with an error, or with the operator. */
  datatype Ending = Going | Ended

  /** Since the first `from` labels, whatever was not the environment's move left a pass running, but maybe for the
      last label. */
  ghost predicate InOnePass(origin: State, trail: seq<Label>, from: nat)
    requires Wf(origin)
  {
    forall k :: from < k < |trail| ==> trail[k - 1].Env? || Run(origin, trail[..k]).pass.Some?
  }

  /** The labels from `from` on make up one pass from its first call to the answer or the death that ends it, with
      whatever the environment does meanwhile: only the last label leaves no pass running. */
  ghost predicate WholePass(origin: State, trail: seq<Label>, from: nat)
    requires Wf(origin)
  {
    && from < |trail| && !trail[|trail| - 1].Env?
    && Run(origin, trail[..from]).pass.None? && Run(origin, trail).pass.None?
    && InOnePass(origin, trail, from)
  }

  class ArkClusterReconciler {
    var world: World
    var labels: seq<Label>
    /** The pass's copy of the cluster, whether it asks to be requeued soon, the mid-flight map, the statuses it
        began with. */
    var cluster: Cluster
    var busy: bool
    var gate: string
    var start: seq<MapStatus>
    /** The step system beside the code: where it stands, by which labels it came there from where, and which of
        them were used up when the present pass began. */
    ghost var machine: State
    ghost var trail: seq<Label>
    ghost var base: seq<Label>
    ghost const origin: State
    ghost const script: seq<Label>

    constructor (world: World, labels: seq<Label>)
      ensures Tracks() && Idle() && this.world == world && this.labels == labels
      ensures origin == State(world, None) && script == labels && trail == []
    {
      this.world, this.labels := world, labels;
      cluster, busy, gate, start := world.cluster, false, "", [];
      machine, trail, base := State(world, None), [], [];
      origin, script := State(world, None), labels;
      new;
      assert trail + labels == script;
    }

    /** The machine got where it is by the labels used up; once the script is exhausted the operator is dead. */
    ghost predicate Traces()
      reads `machine, `trail, `labels, `base
    {
      && Wf(origin) && machine == Run(origin, trail)
      && base <= trail && InOnePass(origin, trail, |base|)
      && script <= trail + labels
      && (forall k :: |script| <= k < |trail + labels| ==> (trail + labels)[k] == Cut)
    }

    /** The code moves when it is answered, or dies. */
    ghost predicate Tracks()
      reads `machine, `trail, `labels, `base
    {
      Traces() && (trail == [] || !trail[|trail| - 1].Env?)
    }

    /** One more label still belongs to the pass. */
    ghost predicate Unfinished()
      reads `machine, `trail, `base
    {
      machine.pass.Some? || |trail| == |base| || (|trail| > 0 && trail[|trail| - 1].Env?)
    }

    ghost function Here(call: Call, at: nat): State
      reads this
    {
      State(world, Some(Pass(call, at, cluster, busy, gate, start)))
    }

    /** Code and machine agree, and the pass is about to make this call. */
    ghost predicate At(call: Call, at: nat)
      reads this
    {
      Tracks() && machine == Here(call, at)
    }

    /** Code and machine agree that no pass is running. */
    ghost predicate Idle()
      reads this
    {
      machine == State(world, None)
    }

    function NextCall(at: nat): Call
      reads this
    {
      NextCallOf(cluster.spec, at)
    }

    /** Waits for the answer to the call at hand: whatever the script has the environment do first, happens. */
    method Await() returns (answer: Option<Outcome>, ghost before: State)
      requires Tracks() && machine.w == world && Unfinished()
      modifies `world, `labels, `machine, `trail
      ensures Tracks() && |old(trail)| < |trail|
      ensures answer.None? ==> Idle()
      ensures answer.Some? ==>
        Wf(before) && before == State(world, old(machine.pass)) && machine == Action(before, answer.value)
    {
      hide Action, Run, Step;
      before := machine;
      while labels != []
        invariant Traces() && machine.w == world && machine.pass == old(machine.pass)
        invariant Unfinished() && |old(trail)| <= |trail|
      {
        var l := labels[0];
        before := machine;
        Advance(l);
        match l {
          case Env(w) =>
            if EnvMay(world, w) {
              world := w.(hash := world.hash);
            }
            EnvironmentSteps(before, l);
          case Act(o) =>
            ActionSteps(before, o);
            return Some(o), before;
          case Cut =>
            CutSteps(before);
            return None, before;
        }
      }
      CutSteps(machine);
      Expire();
      answer := None;
    }

    static lemma EnvironmentSteps(s: State, l: Label)
      requires Wf(s) && l.Env?
      ensures Step(s, l) == if EnvMay(s.w, l.world) then s.(w := l.world.(hash := s.w.hash)) else s
    {
    }

    static lemma ActionSteps(s: State, o: Outcome)
      requires Wf(s)
      ensures Step(s, Act(o)) == Action(s, o)
    {
    }

    static lemma CutSteps(s: State)
      requires Wf(s)
      ensures Step(s, Cut) == State(s.w, None)
    {
    }

    /** The machine takes the next label. */
    method Advance(l: Label)
      requires Traces() && labels != [] && l == labels[0] && Wf(machine) && Unfinished()
      modifies `labels, `machine, `trail
      ensures Traces() && machine == Step(old(machine), l) && labels == old(labels)[1..] && trail == old(trail) + [l]
    {
      hide Step;
      ghost var taken := trail + [l];
      assert taken[..|taken| - 1] == trail;
      assert taken + labels[1..] == trail + labels;
      Coherence.RunLast(origin, taken);
      hide Run;
      StillOnePass(taken);
      trail, machine := taken, Step(machine, l);
      labels := labels[1..];
    }

    /** Taking one more label while the pass is unfinished keeps to one pass. */
    lemma StillOnePass(taken: seq<Label>)
      requires Traces() && Unfinished() && |taken| == |trail| + 1 && taken[..|trail|] == trail
      ensures base <= taken && InOnePass(origin, taken, |base|)
    {
      hide Run;
      assert taken[..|base|] == trail[..|base|];
      forall k | |base| < k < |taken| ensures taken[k - 1].Env? || Run(origin, taken[..k]).pass.Some? {
        assert taken[..k] == trail[..k];
        assert taken[k - 1] == trail[k - 1];
        assert k == |trail| ==> trail[..k] == trail;
      }
    }

    /** Nothing is scripted any more: the operator is taken to die here. */
    ghost method Expire()
      requires Traces() && labels == [] && Wf(machine) && Unfinished()
      modifies `machine, `trail
      ensures Traces() && machine == Step(old(machine), Cut) && trail == old(trail) + [Cut]
    {
      hide Step;
      var taken := trail + [Cut];
      assert taken[..|taken| - 1] == trail;
      Coherence.RunLast(origin, taken);
      hide Run;
      forall k | |script| <= k < |taken + labels| ensures (taken + labels)[k] == Cut {
        assert k < |trail| ==> (taken + labels)[k] == (trail + labels)[k];
      }
      assert script <= taken + labels by {
        assert taken + labels == trail + labels + [Cut];
      }
      StillOnePass(taken);
      trail, machine := taken, Step(machine, Cut);
    }

    method Report(e: Event)
      modifies `world
      ensures world == old(world).(log := old(world).log + [e])
    {
      world := world.(log := world.log + [e]);
    }

    /* ---------- job.go ---------- */

    /** InitJobStatus. */
    method InitJobStatus(answer: Outcome, id: string, side: Side, rolling: bool) returns (verdict: Verdict)
      modifies `world
      ensures verdict == ReadJob(old(world), answer, Job(cluster.spec, id, side))
      ensures world == SeenWorld(old(world), Job(cluster.spec, id, side), id, verdict, rolling,
                                 cluster.spec.rollout != Parallel, start)
    {
      hide Slugs.MapSlug;
      var key := Job(cluster.spec, id, side);
      if answer != Ok {
        verdict := JobGaveUp;
      } else if key !in world.jobs {
        verdict := JobMissing;
      } else {
        verdict := DecideJob(world.jobs[key]);
      }
      Report(JobSeen(id, key, verdict, rolling, cluster.spec.rollout != Parallel, start, world.clock));
    }

    /** EnsureInitJob: false when it returns an error. A Job that is there already, or comes to be, is fine. */
    method EnsureInitJob(answer: Outcome, id: string, side: Side) returns (ok: bool)
      modifies `world
      ensures ok == (answer == Ok || answer == Clash)
      ensures world == InstalledWorld(old(world), Job(cluster.spec, id, side), id, answer)
    {
      hide Slugs.MapSlug, MountedLive;
      var key := Job(cluster.spec, id, side);
      Report(Installed(id, key, MountedLive(world.pods, key.slug, side)));
      if key !in world.jobs && (answer == Ok || answer == Lost) {
        world := world.(jobs := world.jobs[key := []]);
      }
      ok := answer == Ok || answer == Clash;
    }

    /* ---------- firstStart ---------- */

    method FirstStart(i: nat, hash: string) returns (e: Ending)
      requires At(FirstJob(hash), i) && i < |cluster.spec.maps|
      modifies `world, `labels, `cluster, `busy, `machine, `trail
      ensures Tracks() && |old(trail)| <= |trail| && cluster.spec == old(cluster.spec)
      ensures if e.Going? then At(NextCall(i + 1), i + 1) else Idle()
    {
      hide Action, Run, Tracks, ReadJob, Job, SetCondition;
      var id := cluster.spec.maps[i].id;
      var mapStatus := Entry(cluster.status, id);
      var side := VolumeSide(mapStatus.active);
      var answer, before := Await();
      if answer.None? {
        return Ended;
      }
      FirstJobResult(before, answer.value);
      var verdict := InitJobStatus(answer.value, id, side, false);
      hide SeenWorld;
      match verdict {
        case JobMissing =>
          e := InstallFirst(i, side);
        case JobRunning =>
          cluster := cluster.(status := Put(cluster.status, mapStatus.(phase := InstallingActive)));
          busy := true;
          e := Going;
        case JobGaveUp =>
          cluster := cluster.(status := Put(cluster.status, AtInstallFailure(mapStatus, world.clock)));
          e := Going;
        case JobSucceeded =>
          e := CreateFirst(i, hash);
      }
    }

    method InstallFirst(i: nat, side: Side) returns (e: Ending)
      requires At(FirstInstall, i) && i < |cluster.spec.maps|
      requires side == VolumeSide(Entry(cluster.status, cluster.spec.maps[i].id).active)
      modifies `world, `labels, `cluster, `busy, `machine, `trail
      ensures Tracks() && |old(trail)| <= |trail| && cluster.spec == old(cluster.spec)
      ensures if e.Going? then At(NextCall(i + 1), i + 1) else Idle()
    {
      hide Action, Run, Job, InstalledWorld, Tracks;
      var id := cluster.spec.maps[i].id;
      var mapStatus := Entry(cluster.status, id);
      var answer, before := Await();
      if answer.None? {
        return Ended;
      }
      FirstInstallResult(before, answer.value);
      var ok := EnsureInitJob(answer.value, id, side);
      cluster := cluster.(status := Put(cluster.status, mapStatus.(phase := InstallingActive)));
      busy := true;
      e := if ok then Going else Ended;
    }

    /** ensurePodForMap: false when it returns an error. A pod of that name counts as created before. */
    method EnsurePodForMap(answer: Outcome, i: nat, volume: Volume, hash: string) returns (ok: bool)
      requires i < |cluster.spec.maps|
      modifies `world
      ensures ok == (answer == Ok || answer == Clash)
      ensures var id := cluster.spec.maps[i].id;
        world == CreatedWorld(old(world), Job(cluster.spec, id, VolumeSide(volume)), id,
                              Pod(Slugs.MapSlug(id), hash, volume, false, false, false), answer)
    {
      hide Slugs.MapSlug, Named;
      var id := cluster.spec.maps[i].id;
      var pod := Pod(Slugs.MapSlug(id), hash, volume, false, false, false);
      if (answer == Ok || answer == Lost) && !Named(world.pods, pod.slug, hash) {
        var recorded := Defaulted(Entry(world.cluster.status, id).active);
        world := world.(pods := world.pods + [pod]);
        Report(Created(id, Job(cluster.spec, id, VolumeSide(volume)), volume, recorded));
      }
      ok := answer == Ok || answer == Clash;
    }

    method CreateFirst(i: nat, hash: string) returns (e: Ending)
      requires At(FirstCreate(hash), i) && i < |cluster.spec.maps|
      modifies `world, `labels, `cluster, `busy, `machine, `trail
      ensures Tracks() && |old(trail)| <= |trail| && cluster.spec == old(cluster.spec)
      ensures if e.Going? then At(NextCall(i + 1), i + 1) else Idle()
    {
      hide Action, Run, Job, CreatedWorld, Slugs.MapSlug, Tracks;
      var mapStatus := Entry(cluster.status, cluster.spec.maps[i].id);
      var answer, before := Await();
      if answer.None? {
        return Ended;
      }
      FirstCreateResult(before, answer.value);
      var ok := EnsurePodForMap(answer.value, i, mapStatus.active, hash);
      busy := true;
      cluster := cluster.(status := Put(cluster.status, mapStatus.(phase := Provisioning)));
      e := if ok then Going else Ended;
    }

    /* ---------- persistStatus ---------- */

    /** A conflict is no error; any other failure is. On success the copy takes over the new resource version. */
    method PersistStatus(answer: Outcome, kind: WriteKind, id: string, ghost p: Pass) returns (ok: bool)
      requires p.cluster == cluster && p.start == start
      modifies `world, `cluster
      ensures Write(State(old(world), Some(p)), answer, kind, id)
           == State(world, if ok then Some(p.(cluster := cluster)) else None)
      ensures cluster.spec == old(cluster.spec) && cluster.status == old(cluster.status)
    {
      var gated := cluster.spec.rollout != Parallel;
      var before := world.cluster;
      if answer == Fail || answer == Clash {
        return false;
      }
      if cluster.rev != before.rev {
        Report(Wrote(kind, id, world.clock, false, gated, start, before, before));
        return true;
      }
      var after := before.(status := cluster.status, summary := cluster.summary, rev := before.rev + 1);
      world := world.(cluster := after);
      Report(Wrote(kind, id, world.clock, true, gated, start, before, after));
      if answer == Lost {
        return false;
      }
      cluster := cluster.(rev := after.rev);
      ok := true;
    }

    /* ---------- steady and rollback ---------- */

    method Steady(i: nat, pod: Pod, ghost call: Call) returns (e: Ending)
      requires i < |cluster.spec.maps| && Tracks()
      requires machine == State(world, Some(SteadyPass(Pass(call, i, cluster, busy, gate, start),
                                                       Entry(cluster.status, cluster.spec.maps[i].id), pod,
                                                         world.clock)))
      modifies `world, `labels, `cluster, `busy, `machine, `trail
      ensures Tracks() && |old(trail)| <= |trail| && cluster.spec == old(cluster.spec)
      ensures if e.Going? then At(NextCall(i + 1), i + 1) else Idle()
    {
      hide Action, Run, Tracks, SetCondition;
      var mapStatus := Entry(cluster.status, cluster.spec.maps[i].id);
      if pod.crashing && mapStatus.lastGood != Unset && mapStatus.lastGood != mapStatus.active {
        busy := true;
        e := Rollback(i, pod);
        return;
      }
      if pod.crashing {
        cluster := cluster.(status := Put(cluster.status,
          WithCondition(mapStatus, PodReady, false, "PodCrashLooping", world.clock)));
        busy := true;
        return Going;
      }
      if pod.ready {
        mapStatus := mapStatus.(phase := Running, lastGood := mapStatus.active);
        cluster := cluster.(status := Put(cluster.status,
          WithCondition(mapStatus, PodReady, true, "RCONReachable", world.clock)));
      } else {
        busy := true;
        cluster := cluster.(status := Put(cluster.status,
          WithCondition(mapStatus, PodReady, false, "PodNotReady", world.clock)));
      }
      e := Going;
    }

    /** Deletes a pod by name; the error is ignored. */
    method DeletePodByName(answer: Outcome, why: DeleteReason, id: string, pod: Pod)
      modifies `world
      ensures world == DeletedWorld(old(world), answer, why, id, pod)
    {
      var applied := answer == Ok || answer == Lost;
      Report(Deleted(why, id, world.clock, applied));
      if applied {
        world := world.(pods := DeletePod(world.pods, pod.slug, pod.hash));
      }
    }

    method Rollback(i: nat, badPod: Pod) returns (e: Ending)
      requires At(RollbackPersist(badPod), i) && i < |cluster.spec.maps|
      modifies `world, `labels, `cluster, `busy, `machine, `trail
      ensures Tracks() && |old(trail)| <= |trail| && cluster.spec == old(cluster.spec)
      ensures if e.Going? then At(NextCall(i + 1), i + 1) else Idle()
    {
      hide Action, Run, Tracks, SetCondition, Write;
      var id := cluster.spec.maps[i].id;
      var mapStatus := Entry(cluster.status, id);
      var answer, before := Await();
      if answer.None? {
        return Ended;
      }
      RollbackResult(before, answer.value);
      mapStatus := mapStatus.(active := mapStatus.lastGood);
      cluster := cluster.(status := Put(cluster.status,
        WithCondition(mapStatus, RollbackOccurred, true, "PodCrashLooping", world.clock)));
      var ok := PersistStatus(answer.value, WriteKind.Rollback, id,
        Pass(RollbackPersist(badPod), i, cluster, busy, gate, start));
      if !ok {
        return Ended;
      }
      e := DeleteBadPod(i, badPod);
    }

    method DeleteBadPod(i: nat, badPod: Pod) returns (e: Ending)
      requires At(RollbackDelete(badPod), i) && i < |cluster.spec.maps|
      modifies `world, `labels, `cluster, `busy, `machine, `trail
      ensures Tracks() && |old(trail)| <= |trail| && cluster.spec == old(cluster.spec)
      ensures if e.Going? then At(NextCall(i + 1), i + 1) else Idle()
    {
      hide Action, Run, Tracks, DeletedWorld;
      var answer, before := Await();
      if answer.None? {
        return Ended;
      }
      RollbackDeleteResult(before, answer.value);
      DeletePodByName(answer.value, ByRollback, cluster.spec.maps[i].id, badPod);
      e := Going;
    }

    /* ---------- rollUpdate ---------- */

    method RollUpdate(i: nat, currentPod: Pod) returns (e: Ending)
      requires At(RollJob(currentPod), i) && i < |cluster.spec.maps|
      modifies `world, `labels, `cluster, `busy, `machine, `trail
      ensures Tracks() && |old(trail)| <= |trail| && cluster.spec == old(cluster.spec)
      ensures if e.Going? then At(NextCall(i + 1), i + 1) else Idle()
    {
      hide Action, Run, Tracks, ReadJob, Job, SetCondition;
      var id := cluster.spec.maps[i].id;
      var mapStatus := Entry(cluster.status, id);
      var inactiveSide := VolumeSide(OtherVolume(mapStatus.active));
      var answer, before := Await();
      if answer.None? {
        return Ended;
      }
      RollJobResult(before, answer.value);
      var verdict := InitJobStatus(answer.value, id, inactiveSide, true);
      hide SeenWorld;
      match verdict {
        case JobMissing =>
          e := InstallInactive(i, inactiveSide);
        case JobRunning =>
          cluster := cluster.(status := Put(cluster.status, mapStatus.(phase := InstallingInactive)));
          e := Going;
        case JobGaveUp =>
          cluster := cluster.(status := Put(cluster.status, AtInstallFailure(mapStatus, world.clock)));
          e := Going;
        case JobSucceeded =>
          if mapStatus.deadline.None? {
            e := StartDrain(i, world.clock);
          } else if world.clock < mapStatus.deadline.value {
            cluster := cluster.(status := Put(cluster.status, mapStatus.(phase := DrainingActive)));
            e := Going;
          } else if mapStatus.rcon != "" {
            e := SaveThenSwap(i, currentPod);
          } else {
            e := CommitSwap(i, currentPod);
          }
      }
    }

    method InstallInactive(i: nat, side: Side) returns (e: Ending)
      requires At(RollInstall, i) && i < |cluster.spec.maps|
      requires side == VolumeSide(OtherVolume(Entry(cluster.status, cluster.spec.maps[i].id).active))
      modifies `world, `labels, `cluster, `busy, `machine, `trail
      ensures Tracks() && |old(trail)| <= |trail| && cluster.spec == old(cluster.spec)
      ensures if e.Going? then At(NextCall(i + 1), i + 1) else Idle()
    {
      hide Action, Run, Job, InstalledWorld, Tracks;
      var id := cluster.spec.maps[i].id;
      var mapStatus := Entry(cluster.status, id);
      var answer, before := Await();
      if answer.None? {
        return Ended;
      }
      RollInstallResult(before, answer.value);
      var ok := EnsureInitJob(answer.value, id, side);
      cluster := cluster.(status := Put(cluster.status, mapStatus.(phase := InstallingInactive)));
      e := if ok then Going else Ended;
    }

    /** Step B: the deadline is stored before players are told. */
    method StartDrain(i: nat, now: int) returns (e: Ending)
      requires At(DrainPersist(now), i) && i < |cluster.spec.maps|
      modifies `world, `labels, `cluster, `busy, `machine, `trail
      ensures Tracks() && |old(trail)| <= |trail| && cluster.spec == old(cluster.spec)
      ensures if e.Going? then At(NextCall(i + 1), i + 1) else Idle()
    {
      hide Action, Run, Tracks, Write, Put;
      var id := cluster.spec.maps[i].id;
      var mapStatus := Entry(cluster.status, id);
      var grace := cluster.spec.grace;
      if grace < 0 {
        grace := 0;
      }
      ghost var p := Pass(DrainPersist(now), i, cluster, busy, gate, start);
      mapStatus := mapStatus.(deadline := Some(now + grace), phase := DrainingActive);
      cluster := cluster.(status := Put(cluster.status, mapStatus));
      var answer, before := Await();
      if answer.None? {
        return Ended;
      }
      DrainResult(before, answer.value);
      var ok := PersistStatus(answer.value, DrainStart(now, grace), id, p.(cluster := cluster));
      if !ok {
        cluster := cluster.(status := Put(cluster.status, mapStatus.(deadline := None, phase := Running)));
        return Ended;
      }
      if grace > 0 && mapStatus.rcon != "" {
        e := AnnounceShutdown(i);
      } else {
        e := Going;
      }
    }

    method AnnounceShutdown(i: nat) returns (e: Ending)
      requires At(Announce, i) && i < |cluster.spec.maps|
      modifies `world, `labels, `cluster, `busy, `machine, `trail
      ensures Tracks() && |old(trail)| <= |trail| && cluster.spec == old(cluster.spec)
      ensures if e.Going? then At(NextCall(i + 1), i + 1) else Idle()
    {
      hide Action, Run, Tracks;
      var answer, before := Await();
      if answer.None? {
        return Ended;
      }
      MessageResult(before, answer.value);
      Report(Announced(cluster.spec.maps[i].id));
      e := Going;
    }

    method SaveThenSwap(i: nat, pod: Pod) returns (e: Ending)
      requires At(SaveAndExit(pod), i) && i < |cluster.spec.maps|
      modifies `world, `labels, `cluster, `busy, `machine, `trail
      ensures Tracks() && |old(trail)| <= |trail| && cluster.spec == old(cluster.spec)
      ensures if e.Going? then At(NextCall(i + 1), i + 1) else Idle()
    {
      hide Action, Run, Tracks;
      var answer, before := Await();
      if answer.None? {
        return Ended;
      }
      MessageResult(before, answer.value);
      Report(SavedAndExited(cluster.spec.maps[i].id));
      e := CommitSwap(i, pod);
    }

    /** The swap is stored before the world is touched. */
    method CommitSwap(i: nat, pod: Pod) returns (e: Ending)
      requires At(SwapPersist(pod), i) && i < |cluster.spec.maps|
      modifies `world, `labels, `cluster, `busy, `machine, `trail
      ensures Tracks() && |old(trail)| <= |trail| && cluster.spec == old(cluster.spec)
      ensures if e.Going? then At(NextCall(i + 1), i + 1) else Idle()
    {
      hide Action, Run, Tracks, Write;
      var id := cluster.spec.maps[i].id;
      var mapStatus := Entry(cluster.status, id);
      ghost var p := Pass(SwapPersist(pod), i, cluster, busy, gate, start);
      mapStatus := mapStatus.(active := OtherVolume(mapStatus.active), deadline := None, phase := Swapping);
      cluster := cluster.(status := Put(cluster.status, mapStatus));
      var answer, before := Await();
      if answer.None? {
        return Ended;
      }
      SwapResult(before, answer.value);
      var ok := PersistStatus(answer.value, Swap, id, p.(cluster := cluster));
      if !ok {
        return Ended;
      }
      e := ReplacePod(i, pod);
    }

    method ReplacePod(i: nat, pod: Pod) returns (e: Ending)
      requires At(SwapDelete(pod), i) && i < |cluster.spec.maps|
      modifies `world, `labels, `cluster, `busy, `machine, `trail
      ensures Tracks() && |old(trail)| <= |trail| && cluster.spec == old(cluster.spec)
      ensures if e.Going? then At(NextCall(i + 1), i + 1) else Idle()
    {
      hide Action, Run, Tracks, DeletedWorld, ReadHash;
      var answer, before := Await();
      if answer.None? {
        return Ended;
      }
      SwappedResult(before, answer.value);
      DeletePodByName(answer.value, ByRoll, cluster.spec.maps[i].id, pod);
      answer, before := Await();
      if answer.None? {
        return Ended;
      }
      SwappedResult(before, answer.value);
      var hash := ReadHash(world, answer.value, cluster.spec, i, Entry(cluster.status, cluster.spec.maps[i].id).active);
      e := CreateNext(i, hash);
    }

    method CreateNext(i: nat, hash: string) returns (e: Ending)
      requires At(SwapCreate(hash), i) && i < |cluster.spec.maps|
      modifies `world, `labels, `cluster, `busy, `machine, `trail
      ensures Tracks() && |old(trail)| <= |trail| && cluster.spec == old(cluster.spec)
      ensures if e.Going? then At(NextCall(i + 1), i + 1) else Idle()
    {
      hide Action, Run, Job, CreatedWorld, Slugs.MapSlug, Tracks;
      var answer, before := Await();
      if answer.None? {
        return Ended;
      }
      SwapCreateResult(before, answer.value);
      var ok := EnsurePodForMap(answer.value, i, Entry(cluster.status, cluster.spec.maps[i].id).active, hash);
      e := if ok then Going else Ended;
    }

    /* ---------- reconcileMap ---------- */

    method ReconcileMap(i: nat) returns (e: Ending)
      requires At(EnsureMap, i) && i < |cluster.spec.maps|
      modifies `world, `labels, `cluster, `busy, `machine, `trail
      ensures Tracks() && |old(trail)| <= |trail| && cluster.spec == old(cluster.spec)
      ensures if e.Going? then At(NextCall(i + 1), i + 1) else Idle()
    {
      hide Action, Run, Tracks, ReadHash, FindActivePod, Slugs.MapSlug;
      var id := cluster.spec.maps[i].id;
      var answer, before := Await();
      if answer.None? {
        return Ended;
      }
      PrepareResult(before, answer.value);
      if answer.value != Ok {
        return Ended;
      }
      var mapStatus := Entry(cluster.status, id);
      if mapStatus.active == Unset {
        mapStatus := mapStatus.(active := ServerA);
      }
      cluster := cluster.(status := Put(cluster.status, mapStatus));
      answer, before := Await();
      if answer.None? {
        return Ended;
      }
      PrepareResult(before, answer.value);
      var desiredHash := ReadHash(world, answer.value, cluster.spec, i, mapStatus.active);
      e := FindAndDispatch(i, desiredHash);
    }

    method FindAndDispatch(i: nat, desiredHash: string) returns (e: Ending)
      requires At(ListPods(desiredHash), i) && i < |cluster.spec.maps|
      modifies `world, `labels, `cluster, `busy, `machine, `trail
      ensures Tracks() && |old(trail)| <= |trail| && cluster.spec == old(cluster.spec)
      ensures if e.Going? then At(NextCall(i + 1), i + 1) else Idle()
    {
      hide Action, Run, Tracks, FindActivePod, Slugs.MapSlug;
      var id := cluster.spec.maps[i].id;
      var answer, before := Await();
      if answer.None? {
        return Ended;
      }
      PrepareResult(before, answer.value);
      if answer.value != Ok {
        return Ended;
      }
      var activePod := FindPod(world.pods, Slugs.MapSlug(id), desiredHash);
      e := Dispatch(i, desiredHash, activePod);
    }

    /** Surfaces the address, then decides between first start, steady state, hold-back and roll. */
    method Dispatch(i: nat, desiredHash: string, activePod: Option<Pod>) returns (e: Ending)
      requires At(ReadAddress(desiredHash, activePod), i) && i < |cluster.spec.maps|
      modifies `world, `labels, `cluster, `busy, `machine, `trail
      ensures Tracks() && |old(trail)| <= |trail| && cluster.spec == old(cluster.spec)
      ensures if e.Going? then At(NextCall(i + 1), i + 1) else Idle()
    {
      hide Action, Run, Tracks, SteadyPass;
      var id := cluster.spec.maps[i].id;
      var mapStatus := Entry(cluster.status, id);
      var answer, before := Await();
      if answer.None? {
        return Ended;
      }
      DispatchResult(before, answer.value);
      if answer.value == Ok && id in world.addresses {
        mapStatus := mapStatus.(rcon := world.addresses[id]);
      }
      cluster := cluster.(status := Put(cluster.status, mapStatus));
      if activePod.None? {
        e := FirstStart(i, desiredHash);
      } else if activePod.value.hash == desiredHash {
        e := Steady(i, activePod.value, ReadAddress(desiredHash, activePod));
      } else if gate != "" && gate != id {
        busy := true;
        e := Going;
      } else {
        busy := true;
        e := RollUpdate(i, activePod.value);
      }
    }

    /* ---------- gcOrphanedMaps, for the pods ---------- */

    static lemma OrphansFrom(pods: seq<Pod>, spec: Spec, k: nat)
      requires k < |pods|
      ensures Orphans(pods[k..], spec)
           == if pods[k].slug != "" && !Kept(spec, pods[k].slug) then [pods[k]] + Orphans(pods[k + 1..], spec)
              else Orphans(pods[k + 1..], spec)
    {
      hide Kept;
      assert pods[k..][1..] == pods[k + 1..];
    }

    method GcOrphanedPods() returns (e: Ending)
      requires At(ListOrphans, |cluster.spec.maps|)
      modifies `world, `labels, `machine, `trail
      ensures Tracks() && |old(trail)| <= |trail|
      ensures if e.Going? then At(FinalWrite, |cluster.spec.maps|) else Idle()
    {
      hide Action, Run, Tracks, Orphans, Kept, DeletedWorld;
      var answer, before := Await();
      if answer.None? {
        return Ended;
      }
      ListOrphansResult(before, answer.value);
      if answer.value != Ok {
        Report(OrphansUnlisted);
        return Going;
      }
      var listed := world.pods;
      assert listed[0..] == listed;
      for k := 0 to |listed|
        invariant At(DeleteNext(Orphans(listed[k..], cluster.spec)), |cluster.spec.maps|)
        invariant cluster == old(cluster) && |old(trail)| <= |trail|
      {
        OrphansFrom(listed, cluster.spec, k);
        if listed[k].slug != "" && !Kept(cluster.spec, listed[k].slug) {
          var going := DeleteOrphanPod(listed[k], Orphans(listed[k + 1..], cluster.spec));
          if going.Ended? {
            return Ended;
          }
        }
      }
      assert listed[|listed|..] == [];
      NoOrphans(cluster.spec);
      e := Going;
    }

    static lemma NoOrphans(spec: Spec)
      ensures Orphans([], spec) == []
    {
    }

    method DeleteOrphanPod(pod: Pod, ghost rest: seq<Pod>) returns (e: Ending)
      requires At(DeleteOrphan([pod] + rest), |cluster.spec.maps|)
      modifies `world, `labels, `machine, `trail
      ensures Tracks() && |old(trail)| <= |trail|
      ensures if e.Going? then At(DeleteNext(rest), |cluster.spec.maps|) else Idle()
    {
      hide Action, Run, Tracks, DeletedWorld;
      assert ([pod] + rest)[1..] == rest;
      var answer, before := Await();
      if answer.None? {
        return Ended;
      }
      DeleteOrphanResult(before, answer.value);
      DeletePodByName(answer.value, Orphaned, pod.slug, pod);
      e := Going;
    }

    /* ---------- Reconcile ---------- */

    /** One whole pass, from reading the cluster to storing its status: whatever the script does to it, the code goes
        through the states of the step system under the labels next in the script, and stops where the pass is over,
        neither before nor after. */
    method Reconcile()
      requires Tracks() && Idle()
      modifies this
      ensures Tracks() && Idle()
      ensures State(world, None) == Run(origin, trail)
      ensures old(trail) <= trail && WholePass(origin, trail, |old(trail)|)
    {
      hide Run, Tracks, InOnePass;
      WhereItIs();
      ghost var was := trail;
      BeginPass();
      var e := ReadCluster();
      if e.Going? {
        RunPass();
      }
      WhereItIs();
      assert trail[..|was|] == was;
    }

    /** Reads the cluster and notes the mid-flight map. */
    method ReadCluster() returns (e: Ending)
      requires Tracks() && Idle() && Unfinished()
      modifies `world, `labels, `cluster, `busy, `gate, `start, `machine, `trail
      ensures Tracks() && |old(trail)| < |trail|
      ensures if e.Going? then At(EnsureCluster, 0) else Idle()
    {
      hide Action, Run, Tracks, Unfinished, Gate;
      var answer, before := Await();
      if answer.None? {
        return Ended;
      }
      BeginResult(world, answer.value);
      if answer.value != Ok {
        return Ended;
      }
      cluster, start, busy := world.cluster, world.cluster.status, false;
      gate := MidFlightMap(cluster);
      Report(Began);
      e := Going;
    }

    /** Under the Parallel policy no map holds the others back. */
    static method MidFlightMap(c: Cluster) returns (gate: string)
      ensures gate == Gate(c)
    {
      gate := "";
      if c.spec.rollout != Parallel {
        gate := FindInFlight(c.status);
      }
    }

    /** The rest of the pass. */
    method RunPass()
      requires At(EnsureCluster, 0)
      modifies `world, `labels, `cluster, `busy, `machine, `trail
      ensures Tracks() && |old(trail)| <= |trail| && Idle()
    {
      hide Action, Run, Tracks;
      var e := RunMaps();
      if e.Going? {
        e := GcOrphanedPods();
      }
      if e.Going? {
        StoreStatus();
      }
    }

    ghost method BeginPass()
      requires Tracks() && Idle()
      modifies `base
      ensures Tracks() && base == trail && Unfinished()
    {
      hide Run;
      base := trail;
    }

    /** What it means to track the step system. */
    lemma WhereItIs()
      requires Tracks()
      ensures Wf(origin) && machine == Run(origin, trail)
      ensures base <= trail && InOnePass(origin, trail, |base|)
      ensures trail == [] || !trail[|trail| - 1].Env?
    {
      hide Run;
    }

    method RunMaps() returns (e: Ending)
      requires At(EnsureCluster, 0)
      modifies `world, `labels, `cluster, `busy, `machine, `trail
      ensures Tracks() && |old(trail)| <= |trail|
      ensures if e.Going? then At(ListOrphans, |cluster.spec.maps|) else Idle()
    {
      hide Action, Run, Tracks;
      var answer, before := Await();
      if answer.None? {
        return Ended;
      }
      EnsureClusterResult(before, answer.value);
      if answer.value != Ok {
        return Ended;
      }
      for i := 0 to |cluster.spec.maps|
        invariant At(NextCall(i), i) && cluster.spec == old(cluster.spec) && |old(trail)| <= |trail|
      {
        e := ReconcileMap(i);
        if e.Ended? {
          return Ended;
        }
      }
      e := Going;
    }

    /** Prunes the statuses, sums them up and stores them. */
    method StoreStatus()
      requires At(FinalWrite, |cluster.spec.maps|)
      modifies `world, `labels, `cluster, `machine, `trail
      ensures Tracks() && |old(trail)| <= |trail| && Idle()
    {
      hide Action, Run, Tracks, Write, Prune, CountReady, AggregatePhase;
      ghost var p := Pass(FinalWrite, |cluster.spec.maps|, cluster, busy, gate, start);
      var maps := new MapStatus[|cluster.status|](k requires 0 <= k < |cluster.status| reads this => cluster.status[k]);
      assert maps[..] == cluster.status;
      var n := PruneInPlace(maps, cluster.spec);
      cluster := cluster.(status := maps[..n]);
      var ready := CountReadyMaps(cluster.status);
      var phase := AggregatePhases(cluster.status);
      cluster := cluster.(summary := Summary(|cluster.spec.maps|, ready, phase));
      var answer, before := Await();
      if answer.None? {
        return;
      }
      FinalResult(before, answer.value);
      var ok := PersistStatus(answer.value, Final, "", p.(cluster := cluster));
    }
  }
}
