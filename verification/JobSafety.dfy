/** No init Job writes under a running server: an unfinished Job of a map never targets the volume its live pod mounts,
    as long as the image stays; and one edit of the image is enough to break that. */
module JobSafety {
  import opened ArkTypes
  import opened Statuses
  import opened World
  import opened Operator
  import opened Coherence
  import opened Handover
  import opened LivePods
  import opened Exclusivity
  import opened Recovery
  import Drift
  import Frame
  import Runs
  import Slugs
  import Visits

  /** The Job is there and has neither succeeded nor failed. */
  predicate Unfinished(jobs: map<JobKey, seq<JobCondition>>, key: JobKey) {
    key in jobs && JobVerdict(jobs[key]) == JobRunning
  }

  /** What is to hold: no unfinished Job of the map, for whatever image, targets a side a live pod of it mounts. */
  ghost predicate NoneUnder(w: World, slug: string) {
    forall key: JobKey :: key.slug == slug && Unfinished(w.jobs, key) ==> !MountedLive(w.pods, slug, key.side)
  }

  /* ---------- the invariant ---------- */

  /** Unfinished Jobs of the map are all for the image. */
  ghost predicate OneImage(jobs: map<JobKey, seq<JobCondition>>, slug: string, image: string) {
    forall key: JobKey :: key.slug == slug && Unfinished(jobs, key) ==> key.image == image
  }

  ghost predicate Clear(w: World, slug: string, image: string) {
    forall p :: p in w.pods && Live(p, slug) ==> !Unfinished(w.jobs, JobKey(slug, VolumeSide(p.volume), image))
  }

  /** The Job a pass goes by is finished. */
  ghost predicate TargetFinished(s: State, id: string, image: string)
    requires Wf(s)
  {
    s.pass.Some? && NeedsJob(s.pass.value.call) && Id(s) == id ==>
      !Unfinished(s.w.jobs, JobKey(Slugs.MapSlug(id), TargetSide(s), image))
  }

  ghost predicate ImageStays(s: State, image: string) {
    && InstallImage(s.w.cluster.spec) == image
    && (s.pass.Some? ==> InstallImage(s.pass.value.cluster.spec) == image)
  }

  ghost predicate Guarded(s: State, id: string, image: string)
    requires Wf(s)
  {
    && ImageStays(s, image) && OneImage(s.w.jobs, Slugs.MapSlug(id), image) && Clear(s.w, Slugs.MapSlug(id), image)
    && TargetFinished(s, id, image)
  }

  lemma ClearIsNoneUnder(w: World, slug: string, image: string)
    requires OneImage(w.jobs, slug, image) && Clear(w, slug, image)
    ensures NoneUnder(w, slug)
  {
    forall key: JobKey | key.slug == slug && Unfinished(w.jobs, key) ensures !MountedLive(w.pods, slug, key.side) {
      assert key == JobKey(slug, key.side, image);
      forall i | 0 <= i < |w.pods| && Live(w.pods[i], slug) ensures VolumeSide(w.pods[i].volume) != key.side {
        assert w.pods[i] in w.pods;
      }
    }
  }

  lemma NoneUnderIsClear(w: World, slug: string, image: string)
    requires NoneUnder(w, slug)
    ensures Clear(w, slug, image)
  {
    forall p | p in w.pods && Live(p, slug) ensures !Unfinished(w.jobs, JobKey(slug, VolumeSide(p.volume), image)) {
      var i :| 0 <= i < |w.pods| && w.pods[i] == p;
      assert MountedLive(w.pods, slug, VolumeSide(p.volume));
    }
  }

  /* ---------- Jobs ---------- */

  /** Jobs come only from the operator, and none that is finished starts over. */
  ghost predicate JobsOnlyFinish(a: map<JobKey, seq<JobCondition>>, b: map<JobKey, seq<JobCondition>>) {
    forall key :: Unfinished(b, key) ==> Unfinished(a, key)
  }

  lemma FewerStaysClear(w: World, v: World, slug: string, image: string)
    requires JobsOnlyFinish(w.jobs, v.jobs) && Thins(w.pods, v.pods)
    ensures OneImage(w.jobs, slug, image) ==> OneImage(v.jobs, slug, image)
    ensures Clear(w, slug, image) ==> Clear(v, slug, image)
  {
    hide Unfinished;
    if Clear(w, slug, image) {
      forall q | q in v.pods && Live(q, slug) ensures !Unfinished(v.jobs, JobKey(slug, VolumeSide(q.volume), image)) {
        var p :| p in w.pods && !p.terminating && SameName(p, q) && p.volume == q.volume;
        assert Live(p, slug);
      }
    }
  }

  /** The Jobs after an install: one more, if it was missing. */
  ghost predicate InstalledOne(a: map<JobKey, seq<JobCondition>>, b: map<JobKey, seq<JobCondition>>, own: JobKey) {
    forall key :: key != own && Unfinished(b, key) ==> Unfinished(a, key)
  }

  lemma InstallAddsOne(s: State, o: Outcome, side: Side, phase: MapPhase)
    requires AtMap(s)
    ensures InstalledOne(s.w.jobs, Install(s, o, side, phase).w.jobs, Job(s.pass.value.cluster.spec, Id(s), side))
  {
    hide Slugs.MapSlug, MountedLive, Put, JobVerdict;
  }

  /** An install on a side no live pod mounts leaves all clear. */
  lemma InstallStaysClear(w: World, v: World, own: JobKey, slug: string, image: string)
    requires InstalledOne(w.jobs, v.jobs, own) && v.pods == w.pods && own.image == image
    requires OneImage(w.jobs, slug, image) && Clear(w, slug, image)
    requires own.slug == slug ==> forall p :: p in w.pods && Live(p, slug) ==> VolumeSide(p.volume) != own.side
    ensures OneImage(v.jobs, slug, image) && Clear(v, slug, image)
  {
    hide Unfinished;
  }

  /* ---------- each call ---------- */

  lemma FirstInstallKeeps(s: State, o: Outcome, id: string, always: bool, image: string)
    requires InPass(s) && s.pass.value.call.FirstInstall? && Exclusive(s, id, always) && Guarded(s, id, image)
    ensures var t := ActFirst(s, o);
      OneImage(t.w.jobs, Slugs.MapSlug(id), image) && Clear(t.w, Slugs.MapSlug(id), image)
  {
    ExclusiveParts(s, id, always);
    SlugsDiffer(s, id, always);
    var own := Job(s.pass.value.cluster.spec, Id(s), VolumeSide(Mine(s).active));
    InstallAddsOne(Busy(s), o, VolumeSide(Mine(s).active), InstallingActive);
    hide Exclusive, Install, Slugs.MapSlug, OneImage, Clear, InstalledOne, Sole, Volumes, Settled, Awaiting, Kept;
    InstallStaysClear(s.w, ActFirst(s, o).w, own, Slugs.MapSlug(id), image);
  }

  lemma RollInstallKeeps(s: State, o: Outcome, id: string, always: bool, image: string)
    requires InPass(s) && s.pass.value.call.RollInstall? && Exclusive(s, id, always) && Placed(s)
      && Guarded(s, id, image)
    ensures var t := ActRoll(s, o); OneImage(t.w.jobs, Slugs.MapSlug(id), image) && Clear(t.w, Slugs.MapSlug(id), image)
  {
    SlugsDiffer(s, id, always);
    if Id(s) == id {
      MineIsRecorded(s, id, always);
    }
    var side := VolumeSide(OtherVolume(Mine(s).active));
    InstallAddsOne(s, o, side, InstallingInactive);
    hide Exclusive, Install, Slugs.MapSlug, OneImage, Clear, InstalledOne, Placed;
    InstallStaysClear(s.w, ActRoll(s, o).w, Job(s.pass.value.cluster.spec, Id(s), side), Slugs.MapSlug(id), image);
  }

  /** Other maps have other slugs. */
  lemma SlugsDiffer(s: State, id: string, always: bool)
    requires InPass(s) && AtMap(s) && Exclusive(s, id, always)
    ensures Id(s) != id ==> Slug(s) != Slugs.MapSlug(id)
  {
    hide Slugs.MapSlug, Sole, Settled, Remembers;
  }

  lemma CreationStaysClear(s: State, u: State, o: Outcome, hash: string, slug: string, image: string)
    requires AtMap(u) && u.w == s.w && Clear(s.w, slug, image)
    requires Slug(u) == slug ==> !Unfinished(s.w.jobs, JobKey(slug, VolumeSide(Mine(u).active), image))
    ensures Clear(Create(u, o, hash).w, slug, image) && Create(u, o, hash).w.jobs == s.w.jobs
  {
    hide Slugs.MapSlug, Named, Unfinished;
  }

  lemma CreatingKeeps(s: State, o: Outcome, id: string, always: bool, image: string)
    requires InPass(s) && Creates(s.pass.value.call) && Exclusive(s, id, always) && Guarded(s, id, image)
    ensures var t := Action(s, o); OneImage(t.w.jobs, Slugs.MapSlug(id), image) && Clear(t.w, Slugs.MapSlug(id), image)
  {
    SlugsDiffer(s, id, always);
    Handover.CreatedWorld(s, o);
    hide Exclusive, Action, Create, Slugs.MapSlug, OneImage, Clear, Unfinished;
    CreationStaysClear(s, Creator(s), o, s.pass.value.call.hash, Slugs.MapSlug(id), image);
  }

  lemma DeletionStaysClear(s: State, o: Outcome, why: DeleteReason, about: string, pod: Pod, slug: string,
      image: string)
    requires OneImage(s.w.jobs, slug, image) && Clear(s.w, slug, image)
    ensures var t := Delete(s, o, why, about, pod); OneImage(t.w.jobs, slug, image) && Clear(t.w, slug, image)
  {
    hide OneImage, Clear, DeletePod, Thins, Unfinished;
    DeleteThins(s.w.pods, pod.slug, pod.hash);
    var t := Delete(s, o, why, about, pod);
    if o == Ok || o == Lost {
      FewerStaysClear(s.w, t.w, slug, image);
    } else {
      ClearByParts(s.w, t.w, slug, image);
    }
  }

  lemma ClearByParts(w: World, v: World, slug: string, image: string)
    requires v.pods == w.pods && v.jobs == w.jobs
    ensures Clear(v, slug, image) == Clear(w, slug, image)
  {
  }

  lemma OtherCallsKeep(s: State, o: Outcome, id: string, image: string)
    requires InPass(s) && !Creates(s.pass.value.call) && !Frame.Installs(s.pass.value.call) && Guarded(s, id, image)
    ensures var t := Action(s, o); OneImage(t.w.jobs, Slugs.MapSlug(id), image) && Clear(t.w, Slugs.MapSlug(id), image)
  {
    hide ActPrepare, ActDispatch, ActFirst, ActRollback, ActRoll, ActDrain, ActSwap, ActSwapped, ActFinish;
    hide OneImage, Clear, TargetFinished, Delete, Slugs.MapSlug;
    Frame.ActionKeepsFrame(s, o);
    var t, call, slug := Action(s, o), s.pass.value.call, Slugs.MapSlug(id);
    if LeavesPods(call) {
      PodsStay(s, o);
      ClearByParts(s.w, t.w, slug, image);
    } else {
      match call
      case DeleteOrphan(todo) =>
        OrphanDeletion(s, o);
        DeletionStaysClear(s, o, Orphaned, todo[0].slug, todo[0], slug, image);
      case SwapDelete(pod) =>
        SwapDeletion(s, o);
        DeletionStaysClear(s, o, ByRoll, Id(s), pod, slug, image);
      case RollbackDelete(pod) =>
        RollbackDeletion(s, o);
        DeletionStaysClear(s, o, ByRollback, Id(s), pod, slug, image);
      case _ =>
        ListingKeepsPods(s, o);
        ClearByParts(s.w, t.w, slug, image);
    }
  }

  /* ---------- the Job a pass goes by ---------- */

  lemma FirstJobFinished(s: State, o: Outcome, id: string, image: string)
    requires InPass(s) && s.pass.value.call.FirstJob? && ImageStays(s, image)
    ensures TargetFinished(ActFirst(s, o), id, image)
  {
    hide Slugs.MapSlug, SetCondition, JobVerdict;
  }

  lemma RollJobFinished(s: State, o: Outcome, id: string, image: string)
    requires InPass(s) && s.pass.value.call.RollJob? && ImageStays(s, image)
    ensures TargetFinished(ActRoll(s, o), id, image)
  {
    hide Slugs.MapSlug, SetCondition, JobVerdict;
  }

  lemma InheritsTarget(s: State, t: State, id: string, image: string)
    requires InPass(s) && Wf(t) && AtMap(t) && NeedsJob(s.pass.value.call) && SameTarget(s, t)
    requires t.w.jobs == s.w.jobs && TargetFinished(s, id, image)
    ensures TargetFinished(t, id, image)
  {
    hide TargetSide, Unfinished, Slugs.MapSlug;
  }

  lemma NoTarget(t: State, id: string, image: string)
    requires Wf(t) && (t.pass.Some? ==> !NeedsJob(t.pass.value.call))
    ensures TargetFinished(t, id, image)
  {
  }

  lemma ActionKeepsTarget(s: State, o: Outcome, id: string, image: string)
    requires Wf(s) && TargetFinished(s, id, image) && ImageStays(s, image)
    ensures TargetFinished(Action(s, o), id, image)
  {
    hide ActPrepare, ActDispatch, ActFirst, ActRollback, ActRoll, ActDrain, ActSwap, ActSwapped, ActFinish, ActBegin;
    hide TargetFinished, SameTarget;
    var t := Action(s, o);
    if s.pass.None? {
      BeginHasNoTarget(s, o, id, image);
    } else {
      match s.pass.value.call
      case FirstJob(_) => FirstJobFinished(s, o, id, image);
      case RollJob(_) => RollJobFinished(s, o, id, image);
      case SaveAndExit(_) | SwapPersist(_) =>
        Frame.ActionKeepsFrame(s, o);
        SwapKeepsTarget(s, o);
        if t.pass.Some? { InheritsTarget(s, t, id, image); } else { NoTarget(t, id, image); }
      case SwapDelete(_) | Rehash =>
        Frame.ActionKeepsFrame(s, o);
        SwappedKeepsTarget(s, o);
        if t.pass.Some? { InheritsTarget(s, t, id, image); } else { NoTarget(t, id, image); }
      case _ => NoTarget(t, id, image);
    }
  }

  lemma BeginHasNoTarget(s: State, o: Outcome, id: string, image: string)
    requires s.pass.None?
    ensures TargetFinished(ActBegin(s, o), id, image)
  {
  }

  /* ---------- whole runs ---------- */

  lemma ActionKeepsGuarded(s: State, o: Outcome, id: string, always: bool, image: string)
    requires Wf(s) && Exclusive(s, id, always) && Placed(s) && Guarded(s, id, image)
    ensures Guarded(Action(s, o), id, image)
  {
    hide ActPrepare, ActDispatch, ActFirst, ActRollback, ActRoll, ActDrain, ActSwap, ActSwapped, ActFinish, ActBegin;
    hide OneImage, Clear, TargetFinished, Exclusive, Placed, Slugs.MapSlug, InstallImage;
    ActionKeepsTarget(s, o, id, image);
    ActionKeepsSpecs(s, o);
    if s.pass.None? {
      BeginKeepsClear(s, o, id, image);
    } else if s.pass.value.call.FirstInstall? {
      FirstInstallKeeps(s, o, id, always, image);
    } else if s.pass.value.call.RollInstall? {
      RollInstallKeeps(s, o, id, always, image);
    } else if Creates(s.pass.value.call) {
      CreatingKeeps(s, o, id, always, image);
    } else {
      OtherCallsKeep(s, o, id, image);
    }
  }

  lemma BeginKeepsClear(s: State, o: Outcome, id: string, image: string)
    requires s.pass.None? && OneImage(s.w.jobs, Slugs.MapSlug(id), image) && Clear(s.w, Slugs.MapSlug(id), image)
    ensures var t := ActBegin(s, o);
      OneImage(t.w.jobs, Slugs.MapSlug(id), image) && Clear(t.w, Slugs.MapSlug(id), image)
  {
    hide Slugs.MapSlug, Unfinished;
  }

  lemma OutsideKeepsGuarded(s: State, l: Label, id: string, image: string)
    requires Wf(s) && !l.Act? && Guarded(s, id, image)
    requires l.Env? ==> InstallImage(l.world.cluster.spec) == image && JobsOnlyFinish(s.w.jobs, l.world.jobs)
    ensures Guarded(Step(s, l), id, image)
  {
    hide OneImage, Clear, Slugs.MapSlug, InstallImage, Thins, JobVerdict;
    if l.Env? && EnvMay(s.w, l.world) {
      EnvThins(s.w, l.world);
      FewerStaysClear(s.w, l.world, Slugs.MapSlug(id), image);
      ClearByParts(l.world, Step(s, l).w, Slugs.MapSlug(id), image);
    }
  }

  ghost predicate EnvImage(labels: seq<Label>, image: string) {
    forall l :: l in labels && l.Env? ==> InstallImage(l.world.cluster.spec) == image
  }

  /** Wherever the environment moves, it makes no Job and starts none over. */
  ghost predicate JobsFinish(s: State, labels: seq<Label>)
    requires Wf(s)
  {
    forall n :: 0 <= n < |labels| && labels[n].Env? ==> JobsOnlyFinish(Run(s, labels[..n]).w.jobs, labels[n].world.jobs)
  }

  lemma JobsFinishBefore(s: State, labels: seq<Label>)
    requires Wf(s) && labels != [] && JobsFinish(s, labels)
    ensures JobsFinish(s, labels[..|labels| - 1])
    ensures var l := labels[|labels| - 1];
      l.Env? ==> JobsOnlyFinish(Run(s, labels[..|labels| - 1]).w.jobs, l.world.jobs)
  {
    hide Run, JobsOnlyFinish;
    var prefix := labels[..|labels| - 1];
    forall n | 0 <= n < |prefix| && prefix[n].Env?
      ensures JobsOnlyFinish(Run(s, prefix[..n]).w.jobs, prefix[n].world.jobs)
    {
      assert prefix[..n] == labels[..n];
      assert labels[n].Env?;
    }
  }

  lemma {:induction false} RunKeepsGuarded(s: State, labels: seq<Label>, id: string, always: bool, image: string)
    requires Wf(s) && Sound(s) && Exclusive(s, id, always) && EnvFits(labels, id, always)
    requires always || Slugs.MapSlug(id) != ""
    requires AllExclusive(s.w.log, id) && Undisturbed(Run(s, labels).w.log, id, always)
    requires Guarded(s, id, image) && EnvImage(labels, image) && JobsFinish(s, labels)
    ensures Guarded(Run(s, labels), id, image)
  {
    hide Action, Exclusive, Placed, Synced, Undisturbed, SpecFits, AllExclusive, Slugs.MapSlug, Guarded, JobsFinish;
    hide JobsOnlyFinish, InstallImage;
    if labels != [] {
      var prefix, l := labels[..|labels| - 1], labels[|labels| - 1];
      assert l in labels;
      JobsFinishBefore(s, labels);
      var r, t := Run(s, prefix), Run(s, labels);
      RunLast(s, labels);
      hide Run;
      assert r.w.log == t.w.log[..|r.w.log|];
      UndisturbedStart(r.w.log, t.w.log, id, always);
      RunKeepsGuarded(s, prefix, id, always, image);
      RunKeepsExclusive(s, prefix, id, always);
      if l.Act? {
        ActionKeepsGuarded(r, l.outcome, id, always, image);
      } else {
        OutsideKeepsGuarded(r, l, id, image);
      }
    }
  }

  /** In every run in which the image stays, Jobs come from the operator alone and never start over, and each volume
      change of the map is stored and its pod deleted after it: at no moment does an unfinished Job of the map target
      the volume that a live pod of it mounts. */
  lemma NoJobUnderTheServer(s: State, labels: seq<Label>, id: string, always: bool)
    requires s.pass.None? && s.w.log == [] && TidyMap(s.w, id)
    requires SpecFits(s.w.cluster.spec, id, always) && EnvFits(labels, id, always)
    requires always || Slugs.MapSlug(id) != ""
    requires Undisturbed(Run(s, labels).w.log, id, always)
    requires EnvImage(labels, InstallImage(s.w.cluster.spec)) && JobsFinish(s, labels)
    requires NoneUnder(s.w, Slugs.MapSlug(id)) && OneImage(s.w.jobs, Slugs.MapSlug(id), InstallImage(s.w.cluster.spec))
    ensures NoneUnder(Run(s, labels).w, Slugs.MapSlug(id))
  {
    hide Run, SpecFits, Undisturbed, Slugs.MapSlug, Sole, Mounts, NoneUnder, OneImage, Clear, JobsFinish, InstallImage;
    var image, slug := InstallImage(s.w.cluster.spec), Slugs.MapSlug(id);
    NoneUnderIsClear(s.w, slug, image);
    RunKeepsGuarded(s, labels, id, always, image);
    ClearIsNoneUnder(Run(s, labels).w, slug, image);
  }

  /* ---------- an edit of the image ---------- */

  function AnyHash(): Drift.HashInput -> string {
    (x: Drift.HashInput) => ""
  }

  function OneMap(id: string, image: string): Spec {
    Spec(image, [MapSpec(id, [])], [], 7777, 27020, "", "", UnsetRollout, 0)
  }

  function Server(id: string): Pod {
    Pod(Slugs.MapSlug(id), "old", ServerA, false, true, false)
  }

  function Draining(id: string): MapStatus {
    MapStatus(id, DrainingActive, ServerA, ServerA, Some(0), "", [])
  }

  /** A drain is over, and the Job of the new volume missing. */
  function Drained(id: string): World {
    World(AnyHash(), Cluster(OneMap(id, "one"), [Draining(id)], Summary(1, 0, Updating), 1), [Server(id)],
          map[], map[], "", map[], 0, [])
  }

  /** The map's server is up and a drain of it over; the Jobs are as given. */
  ghost predicate Waiting(w: World, id: string, image: string, phase: MapPhase) {
    && w == Drained(id).(cluster := w.cluster, jobs := w.jobs, log := w.log)
    && w.cluster.spec == OneMap(id, image) && w.cluster.status == [Draining(id).(phase := phase)] && InFlight(phase)
  }

  lemma WaitingVisit(w: World, id: string, image: string, phase: MapPhase)
    requires Waiting(w, id, image, phase)
    ensures var s := State(Visits.Begun(w), Some(Visits.PassBegun(w)));
      && Run(State(w, None), Runs.Oks(2)) == s && Visits.AtVisit(s) && Id(s) == id && Visits.UpToDate(s)
      && Visits.Found(s) == Some(Server(id)) && Visits.Drifting(s)
      && Visits.Refreshed(s) == Visits.Settled(s) == Draining(id).(phase := phase)
      && Visits.NextJob(s) == Job(OneMap(id, image), id, SideB)
  {
    hide Run, Slugs.MapSlug, FindActivePod;
    Visits.Opening(w);
    Visits.FoundAlone(Server(id), Slugs.MapSlug(id), "");
    Visits.PutOne(w.cluster.status[0], w.cluster.status[0]);
    assert Gate(w.cluster) == id;
    assert "old" != "";
  }

  function NewJob(id: string, image: string): JobKey {
    Job(OneMap(id, image), id, SideB)
  }

  lemma JobsDiffer(id: string)
    ensures NewJob(id, "one") != NewJob(id, "two") && InstallImage(OneMap(id, "one")) == "one"
  {
    assert "one"[0] != "two"[0];
  }

  lemma LeftTo(s: State, id: string, image: string, e: MapStatus)
    requires Visits.AtVisit(s) && s.pass.value.cluster.spec == OneMap(id, image) && s.pass.value.at == 0
    requires |s.pass.value.cluster.status| == 1 && s.pass.value.cluster.status[0].id == e.id == id
    ensures var p := Visits.Left(s, e, true);
      p.call.ListOrphans? && p.at == 1 && p.cluster == s.pass.value.cluster.(status := [e])
  {
    hide Slugs.MapSlug;
    var d := s.pass.value.cluster.status[0];
    assert s.pass.value.cluster.status == [d];
    Visits.PutOne(d, e);
  }

  /** A whole pass that installs the missing Job. */
  lemma InstallRound(w: World, id: string, image: string, phase: MapPhase)
    requires Waiting(w, id, image, phase) && NewJob(id, image) !in w.jobs
    ensures var t := Run(State(w, None), Runs.Oks(10));
      t.pass.None? && Waiting(t.w, id, image, InstallingInactive) && t.w.jobs == w.jobs[NewJob(id, image) := []]
  {
    hide Run, Slugs.MapSlug, Visits.Found, Visits.Wanted, Visits.Drifting, MountedLive;
    var s := State(Visits.Begun(w), Some(Visits.PassBegun(w)));
    var e := Draining(id).(phase := InstallingInactive);
    WaitingVisit(w, id, image, phase);
    Visits.RollInstalls(s);
    LeftTo(s, id, image, e);
    Visits.ToldKeeps(s, NewJob(id, image), true);
    hide Visits.Told, Visits.Left;
    var u := Run(s, Runs.Oks(6));
    Visits.NothingGoes(OneMap(id, image), Server(id), e);
    Visits.PassEnds(u);
    Runs.OksAdd(State(w, None), 2, 6);
    Runs.OksAdd(State(w, None), 8, 2);
  }

  /** A pass that finds the Job done: the swap, and the pod replaced. */
  lemma SwapRound(w: World, id: string, image: string, phase: MapPhase)
    requires Waiting(w, id, image, phase)
    requires NewJob(id, image) in w.jobs && w.jobs[NewJob(id, image)] == [JobCondition(Complete, true)]
    ensures var t := Run(State(w, None), Runs.Oks(11));
      t.w.jobs == w.jobs && exists p :: p in t.w.pods && Live(p, Slugs.MapSlug(id)) && p.volume == ServerB
  {
    hide Run, Slugs.MapSlug, Visits.Found, Visits.Wanted, Visits.Drifting;
    var s := State(Visits.Begun(w), Some(Visits.PassBegun(w)));
    WaitingVisit(w, id, image, phase);
    assert JobVerdict([JobCondition(Complete, true)]) == JobSucceeded;
    Visits.Swaps(s);
    var u := Run(s, Runs.Oks(6));
    SwappedTells(s, id, image);
    assert "old" != "";
    Visits.Replaces(u);
    Runs.OksAdd(State(w, None), 2, 6);
    Runs.OksAdd(State(w, None), 8, 3);
    hide Visits.Swapped;
    var pod := Pod(Slugs.MapSlug(id), "", ServerB, false, false, false);
    assert pod in Run(u, Runs.Oks(3)).w.pods;
  }

  lemma SwappedTells(s: State, id: string, image: string)
    requires Visits.AtVisit(s) && s.pass.value.cluster.spec == OneMap(id, image) && s.pass.value.at == 0
    requires s.w.hash == AnyHash() && s.w.pods == [Server(id)] && Id(s) == id && Visits.Refreshed(s).active == ServerA
    ensures var u := Visits.Swapped(s, Server(id));
      && InPass(u) && u.pass.value.call == SwapDelete(Server(id)) && Slug(u) == Slugs.MapSlug(id)
        && Mine(u).active == ServerB
      && u.w.jobs == s.w.jobs && u.w.pods == s.w.pods
      && ReadHash(u.w, Ok, u.pass.value.cluster.spec, u.pass.value.at, ServerB) == ""
  {
    hide Slugs.MapSlug, ReadJob;
    Visits.ToldKeeps(s, Visits.NextJob(s), true);
  }

  /** The image is edited. */
  function Edited(w: World, id: string): World {
    w.(cluster := w.cluster.(spec := OneMap(id, "two"), rev := w.cluster.rev + 1))
  }

  /** The second Job finishes. */
  function Completed(w: World, id: string): World {
    w.(jobs := w.jobs[NewJob(id, "two") := [JobCondition(Complete, true)]])
  }

  lemma DrainedIs(id: string)
    ensures var w := Drained(id);
      && Waiting(w, id, "one", DrainingActive) && TidyMap(w, id) && SpecFits(w.cluster.spec, id, true)
      && NoneUnder(w, Slugs.MapSlug(id)) && OneImage(w.jobs, Slugs.MapSlug(id), "one")
  {
    hide Slugs.MapSlug;
    assert Slugs.MapSlug(Drained(id).cluster.spec.maps[0].id) == Slugs.MapSlug(id);
  }

  lemma EditMay(w: World, v: World, id: string)
    requires |w.pods| == 1 && (v == Edited(w, id) || v == Completed(w, id))
    ensures EnvMay(w, v)
  {
    hide Slugs.MapSlug;
    Runs.MayMove(w, v);
  }

  lemma UnderTheServer(t: World, id: string)
    requires NewJob(id, "one") in t.jobs && t.jobs[NewJob(id, "one")] == []
    requires exists p :: p in t.pods && Live(p, Slugs.MapSlug(id)) && p.volume == ServerB
    ensures !NoneUnder(t, Slugs.MapSlug(id))
  {
    hide Slugs.MapSlug;
    JobsDiffer(id);
    var p :| p in t.pods && Live(p, Slugs.MapSlug(id)) && p.volume == ServerB;
    var i :| 0 <= i < |t.pods| && t.pods[i] == p;
    assert Unfinished(t.jobs, NewJob(id, "one"));
    assert MountedLive(t.pods, Slugs.MapSlug(id), SideB);
  }

  /** An edit of the image while the Job for the old one still runs, in a run in which every call succeeds: the Job for
      the new image finishes, the server moves, and the old Job goes on writing under it. */
  lemma OneImageEdit(id: string) returns (w: World, edited: World, finished: World, labels: seq<Label>)
    ensures w.log == [] && TidyMap(w, id) && SpecFits(w.cluster.spec, id, true)
    ensures NoneUnder(w, Slugs.MapSlug(id)) && OneImage(w.jobs, Slugs.MapSlug(id), "one")
    ensures labels == Runs.Oks(10) + ([Env(edited)] + Runs.Oks(10)) + ([Env(finished)] + Runs.Oks(11))
    ensures var r := Run(State(w, None), Runs.Oks(10)).w; edited == Edited(r, id) && EnvMay(r, edited)
    ensures var r := Run(State(w, None), Runs.Oks(10) + ([Env(edited)] + Runs.Oks(10))).w;
      finished == Completed(r, id) && EnvMay(r, finished) && JobsOnlyFinish(r.jobs, finished.jobs)
    ensures !NoneUnder(Run(State(w, None), labels).w, Slugs.MapSlug(id))
  {
    hide Run, Slugs.MapSlug, NoneUnder, OneImage, EnvMay, TidyMap, SpecFits;
    w := Drained(id);
    var s := State(w, None);
    DrainedIs(id);
    JobsDiffer(id);
    InstallRound(w, id, "one", DrainingActive);
    var a := Run(s, Runs.Oks(10));
    edited := Edited(a.w, id);
    EditMay(a.w, edited, id);
    Runs.MoveAndGo(a, edited, 10);
    InstallRound(edited, id, "two", InstallingInactive);
    var first := Runs.Oks(10) + ([Env(edited)] + Runs.Oks(10));
    RunThrough(s, Runs.Oks(10), [Env(edited)] + Runs.Oks(10));
    var b := Run(s, first);
    finished := Completed(b.w, id);
    EditMay(b.w, finished, id);
    Runs.MoveAndGo(b, finished, 11);
    SwapRound(finished, id, "two", InstallingInactive);
    labels := first + ([Env(finished)] + Runs.Oks(11));
    RunThrough(s, first, [Env(finished)] + Runs.Oks(11));
    UnderTheServer(Run(s, labels).w, id);
    FinishOnly(b.w.jobs, id);
  }

  lemma FinishOnly(jobs: map<JobKey, seq<JobCondition>>, id: string)
    ensures JobsOnlyFinish(jobs, jobs[NewJob(id, "two") := [JobCondition(Complete, true)]])
  {
    hide Slugs.MapSlug;
    assert JobVerdict([JobCondition(Complete, true)]) == JobSucceeded;
  }
}
