/** Drift detection does not see drift where there is none: as long as spec and revisions hold still and the revisions
    of a map can be read, a map whose pod has the wanted hash is left alone, whatever else fails. */
module HealthyMaps {
  import opened ArkTypes
  import opened Statuses
  import opened World
  import opened Operator
  import opened Transitions
  import opened Coherence
  import opened Handover
  import opened LivePods
  import opened Effects
  import opened Frame
  import Drift
  import Runs
  import Slugs
  import Visits

  /* ---------- what holds still ---------- */

  /** No other map in spec has the i-th map's slug. */
  ghost predicate Unshared(spec: Spec, i: nat) {
    && i < |spec.maps|
    && forall k :: 0 <= k < |spec.maps| && Slugs.MapSlug(spec.maps[k].id) == Slugs.MapSlug(spec.maps[i].id) ==> k == i
  }

  /** All that goes into pod hashes, but for the volumes. */
  ghost predicate SameSettings(w: World, base: World) {
    w.hash == base.hash && w.iniRevs == base.iniRevs && w.secretsRev == base.secretsRev
      && w.cluster.spec == base.cluster.spec
  }

  function IdAt(base: World, i: nat): string
    requires i < |base.cluster.spec.maps|
  {
    base.cluster.spec.maps[i].id
  }

  function SlugAt(base: World, i: nat): string
    requires i < |base.cluster.spec.maps|
  {
    Slugs.MapSlug(IdAt(base, i))
  }

  function VolumeAt(base: World, i: nat): Volume
    requires i < |base.cluster.spec.maps|
  {
    Defaulted(Entry(base.cluster.status, IdAt(base, i)).active)
  }

  function WantedHash(base: World, i: nat): string
    requires i < |base.cluster.spec.maps|
  {
    ReadHash(base, Ok, base.cluster.spec, i, VolumeAt(base, i))
  }

  /* ---------- the invariant ---------- */

  /** The entry is on the volume, with nowhere to roll back to. */
  predicate Settled(e: MapStatus, v: Volume) {
    Defaulted(e.active) == v && !Split(e)
  }

  /** Where the pass is with the map, as far as it has got: it compares with the wanted hash, and found it. */
  predicate OnTrack(call: Call, hash: string) {
    && !IsRoll(call) && !call.RollbackPersist? && !call.RollbackDelete?
    && (call.ListPods? || call.FirstJob? || call.FirstCreate? ==> call.hash == hash)
    && (call.ReadAddress? ==> call.hash == hash && (call.found.Some? ==> call.found.value.hash == hash))
  }

  ghost predicate PassHealthy(p: Pass, base: World, i: nat)
    requires Unshared(base.cluster.spec, i)
  {
    && p.cluster.spec == base.cluster.spec
    && Settled(Entry(p.cluster.status, IdAt(base, i)), VolumeAt(base, i))
    && (p.at == i && IsMapCall(p.call) ==> OnTrack(p.call, WantedHash(base, i)))
  }

  ghost predicate Healthy(s: State, base: World, i: nat)
    requires Unshared(base.cluster.spec, i)
  {
    && SameSettings(s.w, base)
    && OnlyHash(s.w.pods, SlugAt(base, i), WantedHash(base, i))
    && Settled(Stored(s, IdAt(base, i)), VolumeAt(base, i))
    && (s.pass.Some? ==> PassHealthy(s.pass.value, base, i))
  }

  /** The pass is at the map. */
  predicate AtIt(s: State, i: nat) {
    AtMap(s) && s.pass.value.at == i && IsMapCall(s.pass.value.call)
  }

  lemma ElsewhereIsOther(s: State, base: World, i: nat)
    requires AtMap(s) && Unshared(base.cluster.spec, i) && s.pass.value.cluster.spec == base.cluster.spec
    ensures s.pass.value.at != i ==> Id(s) != IdAt(base, i) && Slug(s) != SlugAt(base, i)
    ensures s.pass.value.at == i ==> Id(s) == IdAt(base, i)
  {
  }

  lemma SettledStays(a: MapStatus, b: MapStatus, v: Volume)
    requires Settled(a, v) && Soft(a, b)
    ensures Settled(b, v)
  {
  }

  /* ---------- calls that write no status ---------- */

  lemma QuietKeepsSettled(s: State, t: State, base: World, i: nat)
    requires InPass(s) && Quiet(s, t) && Unshared(base.cluster.spec, i) && Healthy(s, base, i)
    ensures Settled(Stored(t, IdAt(base, i)), VolumeAt(base, i))
    ensures t.pass.Some? ==>
      t.pass.value.cluster.spec == base.cluster.spec
      && Settled(Entry(t.pass.value.cluster.status, IdAt(base, i)), VolumeAt(base, i))
  {
    hide Settled, WantedHash, OnlyHash, VolumeAt, Slugs.MapSlug;
    if t.pass.Some? {
      var id := IdAt(base, i);
      assert Soft(Entry(s.pass.value.cluster.status, id), Entry(t.pass.value.cluster.status, id));
      SettledStays(Entry(s.pass.value.cluster.status, id), Entry(t.pass.value.cluster.status, id), VolumeAt(base, i));
    }
  }

  lemma ReadsWanted(s: State, o: Outcome, base: World, i: nat)
    requires InPass(s) && s.pass.value.call.ReadRevisions? && o == Ok && Placed(s) && AtIt(s, i)
    requires Unshared(base.cluster.spec, i) && Healthy(s, base, i)
    ensures var t := ActPrepare(s, o); t.pass.Some? && t.pass.value.call == ListPods(WantedHash(base, i))
  {
    hide Slugs.MapSlug, OnlyHash, Template, Unshared;
  }

  lemma ListsWanted(s: State, o: Outcome, base: World, i: nat)
    requires InPass(s) && s.pass.value.call.ListPods? && AtIt(s, i)
    requires Unshared(base.cluster.spec, i) && Healthy(s, base, i)
    ensures var t := ActPrepare(s, o); t.pass.Some? ==> OnTrack(t.pass.value.call, WantedHash(base, i))
  {
    hide Slugs.MapSlug, WantedHash, FindActivePod;
    ElsewhereIsOther(s, base, i);
    var hash := WantedHash(base, i);
    var found := FindActivePod(s.w.pods, Slug(s), hash);
    assert found.Some? ==> found.value in s.w.pods && Live(found.value, SlugAt(base, i));
  }

  lemma DispatchesWanted(s: State, o: Outcome, base: World, i: nat)
    requires InPass(s) && s.pass.value.call.ReadAddress? && AtIt(s, i) && Placed(s)
    requires Unshared(base.cluster.spec, i) && Healthy(s, base, i)
    ensures var t := ActDispatch(s, o);
      t.pass.Some? && t.pass.value.at == i ==> OnTrack(t.pass.value.call, WantedHash(base, i))
  {
    hide Slugs.MapSlug, WantedHash, OnlyHash, Unshared, SetCondition;
    assert Mine(s).active != Unset;
    assert Id(s) == IdAt(base, i);
  }

  lemma FirstJobOnTrack(s: State, o: Outcome, hash: string)
    requires InPass(s) && s.pass.value.call == FirstJob(hash)
    ensures var t := ActFirst(s, o);
      t.pass.Some? && t.pass.value.at == s.pass.value.at ==> OnTrack(t.pass.value.call, hash)
  {
    hide ReadJob, Slugs.MapSlug, SetCondition;
  }

  lemma IsOnTrack(s: State, base: World, i: nat)
    requires AtIt(s, i) && Unshared(base.cluster.spec, i) && Healthy(s, base, i)
    ensures OnTrack(s.pass.value.call, WantedHash(base, i))
  {
    hide Unshared, Settled, OnlyHash, OnTrack, WantedHash;
  }

  /** At the map, the next call of the map is on track too. */
  lemma StaysOnTrack(s: State, o: Outcome, base: World, i: nat)
    requires InPass(s) && AtIt(s, i) && Placed(s) && Unshared(base.cluster.spec, i) && Healthy(s, base, i)
    requires s.pass.value.call.ReadRevisions? ==> o == Ok
    ensures var t := Action(s, o);
      t.pass.Some? && t.pass.value.at == i ==> OnTrack(t.pass.value.call, WantedHash(base, i))
  {
    hide ActPrepare, ActDispatch, ActFirst, ActRollback, ActRoll, ActDrain, ActSwap, ActSwapped, ActFinish;
    hide WantedHash, Unshared, OnlyHash, Settled, Placed, Healthy;
    IsOnTrack(s, base, i);
    match s.pass.value.call
    case ReadRevisions => ReadsWanted(s, o, base, i);
    case ListPods(_) => ListsWanted(s, o, base, i);
    case ReadAddress(_, _) => DispatchesWanted(s, o, base, i);
    case FirstJob(hash) => FirstJobOnTrack(s, o, hash);
    case _ =>
  }

  /** Coming to the map from elsewhere, a pass starts at its first call. */
  lemma ArrivesOnTrack(s: State, t: State, base: World, i: nat)
    requires InPass(s) && Wf(t) && t.pass.Some? && Moves(s, t) && !AtIt(s, i) && i < |s.pass.value.cluster.spec.maps|
    requires t.pass.value.at == i && IsMapCall(t.pass.value.call)
    ensures t.pass.value.call.EnsureMap?
  {
  }

  lemma NextOnTrack(s: State, o: Outcome, base: World, i: nat)
    requires InPass(s) && Placed(s) && Unshared(base.cluster.spec, i) && Healthy(s, base, i)
    requires s.pass.value.call.ReadRevisions? && s.pass.value.at == i ==> o == Ok
    ensures var t := Action(s, o);
      t.pass.Some? && t.pass.value.at == i && IsMapCall(t.pass.value.call) ==>
        OnTrack(t.pass.value.call, WantedHash(base, i))
  {
    hide Action, WantedHash, OnlyHash, Settled, Placed, Slugs.MapSlug;
    var t := Action(s, o);
    if t.pass.Some? && t.pass.value.at == i && IsMapCall(t.pass.value.call) {
      if AtIt(s, i) {
        StaysOnTrack(s, o, base, i);
      } else {
        ArrivesOnTrack(s, t, base, i);
      }
    }
  }

  /* ---------- pods ---------- */

  lemma DeletionKeepsHash(s: State, o: Outcome, why: DeleteReason, about: string, pod: Pod, slug: string, hash: string)
    requires OnlyHash(s.w.pods, slug, hash)
    ensures OnlyHash(Delete(s, o, why, about, pod).w.pods, slug, hash)
  {
    hide OnlyHash, Thins, DeletePod, Vacant, Mounts;
    DeleteThins(s.w.pods, pod.slug, pod.hash);
    ThinsKeeps(s.w.pods, DeletePod(s.w.pods, pod.slug, pod.hash), slug);
  }

  lemma CreationKeepsHash(s: State, u: State, o: Outcome, call: string, slug: string, hash: string)
    requires AtMap(u) && u.w == s.w && OnlyHash(s.w.pods, slug, hash) && (Slug(u) == slug ==> call == hash)
    ensures OnlyHash(Create(u, o, call).w.pods, slug, hash)
  {
    hide Slugs.MapSlug, Named;
  }

  lemma ActionKeepsHash(s: State, o: Outcome, base: World, i: nat)
    requires InPass(s) && Unshared(base.cluster.spec, i) && Healthy(s, base, i)
    ensures OnlyHash(Action(s, o).w.pods, SlugAt(base, i), WantedHash(base, i))
  {
    hide ActPrepare, ActDispatch, ActFirst, ActRollback, ActRoll, ActDrain, ActSwap, ActSwapped, ActFinish;
    hide OnlyHash, Delete, Create, Settled, WantedHash, Slugs.MapSlug;
    var call, slug, hash := s.pass.value.call, SlugAt(base, i), WantedHash(base, i);
    if LeavesPods(call) {
      PodsStay(s, o);
    } else if Creates(call) {
      Handover.CreatedWorld(s, o);
      ElsewhereIsOther(s, base, i);
      CreationKeepsHash(s, Creator(s), o, call.hash, slug, hash);
    } else {
      match call
      case DeleteOrphan(todo) =>
        OrphanDeletion(s, o);
        DeletionKeepsHash(s, o, Orphaned, todo[0].slug, todo[0], slug, hash);
      case SwapDelete(pod) =>
        SwapDeletion(s, o);
        DeletionKeepsHash(s, o, ByRoll, Id(s), pod, slug, hash);
      case RollbackDelete(pod) =>
        RollbackDeletion(s, o);
        DeletionKeepsHash(s, o, ByRollback, Id(s), pod, slug, hash);
      case _ => ListingKeepsPods(s, o);
    }
  }

  /* ---------- status writes ---------- */

  lemma WriteKeepsSettled(s: State, t: State, kind: WriteKind, e: MapStatus, base: World, i: nat)
    requires InPass(s) && WritesEntry(s, t, kind, e) && Unshared(base.cluster.spec, i) && Healthy(s, base, i)
    requires e.id != IdAt(base, i)
    ensures Settled(Stored(t, IdAt(base, i)), VolumeAt(base, i))
    ensures t.pass.Some? ==>
      t.pass.value.cluster.spec == base.cluster.spec
      && Settled(Entry(t.pass.value.cluster.status, IdAt(base, i)), VolumeAt(base, i))
  {
    hide Settled, WantedHash, OnlyHash, VolumeAt, Slugs.MapSlug;
  }

  lemma FinalWriteKeepsSettled(s: State, o: Outcome, base: World, i: nat)
    requires InPass(s) && s.pass.value.call.FinalWrite? && Unshared(base.cluster.spec, i) && Healthy(s, base, i)
    ensures Settled(Stored(ActFinish(s, o), IdAt(base, i)), VolumeAt(base, i))
  {
    hide Settled, WantedHash, OnlyHash, VolumeAt, Slugs.MapSlug, Prune;
    FinalWriteEffect(s, o);
    PruneEntry(s.pass.value.cluster.status, s.pass.value.cluster.spec, IdAt(base, i));
    hide ActFinish;
    assert Kept(base.cluster.spec, SlugAt(base, i));
  }

  lemma MidWriteKeepsSettled(s: State, o: Outcome, base: World, i: nat)
    requires InPass(s) && Unshared(base.cluster.spec, i) && Healthy(s, base, i)
    requires s.pass.value.call.DrainPersist? || s.pass.value.call.SwapPersist? || s.pass.value.call.RollbackPersist?
    ensures var t := Action(s, o);
      && Settled(Stored(t, IdAt(base, i)), VolumeAt(base, i))
      && (t.pass.Some? ==>
            t.pass.value.cluster.spec == base.cluster.spec
            && Settled(Entry(t.pass.value.cluster.status, IdAt(base, i)), VolumeAt(base, i)))
  {
    hide ActPrepare, ActDispatch, ActFirst, ActRollback, ActRoll, ActDrain, ActSwap, ActSwapped, ActFinish;
    hide Settled, WantedHash, OnlyHash, VolumeAt, Slugs.MapSlug, WritesEntry;
    ElsewhereIsOther(s, base, i);
    var t := Action(s, o);
    match s.pass.value.call
    case DrainPersist(since) =>
      var spec := s.pass.value.cluster.spec;
      DrainWritesEntry(s, o);
      WriteKeepsSettled(s, t, DrainStart(since, Grace(spec)), AtDrainStart(Mine(s), since, spec), base, i);
    case SwapPersist(_) =>
      SwapWritesEntry(s, o);
      WriteKeepsSettled(s, t, Swap, AtSwap(Mine(s)), base, i);
    case RollbackPersist(_) =>
      RollbackWritesEntry(s, o);
      WriteKeepsSettled(s, t, Rollback, AtRollback(Mine(s), s.w.clock), base, i);
  }

  /* ---------- each step ---------- */

  lemma ActionKeepsSettled(s: State, o: Outcome, base: World, i: nat)
    requires InPass(s) && Unshared(base.cluster.spec, i) && Healthy(s, base, i)
    ensures var t := Action(s, o);
      && Settled(Stored(t, IdAt(base, i)), VolumeAt(base, i))
      && (t.pass.Some? ==>
            t.pass.value.cluster.spec == base.cluster.spec
            && Settled(Entry(t.pass.value.cluster.status, IdAt(base, i)), VolumeAt(base, i)))
  {
    hide ActPrepare, ActDispatch, ActFirst, ActRollback, ActRoll, ActDrain, ActSwap, ActSwapped;
    hide Settled, WantedHash, OnlyHash, VolumeAt, Slugs.MapSlug, Healthy, Unshared;
    if s.pass.value.call.FinalWrite? {
      FinalWriteEffect(s, o);
      FinalWriteKeepsSettled(s, o, base, i);
    } else if IsWrite(s.pass.value.call) {
      MidWriteKeepsSettled(s, o, base, i);
    } else {
      hide ActFinish;
      ActionIsQuiet(s, o);
      QuietKeepsSettled(s, Action(s, o), base, i);
    }
  }

  lemma BeginKeepsHealthy(s: State, o: Outcome, base: World, i: nat)
    requires s.pass.None? && Unshared(base.cluster.spec, i) && Healthy(s, base, i)
    ensures Healthy(ActBegin(s, o), base, i)
  {
    hide Settled, WantedHash, OnlyHash, VolumeAt, Slugs.MapSlug;
  }

  /** The map's revisions are read without error. */
  predicate ReadsWell(s: State, l: Label, i: nat) {
    s.pass.Some? && s.pass.value.call.ReadRevisions? && s.pass.value.at == i && l.Act? ==> l.outcome == Ok
  }

  lemma ActionKeepsHealthy(s: State, o: Outcome, base: World, i: nat)
    requires Wf(s) && Placed(s) && Unshared(base.cluster.spec, i) && Healthy(s, base, i) && ReadsWell(s, Act(o), i)
    ensures Healthy(Action(s, o), base, i)
  {
    if s.pass.None? {
      BeginKeepsHealthy(s, o, base, i);
    } else {
      ActionKeepsSettled(s, o, base, i);
      ActionKeepsHash(s, o, base, i);
      NextOnTrack(s, o, base, i);
      ActionKeepsFrame(s, o);
      ActionKeepsSpecs(s, o);
      hide Action, WantedHash, OnlyHash, Settled, Placed, Slugs.MapSlug, OnTrack, VolumeAt, Unshared;
    }
  }

  /* ---------- what the log shows ---------- */

  /** The event is part of a roll of the map. */
  predicate Rolls(e: Event, id: string) {
    || (e.JobSeen? && e.rolling && e.id == id)
    || (e.Wrote? && (e.kind == Swap || e.kind.DrainStart?) && e.id == id)
    || (e.Announced? && e.id == id)
    || (e.SavedAndExited? && e.id == id)
    || (e.Deleted? && e.why == ByRoll && e.id == id)
  }

  ghost predicate NotRolled(log: seq<Event>, n: nat, id: string) {
    forall k :: n <= k < |log| ==> !Rolls(log[k], id)
  }

  lemma RollJobNamesIt(s: State, o: Outcome)
    requires InPass(s) && s.pass.value.call.RollJob?
    ensures var t := ActRoll(s, o);
      |t.w.log| > |s.w.log| ==> t.w.log[|s.w.log|].JobSeen? && t.w.log[|s.w.log|].id == Id(s)
  {
    hide Slugs.MapSlug, ReadJob, RollUpdate;
    var side := VolumeSide(OtherVolume(Mine(s).active));
    assert RollUpdate(SeeJob(s, o, side, true), SeenVerdict(s, o, side), s.pass.value.call.pod).w
      == SeeJob(s, o, side, true).w;
  }

  lemma MessageNamesIt(s: State, o: Outcome)
    requires InPass(s)
    ensures s.pass.value.call.Announce? ==>
      var t := ActDrain(s, o); |t.w.log| > |s.w.log| && t.w.log[|s.w.log|] == Announced(Id(s))
    ensures s.pass.value.call.SaveAndExit? ==>
      var t := ActSwap(s, o); |t.w.log| > |s.w.log| && t.w.log[|s.w.log|] == SavedAndExited(Id(s))
  {
  }

  lemma DeletionNamesIt(s: State, o: Outcome)
    requires InPass(s) && s.pass.value.call.SwapDelete?
    ensures var t := ActSwapped(s, o);
      |t.w.log| > |s.w.log| && t.w.log[|s.w.log|].Deleted? && t.w.log[|s.w.log|].id == Id(s)
  {
    SwapDeletion(s, o);
    hide ActSwapped;
  }

  lemma WriteNamesIt(s: State, o: Outcome)
    requires InPass(s)
    ensures s.pass.value.call.DrainPersist? ==>
      var t := ActDrain(s, o); |t.w.log| > |s.w.log| ==> t.w.log[|s.w.log|].Wrote? && t.w.log[|s.w.log|].id == Id(s)
    ensures s.pass.value.call.SwapPersist? ==>
      var t := ActSwap(s, o); |t.w.log| > |s.w.log| ==> t.w.log[|s.w.log|].Wrote? && t.w.log[|s.w.log|].id == Id(s)
  {
    hide ActDrain, ActSwap;
    if s.pass.value.call.DrainPersist? {
      DrainWritesEntry(s, o);
    } else if s.pass.value.call.SwapPersist? {
      SwapWritesEntry(s, o);
    }
  }

  /** Events of a roll name the map the pass is at. */
  lemma RollNamesItsMap(s: State, o: Outcome, id: string)
    requires InPass(s) && IsRoll(s.pass.value.call)
    ensures var t := Action(s, o); |t.w.log| > |s.w.log| && Rolls(t.w.log[|s.w.log|], id) ==> Id(s) == id
  {
    hide ActRoll, ActDrain, ActSwap, ActSwapped, Slugs.MapSlug;
    match s.pass.value.call
    case RollJob(_) => RollJobNamesIt(s, o);
    case DrainPersist(_) => WriteNamesIt(s, o);
    case SwapPersist(_) => WriteNamesIt(s, o);
    case Announce => MessageNamesIt(s, o);
    case SaveAndExit(_) => MessageNamesIt(s, o);
    case SwapDelete(_) => DeletionNamesIt(s, o);
    case _ =>
  }

  lemma OthersRollNothing(s: State, o: Outcome, id: string)
    requires InPass(s) && !IsRoll(s.pass.value.call)
    ensures var t := Action(s, o); |t.w.log| > |s.w.log| ==> !Rolls(t.w.log[|s.w.log|], id)
  {
    hide Action;
  }

  lemma ActionRollsNothing(s: State, o: Outcome, base: World, i: nat)
    requires Wf(s) && Unshared(base.cluster.spec, i) && Healthy(s, base, i)
    ensures var t := Action(s, o); |t.w.log| > |s.w.log| ==> !Rolls(t.w.log[|s.w.log|], IdAt(base, i))
  {
    hide Rolls, WantedHash, OnlyHash, Settled, Slugs.MapSlug;
    hide ActPrepare, ActDispatch, ActFirst, ActRollback, ActRoll, ActDrain, ActSwap, ActSwapped, ActFinish, ActBegin;
    if s.pass.None? {
      BeginRollsNothing(s, o, IdAt(base, i));
    } else if IsRoll(s.pass.value.call) {
      RollNamesItsMap(s, o, IdAt(base, i));
      ElsewhereIsOther(s, base, i);
    } else {
      OthersRollNothing(s, o, IdAt(base, i));
    }
  }

  lemma BeginRollsNothing(s: State, o: Outcome, id: string)
    requires s.pass.None?
    ensures var t := ActBegin(s, o); |t.w.log| > |s.w.log| ==> !Rolls(t.w.log[|s.w.log|], id)
  {
    BeginReports(s, o);
    hide ActBegin;
  }

  /* ---------- whole runs ---------- */

  /** Spec and revisions hold still. */
  ghost predicate HoldsStill(labels: seq<Label>, base: World) {
    forall l :: l in labels && l.Env? ==> SameRevisions(base, l.world) && l.world.cluster.spec == base.cluster.spec
  }

  /** Wherever the run asks for the map's revisions it is told. */
  ghost predicate ReadsSucceed(s: State, labels: seq<Label>, i: nat)
    requires Wf(s)
  {
    forall n :: 0 <= n < |labels| ==> ReadsWell(Run(s, labels[..n]), labels[n], i)
  }

  lemma OutsideKeepsHealthy(s: State, l: Label, base: World, i: nat)
    requires Wf(s) && !l.Act? && Unshared(base.cluster.spec, i) && Healthy(s, base, i)
    requires l.Env? ==> SameRevisions(base, l.world) && l.world.cluster.spec == base.cluster.spec
    ensures Healthy(Step(s, l), base, i)
  {
    hide OnlyHash, WantedHash, Settled, Slugs.MapSlug, OnTrack, VolumeAt, Thins, Vacant, Mounts;
    if l.Env? && EnvMay(s.w, l.world) {
      EnvThins(s.w, l.world);
      ThinsKeeps(s.w.pods, l.world.pods, SlugAt(base, i));
    }
  }

  lemma NotRolledGrows(s: State, t: State, n: nat, id: string)
    requires LogGrows(s, t) && n <= |s.w.log| && NotRolled(s.w.log, n, id)
    requires |t.w.log| > |s.w.log| ==> !Rolls(t.w.log[|s.w.log|], id)
    ensures NotRolled(t.w.log, n, id)
  {
    hide Rolls;
    forall k | n <= k < |t.w.log| ensures !Rolls(t.w.log[k], id) {
      assert k < |s.w.log| ==> t.w.log[k] == t.w.log[..|s.w.log|][k];
    }
  }

  lemma {:induction false} RunKeepsHealthy(s: State, labels: seq<Label>, base: World, i: nat)
    requires Wf(s) && Sound(s) && Unshared(base.cluster.spec, i) && Healthy(s, base, i)
    requires HoldsStill(labels, base) && ReadsSucceed(s, labels, i)
    ensures var t := Run(s, labels);
      Sound(t) && Healthy(t, base, i) && |s.w.log| <= |t.w.log| && NotRolled(t.w.log, |s.w.log|, IdAt(base, i))
  {
    hide Action, Healthy, Unshared, Synced, Placed, Rolls;
    if labels != [] {
      var prefix, l := labels[..|labels| - 1], labels[|labels| - 1];
      assert l in labels;
      var r, t := Run(s, prefix), Run(s, labels);
      assert ReadsWell(r, l, i);
      forall n | 0 <= n < |prefix| ensures ReadsWell(Run(s, prefix[..n]), prefix[n], i) {
        assert prefix[..n] == labels[..n];
        assert ReadsWell(Run(s, labels[..n]), labels[n], i);
      }
      RunLast(s, labels);
      hide Run, ReadsWell;
      RunKeepsHealthy(s, prefix, base, i);
      StepKeepsSound(r, l);
      InRange(base, i);
      if l.Act? {
        ActionKeepsHealthy(r, l.outcome, base, i);
        ActionRollsNothing(r, l.outcome, base, i);
        NotRolledGrows(r, t, |s.w.log|, IdAt(base, i));
      } else {
        OutsideKeepsHealthy(r, l, base, i);
        NotRolledGrows(r, t, |s.w.log|, IdAt(base, i));
      }
    }
  }

  lemma InRange(base: World, i: nat)
    requires Unshared(base.cluster.spec, i)
    ensures i < |base.cluster.spec.maps|
  {
  }

  /** The map is on record with nowhere to roll back to, and its live pods have the wanted hash. */
  ghost predicate IsHealthy(w: World, i: nat)
    requires i < |w.cluster.spec.maps|
  {
    !Split(Entry(w.cluster.status, IdAt(w, i))) && OnlyHash(w.pods, SlugAt(w, i), WantedHash(w, i))
  }

  /** From any moment between passes at which the live pods of a map have the wanted hash: as long as spec and
      revisions hold still and the revisions of this map are read without error, no drain of it is started, no player
      told and no pod of it deleted for a roll, and its live pods keep to the wanted hash; whatever fails otherwise,
      crashes, conflicts or is late. */
  lemma HealthyIsLeftAlone(w: World, labels: seq<Label>, i: nat)
    requires Unshared(w.cluster.spec, i) && IsHealthy(w, i)
    requires HoldsStill(labels, w) && ReadsSucceed(State(w, None), labels, i)
    ensures var t := Run(State(w, None), labels);
      && |w.log| <= |t.w.log| && NotRolled(t.w.log, |w.log|, IdAt(w, i))
      && OnlyHash(t.w.pods, SlugAt(w, i), WantedHash(w, i))
      && Defaulted(Stored(t, IdAt(w, i)).active) == VolumeAt(w, i)
  {
    hide Run, OnlyHash, WantedHash, Slugs.MapSlug;
    RunKeepsHealthy(State(w, None), labels, w, i);
  }

  /* ---------- one read that fails ---------- */

  function BySecrets(): Drift.HashInput -> string {
    (x: Drift.HashInput) => x.secretsRev
  }

  function OneMap(id: string): Spec {
    Spec("", [MapSpec(id, [])], [], 7777, 27020, "", "", UnsetRollout, 60)
  }

  function Serving(id: string): MapStatus {
    MapStatus(id, Running, ServerA, ServerA, None, "", [])
  }

  function Server(id: string): Pod {
    Pod(Slugs.MapSlug(id), "s", ServerA, false, true, false)
  }

  /** All is well; the Job of the other volume is still around from the last update. */
  function Calm(id: string): World {
    World(BySecrets(), Cluster(OneMap(id), [Serving(id)], Summary(1, 1, ClusterRunning), 1), [Server(id)],
          map[Job(OneMap(id), id, SideB) := [JobCondition(Complete, true)]], map[], "s", map[], 0, [])
  }

  function Copy(id: string, e: MapStatus, call: Call, busy: bool): Option<Pass> {
    Some(Pass(call, 0, Cluster(OneMap(id), [e], Summary(1, 1, ClusterRunning), 1), busy, "", [Serving(id)]))
  }

  lemma CalmIs(id: string)
    ensures Unshared(Calm(id).cluster.spec, 0) && IsHealthy(Calm(id), 0) && Gate(Calm(id).cluster) == ""
  {
    hide Slugs.MapSlug;
    assert FirstInFlight([Serving(id)][1..]) == "";
  }

  /** The read that fails makes for another hash. */
  lemma ReadFails(id: string)
    ensures Run(State(Calm(id), None), Runs.Oks(3) + [Act(Fail)])
         == State(Visits.Begun(Calm(id)), Copy(id, Serving(id), ListPods(""), false))
  {
    hide Run, Action, Slugs.MapSlug, Gate;
    var s := State(Calm(id), None);
    CalmIs(id);
    Visits.PutOne(Serving(id), Serving(id));
    Visits.Opening(Calm(id));
    Runs.OneMore(s, 2);
    Visits.Ensures(Run(s, Runs.Oks(2)));
    Runs.Then(s, Runs.Oks(3), Act(Fail));
    PrepareResult(Run(s, Runs.Oks(3)), Fail);
  }

  /** ... and the pod seems to have drifted. */
  lemma SeemsDrifted(u: State, id: string)
    requires u == State(Visits.Begun(Calm(id)), Copy(id, Serving(id), ListPods(""), false))
    ensures Wf(u) && Run(u, Runs.Oks(2)) == State(u.w, Copy(id, Serving(id), RollJob(Server(id)), true))
  {
    hide Run, Action, Slugs.MapSlug, FindActivePod;
    Visits.PutOne(Serving(id), Serving(id));
    Visits.FoundAlone(Server(id), Slugs.MapSlug(id), "");
    Runs.NoneYet(u);
    Runs.OneMore(u, 0);
    PrepareResult(u, Ok);
    Runs.OneMore(u, 1);
    DispatchResult(Run(u, Runs.Oks(1)), Ok);
  }

  /** A drain of the map was just stored. */
  predicate EndsDraining(log: seq<Event>, id: string) {
    log != [] && var e := log[|log| - 1]; e.Wrote? && e.kind.DrainStart? && e.stored && e.id == id
  }

  lemma DrainComes(u: State, id: string)
    requires u == State(Visits.Begun(Calm(id)), Copy(id, Serving(id), RollJob(Server(id)), true))
    ensures Wf(u)
    ensures var t := Action(u, Ok);
      t.pass == Copy(id, Serving(id), DrainPersist(0), true) && t.w == u.w.(log := t.w.log)
  {
    hide Action, Slugs.MapSlug;
    Visits.PutOne(Serving(id), Serving(id));
    assert JobVerdict([JobCondition(Complete, true)]) == JobSucceeded;
    RollJobResult(u, Ok);
  }

  lemma DrainIsStored(t: State, id: string)
    requires t.pass == Copy(id, Serving(id), DrainPersist(0), true) && t.w.cluster == Calm(id).cluster
    ensures Wf(t) && EndsDraining(Action(t, Ok).w.log, id)
  {
    hide Action, Slugs.MapSlug;
    Visits.PutOne(Serving(id), AtDrainStart(Serving(id), 0, OneMap(id)));
    DrainResult(t, Ok);
  }

  lemma DrainFollows(u: State, id: string)
    requires u == State(Visits.Begun(Calm(id)), Copy(id, Serving(id), RollJob(Server(id)), true))
    ensures Wf(u) && EndsDraining(Run(u, Runs.Oks(2)).w.log, id)
  {
    hide Run, Action, Slugs.MapSlug, EndsDraining, Copy;
    DrainComes(u, id);
    Runs.NoneYet(u);
    Runs.OneMore(u, 0);
    Runs.OneMore(u, 1);
    DrainIsStored(Run(u, Runs.Oks(1)), id);
  }

  /** In a run without environment moves in which one read of a revision fails and every other call succeeds, the drain
      of a healthy map is started. */
  lemma OneReadFails(id: string) returns (w: World, before: seq<Label>, after: seq<Label>)
    ensures w.log == [] && Unshared(w.cluster.spec, 0) && IsHealthy(w, 0) && IdAt(w, 0) == id
    ensures forall l :: l in before + after ==> l == Act(Ok)
    ensures var s := Run(State(w, None), before); s.pass.Some? && s.pass.value.call.ReadRevisions?
    ensures EndsDraining(Run(State(w, None), before + [Act(Fail)] + after).w.log, id)
  {
    hide Run, Slugs.MapSlug, EndsDraining, Gate;
    w, before, after := Calm(id), Runs.Oks(3), Runs.Oks(4);
    CalmIs(id);
    var s := State(w, None);
    ReadComes(id);
    ReadFails(id);
    var u := Run(s, before + [Act(Fail)]);
    SeemsDrifted(u, id);
    DrainFollows(Run(u, Runs.Oks(2)), id);
    Runs.OksAdd(u, 2, 2);
    RunThrough(s, before + [Act(Fail)], after);
  }

  lemma ReadComes(id: string)
    ensures var s := Run(State(Calm(id), None), Runs.Oks(3)); s.pass.Some? && s.pass.value.call.ReadRevisions?
  {
    hide Run, Action, Slugs.MapSlug, Gate;
    var s := State(Calm(id), None);
    Visits.Opening(Calm(id));
    Runs.OneMore(s, 2);
    Visits.Ensures(Run(s, Runs.Oks(2)));
  }
}
