/** Volume exclusivity of a map over whole runs: as long as its own volume changes are really stored and its pod
    really deleted after them, it never has two live pods, its pod mounts the volume on record, and no init Job is
    ever pointed at a volume a live pod of it mounts. What becomes of other maps does not matter. */
module Exclusivity {
  import opened ArkTypes
  import opened Statuses
  import opened World
  import opened Operator
  import opened Transitions
  import opened Coherence
  import opened Handover
  import opened LivePods
  import Slugs
  import StatusAgreement

  /* ---------- undisturbed logs ---------- */

  /** What may follow a volume change: the deletion of its pod. */
  predicate Vacates(e: Event, id: string) {
    e.Deleted? && e.applied && e.why != Orphaned && e.id == id
  }

  /** A listing of orphans failed, or a deletion of the map's orphaned pod. */
  predicate LeavesOrphan(e: Event, id: string) {
    e.OrphansUnlisted? || (e.Deleted? && e.why == Orphaned && e.id == Slugs.MapSlug(id) && !e.applied)
  }

  ghost predicate FineAt(log: seq<Event>, k: nat, id: string, always: bool)
    requires k < |log|
  {
    && (ChangesVolume(log[k], id) ==> log[k].stored && (k + 1 < |log| ==> Vacates(log[k + 1], id)))
    && (LeavesOrphan(log[k], id) ==> always)
  }

  /** Every volume change of the map so far was stored and, unless it is the last event, its pod deleted right after;
      for a map that is not always in spec, no orphaned pod of it was left behind either. */
  ghost predicate Undisturbed(log: seq<Event>, id: string, always: bool) {
    forall k: nat :: k < |log| ==> FineAt(log, k, id, always)
  }

  /** Between a volume change of the map and the deletion of its pod. */
  predicate Open(log: seq<Event>, id: string) {
    log != [] && ChangesVolume(log[|log| - 1], id)
  }

  lemma UndisturbedPrefix(log: seq<Event>, e: Event, id: string, always: bool)
    requires Undisturbed(log + [e], id, always)
    ensures Undisturbed(log, id, always)
    ensures Open(log, id) ==> Vacates(e, id)
    ensures (ChangesVolume(e, id) ==> e.stored) && (LeavesOrphan(e, id) ==> always)
  {
    hide LeavesOrphan;
    var longer := log + [e];
    forall k: nat | k < |log| ensures FineAt(log, k, id, always) {
      assert FineAt(longer, k, id, always);
    }
    if Open(log, id) {
      assert FineAt(longer, |log| - 1, id, always);
    }
    assert FineAt(longer, |log|, id, always);
  }

  /* ---------- the invariant ---------- */

  /** The map shares its slug with no other in spec; and it is in spec itself where it always is. */
  ghost predicate SpecFits(spec: Spec, id: string, always: bool) {
    && (forall i :: 0 <= i < |spec.maps| && Slugs.MapSlug(spec.maps[i].id) == Slugs.MapSlug(id) ==>
      spec.maps[i].id == id)
    && (always ==> Kept(spec, Slugs.MapSlug(id)))
  }

  predicate Sided(v: Volume) {
    v == Unset || IsServer(v)
  }

  predicate SidedEntry(e: MapStatus) {
    Sided(e.active) && Sided(e.lastGood)
  }

  /** What the pass remembers about the map's pods is still so. */
  ghost predicate Remembers(s: State, id: string)
    requires InPass(s)
  {
    var p, pods, slug := s.pass.value, s.w.pods, Slugs.MapSlug(id);
    && (ForVacant(p.call) && Id(s) == id ==> Vacant(pods, slug))
    && (PodOf(p.call).Some? && Id(s) == id ==>
          PodOf(p.call).value.slug == slug && OnlyHash(pods, slug, PodOf(p.call).value.hash))
    && (p.call.DeleteOrphan? && !Kept(p.cluster.spec, slug) ==> Awaiting(pods, slug, p.call.todo))
    && (p.call.FinalWrite? && !Kept(p.cluster.spec, slug) ==> Awaiting(pods, slug, []))
  }

  /** The copy in memory agrees with the stored status on where the map runs. */
  ghost predicate Volumes(s: State, id: string, always: bool) {
    && SpecFits(s.w.cluster.spec, id, always)
    && SidedEntry(Stored(s, id))
    && (s.pass.Some? ==> PassVolumes(s, id, always))
  }

  ghost predicate PassVolumes(s: State, id: string, always: bool)
    requires s.pass.Some?
  {
    var e := Entry(s.pass.value.cluster.status, id);
    SpecFits(s.pass.value.cluster.spec, id, always) && SidedEntry(e)
      && Defaulted(e.active) == Defaulted(Stored(s, id).active)
  }

  predicate VacatingMap(s: State, id: string)
    requires InPass(s)
  {
    Vacating(s.pass.value.call) && Id(s) == id
  }

  /** Outside the window live pods of the map mount the volume on record; a pass inside it is about to close it. */
  ghost predicate Settled(s: State, id: string)
    requires Wf(s)
  {
    && (!Open(s.w.log, id) ==> Mounts(s.w.pods, Slugs.MapSlug(id), Defaulted(Stored(s, id).active)))
    && (s.pass.Some? ==> (Open(s.w.log, id) <==> VacatingMap(s, id)))
  }

  ghost predicate Exclusive(s: State, id: string, always: bool)
    requires Wf(s)
  {
    && Sole(s.w.pods, Slugs.MapSlug(id)) && Volumes(s, id, always) && Settled(s, id)
    && (s.pass.Some? ==> Remembers(s, id))
  }

  /* ---------- steps within the pass ---------- */

  lemma QuietKeepsVolumes(s: State, t: State, id: string, always: bool)
    requires InPass(s) && Quiet(s, t) && Volumes(s, id, always)
    ensures Volumes(t, id, always)
  {
    hide SpecFits;
    if t.pass.Some? {
      assert Soft(Entry(s.pass.value.cluster.status, id), Entry(t.pass.value.cluster.status, id));
    }
  }

  lemma HandingOnRemembers(s: State, t: State, id: string)
    requires InPass(s) && Wf(t) && t.pass.Some? && Moves(s, t) && HandsOn(s, t)
    requires LeavesPods(s.pass.value.call) && t.w.pods == s.w.pods
    requires t.pass.value.cluster.spec == s.pass.value.cluster.spec
    requires Remembers(s, id)
    ensures Remembers(t, id)
  {
    hide Slugs.MapSlug, Awaiting, Vacant, OnlyHash, Kept;
  }

  /** Where the map's volume does not change, only the pods matter. */
  lemma SettlesAgain(s: State, t: State, id: string)
    requires InPass(s) && Wf(t) && Moves(s, t) && LogGrows(s, t)
    requires |t.w.log| > |s.w.log| ==> !ChangesVolume(t.w.log[|s.w.log|], id)
    requires !Open(s.w.log, id) || |t.w.log| > |s.w.log|
    requires t.pass.Some? ==> !VacatingMap(t, id)
    requires Mounts(t.w.pods, Slugs.MapSlug(id), Defaulted(Stored(t, id).active))
    ensures Settled(t, id)
  {
    hide Mounts, Slugs.MapSlug;
    if |t.w.log| == |s.w.log| {
      assert t.w.log == s.w.log;
    }
  }

  lemma OnlyWritesVacate(s: State, t: State, id: string)
    requires InPass(s) && Wf(t) && t.pass.Some? && Moves(s, t)
    requires !s.pass.value.call.SwapPersist? && !s.pass.value.call.RollbackPersist?
    ensures !VacatingMap(t, id)
  {
  }

  lemma OnlyOpenWhileVacating(s: State, id: string, always: bool)
    requires InPass(s) && Exclusive(s, id, always) && !VacatingMap(s, id)
    ensures !Open(s.w.log, id)
    ensures Mounts(s.w.pods, Slugs.MapSlug(id), Defaulted(Stored(s, id).active))
  {
    hide Slugs.MapSlug, Sole, Volumes, Remembers, Mounts;
  }

  /** All that is left to show of a state whose parts are known. */
  lemma PartsAreExclusive(t: State, id: string, always: bool)
    requires Wf(t) && Sole(t.w.pods, Slugs.MapSlug(id)) && Volumes(t, id, always) && Settled(t, id)
    requires t.pass.Some? ==> Remembers(t, id)
    ensures Exclusive(t, id, always)
  {
    hide Slugs.MapSlug, Sole, Volumes, Settled, Remembers;
  }

  lemma ExclusiveParts(s: State, id: string, always: bool)
    requires Wf(s) && Exclusive(s, id, always)
    ensures Sole(s.w.pods, Slugs.MapSlug(id)) && Volumes(s, id, always) && Settled(s, id)
    ensures s.pass.Some? ==> Remembers(s, id)
  {
    hide Slugs.MapSlug, Sole, Volumes, Settled, Remembers;
  }

  lemma NothingToRemember(t: State, id: string)
    requires Wf(t) && (t.pass.Some? ==> StartsMap(t.pass.value.call) || t.pass.value.call.Announce?)
    ensures t.pass.Some? ==> Remembers(t, id)
  {
    hide Slugs.MapSlug, Awaiting, Vacant, OnlyHash, Kept;
  }

  /** Steps that neither list, create nor delete pods nor write status. */
  lemma QuietKeepsExclusive(s: State, o: Outcome, id: string, always: bool)
    requires InPass(s) && LeavesPods(s.pass.value.call) && !IsWrite(s.pass.value.call) && Exclusive(s, id, always)
    ensures Exclusive(Action(s, o), id, always)
  {
    var t := Action(s, o);
    ExclusiveParts(s, id, always);
    PodsStay(s, o);
    ActionIsQuiet(s, o);
    ActionHandsOn(s, o);
    OnlyOpenWhileVacating(s, id, always);
    QuietKeepsVolumes(s, t, id, always);
    QuietKeepsCluster(s, t);
    QuietKeepsSpec(s, t);
    hide Mounts, Sole, Remembers, Volumes, HandsOn, Action, Quiet, Exclusive, Slugs.MapSlug;
    if t.pass.Some? {
      OnlyWritesVacate(s, t, id);
      HandingOnRemembers(s, t, id);
    }
    SettlesAgain(s, t, id);
    PartsAreExclusive(t, id, always);
  }

  /* ---------- listing ---------- */

  lemma FoundPodIsOnly(pods: seq<Pod>, slug: string, hash: string)
    requires Sole(pods, slug)
    ensures var found := FindActivePod(pods, slug, hash);
      && (found.None? ==> Vacant(pods, slug))
      && (found.Some? ==> found.value.slug == slug && OnlyHash(pods, slug, found.value.hash))
  {
    var found := FindActivePod(pods, slug, hash);
    if found.Some? {
      forall p | p in pods && Live(p, slug) ensures p.hash == found.value.hash {
        SoleIsOne(pods, slug, p, found.value);
      }
    }
  }

  lemma ListPodsRemembers(s: State, o: Outcome, id: string)
    requires InPass(s) && s.pass.value.call.ListPods? && Sole(s.w.pods, Slugs.MapSlug(id))
    ensures ActPrepare(s, o).pass.Some? ==> Remembers(ActPrepare(s, o), id)
  {
    hide Slugs.MapSlug, Sole, Vacant, OnlyHash, FindActivePod, Kept, Awaiting;
    if o == Ok && Id(s) == id {
      FoundPodIsOnly(s.w.pods, Slug(s), s.pass.value.call.hash);
    }
  }

  lemma ListOrphansRemembers(s: State, o: Outcome, id: string, always: bool)
    requires InPass(s) && s.pass.value.call.ListOrphans? && SpecFits(s.pass.value.cluster.spec, id, always)
    requires always || Slugs.MapSlug(id) != ""
    requires Undisturbed(ActFinish(s, o).w.log, id, always)
    ensures ActFinish(s, o).pass.Some? ==> Remembers(ActFinish(s, o), id)
  {
    hide Awaiting, Orphans, Undisturbed, Kept, Slugs.MapSlug, LogGrows, Reports, Moves;
    var spec, slug := s.pass.value.cluster.spec, Slugs.MapSlug(id);
    if o != Ok {
      UndisturbedPrefix(s.w.log, OrphansUnlisted, id, always);
    } else if !Kept(spec, slug) {
      OrphansAwaiting(s.w.pods, spec, slug);
    }
  }

  lemma ListingRemembers(s: State, o: Outcome, id: string, always: bool)
    requires InPass(s) && (s.pass.value.call.ListPods? || s.pass.value.call.ListOrphans?)
    requires always || Slugs.MapSlug(id) != ""
    requires Exclusive(s, id, always) && Undisturbed(Action(s, o).w.log, id, always)
    ensures Action(s, o).pass.Some? ==> Remembers(Action(s, o), id)
  {
    hide Undisturbed, Remembers, SpecFits, Sole, Settled, Slugs.MapSlug, ActPrepare, ActFinish;
    if s.pass.value.call.ListPods? {
      ListPodsRemembers(s, o, id);
    } else {
      ListOrphansRemembers(s, o, id, always);
    }
  }

  lemma ListingKeepsExclusive(s: State, o: Outcome, id: string, always: bool)
    requires InPass(s) && (s.pass.value.call.ListPods? || s.pass.value.call.ListOrphans?) && Exclusive(s, id, always)
    requires always || Slugs.MapSlug(id) != ""
    requires Undisturbed(Action(s, o).w.log, id, always)
    ensures Exclusive(Action(s, o), id, always)
  {
    var t := Action(s, o);
    ExclusiveParts(s, id, always);
    ActionIsQuiet(s, o);
    OnlyOpenWhileVacating(s, id, always);
    QuietKeepsVolumes(s, t, id, always);
    QuietKeepsCluster(s, t);
    ListingKeepsPods(s, o);
    ListingRemembers(s, o, id, always);
    hide Mounts, Sole, Remembers, Volumes, Action, Quiet, Undisturbed, Exclusive, Slugs.MapSlug;
    if t.pass.Some? {
      OnlyWritesVacate(s, t, id);
    }
    SettlesAgain(s, t, id);
    PartsAreExclusive(t, id, always);
  }

  /* ---------- deleting ---------- */

  /** Whatever a deletion does, it leaves the map with no more live pods, on no other volume. */
  lemma DeletionKeepsPods(s: State, o: Outcome, why: DeleteReason, about: string, pod: Pod, slug: string, v: Volume)
    ensures var pods := Delete(s, o, why, about, pod).w.pods;
      && (Sole(s.w.pods, slug) ==> Sole(pods, slug))
      && (Mounts(s.w.pods, slug, v) ==> Mounts(pods, slug, v))
  {
    hide Mounts, Sole, DeletePod, Thins, Vacant, OnlyHash;
    DeleteThins(s.w.pods, pod.slug, pod.hash);
    ThinsKeeps(s.w.pods, DeletePod(s.w.pods, pod.slug, pod.hash), slug);
    if Sole(s.w.pods, slug) {
      DeleteKeepsSole(s.w.pods, pod.slug, pod.hash, slug);
    }
  }

  lemma NextOrphanRemembers(t: State, todo: seq<Pod>, id: string)
    requires InPass(t) && t.pass.value.call == DeleteNext(todo)
    requires !Kept(t.pass.value.cluster.spec, Slugs.MapSlug(id)) ==> Awaiting(t.w.pods, Slugs.MapSlug(id), todo)
    ensures Remembers(t, id)
  {
    hide Awaiting, Vacant, OnlyHash, Slugs.MapSlug, Kept;
  }

  lemma DeleteOrphanAwaits(s: State, o: Outcome, id: string, always: bool)
    requires InPass(s) && s.pass.value.call.DeleteOrphan? && Remembers(s, id)
    requires SpecFits(s.pass.value.cluster.spec, id, always) && !Kept(s.pass.value.cluster.spec, Slugs.MapSlug(id))
    requires var todo := s.pass.value.call.todo;
      Undisturbed(Delete(s, o, Orphaned, todo[0].slug, todo[0]).w.log, id, always)
    ensures var todo := s.pass.value.call.todo;
      Awaiting(Delete(s, o, Orphaned, todo[0].slug, todo[0]).w.pods, Slugs.MapSlug(id), todo[1..])
  {
    hide Slugs.MapSlug, Kept, Undisturbed, Awaiting, DeletePod;
    var todo, slug := s.pass.value.call.todo, Slugs.MapSlug(id);
    DeleteKeepsAwaiting(s.w.pods, slug, todo);
    UndisturbedPrefix(s.w.log, Deleted(Orphaned, todo[0].slug, s.w.clock, o == Ok || o == Lost), id, always);
  }

  lemma DeleteOrphanKeepsExclusive(s: State, o: Outcome, id: string, always: bool)
    requires InPass(s) && s.pass.value.call.DeleteOrphan? && Exclusive(s, id, always)
    requires Undisturbed(ActFinish(s, o).w.log, id, always)
    ensures Exclusive(ActFinish(s, o), id, always)
  {
    var t, todo, slug := ActFinish(s, o), s.pass.value.call.todo, Slugs.MapSlug(id);
    ExclusiveParts(s, id, always);
    FinishIsQuiet(s, o);
    QuietKeepsCluster(s, t);
    QuietKeepsVolumes(s, t, id, always);
    OrphanDeletion(s, o);
    OnlyOpenWhileVacating(s, id, always);
    DeletionKeepsPods(s, o, Orphaned, todo[0].slug, todo[0], slug, Defaulted(Stored(s, id).active));
    hide Mounts, Sole, Awaiting, Undisturbed, Delete, ActFinish, Quiet, Settled, Remembers, SpecFits, Kept;
    hide Slugs.MapSlug, Exclusive;
    if !Kept(s.pass.value.cluster.spec, slug) {
      DeleteOrphanAwaits(s, o, id, always);
    }
    OnlyWritesVacate(s, t, id);
    SettlesAgain(s, t, id);
    NextOrphanRemembers(t, todo[1..], id);
    PartsAreExclusive(t, id, always);
  }

  /** Deleting the pod of the map whose volume was just changed leaves it without one. */
  lemma VacatedMounts(s: State, o: Outcome, why: DeleteReason, pod: Pod, id: string, always: bool)
    requires InPass(s) && VacatingMap(s, id) && PodOf(s.pass.value.call) == Some(pod) && Exclusive(s, id, always)
    requires Undisturbed(Delete(s, o, why, Id(s), pod).w.log, id, always)
    ensures Vacant(Delete(s, o, why, Id(s), pod).w.pods, Slugs.MapSlug(id))
  {
    hide Mounts, Volumes, Undisturbed, DeletePod, Slugs.MapSlug, Sole;
    UndisturbedPrefix(s.w.log, Deleted(why, Id(s), s.w.clock, o == Ok || o == Lost), id, always);
    DeleteThins(s.w.pods, pod.slug, pod.hash);
  }

  lemma VacantMounts(pods: seq<Pod>, slug: string, v: Volume)
    requires Vacant(pods, slug)
    ensures Mounts(pods, slug, v)
  {
  }

  lemma RehashRemembers(t: State, id: string)
    requires InPass(t) && (t.pass.value.call.Rehash? || StartsMap(t.pass.value.call))
    requires MapOf(t) == Some(id) && t.pass.value.call.Rehash? ==> Vacant(t.w.pods, Slugs.MapSlug(id))
    ensures Remembers(t, id)
  {
    hide Awaiting, Vacant, OnlyHash, Slugs.MapSlug, Kept;
  }

  function MapOf(t: State): Option<string> {
    if AtMap(t) then Some(Id(t)) else None
  }

  lemma VacateKeepsExclusive(s: State, t: State, o: Outcome, pod: Pod, why: DeleteReason, id: string, always: bool)
    requires InPass(s) && Vacating(s.pass.value.call) && PodOf(s.pass.value.call) == Some(pod)
      && Exclusive(s, id, always)
    requires Quiet(s, t) && Wf(t) && Moves(s, t) && LogGrows(s, t) && Undisturbed(t.w.log, id, always)
    requires t.w == Delete(s, o, why, Id(s), pod).w
    requires t.pass.Some? && (t.pass.value.call.Rehash? || StartsMap(t.pass.value.call))
    ensures Exclusive(t, id, always)
  {
    ExclusiveParts(s, id, always);
    QuietKeepsVolumes(s, t, id, always);
    QuietKeepsCluster(s, t);
    QuietKeepsSpec(s, t);
    var v := Defaulted(Stored(s, id).active);
    DeletionKeepsPods(s, o, why, Id(s), pod, Slugs.MapSlug(id), v);
    hide Mounts, Volumes, Undisturbed, Vacant, Quiet, Slugs.MapSlug, Delete, Exclusive, Remembers, Sole;
    if Id(s) == id {
      VacatedMounts(s, o, why, pod, id, always);
      VacantMounts(t.w.pods, Slugs.MapSlug(id), v);
    } else {
      OnlyOpenWhileVacating(s, id, always);
    }
    OnlyWritesVacate(s, t, id);
    DeleteReports(s, o, why, pod, id);
    SettlesAgain(s, t, id);
    RehashRemembers(t, id);
    PartsAreExclusive(t, id, always);
  }

  lemma DeleteReports(s: State, o: Outcome, why: DeleteReason, pod: Pod, id: string)
    requires AtMap(s)
    ensures var t := Delete(s, o, why, Id(s), pod);
      |t.w.log| == |s.w.log| + 1 && !ChangesVolume(t.w.log[|s.w.log|], id)
  {
  }

  lemma SwapDeleteKeepsExclusive(s: State, o: Outcome, id: string, always: bool)
    requires InPass(s) && s.pass.value.call.SwapDelete? && Exclusive(s, id, always)
    requires Undisturbed(ActSwapped(s, o).w.log, id, always)
    ensures Exclusive(ActSwapped(s, o), id, always)
  {
    SwappedIsQuiet(s, o);
    SwapDeletion(s, o);
    hide Exclusive, Undisturbed, ActSwapped, Delete, Quiet;
    VacateKeepsExclusive(s, ActSwapped(s, o), o, s.pass.value.call.pod, ByRoll, id, always);
  }

  lemma RollbackDeleteKeepsExclusive(s: State, o: Outcome, id: string, always: bool)
    requires InPass(s) && s.pass.value.call.RollbackDelete? && Exclusive(s, id, always)
    requires Undisturbed(ActRollback(s, o).w.log, id, always)
    ensures Exclusive(ActRollback(s, o), id, always)
  {
    DeleteOrAnnounceIsQuiet(s, o);
    RollbackDeletion(s, o);
    hide Exclusive, Undisturbed, ActRollback, Delete, Quiet;
    VacateKeepsExclusive(s, ActRollback(s, o), o, s.pass.value.call.pod, ByRollback, id, always);
  }

  /* ---------- creating ---------- */

  /** The pod created for the map goes to the volume on record, where no other is. */
  lemma OwnPodKeepsPods(s: State, u: State, o: Outcome, hash: string, id: string, always: bool)
    requires InPass(s) && Creates(s.pass.value.call) && Id(s) == id && Exclusive(s, id, always) && Placed(s)
    requires AtMap(u) && u.w == s.w && Id(u) == Id(s) && Mine(u) == Mine(s)
    ensures Sole(Create(u, o, hash).w.pods, Slugs.MapSlug(id))
    ensures Mounts(Create(u, o, hash).w.pods, Slugs.MapSlug(id), Defaulted(Stored(s, id).active))
  {
    hide SpecFits, Slugs.MapSlug, Awaiting, Sole, Mounts, Vacant, Named;
    var pod := NewPod(u, hash);
    assert Defaulted(Stored(s, id).active) == Defaulted(Mine(s).active) == pod.volume;
    assert Vacant(s.w.pods, pod.slug);
    CreateKeepsSole(s.w.pods, pod);
    CreateMounts(s.w.pods, pod);
    VacantMounts(s.w.pods, pod.slug, pod.volume);
  }

  lemma OtherPodKeepsPods(s: State, u: State, o: Outcome, hash: string, id: string, always: bool)
    requires InPass(s) && Creates(s.pass.value.call) && Id(s) != id && Exclusive(s, id, always)
    requires AtMap(u) && u.w == s.w && Id(u) == Id(s)
    ensures Sole(Create(u, o, hash).w.pods, Slugs.MapSlug(id))
    ensures Mounts(Create(u, o, hash).w.pods, Slugs.MapSlug(id), Defaulted(Stored(s, id).active))
  {
    hide Slugs.MapSlug, Awaiting, Sole, Mounts, Vacant, Named, Kept;
    OnlyOpenWhileVacating(s, id, always);
    var pod := NewPod(u, hash);
    assert pod.slug != Slugs.MapSlug(id);
    CreateBeside(s.w.pods, pod, Slugs.MapSlug(id));
  }

  lemma CreatingKeepsExclusive(s: State, o: Outcome, id: string, always: bool)
    requires InPass(s) && Creates(s.pass.value.call) && Exclusive(s, id, always) && Placed(s)
    ensures Exclusive(Action(s, o), id, always)
  {
    var t := Action(s, o);
    var hash := s.pass.value.call.hash;
    ExclusiveParts(s, id, always);
    CreatedWorld(s, o);
    OnlyOpenWhileVacating(s, id, always);
    ActionIsQuiet(s, o);
    QuietKeepsCluster(s, t);
    QuietKeepsVolumes(s, t, id, always);
    hide Mounts, Sole, Volumes, Exclusive, Placed, Action, Quiet, Settled, Create, Remembers, Slugs.MapSlug;
    if Id(s) == id {
      OwnPodKeepsPods(s, Creator(s), o, hash, id, always);
    } else {
      OtherPodKeepsPods(s, Creator(s), o, hash, id, always);
    }
    if t.pass.Some? {
      OnlyWritesVacate(s, t, id);
    }
    SettlesAgain(s, t, id);
    NothingToRemember(t, id);
    PartsAreExclusive(t, id, always);
  }

  /* ---------- status writes ---------- */

  /** A write of one entry, seen from any map. */
  lemma WrittenVolumes(s: State, t: State, kind: WriteKind, e: MapStatus, id: string, always: bool)
    requires InPass(s) && AtMap(s) && WritesEntry(s, t, kind, e) && SpecsStay(s, t) && Volumes(s, id, always)
    requires e.id == id ==> SidedEntry(e)
    requires t.pass.Some? && e.id == id ==>
      t.w.log[|s.w.log|].stored || Defaulted(e.active) == Defaulted(Entry(s.pass.value.cluster.status, id).active)
    ensures Volumes(t, id, always)
  {
    hide SpecFits;
  }

  lemma DrainWriteKeepsExclusive(s: State, o: Outcome, id: string, always: bool)
    requires InPass(s) && s.pass.value.call.DrainPersist? && Exclusive(s, id, always)
    ensures Exclusive(ActDrain(s, o), id, always)
  {
    var t, spec, since := ActDrain(s, o), s.pass.value.cluster.spec, s.pass.value.call.since;
    ExclusiveParts(s, id, always);
    OnlyOpenWhileVacating(s, id, always);
    DrainWritesEntry(s, o);
    ActionKeepsSpecs(s, o);
    DrainWriteEndsMap(s, o);
    WrittenVolumes(s, t, DrainStart(since, Grace(spec)), AtDrainStart(Mine(s), since, spec), id, always);
    DrainKeepsRecord(s, t, id, always);
    hide Mounts, Sole, Volumes, Remembers, ActDrain, SpecsStay, Exclusive, Settled, Slugs.MapSlug, WritesEntry;
    if t.pass.Some? {
      OnlyWritesVacate(s, t, id);
    }
    SettlesAgain(s, t, id);
    NothingToRemember(t, id);
    PartsAreExclusive(t, id, always);
  }

  /** A drain start moves no volume on record and is no volume change. */
  lemma DrainKeepsRecord(s: State, t: State, id: string, always: bool)
    requires InPass(s) && s.pass.value.call.DrainPersist? && Volumes(s, id, always)
    requires var spec, since := s.pass.value.cluster.spec, s.pass.value.call.since;
      WritesEntry(s, t, DrainStart(since, Grace(spec)), AtDrainStart(Mine(s), since, spec))
    ensures Defaulted(Stored(t, id).active) == Defaulted(Stored(s, id).active)
    ensures |t.w.log| > |s.w.log| ==> !ChangesVolume(t.w.log[|s.w.log|], id)
  {
    hide SpecFits;
  }

  lemma DrainWriteEndsMap(s: State, o: Outcome)
    requires InPass(s) && s.pass.value.call.DrainPersist?
    ensures var t := ActDrain(s, o); t.pass.Some? ==> t.pass.value.call.Announce? || StartsMap(t.pass.value.call)
    ensures ActDrain(s, o).w.pods == s.w.pods
  {
    hide Write;
  }

  predicate ChangeCall(call: Call) {
    call.SwapPersist? || call.RollbackPersist?
  }

  lemma ChangeIsFollowed(s: State, t: State)
    requires InPass(s) && Wf(t) && t.pass.Some? && Moves(s, t) && ChangeCall(s.pass.value.call)
    requires t.pass.value.cluster.spec == s.pass.value.cluster.spec
    ensures Vacating(t.pass.value.call) && AtMap(t) && Id(t) == Id(s)
  {
  }

  /** The map's own volume change opens the window, for the pass to close. */
  lemma OwnChangeSettles(s: State, t: State, kind: WriteKind, e: MapStatus, id: string, always: bool)
    requires InPass(s) && Wf(t) && Moves(s, t) && LogGrows(s, t) && WritesEntry(s, t, kind, e)
    requires (kind == Swap || kind == Rollback) && ChangeCall(s.pass.value.call) && e.id == Id(s) == id
    requires Settled(s, id) && t.w.pods == s.w.pods && Undisturbed(t.w.log, id, always)
    ensures Settled(t, id)
    ensures |t.w.log| > |s.w.log| ==> t.w.log[|s.w.log|].stored
  {
    hide Mounts, Slugs.MapSlug, Undisturbed;
    if |t.w.log| > |s.w.log| {
      assert t.w.log == s.w.log + [t.w.log[|s.w.log|]];
      UndisturbedPrefix(s.w.log, t.w.log[|s.w.log|], id, always);
      if t.pass.Some? {
        ChangeIsFollowed(s, t);
      }
    } else {
      assert t.w.log == s.w.log;
    }
  }

  /** Another map's volume change leaves the record of this one. */
  lemma OtherChangeSettles(s: State, t: State, kind: WriteKind, e: MapStatus, id: string, always: bool)
    requires InPass(s) && Wf(t) && Moves(s, t) && LogGrows(s, t) && WritesEntry(s, t, kind, e)
    requires ChangeCall(s.pass.value.call) && e.id == Id(s) != id
    requires Exclusive(s, id, always) && t.w.pods == s.w.pods
    ensures Settled(t, id)
  {
    hide Mounts, Slugs.MapSlug, SpecFits, Remembers, Sole;
    if t.pass.Some? {
      ChangeIsFollowed(s, t);
    }
    if |t.w.log| == |s.w.log| {
      assert t.w.log == s.w.log;
    }
  }

  lemma ChangeRemembers(s: State, t: State, id: string)
    requires InPass(s) && Wf(t) && t.pass.Some? && Moves(s, t) && HandsOn(s, t) && Remembers(s, id)
    requires ChangeCall(s.pass.value.call)
    requires t.w.pods == s.w.pods && t.pass.value.cluster.spec == s.pass.value.cluster.spec
    ensures Remembers(t, id)
  {
    HandingOnRemembers(s, t, id);
  }

  lemma ChangeKeepsExclusive(s: State, t: State, kind: WriteKind, e: MapStatus, id: string, always: bool)
    requires InPass(s) && Wf(t) && Moves(s, t) && LogGrows(s, t) && WritesEntry(s, t, kind, e)
    requires (kind == Swap || kind == Rollback) && ChangeCall(s.pass.value.call) && e.id == Id(s)
    requires e.id == id ==> SidedEntry(e)
    requires t.w.pods == s.w.pods && Undisturbed(t.w.log, id, always) && SpecsStay(s, t) && HandsOn(s, t)
    requires Exclusive(s, id, always)
    ensures Exclusive(t, id, always)
  {
    ExclusiveParts(s, id, always);
    hide Mounts, Sole, Remembers, HandsOn, Undisturbed, Settled, Exclusive, Slugs.MapSlug, SpecFits, Volumes;
    if Id(s) == id {
      OwnChangeSettles(s, t, kind, e, id, always);
    } else {
      OtherChangeSettles(s, t, kind, e, id, always);
    }
    WrittenVolumes(s, t, kind, e, id, always);
    if t.pass.Some? {
      ChangeRemembers(s, t, id);
    }
    hide WritesEntry, SpecsStay, Moves;
    PartsAreExclusive(t, id, always);
  }

  lemma MineIsSided(s: State, id: string, always: bool)
    requires InPass(s) && AtMap(s) && Exclusive(s, id, always) && Id(s) == id
    ensures SidedEntry(Mine(s))
  {
    hide SpecFits, Settled, Remembers, Sole, Slugs.MapSlug;
  }

  lemma SwapWriteKeepsExclusive(s: State, o: Outcome, id: string, always: bool)
    requires InPass(s) && s.pass.value.call.SwapPersist? && Exclusive(s, id, always)
    requires Undisturbed(ActSwap(s, o).w.log, id, always)
    ensures Exclusive(ActSwap(s, o), id, always)
  {
    SwapWritesEntry(s, o);
    ActionKeepsSpecs(s, o);
    ActionHandsOn(s, o);
    hide ActSwap, Exclusive, HandsOn, WritesEntry, Undisturbed;
    if Id(s) == id {
      MineIsSided(s, id, always);
    }
    ChangeKeepsExclusive(s, ActSwap(s, o), Swap, AtSwap(Mine(s)), id, always);
  }

  lemma RollbackWriteKeepsExclusive(s: State, o: Outcome, id: string, always: bool)
    requires InPass(s) && s.pass.value.call.RollbackPersist? && Exclusive(s, id, always)
    requires Undisturbed(ActRollback(s, o).w.log, id, always)
    ensures Exclusive(ActRollback(s, o), id, always)
  {
    RollbackWritesEntry(s, o);
    ActionKeepsSpecs(s, o);
    ActionHandsOn(s, o);
    hide ActRollback, Exclusive, HandsOn, WritesEntry, Undisturbed;
    if Id(s) == id {
      MineIsSided(s, id, always);
    }
    ChangeKeepsExclusive(s, ActRollback(s, o), Rollback, AtRollback(Mine(s), s.w.clock), id, always);
  }

  /** Pruning forgets the volume of a map outside spec, which by then has no live pod. */
  lemma FinalWriteMounts(s: State, o: Outcome, id: string, always: bool)
    requires InPass(s) && s.pass.value.call.FinalWrite? && Exclusive(s, id, always)
    ensures Mounts(s.w.pods, Slugs.MapSlug(id), Defaulted(Stored(ActFinish(s, o), id).active))
    ensures SidedEntry(Stored(ActFinish(s, o), id))
  {
    hide Slugs.MapSlug, Kept, Sole, SpecFits, Mounts;
    var maps, spec, slug := s.pass.value.cluster.status, s.pass.value.cluster.spec, Slugs.MapSlug(id);
    FinalWriteEffect(s, o);
    PruneEntry(maps, spec, id);
    OnlyOpenWhileVacating(s, id, always);
    hide ActFinish, Prune;
    if !Kept(spec, slug) {
      VacantMounts(s.w.pods, slug, Defaulted(Unset));
    }
  }

  lemma FinalWriteIsNoChange(s: State, o: Outcome, id: string)
    requires InPass(s) && s.pass.value.call.FinalWrite?
    ensures |ActFinish(s, o).w.log| > |s.w.log| ==> !ChangesVolume(ActFinish(s, o).w.log[|s.w.log|], id)
    ensures ActFinish(s, o).pass.None?
  {
    hide Finished;
  }

  lemma FinalWriteKeepsExclusive(s: State, o: Outcome, id: string, always: bool)
    requires InPass(s) && s.pass.value.call.FinalWrite? && Exclusive(s, id, always)
    ensures Exclusive(ActFinish(s, o), id, always)
  {
    var t := ActFinish(s, o);
    ExclusiveParts(s, id, always);
    OnlyOpenWhileVacating(s, id, always);
    FinalWriteMounts(s, o, id, always);
    FinalWriteIsNoChange(s, o, id);
    ActionKeepsSpecs(s, o);
    hide Mounts, Sole, SpecFits, ActFinish, Settled, Remembers, Slugs.MapSlug, Exclusive;
    SettlesAgain(s, t, id);
    PartsAreExclusive(t, id, always);
  }

  lemma BeginKeepsExclusive(s: State, o: Outcome, id: string, always: bool)
    requires s.pass.None? && Exclusive(s, id, always) && Undisturbed(ActBegin(s, o).w.log, id, always)
    ensures Exclusive(ActBegin(s, o), id, always)
  {
    hide Mounts, Sole, SpecFits, Undisturbed, Awaiting, Vacant, OnlyHash, Slugs.MapSlug, Kept;
    if o == Ok {
      UndisturbedPrefix(s.w.log, Began, id, always);
    }
  }

  /* ---------- each step ---------- */

  lemma ActionKeepsExclusive(s: State, o: Outcome, id: string, always: bool)
    requires Wf(s) && Exclusive(s, id, always) && Placed(s) && Undisturbed(Action(s, o).w.log, id, always)
    requires always || Slugs.MapSlug(id) != ""
    ensures Exclusive(Action(s, o), id, always)
  {
    hide ActPrepare, ActDispatch, ActFirst, ActRollback, ActRoll, ActDrain, ActSwap, ActSwapped, ActFinish, ActBegin;
    hide Exclusive, Placed, Undisturbed, Slugs.MapSlug;
    if s.pass.None? {
      BeginKeepsExclusive(s, o, id, always);
    } else {
      match s.pass.value.call
      case ListPods(_) | ListOrphans => ListingKeepsExclusive(s, o, id, always);
      case DeleteOrphan(_) => DeleteOrphanKeepsExclusive(s, o, id, always);
      case SwapDelete(_) => SwapDeleteKeepsExclusive(s, o, id, always);
      case RollbackDelete(_) => RollbackDeleteKeepsExclusive(s, o, id, always);
      case FirstCreate(_) | SwapCreate(_) => CreatingKeepsExclusive(s, o, id, always);
      case DrainPersist(_) => DrainWriteKeepsExclusive(s, o, id, always);
      case SwapPersist(_) => SwapWriteKeepsExclusive(s, o, id, always);
      case RollbackPersist(_) => RollbackWriteKeepsExclusive(s, o, id, always);
      case FinalWrite => FinalWriteKeepsExclusive(s, o, id, always);
      case _ => QuietKeepsExclusive(s, o, id, always);
    }
  }

  /* ---------- what the log shows ---------- */

  /** Installs only go to volumes no live pod of the map mounts; its pods are only created on the volume on record. */
  predicate EventExclusive(e: Event, id: string) {
    && (e.Installed? && e.id == id ==> !e.mounted)
    && (e.Created? && e.id == id ==> IsServer(e.volume) && e.volume == e.recorded)
  }

  ghost predicate AllExclusive(log: seq<Event>, id: string) {
    forall k :: 0 <= k < |log| ==> EventExclusive(log[k], id)
  }

  lemma MineIsRecorded(s: State, id: string, always: bool)
    requires InPass(s) && AtMap(s) && Exclusive(s, id, always) && Placed(s) && Id(s) == id
    requires IsMapCall(s.pass.value.call) && !s.pass.value.call.EnsureMap? && !Vacating(s.pass.value.call)
    ensures IsServer(Mine(s).active) && Mine(s).active == Defaulted(Stored(s, id).active)
    ensures Mounts(s.w.pods, Slug(s), Mine(s).active)
  {
    hide Sole, Mounts, Remembers, SpecFits, Slugs.MapSlug;
  }

  lemma VacantIsUnmounted(s: State, id: string, always: bool)
    requires InPass(s) && s.pass.value.call.FirstInstall? && Exclusive(s, id, always) && Id(s) == id
    ensures forall side :: !MountedLive(s.w.pods, Slug(s), side)
  {
    hide Volumes, Settled, Slugs.MapSlug, Kept, Awaiting;
  }

  lemma FirstInstallIsExclusive(s: State, o: Outcome, id: string, always: bool)
    requires InPass(s) && s.pass.value.call.FirstInstall? && Exclusive(s, id, always)
    ensures var t := ActFirst(s, o); |t.w.log| == |s.w.log| + 1 && EventExclusive(t.w.log[|s.w.log|], id)
  {
    InstallEvent(Busy(s), o, VolumeSide(Mine(s).active), InstallingActive);
    if Id(s) == id {
      VacantIsUnmounted(s, id, always);
    }
    hide Exclusive, Install, Slugs.MapSlug, MountedLive;
  }

  lemma RollInstallIsExclusive(s: State, o: Outcome, id: string, always: bool)
    requires InPass(s) && s.pass.value.call.RollInstall? && Exclusive(s, id, always) && Placed(s)
    ensures var t := ActRoll(s, o); |t.w.log| == |s.w.log| + 1 && EventExclusive(t.w.log[|s.w.log|], id)
  {
    if Id(s) == id {
      MineIsRecorded(s, id, always);
    }
    InstallEvent(s, o, VolumeSide(OtherVolume(Mine(s).active)), InstallingInactive);
    hide Exclusive, Placed, Install, Slugs.MapSlug;
  }

  lemma CreatedIsExclusive(s: State, o: Outcome, id: string, always: bool)
    requires InPass(s) && Creates(s.pass.value.call) && Exclusive(s, id, always) && Placed(s)
    ensures |Action(s, o).w.log| > |s.w.log| ==> EventExclusive(Action(s, o).w.log[|s.w.log|], id)
  {
    CreationTellsPod(s, o);
    if Id(s) == id {
      MineIsRecorded(s, id, always);
    }
    hide Exclusive, Placed, Action, Mounts, Slugs.MapSlug;
  }

  lemma ActionIsExclusive(s: State, o: Outcome, id: string, always: bool)
    requires Wf(s) && Exclusive(s, id, always) && Placed(s)
    ensures |Action(s, o).w.log| > |s.w.log| ==> EventExclusive(Action(s, o).w.log[|s.w.log|], id)
  {
    hide Exclusive, Placed;
    hide ActPrepare, ActDispatch, ActFirst, ActRollback, ActRoll, ActDrain, ActSwap, ActSwapped, ActFinish, ActBegin;
    if s.pass.Some? {
      if s.pass.value.call.FirstInstall? {
        FirstInstallIsExclusive(s, o, id, always);
      } else if s.pass.value.call.RollInstall? {
        RollInstallIsExclusive(s, o, id, always);
      } else if Creates(s.pass.value.call) {
        CreatedIsExclusive(s, o, id, always);
      } else {
        OthersCreateNothing(s, o);
        OthersInstallNothing(s, o);
      }
    } else {
      BeginReports(s, o);
    }
  }

  /* ---------- whole runs ---------- */

  ghost predicate EnvFits(labels: seq<Label>, id: string, always: bool) {
    forall l :: l in labels && l.Env? ==> SpecFits(l.world.cluster.spec, id, always)
  }

  lemma EnvKeepsRemembers(s: State, v: World, id: string)
    requires InPass(s) && Remembers(s, id) && EnvMay(s.w, v)
    ensures Remembers(s.(w := v.(hash := s.w.hash)), id)
  {
    hide Awaiting, Vacant, OnlyHash, Slugs.MapSlug, Kept, EnvMay, Thins;
    var slug, p := Slugs.MapSlug(id), s.pass.value;
    EnvThins(s.w, v);
    ThinsKeeps(s.w.pods, v.pods, slug);
    if p.call.DeleteOrphan? && !Kept(p.cluster.spec, slug) {
      ThinsKeepsAwaiting(s.w.pods, v.pods, slug, p.call.todo);
    }
    if p.call.FinalWrite? && !Kept(p.cluster.spec, slug) {
      ThinsKeepsAwaiting(s.w.pods, v.pods, slug, []);
    }
  }

  lemma EnvKeepsPods(s: State, v: World, id: string)
    requires Wf(s) && EnvMay(s.w, v) && Sole(s.w.pods, Slugs.MapSlug(id)) && Settled(s, id)
    ensures Sole(v.pods, Slugs.MapSlug(id)) && Settled(s.(w := v.(hash := s.w.hash)), id)
  {
    hide Sole, Mounts, Slugs.MapSlug, Thins;
    var slug := Slugs.MapSlug(id);
    EnvThins(s.w, v);
    ThinsKeeps(s.w.pods, v.pods, slug);
    ThinsKeepsSole(s.w.pods, v.pods, slug);
  }

  lemma OutsideKeepsExclusive(s: State, l: Label, id: string, always: bool)
    requires Wf(s) && Exclusive(s, id, always) && !l.Act?
    requires l.Env? ==> SpecFits(l.world.cluster.spec, id, always)
    ensures Exclusive(Step(s, l), id, always)
  {
    ExclusiveParts(s, id, always);
    hide Exclusive, Sole, Mounts, Remembers, SpecFits, Slugs.MapSlug;
    if l.Env? && EnvMay(s.w, l.world) {
      EnvKeepsPods(s, l.world, id);
      if s.pass.Some? {
        EnvKeepsRemembers(s, l.world, id);
      }
    }
    PartsAreExclusive(Step(s, l), id, always);
  }

  lemma {:induction false} UndisturbedStart(log: seq<Event>, more: seq<Event>, id: string, always: bool)
    requires log <= more && Undisturbed(more, id, always)
    ensures Undisturbed(log, id, always)
    decreases |more|
  {
    hide Undisturbed;
    if |log| < |more| {
      assert more == more[..|more| - 1] + [more[|more| - 1]];
      UndisturbedPrefix(more[..|more| - 1], more[|more| - 1], id, always);
      UndisturbedStart(log, more[..|more| - 1], id, always);
    } else {
      assert log == more;
    }
  }

  lemma ExclusiveGrows(s: State, t: State, id: string)
    requires LogGrows(s, t) && AllExclusive(s.w.log, id)
    requires |t.w.log| > |s.w.log| ==> EventExclusive(t.w.log[|s.w.log|], id)
    ensures AllExclusive(t.w.log, id)
  {
    hide EventExclusive;
    forall k | 0 <= k < |t.w.log| ensures EventExclusive(t.w.log[k], id) {
      assert k < |s.w.log| ==> t.w.log[k] == t.w.log[..|s.w.log|][k];
    }
  }

  lemma StepKeepsExclusive(r: State, l: Label, id: string, always: bool)
    requires Wf(r) && Sound(r) && Exclusive(r, id, always) && AllExclusive(r.w.log, id)
    requires always || Slugs.MapSlug(id) != ""
    requires l.Env? ==> SpecFits(l.world.cluster.spec, id, always)
    requires Undisturbed(Step(r, l).w.log, id, always)
    ensures Exclusive(Step(r, l), id, always) && AllExclusive(Step(r, l).w.log, id)
  {
    hide Action, Exclusive, EventExclusive, Placed, Synced, Undisturbed, SpecFits, Slugs.MapSlug, AllExclusive;
    if l.Act? {
      ActionKeepsExclusive(r, l.outcome, id, always);
      ActionIsExclusive(r, l.outcome, id, always);
      ExclusiveGrows(r, Action(r, l.outcome), id);
    } else {
      OutsideKeepsExclusive(r, l, id, always);
    }
  }

  lemma {:induction false} RunKeepsExclusive(s: State, labels: seq<Label>, id: string, always: bool)
    requires Wf(s) && Sound(s) && Exclusive(s, id, always) && EnvFits(labels, id, always)
    requires always || Slugs.MapSlug(id) != ""
    requires AllExclusive(s.w.log, id) && Undisturbed(Run(s, labels).w.log, id, always)
    ensures var t := Run(s, labels); Sound(t) && Exclusive(t, id, always) && AllExclusive(t.w.log, id)
  {
    hide Action, Exclusive, Placed, Synced, Undisturbed, SpecFits, AllExclusive, Slugs.MapSlug;
    if labels != [] {
      var prefix, l := labels[..|labels| - 1], labels[|labels| - 1];
      assert l in labels;
      var r, t := Run(s, prefix), Run(s, labels);
      RunLast(s, labels);
      hide Run;
      assert r.w.log == t.w.log[..|r.w.log|];
      UndisturbedStart(r.w.log, t.w.log, id, always);
      RunKeepsExclusive(s, prefix, id, always);
      StepKeepsSound(r, l);
      StepKeepsExclusive(r, l, id, always);
    }
  }

  /** At most one live pod belongs to the map and it mounts the volume on record: so in a new cluster. */
  ghost predicate TidyMap(w: World, id: string) {
    var e := Entry(w.cluster.status, id);
    Sole(w.pods, Slugs.MapSlug(id)) && Mounts(w.pods, Slugs.MapSlug(id), Defaulted(e.active)) && SidedEntry(e)
  }

  /** Whatever run the cluster goes through, cut and failing at any call and with any misfortune to other maps: as
      long as each volume change of this map was stored and its pod deleted after it, the map has at most one live
      pod at every moment; outside the window between a volume change and its deletion that pod mounts the stored
      active volume; the volumes on record are server-a or server-b once set; no init Job of the map was ever
      pointed at a volume its live pod mounted, and no pod of it created off the record. A map that is not in every
      spec needs a slug, and its orphaned pods deleted. */
  lemma MapExclusivity(s: State, labels: seq<Label>, id: string, always: bool)
    requires s.pass.None? && s.w.log == [] && TidyMap(s.w, id)
    requires SpecFits(s.w.cluster.spec, id, always) && EnvFits(labels, id, always)
    requires always || Slugs.MapSlug(id) != ""
    requires Undisturbed(Run(s, labels).w.log, id, always)
    ensures var t := Run(s, labels);
      && Sole(t.w.pods, Slugs.MapSlug(id)) && SidedEntry(Stored(t, id))
      && (!Open(t.w.log, id) ==> TidyMap(t.w, id))
      && AllExclusive(t.w.log, id)
  {
    hide SpecFits, Run, Undisturbed, Sole, Mounts, Slugs.MapSlug;
    RunKeepsExclusive(s, labels, id, always);
  }

  /* ---------- all maps together ---------- */

  /** The map slugs are non-empty and told apart. */
  ghost predicate Sluggable(ids: set<string>) {
    StatusAgreement.TellApart(ids) && forall id :: id in ids ==> Slugs.MapSlug(id) != ""
  }

  ghost predicate EnvIn(labels: seq<Label>, ids: set<string>) {
    forall l :: l in labels && l.Env? ==> StatusAgreement.MapsIn(l.world.cluster.spec, ids)
  }

  ghost predicate Tidy(w: World, ids: set<string>) {
    StatusAgreement.MapsIn(w.cluster.spec, ids) && forall id :: id in ids ==> TidyMap(w, id)
  }

  ghost predicate UndisturbedAll(log: seq<Event>, ids: set<string>) {
    forall id :: id in ids ==> Undisturbed(log, id, false)
  }

  lemma SlugsFit(spec: Spec, ids: set<string>, id: string)
    requires StatusAgreement.MapsIn(spec, ids) && Sluggable(ids) && id in ids
    ensures SpecFits(spec, id, false)
  {
    hide Slugs.MapSlug;
  }

  /** The event is not about the pods or Jobs of a map outside ids. */
  predicate About(e: Event, ids: set<string>) {
    e.Installed? || e.Created? ==> e.id in ids
  }

  ghost predicate AllAbout(log: seq<Event>, ids: set<string>) {
    forall k :: 0 <= k < |log| ==> About(log[k], ids)
  }

  ghost predicate SpecsIn(s: State, ids: set<string>) {
    StatusAgreement.MapsIn(s.w.cluster.spec, ids)
      && (s.pass.Some? ==> StatusAgreement.MapsIn(s.pass.value.cluster.spec, ids))
  }

  lemma InstallsAreAbout(s: State, o: Outcome)
    requires InPass(s) && (s.pass.value.call.FirstInstall? || s.pass.value.call.RollInstall?)
    ensures |Action(s, o).w.log| > |s.w.log| && Action(s, o).w.log[|s.w.log|].Installed?
      && Action(s, o).w.log[|s.w.log|].id == Id(s)
  {
    hide Slugs.MapSlug, MountedLive, Install;
    if s.pass.value.call.FirstInstall? {
      InstallEvent(Busy(s), o, VolumeSide(Mine(s).active), InstallingActive);
    } else {
      InstallEvent(s, o, VolumeSide(OtherVolume(Mine(s).active)), InstallingInactive);
    }
  }

  lemma ActionIsAbout(s: State, o: Outcome, ids: set<string>)
    requires Wf(s) && SpecsIn(s, ids)
    ensures |Action(s, o).w.log| > |s.w.log| ==> About(Action(s, o).w.log[|s.w.log|], ids)
  {
    hide ActPrepare, ActDispatch, ActFirst, ActRollback, ActRoll, ActDrain, ActSwap, ActSwapped, ActFinish, ActBegin;
    if s.pass.Some? {
      if s.pass.value.call.FirstInstall? || s.pass.value.call.RollInstall? {
        InstallsAreAbout(s, o);
      } else if Creates(s.pass.value.call) {
        CreationTellsPod(s, o);
      } else {
        OthersCreateNothing(s, o);
        OthersInstallNothing(s, o);
      }
    } else {
      BeginReports(s, o);
    }
  }

  lemma AboutGrows(s: State, t: State, ids: set<string>)
    requires LogGrows(s, t) && AllAbout(s.w.log, ids)
    requires |t.w.log| > |s.w.log| ==> About(t.w.log[|s.w.log|], ids)
    ensures AllAbout(t.w.log, ids)
  {
    hide About;
    forall k | 0 <= k < |t.w.log| ensures About(t.w.log[k], ids) {
      assert k < |s.w.log| ==> t.w.log[k] == t.w.log[..|s.w.log|][k];
    }
  }

  lemma {:induction false} RunIsAbout(s: State, labels: seq<Label>, ids: set<string>)
    requires Wf(s) && SpecsIn(s, ids) && EnvIn(labels, ids) && AllAbout(s.w.log, ids)
    ensures SpecsIn(Run(s, labels), ids) && AllAbout(Run(s, labels).w.log, ids)
  {
    hide Action, StatusAgreement.MapsIn, AllAbout;
    if labels != [] {
      var prefix, l := labels[..|labels| - 1], labels[|labels| - 1];
      assert l in labels;
      var r := Run(s, prefix);
      RunLast(s, labels);
      hide Run;
      RunIsAbout(s, prefix, ids);
      if l.Act? {
        ActionKeepsSpecs(r, l.outcome);
        ActionIsAbout(r, l.outcome, ids);
        AboutGrows(r, Action(r, l.outcome), ids);
      }
    }
  }

  /** The same of all maps of a cluster at once, under distinct slugs: no Job of any map was ever pointed at a volume
      a live pod of it mounted, and no pod of any map created off the record. */
  lemma VolumeExclusivity(s: State, labels: seq<Label>, ids: set<string>)
    requires s.pass.None? && s.w.log == [] && Tidy(s.w, ids) && Sluggable(ids) && EnvIn(labels, ids)
    requires UndisturbedAll(Run(s, labels).w.log, ids)
    ensures var t := Run(s, labels);
      && (forall id :: id in ids ==>
            Sole(t.w.pods, Slugs.MapSlug(id)) && SidedEntry(Stored(t, id)) && (!Open(t.w.log, id) ==> TidyMap(t.w, id)))
      && (forall e :: e in t.w.log ==>
            && (e.Installed? ==> !e.mounted)
            && (e.Created? ==> IsServer(e.volume) && e.volume == e.recorded))
  {
    hide SpecFits, Run, Undisturbed, Slugs.MapSlug, Sole, TidyMap, SidedEntry, Open, StatusAgreement.MapsIn;
    var t := Run(s, labels);
    RunIsAbout(s, labels, ids);
    forall id | id in ids
      ensures Sole(t.w.pods, Slugs.MapSlug(id)) && SidedEntry(Stored(t, id))
        && (!Open(t.w.log, id) ==> TidyMap(t.w, id))
      ensures AllExclusive(t.w.log, id)
    {
      EachFits(s.w, labels, ids, id);
      MapExclusivity(s, labels, id, false);
    }
    forall e | e in t.w.log
      ensures (e.Installed? ==> !e.mounted) && (e.Created? ==> IsServer(e.volume) && e.volume == e.recorded)
    {
      var k :| 0 <= k < |t.w.log| && t.w.log[k] == e;
      assert About(t.w.log[k], ids);
      if e.Installed? || e.Created? {
        assert AllExclusive(t.w.log, e.id);
        assert EventExclusive(t.w.log[k], e.id);
      }
    }
  }

  lemma EachFits(w: World, labels: seq<Label>, ids: set<string>, id: string)
    requires Tidy(w, ids) && Sluggable(ids) && EnvIn(labels, ids) && id in ids
    ensures SpecFits(w.cluster.spec, id, false) && EnvFits(labels, id, false) && Slugs.MapSlug(id) != ""
  {
    hide StatusAgreement.MapsIn, SpecFits, TidyMap;
    SlugsFit(w.cluster.spec, ids, id);
    forall l | l in labels && l.Env? ensures SpecFits(l.world.cluster.spec, id, false) {
      SlugsFit(l.world.cluster.spec, ids, id);
    }
  }
}
