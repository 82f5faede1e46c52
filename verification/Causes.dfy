/** The order in which things happen: what each event of a run follows, and what a stored decision is followed by. */
module Causes {
  import opened ArkTypes
  import opened Statuses
  import opened World
  import opened Operator
  import opened Coherence
  import opened Choices
  import opened Effects
  import Slugs

  /* ---------- in the log ---------- */

  /** The Job of the map was seen, and this is what it was. */
  predicate Saw(e: Event, id: string, verdict: Verdict, rolling: bool) {
    e.JobSeen? && e.id == id && e.verdict == verdict && e.rolling == rolling
  }

  predicate Writes(e: Event, kind: WriteKind, id: string) {
    e.Wrote? && e.kind == kind && e.id == id
  }

  predicate DeletedFor(e: Event, why: DeleteReason, id: string) {
    e.Deleted? && e.why == why && e.id == id
  }

  /** A drain start of which players are to be told: its grace is positive and their server's address known. */
  predicate IsAnnounceable(e: Event) {
    e.Wrote? && e.kind.DrainStart? && e.kind.grace > 0 && Entry(e.after.status, e.id).rcon != ""
  }

  /** f can follow e: a Job is asked for when it was seen to be missing; a pod is created when its Job was seen to be
      done or the pod it replaces was asked to go; a drain starts at the moment at which the other side was seen to be
      installed; players are told of a drain start, and their game is saved when the other side is installed; a swap is
      written right after the save if the server's address is known, else when the other side was seen to be installed;
      a pod is deleted for a swap or a rollback right after it was written. */
  predicate CanFollow(e: Event, f: Event) {
    match f
    case Installed(id, key, _) => e.JobSeen? && e.id == id && e.key == key && e.verdict == JobMissing
    case Created(id, key, _, _) => (Saw(e, id, JobSucceeded, false) && e.key == key) || DeletedFor(e, ByRoll, id)
    case Announced(id) =>
      e.Wrote? && e.kind.DrainStart? && e.kind.grace > 0 && e.id == id && (e.stored ==> IsAnnounceable(e))
    case SavedAndExited(id) => Saw(e, id, JobSucceeded, true)
    case Deleted(why, id, _, _) =>
      (why == ByRoll ==> Writes(e, Swap, id)) && (why == ByRollback ==> Writes(e, Rollback, id))
    case Wrote(kind, id, _, stored, _, _, _, after) =>
      && (kind.DrainStart? ==> Saw(e, id, JobSucceeded, true) && e.at == kind.since)
      && (kind == Swap ==>
            && (e == SavedAndExited(id) || Saw(e, id, JobSucceeded, true))
            && (stored ==> (e == SavedAndExited(id) <==> Entry(after.status, id).rcon != "")))
    case _ => true
  }

  /** e is followed by f: a missing Job is asked for, players are told of a stored drain start, a saved game is swapped
      and a pod deleted once its swap or rollback is written, unless the pass ends and f begins another. */
  predicate MustPrecede(e: Event, f: Event) {
    && (e.JobSeen? && e.verdict == JobMissing ==> f.Began? || (f.Installed? && f.id == e.id))
    && (IsAnnounceable(e) && e.stored ==> f.Began? || f == Announced(e.id))
    && (e.SavedAndExited? ==> f.Began? || Writes(f, Swap, e.id))
    && (e.Wrote? && e.kind == Swap ==> f.Began? || DeletedFor(f, ByRoll, e.id))
    && (e.Wrote? && e.kind == Rollback ==> f.Began? || DeletedFor(f, ByRollback, e.id))
  }

  /* ---------- in the pass ---------- */

  function Last(log: seq<Event>): Event
    requires log != []
  {
    log[|log| - 1]
  }

  /** What the last event is, by the call the pass is about to make. */
  ghost predicate Prompted(s: State, e: Event)
    requires InPass(s)
  {
    var call := s.pass.value.call;
    IsMapCall(call) ==>
      var id, spec, mine := Id(s), s.pass.value.cluster.spec, Mine(s);
      match call
      case FirstInstall => Saw(e, id, JobMissing, false) && e.key == Job(spec, id, VolumeSide(mine.active))
      case FirstCreate(_) => Saw(e, id, JobSucceeded, false) && e.key == Job(spec, id, VolumeSide(mine.active))
      case RollInstall => Saw(e, id, JobMissing, true) && e.key == Job(spec, id, VolumeSide(OtherVolume(mine.active)))
      case DrainPersist(since) => Saw(e, id, JobSucceeded, true) && e.at == since
      case Announce =>
        e.Wrote? && e.kind.DrainStart? && e.kind.grace > 0 && e.id == id && (e.stored ==> IsAnnounceable(e))
      case SaveAndExit(_) => Saw(e, id, JobSucceeded, true) && mine.rcon != ""
      case SwapPersist(_) => if mine.rcon != "" then e == SavedAndExited(id) else Saw(e, id, JobSucceeded, true)
      case SwapDelete(_) => Writes(e, Swap, id)
      case RollbackDelete(_) => Writes(e, Rollback, id)
      case Rehash | SwapCreate(_) => DeletedFor(e, ByRoll, id)
      case _ => true
  }

  /** What the next call is, by the last event. */
  ghost predicate Owed(s: State, e: Event)
    requires InPass(s)
  {
    var call := s.pass.value.call;
    && (e.JobSeen? && e.verdict == JobMissing ==> (call.FirstInstall? || call.RollInstall?) && Id(s) == e.id)
    && (IsAnnounceable(e) && e.stored ==> call.Announce? && Id(s) == e.id)
    && (e.SavedAndExited? ==> call.SwapPersist? && Id(s) == e.id)
    && (e.Wrote? && e.kind == Swap ==> call.SwapDelete? && Id(s) == e.id)
    && (e.Wrote? && e.kind == Rollback ==> call.RollbackDelete? && Id(s) == e.id)
  }

  ghost predicate InOrder(s: State)
    requires Wf(s)
  {
    s.pass.Some? ==> s.w.log != [] && Prompted(s, Last(s.w.log)) && Owed(s, Last(s.w.log))
  }

  /** The event a step adds is in order. */
  ghost predicate AddsInOrder(s: State, t: State)
    requires LogGrows(s, t)
  {
    |s.w.log| < |t.w.log| && s.w.log != [] ==>
      CanFollow(Last(s.w.log), Last(t.w.log)) && MustPrecede(Last(s.w.log), Last(t.w.log))
  }

  /* ---------- each call ---------- */

  lemma FrontInOrder(s: State, o: Outcome)
    requires InPass(s) && InOrder(s)
    requires s.pass.value.call.EnsureCluster? || s.pass.value.call.EnsureMap? || s.pass.value.call.ReadRevisions?
          || s.pass.value.call.ListPods? || s.pass.value.call.ReadAddress?
    ensures InOrder(Action(s, o)) && AddsInOrder(s, Action(s, o))
  {
    hide Action, Slugs.MapSlug, FindActivePod, ReadHash, Put, SetCondition;
    match s.pass.value.call
    case EnsureCluster => EnsureClusterResult(s, o);
    case ReadAddress(_, _) => Dispatches(s, o);
    case _ => PrepareResult(s, o);
  }

  lemma FirstJobInOrder(s: State, o: Outcome)
    requires InPass(s) && InOrder(s) && s.pass.value.call.FirstJob?
    ensures InOrder(Action(s, o)) && AddsInOrder(s, Action(s, o))
  {
    hide Action, Slugs.MapSlug, ReadJob, SetCondition;
    FirstJobResult(s, o);
  }

  lemma RollJobInOrder(s: State, o: Outcome)
    requires InPass(s) && InOrder(s) && s.pass.value.call.RollJob?
    ensures InOrder(Action(s, o)) && AddsInOrder(s, Action(s, o))
  {
    hide Action, Slugs.MapSlug, ReadJob, SetCondition;
    RollJobResult(s, o);
  }

  lemma InstallInOrder(s: State, o: Outcome)
    requires InPass(s) && InOrder(s) && (s.pass.value.call.FirstInstall? || s.pass.value.call.RollInstall?)
    ensures InOrder(Action(s, o)) && AddsInOrder(s, Action(s, o))
  {
    hide Action, Slugs.MapSlug, MountedLive, Put;
    if s.pass.value.call.FirstInstall? {
      FirstInstallResult(s, o);
    } else {
      RollInstallResult(s, o);
    }
  }

  lemma FirstCreateInOrder(s: State, o: Outcome)
    requires InPass(s) && InOrder(s) && s.pass.value.call.FirstCreate?
    ensures InOrder(Action(s, o)) && AddsInOrder(s, Action(s, o))
  {
    hide Action, Slugs.MapSlug, Named, Put;
    FirstCreateResult(s, o);
  }

  lemma SwapCreateInOrder(s: State, o: Outcome)
    requires InPass(s) && InOrder(s) && s.pass.value.call.SwapCreate?
    ensures InOrder(Action(s, o)) && AddsInOrder(s, Action(s, o))
  {
    hide Action, Slugs.MapSlug, Named, Put;
    SwapCreateResult(s, o);
  }

  lemma RollbackDeleteInOrder(s: State, o: Outcome)
    requires InPass(s) && InOrder(s) && s.pass.value.call.RollbackDelete?
    ensures InOrder(Action(s, o)) && AddsInOrder(s, Action(s, o))
  {
    hide Action, Slugs.MapSlug, DeletePod;
    RollbackDeleteResult(s, o);
  }

  lemma SwapDeleteInOrder(s: State, o: Outcome)
    requires InPass(s) && InOrder(s) && s.pass.value.call.SwapDelete?
    ensures InOrder(Action(s, o)) && AddsInOrder(s, Action(s, o))
  {
    hide Action, Slugs.MapSlug, DeletePod;
    SwappedResult(s, o);
  }

  lemma RehashInOrder(s: State, o: Outcome)
    requires InPass(s) && InOrder(s) && s.pass.value.call.Rehash?
    ensures InOrder(Action(s, o)) && AddsInOrder(s, Action(s, o))
  {
    hide Action, Slugs.MapSlug, ReadHash;
    SwappedResult(s, o);
  }

  lemma MessageInOrder(s: State, o: Outcome)
    requires InPass(s) && InOrder(s) && (s.pass.value.call.Announce? || s.pass.value.call.SaveAndExit?)
    ensures InOrder(Action(s, o)) && AddsInOrder(s, Action(s, o))
  {
    hide Action, Slugs.MapSlug;
    MessageResult(s, o);
  }

  lemma OrphansInOrder(s: State, o: Outcome)
    requires InPass(s) && InOrder(s) && (s.pass.value.call.ListOrphans? || s.pass.value.call.DeleteOrphan?)
    ensures InOrder(Action(s, o)) && AddsInOrder(s, Action(s, o))
  {
    hide Action, DeletePod, Orphans;
    if s.pass.value.call.ListOrphans? {
      ListOrphansResult(s, o);
    } else {
      DeleteOrphanResult(s, o);
    }
  }

  lemma FinalInOrder(s: State, o: Outcome)
    requires InPass(s) && InOrder(s) && s.pass.value.call.FinalWrite?
    ensures InOrder(Action(s, o)) && AddsInOrder(s, Action(s, o))
  {
    hide Action, Finished;
    FinalResult(s, o);
  }

  /** What a write leaves in the log: itself, unless it failed outright, which ends the pass. */
  lemma WriteLogs(u: State, o: Outcome, kind: WriteKind, id: string)
    requires u.pass.Some?
    ensures var t, n := Write(u, o, kind, id), |u.w.log|;
      && (t.pass.Some? ==> |t.w.log| == n + 1 && t.pass.value.cluster.status == u.pass.value.cluster.status)
      && (|t.w.log| > n ==>
            Writes(t.w.log[n], kind, id)
            && (t.w.log[n].stored ==> t.w.log[n].after.status == u.pass.value.cluster.status))
  {
  }

  lemma DrainInOrder(s: State, o: Outcome)
    requires InPass(s) && InOrder(s) && s.pass.value.call.DrainPersist?
    ensures InOrder(Action(s, o)) && AddsInOrder(s, Action(s, o))
  {
    hide Action, Slugs.MapSlug, Write, Put;
    DrainResult(s, o);
    var spec, since := s.pass.value.cluster.spec, s.pass.value.call.since;
    WriteLogs(Edit(s, AtDrainStart(Mine(s), since, spec)), o, DrainStart(since, Grace(spec)), Id(s));
  }

  lemma SwapInOrder(s: State, o: Outcome)
    requires InPass(s) && InOrder(s) && s.pass.value.call.SwapPersist?
    ensures InOrder(Action(s, o)) && AddsInOrder(s, Action(s, o))
  {
    hide Action, Slugs.MapSlug, Write, Put;
    SwapResult(s, o);
    WriteLogs(Edit(s, AtSwap(Mine(s))), o, Swap, Id(s));
  }

  lemma RollbackInOrder(s: State, o: Outcome)
    requires InPass(s) && InOrder(s) && s.pass.value.call.RollbackPersist?
    ensures InOrder(Action(s, o)) && AddsInOrder(s, Action(s, o))
  {
    hide Action, Slugs.MapSlug, Write, Put, AtRollback;
    RollbackResult(s, o);
    WriteLogs(Edit(s, AtRollback(Mine(s), s.w.clock)), o, Rollback, Id(s));
  }

  lemma ActionInOrder(s: State, o: Outcome)
    requires InPass(s) && InOrder(s)
    ensures InOrder(Action(s, o)) && AddsInOrder(s, Action(s, o))
  {
    hide Action, InOrder, AddsInOrder;
    match s.pass.value.call
    case EnsureCluster | EnsureMap | ReadRevisions | ListPods(_) | ReadAddress(_, _) => FrontInOrder(s, o);
    case FirstJob(_) => FirstJobInOrder(s, o);
    case RollJob(_) => RollJobInOrder(s, o);
    case FirstInstall | RollInstall => InstallInOrder(s, o);
    case FirstCreate(_) => FirstCreateInOrder(s, o);
    case SwapCreate(_) => SwapCreateInOrder(s, o);
    case DrainPersist(_) => DrainInOrder(s, o);
    case SwapPersist(_) => SwapInOrder(s, o);
    case RollbackPersist(_) => RollbackInOrder(s, o);
    case ListOrphans | DeleteOrphan(_) => OrphansInOrder(s, o);
    case FinalWrite => FinalInOrder(s, o);
    case RollbackDelete(_) => RollbackDeleteInOrder(s, o);
    case SwapDelete(_) => SwapDeleteInOrder(s, o);
    case Rehash => RehashInOrder(s, o);
    case Announce | SaveAndExit(_) => MessageInOrder(s, o);
  }

  /* ---------- whole runs ---------- */

  lemma StepInOrder(s: State, l: Label)
    requires Wf(s) && InOrder(s)
    ensures InOrder(Step(s, l)) && AddsInOrder(s, Step(s, l))
  {
    hide Action, Slugs.MapSlug;
    if l.Act? {
      assert Step(s, l) == Action(s, l.outcome);
      if s.pass.None? {
        BeginInOrder(s.w, l.outcome);
      } else {
        ActionInOrder(s, l.outcome);
      }
    }
  }

  lemma BeginInOrder(w: World, o: Outcome)
    ensures var s := State(w, None);
      InOrder(Action(s, o)) && AddsInOrder(s, Action(s, o))
  {
    hide Action, Gate;
    BeginResult(w, o);
  }

  lemma {:induction false} RunInOrder(o: State, labels: seq<Label>)
    requires o.pass.None?
    ensures InOrder(Run(o, labels))
  {
    hide Step, Prompted, Owed;
    if labels != [] {
      RunInOrder(o, labels[..|labels| - 1]);
      RunLast(o, labels);
      hide InOrder;
      StepInOrder(Run(o, labels[..|labels| - 1]), labels[|labels| - 1]);
    }
  }

  /** In every run, whatever fails and wherever the operator dies, events come in order: each can follow the one before
      it, and each is followed by what it commits the pass to, unless the pass ends. */
  lemma {:induction false} EventsComeInOrder(o: State, labels: seq<Label>, k: nat)
    requires o.pass.None? && |o.w.log| < k < |Run(o, labels).w.log|
    ensures var log := Run(o, labels).w.log; CanFollow(log[k - 1], log[k]) && MustPrecede(log[k - 1], log[k])
  {
    hide Step, CanFollow, MustPrecede, InOrder;
    if labels != [] {
      var shorter := labels[..|labels| - 1];
      var r := Run(o, shorter);
      RunLast(o, labels);
      var log := Run(o, labels).w.log;
      assert log[..|r.w.log|] == r.w.log;
      if k < |r.w.log| {
        EventsComeInOrder(o, shorter, k);
        assert log[k - 1] == r.w.log[k - 1] && log[k] == r.w.log[k];
      } else {
        RunInOrder(o, shorter);
        StepInOrder(r, labels[|labels| - 1]);
        assert log[k - 1] == r.w.log[k - 1];
      }
    }
  }

  ghost predicate AllInOrder(log: seq<Event>, n: nat) {
    forall k :: n < k < |log| ==> CanFollow(log[k - 1], log[k]) && MustPrecede(log[k - 1], log[k])
  }

  lemma RunIsInOrder(o: State, labels: seq<Label>)
    requires o.pass.None?
    ensures AllInOrder(Run(o, labels).w.log, |o.w.log|)
  {
    hide Run, CanFollow, MustPrecede;
    forall k | |o.w.log| < k < |Run(o, labels).w.log|
      ensures var log := Run(o, labels).w.log; CanFollow(log[k - 1], log[k]) && MustPrecede(log[k - 1], log[k])
    {
      EventsComeInOrder(o, labels, k);
    }
  }
}
