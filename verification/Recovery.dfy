/** Restart recovery of a swap: once it is stored, whatever cuts the pass short and whatever then goes wrong, later
    pods go to the stored volume, and only in passes that saw that side's init Job succeed. */
module Recovery {
  import opened ArkTypes
  import opened Statuses
  import opened World
  import opened Operator
  import opened Transitions
  import opened Coherence
  import opened DrainSafety
  import opened Handover
  import Slugs

  /* ---------- no pod without its Job ---------- */

  ghost predicate NoBegin(log: seq<Event>) {
    forall k :: 0 <= k < |log| ==> !log[k].Began?
  }

  predicate SawSucceed(e: Event, id: string, key: JobKey) {
    e.JobSeen? && e.id == id && e.key == key && e.verdict == JobSucceeded
  }

  /** The present pass saw the Job succeed. */
  ghost predicate Seen(log: seq<Event>, id: string, key: JobKey) {
    exists j :: 0 <= j < |log| && SawSucceed(log[j], id, key) && NoBegin(log[j..])
  }

  predicate NeedsJob(call: Call) {
    call.FirstCreate? || call.SaveAndExit? || call.SwapPersist? || call.SwapDelete? || call.Rehash? || call.SwapCreate?
    || call.DrainPersist?
  }

  /** The side whose Job the pass saw succeed: before the swap still the other one. */
  function TargetSide(s: State): Side
    requires AtMap(s)
  {
    var call, active := s.pass.value.call, Mine(s).active;
    VolumeSide(if call.SaveAndExit? || call.SwapPersist? || call.DrainPersist? then OtherVolume(active) else active)
  }

  function TargetJob(s: State): JobKey
    requires AtMap(s)
  {
    Job(s.pass.value.cluster.spec, Id(s), TargetSide(s))
  }

  ghost predicate JobDone(s: State)
    requires Wf(s)
  {
    s.pass.Some? && NeedsJob(s.pass.value.call) ==> Seen(s.w.log, Id(s), TargetJob(s))
  }

  ghost predicate CreatedAfterJob(log: seq<Event>, e: Event) {
    e.Created? ==> Seen(log, e.id, e.key) && e.key.side == VolumeSide(e.volume)
  }

  /** So it is of every creation from the n-th event on. */
  ghost predicate AllAfterJobs(log: seq<Event>, n: nat) {
    forall k :: n <= k < |log| ==> CreatedAfterJob(log[..k], log[k])
  }

  lemma SeenExtends(log: seq<Event>, e: Event, id: string, key: JobKey)
    requires Seen(log, id, key) && !e.Began?
    ensures Seen(log + [e], id, key)
  {
    var j :| 0 <= j < |log| && SawSucceed(log[j], id, key) && NoBegin(log[j..]);
    assert (log + [e])[j..] == log[j..] + [e];
  }

  lemma SeeingSees(log: seq<Event>, e: Event, id: string, key: JobKey)
    requires SawSucceed(e, id, key)
    ensures Seen(log + [e], id, key)
  {
    assert (log + [e])[|log|] == e;
    assert (log + [e])[|log|..] == [e];
  }

  predicate SameTarget(s: State, t: State)
    requires AtMap(s) && AtMap(t)
  {
    && t.pass.value.cluster.spec == s.pass.value.cluster.spec
    && t.pass.value.at == s.pass.value.at
    && TargetSide(t) == TargetSide(s)
  }

  /** Later calls of the map inherit the sighting: its entry keeps the volume the Job was seen for. */
  lemma InheritsSighting(s: State, t: State)
    requires InPass(s) && Wf(t) && AtMap(t) && LogGrows(s, t) && Reports(s, t)
    requires NeedsJob(s.pass.value.call) && NeedsJob(t.pass.value.call) && JobDone(s) && SameTarget(s, t)
    ensures JobDone(t)
  {
    hide TargetSide, Seen, Job;
    if |t.w.log| > |s.w.log| {
      assert t.w.log == s.w.log + [t.w.log[|s.w.log|]];
      SeenExtends(s.w.log, t.w.log[|s.w.log|], Id(s), TargetJob(s));
    } else {
      assert t.w.log == s.w.log;
    }
  }

  lemma FirstJobSees(s: State, o: Outcome)
    requires InPass(s) && s.pass.value.call.FirstJob?
    ensures JobDone(ActFirst(s, o))
  {
    hide Seen, ReadJob, Slugs.MapSlug;
    var side := VolumeSide(Mine(s).active);
    var u := SeeJob(s, o, side, false);
    FirstStartSees(s, u, SeenVerdict(s, o, side), s.pass.value.call.hash, u.w.log[|s.w.log|]);
  }

  lemma FirstStartSees(s: State, u: State, verdict: Verdict, hash: string, e: Event)
    requires InPass(s) && s.pass.value.call.FirstJob? && u.pass == s.pass && u.w.log == s.w.log + [e]
    requires verdict == JobSucceeded ==>
      SawSucceed(e, Id(s), Job(s.pass.value.cluster.spec, Id(s), VolumeSide(Mine(s).active)))
    ensures JobDone(FirstStart(u, verdict, hash))
  {
    hide Seen, Job;
    if verdict == JobSucceeded {
      SeeingSees(s.w.log, e, Id(s), Job(s.pass.value.cluster.spec, Id(s), VolumeSide(Mine(s).active)));
    }
  }

  lemma RollJobSees(s: State, o: Outcome)
    requires InPass(s) && s.pass.value.call.RollJob?
    ensures JobDone(ActRoll(s, o))
  {
    hide Seen, ReadJob, Slugs.MapSlug;
    var side := VolumeSide(OtherVolume(Mine(s).active));
    var u := SeeJob(s, o, side, true);
    RollUpdateSees(s, u, SeenVerdict(s, o, side), s.pass.value.call.pod, u.w.log[|s.w.log|]);
  }

  lemma RollUpdateSees(s: State, u: State, verdict: Verdict, pod: Pod, e: Event)
    requires InPass(s) && s.pass.value.call.RollJob? && u.pass == s.pass && u.w.log == s.w.log + [e]
    requires verdict == JobSucceeded ==>
      SawSucceed(e, Id(s), Job(s.pass.value.cluster.spec, Id(s), VolumeSide(OtherVolume(Mine(s).active))))
    ensures JobDone(RollUpdate(u, verdict, pod))
  {
    hide Seen, Job;
    if verdict == JobSucceeded {
      SeeingSees(s.w.log, e, Id(s), Job(s.pass.value.cluster.spec, Id(s), VolumeSide(OtherVolume(Mine(s).active))));
    }
  }

  lemma SwapKeepsTarget(s: State, o: Outcome)
    requires InPass(s) && (s.pass.value.call.SaveAndExit? || s.pass.value.call.SwapPersist?)
    ensures var t := ActSwap(s, o);
      t.pass.Some? ==> AtMap(t) && SameTarget(s, t) && NeedsJob(t.pass.value.call)
  {
    hide Slugs.MapSlug;
  }

  lemma SwappedKeepsTarget(s: State, o: Outcome)
    requires InPass(s) && (s.pass.value.call.SwapDelete? || s.pass.value.call.Rehash?)
    ensures var t := ActSwapped(s, o);
      t.pass.Some? ==> AtMap(t) && SameTarget(s, t) && NeedsJob(t.pass.value.call)
  {
    hide Slugs.MapSlug, ReadHash, Delete;
  }

  lemma NoNeedIsDone(t: State)
    requires Wf(t) && (t.pass.Some? ==> !NeedsJob(t.pass.value.call))
    ensures JobDone(t)
  {
    hide Seen;
  }

  lemma OthersNeedNoJob(s: State, o: Outcome)
    requires InPass(s)
    requires !s.pass.value.call.FirstJob? && !s.pass.value.call.RollJob?
    requires !NeedsJob(s.pass.value.call) || s.pass.value.call.FirstCreate? || s.pass.value.call.SwapCreate?
          || s.pass.value.call.DrainPersist?
    ensures JobDone(Action(s, o))
  {
    hide Seen, Action;
    NoNeedIsDone(Action(s, o));
  }

  lemma ActionKeepsJobDone(s: State, o: Outcome)
    requires Wf(s) && JobDone(s)
    ensures JobDone(Action(s, o))
  {
    hide ActPrepare, ActDispatch, ActFirst, ActRollback, ActRoll, ActDrain, ActSwap, ActSwapped, ActFinish, ActBegin;
    hide JobDone, TargetJob;
    var t := Action(s, o);
    if s.pass.None? {
      BeginNeedsNoJob(s, o);
    } else {
      match s.pass.value.call
      case FirstJob(_) => FirstJobSees(s, o);
      case RollJob(_) => RollJobSees(s, o);
      case SaveAndExit(_) | SwapPersist(_) =>
        SwapKeepsTarget(s, o);
        if t.pass.Some? { InheritsSighting(s, t); } else { NoNeedIsDone(t); }
      case SwapDelete(_) | Rehash =>
        SwappedKeepsTarget(s, o);
        if t.pass.Some? { InheritsSighting(s, t); } else { NoNeedIsDone(t); }
      case _ => OthersNeedNoJob(s, o);
    }
  }

  lemma BeginNeedsNoJob(s: State, o: Outcome)
    requires s.pass.None?
    ensures JobDone(ActBegin(s, o))
  {
    hide Seen;
  }

  lemma ToldAfterItsJob(s: State, e: Event)
    requires InPass(s) && Creates(s.pass.value.call) && JobDone(s) && TellsPod(s, e)
    ensures CreatedAfterJob(s.w.log, e)
  {
    hide Seen, Slugs.MapSlug;
  }

  lemma CreatedAfterItsJob(s: State, o: Outcome)
    requires InPass(s) && Creates(s.pass.value.call) && JobDone(s)
    ensures |Action(s, o).w.log| > |s.w.log| ==> CreatedAfterJob(s.w.log, Action(s, o).w.log[|s.w.log|])
  {
    hide Action, JobDone, TellsPod, CreatedAfterJob;
    CreationTellsPod(s, o);
    if |Action(s, o).w.log| > |s.w.log| {
      ToldAfterItsJob(s, Action(s, o).w.log[|s.w.log|]);
    }
  }

  lemma ActionIsAfterJob(s: State, o: Outcome)
    requires Wf(s) && JobDone(s)
    ensures |Action(s, o).w.log| > |s.w.log| ==> CreatedAfterJob(s.w.log, Action(s, o).w.log[|s.w.log|])
  {
    hide Seen, JobDone, ActPrepare, ActDispatch, ActFirst, ActRollback, ActRoll, ActDrain, ActSwap, ActSwapped;
    hide ActFinish;
    if s.pass.Some? {
      if Creates(s.pass.value.call) {
        CreatedAfterItsJob(s, o);
      } else {
        OthersCreateNothing(s, o);
      }
    } else {
      BeginReports(s, o);
    }
  }

  lemma AllAfterJobsExtends(log: seq<Event>, e: Event, n: nat)
    requires AllAfterJobs(log, n) && CreatedAfterJob(log, e)
    ensures AllAfterJobs(log + [e], n)
  {
    hide Seen;
    var longer := log + [e];
    forall k | n <= k < |longer| ensures CreatedAfterJob(longer[..k], longer[k]) {
      assert longer[..k] == if k < |log| then log[..k] else log;
    }
  }

  lemma StepKeepsJobDone(s: State, l: Label, n: nat)
    requires Wf(s) && JobDone(s) && AllAfterJobs(s.w.log, n)
    ensures JobDone(Step(s, l)) && AllAfterJobs(Step(s, l).w.log, n)
  {
    hide Action, Seen, AllAfterJobs, TargetJob;
    if l.Act? {
      var t := Action(s, l.outcome);
      ActionKeepsJobDone(s, l.outcome);
      ActionIsAfterJob(s, l.outcome);
      if |t.w.log| > |s.w.log| {
        assert t.w.log == s.w.log + [t.w.log[|s.w.log|]];
        AllAfterJobsExtends(s.w.log, t.w.log[|s.w.log|], n);
      } else {
        assert t.w.log == s.w.log;
      }
    } else {
      OutsideKeepsJobDone(s, l);
    }
  }

  lemma OutsideKeepsJobDone(s: State, l: Label)
    requires Wf(s) && JobDone(s) && !l.Act?
    ensures JobDone(Step(s, l)) && Step(s, l).w.log == s.w.log
  {
    hide Seen, Slugs.MapSlug;
  }

  lemma {:induction false} RunKeepsJobDone(s: State, labels: seq<Label>, n: nat)
    requires Wf(s) && JobDone(s) && AllAfterJobs(s.w.log, n)
    ensures JobDone(Run(s, labels)) && AllAfterJobs(Run(s, labels).w.log, n)
  {
    hide Action, JobDone, AllAfterJobs;
    if labels != [] {
      RunKeepsJobDone(s, labels[..|labels| - 1], n);
      StepKeepsJobDone(Run(s, labels[..|labels| - 1]), labels[|labels| - 1], n);
    }
  }

  /** From any moment between passes, with every crash, conflict and failure there may be: a server pod is only
      created in a pass that saw the init Job of the pod's own side and of the image in spec succeed before. */
  lemma NoPodWithoutItsJob(s: State, labels: seq<Label>)
    requires s.pass.None?
    ensures AllAfterJobs(Run(s, labels).w.log, |s.w.log|)
  {
    RunKeepsJobDone(s, labels, |s.w.log|);
  }

  /* ---------- the volume on record stands ---------- */

  predicate ChangesMap(e: Event, id: string) {
    ChangesVolume(e, id) && e.stored
  }

  /** A write that was to move the map and came up against a newer stored cluster. */
  predicate RefusesChange(e: Event, id: string) {
    ChangesVolume(e, id) && !e.stored
  }

  /** A volume change of the map was refused in the present pass. */
  ghost predicate Refused(log: seq<Event>, id: string) {
    exists j :: 0 <= j < |log| && RefusesChange(log[j], id) && NoBegin(log[j..])
  }

  lemma RefusedExtends(log: seq<Event>, e: Event, id: string)
    requires Refused(log, id) && !e.Began?
    ensures Refused(log + [e], id)
  {
    var j :| 0 <= j < |log| && RefusesChange(log[j], id) && NoBegin(log[j..]);
    assert (log + [e])[j..] == log[j..] + [e];
  }

  lemma RefusingRefuses(log: seq<Event>, e: Event, id: string)
    requires RefusesChange(e, id)
    ensures Refused(log + [e], id)
  {
    assert (log + [e])[|log|] == e;
    assert (log + [e])[|log|..] == [e];
  }

  function MemoryVolume(s: State, id: string): Volume
    requires s.pass.Some?
  {
    Defaulted(Entry(s.pass.value.cluster.status, id).active)
  }

  /** v is on record, and in memory too unless the pass was refused the record of a change. */
  ghost predicate Stands(s: State, id: string, v: Volume) {
    && Defaulted(Stored(s, id).active) == v
    && (s.pass.Some? ==> MemoryVolume(s, id) == v || Refused(s.w.log, id))
  }

  /** The step reported no stored volume change of the map. */
  predicate Leaves(s: State, t: State, id: string)
    requires LogGrows(s, t)
  {
    |t.w.log| > |s.w.log| ==> !ChangesMap(t.w.log[|s.w.log|], id)
  }

  lemma StaysRefused(s: State, t: State, id: string)
    requires InPass(s) && LogGrows(s, t) && Reports(s, t) && Refused(s.w.log, id)
    ensures Refused(t.w.log, id)
  {
    hide Refused;
    if |t.w.log| > |s.w.log| {
      assert t.w.log == s.w.log + [t.w.log[|s.w.log|]];
      RefusedExtends(s.w.log, t.w.log[|s.w.log|], id);
    } else {
      assert t.w.log == s.w.log;
    }
  }

  lemma QuietStands(s: State, t: State, id: string, v: Volume)
    requires InPass(s) && Quiet(s, t) && LogGrows(s, t) && Reports(s, t) && Stands(s, id, v)
    ensures Stands(t, id, v)
  {
    hide Refused;
    if t.pass.Some? {
      assert Soft(Entry(s.pass.value.cluster.status, id), Entry(t.pass.value.cluster.status, id));
      if Refused(s.w.log, id) {
        StaysRefused(s, t, id);
      }
    }
  }

  lemma WriteKeepsRecord(s: State, t: State, kind: WriteKind, e: MapStatus, id: string, v: Volume)
    requires InPass(s) && Synced(s) && WritesEntry(s, t, kind, e) && Stands(s, id, v) && Leaves(s, t, id)
    requires id == e.id ==>
      e.active == Entry(s.pass.value.cluster.status, id).active || kind == Swap || kind == Rollback
    ensures Defaulted(Stored(t, id).active) == v
  {
    hide Refused;
    if Current(s) {
      assert Soft(Stored(s, id), Entry(s.pass.value.cluster.status, id));
    }
  }

  lemma WriteStands(s: State, t: State, kind: WriteKind, e: MapStatus, id: string, v: Volume)
    requires InPass(s) && Synced(s) && WritesEntry(s, t, kind, e) && Reports(s, t) && Stands(s, id, v)
      && Leaves(s, t, id)
    requires id == e.id ==>
      e.active == Entry(s.pass.value.cluster.status, id).active || kind == Swap || kind == Rollback
    ensures Stands(t, id, v)
  {
    WriteKeepsRecord(s, t, kind, e, id, v);
    hide Refused, Synced, Reports;
    if t.pass.Some? {
      assert t.w.log == s.w.log + [t.w.log[|s.w.log|]];
      if Refused(s.w.log, id) {
        StaysRefused(s, t, id);
      } else if ChangesVolume(t.w.log[|s.w.log|], id) {
        RefusingRefuses(s.w.log, t.w.log[|s.w.log|], id);
      }
    }
  }

  lemma FinalWriteStands(s: State, o: Outcome, id: string, v: Volume)
    requires InPass(s) && s.pass.value.call.FinalWrite? && Synced(s) && KeepsMap(s, id) && Stands(s, id, v)
    ensures Stands(ActFinish(s, o), id, v)
  {
    FinalWriteEffect(s, o);
    PruneEntry(s.pass.value.cluster.status, s.pass.value.cluster.spec, id);
    hide ActFinish, Prune, Refused;
    if Current(s) {
      assert Soft(Stored(s, id), Entry(s.pass.value.cluster.status, id));
    }
  }

  lemma BeginStands(s: State, o: Outcome, id: string, v: Volume)
    requires s.pass.None? && Stands(s, id, v)
    ensures Stands(ActBegin(s, o), id, v)
  {
    hide Refused;
  }

  lemma ActionStands(s: State, o: Outcome, id: string, v: Volume)
    requires Wf(s) && Synced(s) && KeepsMap(s, id) && Stands(s, id, v) && Leaves(s, Action(s, o), id)
    ensures Stands(Action(s, o), id, v)
  {
    hide ActPrepare, ActDispatch, ActFirst, ActRollback, ActRoll, ActDrain, ActSwap, ActSwapped, ActFinish, ActBegin;
    hide Synced, KeepsMap, Leaves, WritesEntry, Stands, Reports;
    var t := Action(s, o);
    if s.pass.None? {
      BeginStands(s, o, id, v);
    } else {
      match s.pass.value.call
      case DrainPersist(since) =>
        var spec := s.pass.value.cluster.spec;
        DrainWritesEntry(s, o);
        WriteStands(s, t, DrainStart(since, Grace(spec)), AtDrainStart(Mine(s), since, spec), id, v);
      case SwapPersist(_) =>
        SwapWritesEntry(s, o);
        WriteStands(s, t, Swap, AtSwap(Mine(s)), id, v);
      case RollbackPersist(_) =>
        RollbackWritesEntry(s, o);
        WriteStands(s, t, Rollback, AtRollback(Mine(s), s.w.clock), id, v);
      case FinalWrite => FinalWriteStands(s, o, id, v);
      case _ =>
        ActionIsQuiet(s, o);
        QuietStands(s, t, id, v);
    }
  }

  lemma StepStands(s: State, l: Label, id: string, v: Volume)
    requires Wf(s) && Synced(s) && KeepsMap(s, id) && Stands(s, id, v) && Leaves(s, Step(s, l), id)
    requires l.Env? ==> Kept(l.world.cluster.spec, Slugs.MapSlug(id))
    ensures Stands(Step(s, l), id, v) && KeepsMap(Step(s, l), id)
  {
    hide Action, Kept, Synced, Leaves, Slugs.MapSlug, Refused;
    if l.Act? {
      ActionStands(s, l.outcome, id, v);
      ActionKeepsSpecs(s, l.outcome);
    }
  }

  /** A pod created for the map goes to v, or the same pass was refused the record of a change of it. */
  ghost predicate GoesTo(log: seq<Event>, e: Event, id: string, v: Volume) {
    e.Created? && e.id == id ==> e.volume == v || Refused(log, id)
  }

  lemma CreationGoesTo(s: State, o: Outcome, id: string, v: Volume)
    requires InPass(s) && Creates(s.pass.value.call) && Placed(s) && Stands(s, id, v)
    ensures |Action(s, o).w.log| > |s.w.log| ==> GoesTo(s.w.log, Action(s, o).w.log[|s.w.log|], id, v)
  {
    CreationTellsPod(s, o);
    hide Action, Refused, Reports, Moves, Slugs.MapSlug;
  }

  lemma StepGoesTo(s: State, l: Label, id: string, v: Volume)
    requires Wf(s) && Placed(s) && Stands(s, id, v)
    ensures var t := Step(s, l); |t.w.log| > |s.w.log| ==> GoesTo(s.w.log, t.w.log[|s.w.log|], id, v)
  {
    hide Refused, Placed, Stands, ActPrepare, ActDispatch, ActFirst, ActRollback, ActRoll, ActDrain, ActSwap;
    hide ActSwapped;
    hide ActFinish, ActBegin, Reports;
    if l.Act? {
      if s.pass.None? {
        BeginReports(s, l.outcome);
      } else if Creates(s.pass.value.call) {
        CreationGoesTo(s, l.outcome, id, v);
      } else {
        OthersCreateNothing(s, l.outcome);
      }
    }
  }

  /** No volume change of the map is stored from the n-th event on. */
  ghost predicate StandsFrom(log: seq<Event>, n: nat, id: string) {
    forall k :: n <= k < |log| ==> !ChangesMap(log[k], id)
  }

  ghost predicate AllGoTo(log: seq<Event>, n: nat, id: string, v: Volume) {
    forall k :: n <= k < |log| ==> GoesTo(log[..k], log[k], id, v)
  }

  lemma StandsBefore(s: State, t: State, n: nat, id: string)
    requires LogGrows(s, t) && StandsFrom(t.w.log, n, id) && n <= |s.w.log|
    ensures StandsFrom(s.w.log, n, id) && Leaves(s, t, id)
  {
    hide ChangesMap;
    forall k | n <= k < |s.w.log| ensures !ChangesMap(s.w.log[k], id) {
      assert s.w.log[k] == t.w.log[..|s.w.log|][k] == t.w.log[k];
    }
  }

  lemma AllGoToAfter(s: State, t: State, n: nat, id: string, v: Volume)
    requires LogGrows(s, t) && AllGoTo(s.w.log, n, id, v) && n <= |s.w.log|
    requires |t.w.log| > |s.w.log| ==> GoesTo(s.w.log, t.w.log[|s.w.log|], id, v)
    ensures AllGoTo(t.w.log, n, id, v)
  {
    hide GoesTo;
    forall k | n <= k < |t.w.log| ensures GoesTo(t.w.log[..k], t.w.log[k], id, v) {
      assert k < |s.w.log| ==> s.w.log[k] == t.w.log[..|s.w.log|][k] == t.w.log[k];
      assert t.w.log[..k] == s.w.log[..k];
    }
  }

  lemma {:induction false} RunStands(s: State, labels: seq<Label>, id: string, v: Volume)
    requires Wf(s) && Sound(s) && KeepsMap(s, id) && SpecsKeep(labels, id) && Stands(s, id, v)
    requires StandsFrom(Run(s, labels).w.log, |s.w.log|, id)
    ensures var t := Run(s, labels);
      Sound(t) && KeepsMap(t, id) && Stands(t, id, v) && AllGoTo(t.w.log, |s.w.log|, id, v)
  {
    hide Action, Placed, Synced, KeepsMap, Kept, Stands, Leaves, StandsFrom, AllGoTo, GoesTo, Slugs.MapSlug;
    var n := |s.w.log|;
    if labels == [] {
      NothingYet(s.w.log, id, v);
    } else {
      var prefix, l := labels[..|labels| - 1], labels[|labels| - 1];
      assert l in labels;
      var r, t := Run(s, prefix), Run(s, labels);
      RunLast(s, labels);
      hide Run, Step;
      StandsBefore(r, t, n, id);
      RunStands(s, prefix, id, v);
      StepKeepsSound(r, l);
      StepStands(r, l, id, v);
      StepGoesTo(r, l, id, v);
      AllGoToAfter(r, t, n, id, v);
    }
  }

  lemma NothingYet(log: seq<Event>, id: string, v: Volume)
    ensures AllGoTo(log, |log|, id, v)
  {
  }

  /** From any moment between passes: whatever then cuts passes short, fails or is refused, and whatever becomes of
      other maps, as long as the map stays in spec and no other volume change of it is stored, the volume on record
      stands, and each pod created for the map goes there, unless the very pass that creates it was refused the
      record of a change first; and always in a pass that saw the Job of the pod's side succeed. */
  lemma SwapIsRecovered(r: State, after: seq<Label>, id: string)
    requires r.pass.None? && KeepsMap(r, id) && SpecsKeep(after, id)
    requires StandsFrom(Run(r, after).w.log, |r.w.log|, id)
    ensures var t, v := Run(r, after), Defaulted(Stored(r, id).active);
      && Defaulted(Stored(t, id).active) == v
      && AllGoTo(t.w.log, |r.w.log|, id, v)
      && AllAfterJobs(t.w.log, |r.w.log|)
  {
    hide Run, KeepsMap, SpecsKeep, StandsFrom, AllGoTo, AllAfterJobs, Refused, Slugs.MapSlug;
    RunStands(r, after, id, Defaulted(Stored(r, id).active));
    NoPodWithoutItsJob(r, after);
  }
}
