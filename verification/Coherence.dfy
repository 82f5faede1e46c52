/** What every state of every run keeps between the stored cluster and the pass in memory. */
module Coherence {
  import opened ArkTypes
  import opened Statuses
  import opened World
  import opened Operator
  import opened Transitions
  import Slugs

  /** The stored swap of a map. */
  predicate IsSwap(e: Event, id: string) {
    e.Wrote? && e.stored && e.kind == Swap && e.id == id
  }

  /** A write that moves the map to another volume, stored or refused. */
  predicate ChangesVolume(e: Event, id: string) {
    e.Wrote? && (e.kind == Swap || e.kind == Rollback) && e.id == id
  }

  function Stored(s: State, id: string): MapStatus {
    Entry(s.w.cluster.status, id)
  }

  predicate Current(s: State) {
    s.pass.Some? && s.pass.value.cluster.rev == s.w.cluster.rev
  }

  /** What the pass has in memory is a soft edit of what is stored, as long as its copy is current: a stale copy
      never becomes current again. */
  ghost predicate Synced(s: State) {
    && (s.pass.Some? ==> s.pass.value.cluster.rev <= s.w.cluster.rev)
    && (Current(s) ==>
          s.pass.value.cluster.spec == s.w.cluster.spec
          && SoftStatuses(s.w.cluster.status, s.pass.value.cluster.status))
  }

  /** What the place of a pass says about its map's entry in memory: the volume is chosen, a swap is only reached
      with a deadline that has passed, a drain only started without one, a rollback only with somewhere to go. */
  ghost predicate Placed(s: State)
    requires Wf(s)
  {
    s.pass.Some? ==>
      var call := s.pass.value.call;
      && (IsMapCall(call) && !call.EnsureMap? && !call.RollbackDelete? ==> Mine(s).active != Unset)
      && (call.SaveAndExit? || call.SwapPersist? ==>
            Mine(s).deadline.Some? && Mine(s).deadline.value <= s.w.clock)
      && (call.DrainPersist? ==> Mine(s).deadline.None?)
      && (call.RollbackPersist? ==> Split(Mine(s)))
  }

  lemma SoftTrans(a: seq<MapStatus>, b: seq<MapStatus>, c: seq<MapStatus>)
    requires SoftStatuses(a, b) && SoftStatuses(b, c)
    ensures SoftStatuses(a, c)
  {
    forall id ensures Soft(Entry(a, id), Entry(c, id)) {
      assert Soft(Entry(a, id), Entry(b, id)) && Soft(Entry(b, id), Entry(c, id));
    }
  }

  lemma QuietKeepsSynced(s: State, t: State)
    requires InPass(s) && Quiet(s, t) && Synced(s)
    ensures Synced(t)
  {
    if Current(t) {
      SoftTrans(s.w.cluster.status, s.pass.value.cluster.status, t.pass.value.cluster.status);
    }
  }

  lemma QuietKeepsPlaced(s: State, t: State)
    requires InPass(s) && Wf(t) && Quiet(s, t) && Moves(s, t) && Placed(s)
    requires !IsWrite(s.pass.value.call)
    requires !s.pass.value.call.EnsureMap? && !s.pass.value.call.ReadAddress? && !s.pass.value.call.RollJob?
    ensures Placed(t)
  {
    if t.pass.Some? && AtMap(s) && t.pass.value.at == s.pass.value.at {
      assert Soft(Mine(s), Mine(t));
    }
  }

  lemma EnsureMapKeepsPlaced(s: State, o: Outcome)
    requires InPass(s) && s.pass.value.call.EnsureMap?
    ensures Placed(ActPrepare(s, o))
  {
  }

  lemma DispatchKeepsPlaced(s: State, o: Outcome)
    requires InPass(s) && s.pass.value.call.ReadAddress? && Placed(s)
    ensures Placed(ActDispatch(s, o))
  {
  }

  lemma RollUpdateKeepsPlaced(s: State, verdict: Verdict, pod: Pod)
    requires InPass(s) && s.pass.value.call.RollJob? && Placed(s)
    ensures Placed(RollUpdate(s, verdict, pod))
  {
  }

  lemma RollJobKeepsPlaced(s: State, o: Outcome)
    requires InPass(s) && s.pass.value.call.RollJob? && Placed(s)
    ensures Placed(ActRoll(s, o))
  {
    hide RollUpdate, ReadJob;
    var side := VolumeSide(OtherVolume(Mine(s).active));
    RollUpdateKeepsPlaced(SeeJob(s, o, side, true), SeenVerdict(s, o, side), s.pass.value.call.pod);
  }

  lemma DrainWriteKeepsPlaced(s: State, o: Outcome)
    requires InPass(s) && s.pass.value.call.DrainPersist? && Placed(s)
    ensures Placed(ActDrain(s, o))
  {
  }

  lemma SwapWriteKeepsPlaced(s: State, o: Outcome)
    requires InPass(s) && s.pass.value.call.SwapPersist? && Placed(s)
    ensures Placed(ActSwap(s, o))
  {
  }

  lemma AnywhereElseIsPlaced(s: State)
    requires Wf(s)
    requires s.pass.Some? ==> s.pass.value.call.RollbackDelete? || !IsMapCall(s.pass.value.call)
    ensures Placed(s)
  {
  }

  lemma ActionKeepsPlaced(s: State, o: Outcome)
    requires Wf(s) && Placed(s)
    ensures Placed(Action(s, o))
  {
    hide ActPrepare, ActDispatch, ActFirst, ActRollback, ActRoll, ActDrain, ActSwap, ActSwapped, ActFinish, Placed;
    if s.pass.None? {
      AnywhereElseIsPlaced(ActBegin(s, o));
    } else {
      match s.pass.value.call
      case EnsureMap => EnsureMapKeepsPlaced(s, o);
      case ReadAddress(_, _) => DispatchKeepsPlaced(s, o);
      case RollJob(_) => RollJobKeepsPlaced(s, o);
      case DrainPersist(_) => DrainWriteKeepsPlaced(s, o);
      case SwapPersist(_) => SwapWriteKeepsPlaced(s, o);
      case RollbackPersist(_) => AnywhereElseIsPlaced(ActRollback(s, o));
      case FinalWrite => AnywhereElseIsPlaced(ActFinish(s, o));
      case _ =>
        ActionIsQuiet(s, o);
        QuietKeepsPlaced(s, Action(s, o));
    }
  }

  /* ---------- the four status writes ---------- */

  /** What the three mid-pass writes do: the entry e goes into memory and, if the copy is current and the server
      carries the write out, into the stored status; at most one event records it. */
  ghost predicate WritesEntry(s: State, t: State, kind: WriteKind, e: MapStatus)
    requires InPass(s)
  {
    var p := s.pass.value;
    var written := Put(p.cluster.status, e);
    && LogGrows(s, t)
    && (t.pass.Some? ==>
          t.pass.value.cluster.status == written
          && t.pass.value.cluster.spec == p.cluster.spec
          && t.pass.value.gate == p.gate && t.pass.value.start == p.start)
    && (|t.w.log| == |s.w.log| ==> t.w == s.w && t.pass.None?)
    && (|t.w.log| > |s.w.log| ==>
          var event := t.w.log[|s.w.log|];
          && event.Wrote? && event.kind == kind && event.id == e.id && event.at == s.w.clock
          && event.start == p.start && event.gated == (p.cluster.spec.rollout != Parallel)
          && event.before == s.w.cluster
          && (event.stored ==> Current(s) && t.w.cluster.status == written && event.after == t.w.cluster)
          && (!event.stored ==> t.w.cluster == s.w.cluster))
  }

  lemma DrainWritesEntry(s: State, o: Outcome)
    requires InPass(s) && s.pass.value.call.DrainPersist?
    ensures var since, spec := s.pass.value.call.since, s.pass.value.cluster.spec;
      WritesEntry(s, ActDrain(s, o), DrainStart(since, Grace(spec)), AtDrainStart(Mine(s), since, spec))
  {
  }

  lemma SwapWritesEntry(s: State, o: Outcome)
    requires InPass(s) && s.pass.value.call.SwapPersist?
    ensures WritesEntry(s, ActSwap(s, o), Swap, AtSwap(Mine(s)))
  {
  }

  lemma RollbackWritesEntry(s: State, o: Outcome)
    requires InPass(s) && s.pass.value.call.RollbackPersist?
    ensures WritesEntry(s, ActRollback(s, o), Rollback, AtRollback(Mine(s), s.w.clock))
  {
  }

  lemma WriteKeepsSynced(u: State, o: Outcome, kind: WriteKind, id: string)
    requires u.pass.Some? && u.pass.value.cluster.rev <= u.w.cluster.rev
    requires Current(u) ==> u.pass.value.cluster.spec == u.w.cluster.spec
    ensures Synced(Write(u, o, kind, id))
  {
  }

  lemma DrainWriteKeepsSynced(s: State, o: Outcome)
    requires InPass(s) && s.pass.value.call.DrainPersist? && Synced(s)
    ensures Synced(ActDrain(s, o))
  {
    var spec := s.pass.value.cluster.spec;
    var since := s.pass.value.call.since;
    WriteKeepsSynced(Edit(s, AtDrainStart(Mine(s), since, spec)), o, DrainStart(since, Grace(spec)), Id(s));
  }

  lemma SwapWriteKeepsSynced(s: State, o: Outcome)
    requires InPass(s) && s.pass.value.call.SwapPersist? && Synced(s)
    ensures Synced(ActSwap(s, o))
  {
    WriteKeepsSynced(Edit(s, AtSwap(Mine(s))), o, Swap, Id(s));
  }

  lemma RollbackWriteKeepsSynced(s: State, o: Outcome)
    requires InPass(s) && s.pass.value.call.RollbackPersist? && Synced(s)
    ensures Synced(ActRollback(s, o))
  {
    WriteKeepsSynced(Edit(s, AtRollback(Mine(s), s.w.clock)), o, Rollback, Id(s));
  }

  lemma ActionKeepsSynced(s: State, o: Outcome)
    requires Wf(s) && Synced(s)
    ensures Synced(Action(s, o))
  {
    hide ActPrepare, ActDispatch, ActFirst, ActRollback, ActRoll, ActDrain, ActSwap;
    if s.pass.Some? {
      match s.pass.value.call
      case DrainPersist(_) => DrainWriteKeepsSynced(s, o);
      case SwapPersist(_) => SwapWriteKeepsSynced(s, o);
      case RollbackPersist(_) => RollbackWriteKeepsSynced(s, o);
      case FinalWrite =>
      case _ =>
        ActionIsQuiet(s, o);
        QuietKeepsSynced(s, Action(s, o));
    }
  }

  lemma {:induction false} PruneEntry(maps: seq<MapStatus>, spec: Spec, id: string)
    ensures Entry(Prune(maps, spec), id) == if Kept(spec, Slugs.MapSlug(id)) then Entry(maps, id) else Blank(id)
  {
    hide Kept, Slugs.MapSlug;
    if maps != [] {
      PruneEntry(maps[1..], spec, id);
      if Kept(spec, Slugs.MapSlug(maps[0].id)) {
        assert Prune(maps, spec) == [maps[0]] + Prune(maps[1..], spec);
        assert Prune(maps, spec)[1..] == Prune(maps[1..], spec);
      }
    }
  }

  lemma FinalWriteEffect(s: State, o: Outcome)
    requires InPass(s) && s.pass.value.call.FinalWrite?
    ensures ActFinish(s, o).pass.None?
    ensures
      || ActFinish(s, o).w.cluster.status == s.w.cluster.status
      || (Current(s)
          && ActFinish(s, o).w.cluster.status == Prune(s.pass.value.cluster.status, s.pass.value.cluster.spec))
  {
    hide Kept, Slugs.MapSlug, Prune, CountReady, AggregatePhase;
  }

  /* ---------- whole runs ---------- */

  ghost predicate Sound(s: State)
    requires Wf(s)
  {
    Synced(s) && Placed(s)
  }

  lemma StepKeepsSound(s: State, l: Label)
    requires Wf(s) && Sound(s)
    ensures Sound(Step(s, l))
  {
    hide Action;
    if l.Act? {
      ActionKeepsSynced(s, l.outcome);
      ActionKeepsPlaced(s, l.outcome);
    }
  }

  /** The spec a pass works with is the one stored when it began. */
  ghost predicate SpecsStay(s: State, t: State) {
    && t.w.cluster.spec == s.w.cluster.spec
    && (t.pass.Some? ==>
          t.pass.value.cluster.spec == if s.pass.Some? then s.pass.value.cluster.spec else s.w.cluster.spec)
  }

  lemma WriteKeepsSpecs(s: State, o: Outcome)
    requires InPass(s) && IsWrite(s.pass.value.call)
    ensures SpecsStay(s, Action(s, o))
  {
    hide ActPrepare, ActDispatch, ActFirst, ActRoll, ActRollback, ActDrain, ActSwap, ActSwapped, ActFinish, SpecsStay;
    match s.pass.value.call
    case DrainPersist(_) => DrainWriteKeepsSpecs(s, o);
    case SwapPersist(_) => SwapWriteKeepsSpecs(s, o);
    case RollbackPersist(_) => RollbackWriteKeepsSpecs(s, o);
    case FinalWrite => FinalWriteKeepsSpecs(s, o);
  }

  lemma DrainWriteKeepsSpecs(s: State, o: Outcome)
    requires InPass(s) && s.pass.value.call.DrainPersist?
    ensures SpecsStay(s, ActDrain(s, o))
  {
    hide Write, AtDrainStart;
  }

  lemma SwapWriteKeepsSpecs(s: State, o: Outcome)
    requires InPass(s) && s.pass.value.call.SwapPersist?
    ensures SpecsStay(s, ActSwap(s, o))
  {
    hide Write, AtSwap;
  }

  lemma RollbackWriteKeepsSpecs(s: State, o: Outcome)
    requires InPass(s) && s.pass.value.call.RollbackPersist?
    ensures SpecsStay(s, ActRollback(s, o))
  {
    hide Write, AtRollback;
  }

  lemma FinalWriteKeepsSpecs(s: State, o: Outcome)
    requires InPass(s) && s.pass.value.call.FinalWrite?
    ensures SpecsStay(s, ActFinish(s, o))
  {
    hide Write, Finished;
  }

  lemma ActionKeepsSpecs(s: State, o: Outcome)
    requires Wf(s)
    ensures SpecsStay(s, Action(s, o))
  {
    if s.pass.Some? {
      if IsWrite(s.pass.value.call) {
        WriteKeepsSpecs(s, o);
      } else {
        ActionIsQuiet(s, o);
        hide Action;
      }
    }
  }

  /** A run as its last step after the rest. */
  lemma RunLast(s: State, labels: seq<Label>)
    requires Wf(s) && labels != []
    ensures Run(s, labels) == Step(Run(s, labels[..|labels| - 1]), labels[|labels| - 1])
  {
  }

  /** A run goes through the last state of its first part. */
  lemma {:induction false} RunThrough(s: State, first: seq<Label>, rest: seq<Label>)
    requires Wf(s)
    ensures Run(Run(s, first), rest) == Run(s, first + rest)
    decreases |rest|
  {
    hide Step;
    var all := first + rest;
    if rest == [] {
      assert all == first;
    } else {
      assert all[..|all| - 1] == first + rest[..|rest| - 1];
      RunThrough(s, first, rest[..|rest| - 1]);
      RunLast(s, all);
      RunLast(Run(s, first), rest);
    }
  }

  /** Whatever run starts between passes is in a sound state. */
  lemma {:induction false} RunIsSound(o: State, labels: seq<Label>)
    requires o.pass.None?
    ensures Sound(Run(o, labels))
  {
    hide Step, Synced, Placed;
    if labels == [] {
      BetweenIsSound(o);
    } else {
      RunIsSound(o, labels[..|labels| - 1]);
      RunLast(o, labels);
      StepKeepsSound(Run(o, labels[..|labels| - 1]), labels[|labels| - 1]);
    }
  }

  lemma BetweenIsSound(o: State)
    requires o.pass.None?
    ensures Sound(o)
  {
  }
}
