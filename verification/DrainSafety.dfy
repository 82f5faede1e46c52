/** The persisted drain timer over whole runs: a stored deadline is only ever cleared by the write that swaps the
    volumes, and no earlier than it says, through crashes, restarts, lost replies, conflicts and other writers. */
module DrainSafety {
  import opened ArkTypes
  import opened Statuses
  import opened World
  import opened Operator
  import opened Transitions
  import opened Coherence
  import Slugs

  /* ---------- a stored deadline ---------- */

  /** The write that ends a drain: it clears the deadline and flips the volume, at or after the deadline. */
  predicate EndsDrain(e: Event, id: string, d: int) {
    && e.Wrote? && e.stored && e.kind == Swap && e.id == id
    && d <= e.at
    && Entry(e.before.status, id).deadline == Some(d)
    && Entry(e.after.status, id).deadline == None
    && Entry(e.after.status, id).active == OtherVolume(Defaulted(Entry(e.before.status, id).active))
  }

  /** After a step the deadline is still stored, or that step ended the drain. */
  ghost predicate HeldOrEnded(s: State, t: State, id: string, d: int) {
    || Stored(t, id).deadline == Some(d)
    || (|t.w.log| == |s.w.log| + 1 && EndsDrain(t.w.log[|s.w.log|], id, d))
  }

  predicate KeepsMap(s: State, id: string) {
    && Kept(s.w.cluster.spec, Slugs.MapSlug(id))
    && (s.pass.Some? ==> Kept(s.pass.value.cluster.spec, Slugs.MapSlug(id)))
  }

  lemma DrainWriteHolds(s: State, o: Outcome, id: string, d: int)
    requires InPass(s) && s.pass.value.call.DrainPersist? && Synced(s) && Placed(s)
    requires Stored(s, id).deadline == Some(d)
    ensures HeldOrEnded(s, ActDrain(s, o), id, d)
  {
    if Current(s) {
      assert Soft(Stored(s, id), Entry(s.pass.value.cluster.status, id));
    }
  }

  lemma SwapWriteHolds(s: State, o: Outcome, id: string, d: int)
    requires InPass(s) && s.pass.value.call.SwapPersist? && Synced(s) && Placed(s)
    requires Stored(s, id).deadline == Some(d)
    ensures HeldOrEnded(s, ActSwap(s, o), id, d)
  {
    if Current(s) {
      assert Soft(Stored(s, id), Entry(s.pass.value.cluster.status, id));
    }
  }

  lemma RollbackWriteHolds(s: State, o: Outcome, id: string, d: int)
    requires InPass(s) && s.pass.value.call.RollbackPersist? && Synced(s)
    requires Stored(s, id).deadline == Some(d)
    ensures HeldOrEnded(s, ActRollback(s, o), id, d)
  {
    if Current(s) {
      assert Soft(Stored(s, id), Entry(s.pass.value.cluster.status, id));
    }
  }

  lemma FinalWriteHolds(s: State, o: Outcome, id: string, d: int)
    requires InPass(s) && s.pass.value.call.FinalWrite? && Synced(s) && KeepsMap(s, id)
    requires Stored(s, id).deadline == Some(d)
    ensures HeldOrEnded(s, ActFinish(s, o), id, d)
  {
    FinalWriteEffect(s, o);
    PruneEntry(s.pass.value.cluster.status, s.pass.value.cluster.spec, id);
    hide ActFinish;
    if Current(s) {
      assert Soft(Stored(s, id), Entry(s.pass.value.cluster.status, id));
    }
  }

  lemma QuietHolds(s: State, t: State, id: string, d: int)
    requires InPass(s) && Quiet(s, t) && Stored(s, id).deadline == Some(d)
    ensures HeldOrEnded(s, t, id, d)
  {
  }

  lemma BeginHolds(s: State, o: Outcome, id: string, d: int)
    requires s.pass.None? && Stored(s, id).deadline == Some(d)
    ensures HeldOrEnded(s, ActBegin(s, o), id, d)
  {
  }

  lemma ActionHolds(s: State, o: Outcome, id: string, d: int)
    requires Wf(s) && Synced(s) && Placed(s) && KeepsMap(s, id)
    requires Stored(s, id).deadline == Some(d)
    ensures HeldOrEnded(s, Action(s, o), id, d)
  {
    hide ActPrepare, ActDispatch, ActFirst, ActRollback, ActRoll, ActDrain, ActSwap, ActSwapped, ActFinish;
    hide Placed, Synced, KeepsMap, HeldOrEnded;
    if s.pass.None? {
      BeginHolds(s, o, id, d);
    } else {
      match s.pass.value.call
      case DrainPersist(_) => DrainWriteHolds(s, o, id, d);
      case SwapPersist(_) => SwapWriteHolds(s, o, id, d);
      case RollbackPersist(_) => RollbackWriteHolds(s, o, id, d);
      case FinalWrite => FinalWriteHolds(s, o, id, d);
      case _ =>
        ActionIsQuiet(s, o);
        QuietHolds(s, Action(s, o), id, d);
    }
  }

  /* ---------- whole runs ---------- */

  ghost predicate SpecsKeep(labels: seq<Label>, id: string) {
    forall l :: l in labels && l.Env? ==> Kept(l.world.cluster.spec, Slugs.MapSlug(id))
  }

  /** The drain deadline survives anything: in every run that keeps the map in spec, a stored deadline is still
      stored at the end, or some write of the run ended the drain no earlier than the deadline. */
  lemma {:induction false} DeadlineSurvives(s: State, labels: seq<Label>, id: string, d: int)
    requires Wf(s) && Sound(s) && KeepsMap(s, id) && SpecsKeep(labels, id)
    requires Stored(s, id).deadline == Some(d)
    ensures var t := Run(s, labels);
      && Sound(t) && KeepsMap(t, id)
      && s.w.log <= t.w.log
      && (Stored(t, id).deadline == Some(d)
          || exists k :: |s.w.log| <= k < |t.w.log| && EndsDrain(t.w.log[k], id, d))
  {
    if labels != [] {
      var prefix, l := labels[..|labels| - 1], labels[|labels| - 1];
      DeadlineSurvives(s, prefix, id, d);
      var r, t := Run(s, prefix), Run(s, labels);
      StepKeepsSound(r, l);
      StepDrains(r, l, id, d);
      assert l in labels;
      assert t.w.log[..|r.w.log|] == r.w.log;
    }
  }

  lemma StepDrains(r: State, l: Label, id: string, d: int)
    requires Wf(r) && Sound(r) && KeepsMap(r, id)
    requires l.Env? ==> Kept(l.world.cluster.spec, Slugs.MapSlug(id))
    ensures KeepsMap(Step(r, l), id)
    ensures Stored(r, id).deadline == Some(d) ==> HeldOrEnded(r, Step(r, l), id, d)
  {
    hide Action, Kept, Synced, Placed;
    match l
    case Act(o) =>
      ActionKeepsSpecs(r, o);
      if Stored(r, id).deadline == Some(d) {
        ActionHolds(r, o, id, d);
      }
    case _ =>
  }
}
