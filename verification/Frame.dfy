/** What no call of the operator changes, and what only few do. */
module Frame {
  import opened ArkTypes
  import opened Statuses
  import opened World
  import opened Operator
  import Slugs

  predicate SameRevisions(w: World, v: World) {
    v.iniRevs == w.iniRevs && v.secretsRev == w.secretsRev
  }

  predicate Installs(call: Call) {
    call.FirstInstall? || call.RollInstall?
  }

  /** What pod hashes are made of stays, and so do the Jobs unless the call installs one. */
  ghost predicate Keeps(s: State, t: State) {
    && t.w.hash == s.w.hash && SameRevisions(s.w, t.w)
    && (s.pass.Some? && !Installs(s.pass.value.call) ==> t.w.jobs == s.w.jobs)
  }

  lemma PrepareKeeps(s: State, o: Outcome)
    requires InPass(s)
      && (s.pass.value.call.EnsureMap? || s.pass.value.call.ReadRevisions? || s.pass.value.call.ListPods?)
    ensures Keeps(s, ActPrepare(s, o))
  {
    hide Slugs.MapSlug, FindActivePod, ReadHash, Put;
  }

  lemma DispatchKeeps(s: State, o: Outcome)
    requires InPass(s) && s.pass.value.call.ReadAddress?
    ensures Keeps(s, ActDispatch(s, o))
  {
    hide Slugs.MapSlug, SetCondition, Put;
  }

  lemma FirstKeeps(s: State, o: Outcome)
    requires InPass(s)
      && (s.pass.value.call.FirstJob? || s.pass.value.call.FirstInstall? || s.pass.value.call.FirstCreate?)
    ensures Keeps(s, ActFirst(s, o))
  {
    hide Slugs.MapSlug, SetCondition, Put, MountedLive, Named, ReadJob;
  }

  lemma WriteKeeps(s: State, o: Outcome, kind: WriteKind, id: string)
    requires s.pass.Some?
    ensures var t := Write(s, o, kind, id); t.w.hash == s.w.hash && SameRevisions(s.w, t.w) && t.w.jobs == s.w.jobs
  {
  }

  lemma RollbackKeeps(s: State, o: Outcome)
    requires InPass(s) && (s.pass.value.call.RollbackPersist? || s.pass.value.call.RollbackDelete?)
    ensures Keeps(s, ActRollback(s, o))
  {
    hide Slugs.MapSlug, SetCondition, Put, DeletePod, Write;
    WriteKeeps(Edit(s, AtRollback(Mine(s), s.w.clock)), o, Rollback, Id(s));
  }

  lemma RollKeeps(s: State, o: Outcome)
    requires InPass(s) && (s.pass.value.call.RollJob? || s.pass.value.call.RollInstall?)
    ensures Keeps(s, ActRoll(s, o))
  {
    hide Slugs.MapSlug, SetCondition, Put, MountedLive, ReadJob;
  }

  lemma DrainKeeps(s: State, o: Outcome)
    requires InPass(s) && (s.pass.value.call.DrainPersist? || s.pass.value.call.Announce?)
    ensures Keeps(s, ActDrain(s, o))
  {
    hide Put, Write;
    if s.pass.value.call.DrainPersist? {
      var spec, since := s.pass.value.cluster.spec, s.pass.value.call.since;
      WriteKeeps(Edit(s, AtDrainStart(Mine(s), since, spec)), o, DrainStart(since, Grace(spec)), Id(s));
    }
  }

  lemma SwapKeeps(s: State, o: Outcome)
    requires InPass(s) && (s.pass.value.call.SaveAndExit? || s.pass.value.call.SwapPersist?)
    ensures Keeps(s, ActSwap(s, o))
  {
    hide Put, Write;
    WriteKeeps(Edit(s, AtSwap(Mine(s))), o, Swap, Id(s));
  }

  lemma SwappedKeeps(s: State, o: Outcome)
    requires InPass(s) && (s.pass.value.call.SwapDelete? || s.pass.value.call.Rehash? || s.pass.value.call.SwapCreate?)
    ensures Keeps(s, ActSwapped(s, o))
  {
    hide Slugs.MapSlug, Named, DeletePod, ReadHash;
  }

  lemma FinishKeeps(s: State, o: Outcome)
    requires InPass(s)
    requires s.pass.value.call.EnsureCluster? || s.pass.value.call.ListOrphans? || s.pass.value.call.DeleteOrphan?
          || s.pass.value.call.FinalWrite?
    ensures Keeps(s, ActFinish(s, o))
  {
    hide Orphans, DeletePod, Finished, Write;
    var p := s.pass.value;
    WriteKeeps(s.(pass := Some(p.(cluster := Finished(p.cluster)))), o, Final, "");
  }

  lemma ActionKeepsFrame(s: State, o: Outcome)
    requires Wf(s)
    ensures Keeps(s, Action(s, o))
  {
    hide ActPrepare, ActDispatch, ActFirst, ActRollback, ActRoll, ActDrain, ActSwap, ActSwapped, ActFinish, Keeps;
    if s.pass.None? {
      BeginKeeps(s, o);
    } else {
      match s.pass.value.call
      case EnsureMap | ReadRevisions | ListPods(_) => PrepareKeeps(s, o);
      case ReadAddress(_, _) => DispatchKeeps(s, o);
      case FirstJob(_) | FirstInstall | FirstCreate(_) => FirstKeeps(s, o);
      case RollbackPersist(_) | RollbackDelete(_) => RollbackKeeps(s, o);
      case RollJob(_) | RollInstall => RollKeeps(s, o);
      case DrainPersist(_) | Announce => DrainKeeps(s, o);
      case SaveAndExit(_) | SwapPersist(_) => SwapKeeps(s, o);
      case SwapDelete(_) | Rehash | SwapCreate(_) => SwappedKeeps(s, o);
      case EnsureCluster | ListOrphans | DeleteOrphan(_) | FinalWrite => FinishKeeps(s, o);
    }
  }

  lemma BeginKeeps(s: State, o: Outcome)
    requires s.pass.None?
    ensures Keeps(s, ActBegin(s, o))
  {
  }
}
