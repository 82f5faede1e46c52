/** No pod is drained away early: every deletion by a roll comes after the grace period of a drain start that an
    earlier pass stored, and players are told at most once per drain start. */
module GraceSafety {
  import opened ArkTypes
  import opened Statuses
  import opened World
  import opened Operator
  import opened Transitions
  import opened Coherence

  /** A stored drain start whose grace period, the one in spec, ends at d. */
  predicate IsDrainStart(e: Event, id: string, d: int) {
    && e.Wrote? && e.stored && e.id == id && e.kind.DrainStart? && e.kind.since <= e.at
    && e.kind.grace == (if e.before.spec.grace < 0 then 0 else e.before.spec.grace)
    && d == e.kind.since + e.kind.grace
    && Entry(e.after.status, id).deadline == Some(d)
  }

  ghost predicate NoSwap(log: seq<Event>, id: string) {
    forall k :: 0 <= k < |log| ==> !IsSwap(log[k], id)
  }

  /** The deadline d comes from a stored drain start of the current drain. */
  ghost predicate Vouched(log: seq<Event>, id: string, d: int) {
    exists j :: 0 <= j < |log| && IsDrainStart(log[j], id, d) && NoSwap(log[j..], id)
  }

  /** ... and was stored by an earlier pass. */
  ghost predicate VouchedEarlier(log: seq<Event>, id: string, d: int) {
    exists j, b :: 0 <= j < b < |log| && IsDrainStart(log[j], id, d) && log[b].Began? && NoSwap(log[j..], id)
  }

  ghost predicate ElapsedBy(log: seq<Event>, id: string, at: int) {
    exists d :: d <= at && VouchedEarlier(log, id, d)
  }

  /** The log up to a deletion by a roll: a drain whose grace ended by then, then the swap write, stored or refused. */
  ghost predicate Honoured(log: seq<Event>, id: string, at: int) {
    && log != []
    && var swap := log[|log| - 1];
    && swap.Wrote? && swap.kind == Swap && swap.id == id
    && ElapsedBy(log[..|log| - 1], id, at)
  }

  /** The log up to an announcement: it follows the write of its drain start, stored or refused. */
  predicate AfterDrainStart(log: seq<Event>, id: string) {
    && log != []
    && var write := log[|log| - 1];
    && write.Wrote? && write.id == id && write.kind.DrainStart? && write.kind.grace > 0
  }

  ghost predicate AllHonoured(log: seq<Event>, id: string) {
    forall k :: 0 <= k < |log| ==> Allowed(log[..k], log[k], id)
  }

  ghost predicate Allowed(log: seq<Event>, e: Event, id: string) {
    && (e.Deleted? && e.why == ByRoll && e.id == id ==> Honoured(log, id, e.at))
    && (e.Announced? && e.id == id ==> AfterDrainStart(log, id))
  }

  lemma VouchedExtends(log: seq<Event>, e: Event, id: string, d: int)
    requires Vouched(log, id, d) && !IsSwap(e, id)
    ensures Vouched(log + [e], id, d)
  {
    var j :| 0 <= j < |log| && IsDrainStart(log[j], id, d) && NoSwap(log[j..], id);
    assert (log + [e])[j..] == log[j..] + [e];
  }

  lemma VouchedEarlierExtends(log: seq<Event>, e: Event, id: string, d: int)
    requires VouchedEarlier(log, id, d) && !IsSwap(e, id)
    ensures VouchedEarlier(log + [e], id, d)
  {
    var j, b :| 0 <= j < b < |log| && IsDrainStart(log[j], id, d) && log[b].Began? && NoSwap(log[j..], id);
    assert (log + [e])[j..] == log[j..] + [e];
    assert (log + [e])[j] == log[j] && (log + [e])[b] == log[b];
  }

  lemma BeginningMakesEarlier(log: seq<Event>, id: string, d: int)
    requires Vouched(log, id, d)
    ensures VouchedEarlier(log + [Began], id, d)
  {
    var j :| 0 <= j < |log| && IsDrainStart(log[j], id, d) && NoSwap(log[j..], id);
    assert (log + [Began])[j..] == log[j..] + [Began];
    assert (log + [Began])[|log|].Began?;
  }

  lemma DrainStartVouches(log: seq<Event>, e: Event, id: string, d: int)
    requires IsDrainStart(e, id, d)
    ensures Vouched(log + [e], id, d)
  {
    assert (log + [e])[|log|] == e;
    assert (log + [e])[|log|..] == [e];
  }

  lemma AllHonouredExtends(log: seq<Event>, e: Event, id: string)
    requires AllHonoured(log, id) && Allowed(log, e, id)
    ensures AllHonoured(log + [e], id)
  {
    hide Allowed;
    var longer := log + [e];
    forall k | 0 <= k < |longer| ensures Allowed(longer[..k], longer[k], id) {
      assert longer[..k] == log[..k];
      assert k == |log| ==> log[..k] == log;
    }
  }

  /* ---------- the invariant ---------- */

  ghost predicate DistinctIds(spec: Spec) {
    forall i, j :: 0 <= i < j < |spec.maps| ==> spec.maps[i].id != spec.maps[j].id
  }

  /** The spec lists the map at most once. */
  ghost predicate Once(spec: Spec, id: string) {
    forall i, j :: 0 <= i < j < |spec.maps| ==> !(spec.maps[i].id == id && spec.maps[j].id == id)
  }

  /** The pass has not yet touched the drain of its j-th map. */
  predicate Untouched(p: Pass, j: nat) {
    || p.call.EnsureCluster?
    || p.at < j
    || (p.at == j && IsMapCall(p.call) && !p.call.Announce? && !p.call.SwapDelete? && !p.call.Rehash?
        && !p.call.SwapCreate?)
  }

  /** The pass may still act on the drain of the map. */
  ghost predicate YetToAct(p: Pass, id: string) {
    exists j: nat :: j < |p.cluster.spec.maps| && p.cluster.spec.maps[j].id == id && Untouched(p, j)
  }

  /** What happened from the n-th event on. */
  function Since(s: State, n: nat): seq<Event>
    requires n <= |s.w.log|
  {
    s.w.log[n..]
  }

  /** The stored deadline is vouched for. */
  ghost predicate StoredVouched(s: State, n: nat, id: string)
    requires n <= |s.w.log|
  {
    Stored(s, id).deadline.Some? ==> Vouched(Since(s, n), id, Stored(s, id).deadline.value)
  }

  function MemoryDeadline(s: State, id: string): Option<int>
    requires s.pass.Some?
  {
    Entry(s.pass.value.cluster.status, id).deadline
  }

  /** So is a deadline the pass will still act on, by an earlier pass. */
  ghost predicate PassVouched(s: State, n: nat, id: string)
    requires n <= |s.w.log|
  {
    s.pass.Some? && YetToAct(s.pass.value, id) ==> MapVouched(s, n, id)
  }

  ghost predicate MapVouched(s: State, n: nat, id: string)
    requires s.pass.Some? && n <= |s.w.log|
  {
    MemoryDeadline(s, id).Some? ==> VouchedEarlier(Since(s, n), id, MemoryDeadline(s, id).value)
  }

  ghost predicate AboutToAct(s: State, n: nat, id: string)
    requires Wf(s) && n <= |s.w.log|
  {
    s.pass.Some? ==>
      var call := s.pass.value.call;
      && (call.SwapDelete? && Id(s) == id ==> Honoured(Since(s, n), id, s.w.clock))
      && (call.Announce? && Id(s) == id ==> AfterDrainStart(Since(s, n), id))
      && (call.DrainPersist? && Id(s) == id ==> call.since <= s.w.clock)
  }

  ghost predicate ListsOnce(s: State, id: string) {
    Once(s.w.cluster.spec, id) && (s.pass.Some? ==> Once(s.pass.value.cluster.spec, id))
  }

  ghost predicate Patient(s: State, n: nat, id: string)
    requires Wf(s)
  {
    && n <= |s.w.log| && AllHonoured(Since(s, n), id)
    && StoredVouched(s, n, id) && PassVouched(s, n, id) && AboutToAct(s, n, id) && ListsOnce(s, id)
  }

  /* ---------- each step ---------- */

  lemma PendingShrinks(s: State, t: State, id: string)
    requires InPass(s) && t.pass.Some? && Moves(s, t) && t.pass.value.cluster.spec == s.pass.value.cluster.spec
    requires YetToAct(t.pass.value, id)
    ensures YetToAct(s.pass.value, id)
  {
    var j: nat :| j < |t.pass.value.cluster.spec.maps| && t.pass.value.cluster.spec.maps[j].id == id
      && Untouched(t.pass.value, j);
    assert Untouched(s.pass.value, j);
  }

  /** The event a step adds to the log, if any. */
  ghost predicate Adds(s: State, t: State, n: nat, e: Option<Event>) {
    && n <= |s.w.log| <= |t.w.log|
    && Since(t, n) == (if e.None? then Since(s, n) else Since(s, n) + [e.value])
    && (e.None? <==> |t.w.log| == |s.w.log|) && (e.Some? ==> e.value == t.w.log[|s.w.log|])
  }

  lemma StepAdds(s: State, t: State, n: nat) returns (e: Option<Event>)
    requires LogGrows(s, t) && n <= |s.w.log|
    ensures Adds(s, t, n, e)
  {
    e := if |t.w.log| == |s.w.log| then None else Some(t.w.log[|s.w.log|]);
    assert e.None? ==> t.w.log == t.w.log[..|s.w.log|];
    assert e.Some? ==> t.w.log == t.w.log[..|s.w.log|] + [e.value];
  }

  lemma StaysVouched(s: State, t: State, n: nat, e: Option<Event>, id: string, d: int)
    requires Adds(s, t, n, e) && (e.Some? ==> !IsSwap(e.value, id))
    ensures Vouched(Since(s, n), id, d) ==> Vouched(Since(t, n), id, d)
    ensures VouchedEarlier(Since(s, n), id, d) ==> VouchedEarlier(Since(t, n), id, d)
  {
    hide Vouched, VouchedEarlier, Since;
    if e.Some? {
      if Vouched(Since(s, n), id, d) {
        VouchedExtends(Since(s, n), e.value, id, d);
      }
      if VouchedEarlier(Since(s, n), id, d) {
        VouchedEarlierExtends(Since(s, n), e.value, id, d);
      }
    }
  }

  lemma KeepsAllHonoured(s: State, t: State, n: nat, e: Option<Event>, id: string)
    requires Adds(s, t, n, e) && AllHonoured(Since(s, n), id)
    requires e.Some? ==> Allowed(Since(s, n), e.value, id)
    ensures AllHonoured(Since(t, n), id)
  {
    hide AllHonoured, Allowed;
    if e.Some? {
      AllHonouredExtends(Since(s, n), e.value, id);
    }
  }

  /** A quiet step leaves every vouching in place. */
  lemma QuietKeepsVouched(s: State, t: State, n: nat, id: string)
    requires InPass(s) && Quiet(s, t) && LogGrows(s, t) && Moves(s, t) && n <= |s.w.log|
    requires StoredVouched(s, n, id) && PassVouched(s, n, id)
    ensures StoredVouched(t, n, id) && PassVouched(t, n, id)
  {
    hide Vouched, VouchedEarlier, YetToAct, Since;
    var e := StepAdds(s, t, n);
    if Stored(s, id).deadline.Some? {
      StaysVouched(s, t, n, e, id, Stored(s, id).deadline.value);
    }
    if t.pass.Some? && YetToAct(t.pass.value, id) {
      PendingShrinks(s, t, id);
      assert Soft(Entry(s.pass.value.cluster.status, id), Entry(t.pass.value.cluster.status, id));
      if MemoryDeadline(s, id).Some? {
        StaysVouched(s, t, n, e, id, MemoryDeadline(s, id).value);
      }
    }
  }

  lemma QuietIsAllowed(s: State, o: Outcome, n: nat, id: string)
    requires InPass(s) && !IsWrite(s.pass.value.call) && n <= |s.w.log| && AboutToAct(s, n, id)
    requires |Action(s, o).w.log| > |s.w.log|
    ensures Allowed(Since(s, n), Action(s, o).w.log[|s.w.log|], id)
  {
    hide ActPrepare, ActDispatch, ActFirst, ActRollback, ActRoll, ActSwap, ActFinish, Honoured, AfterDrainStart, Since;
  }

  /* ---------- the status writes ---------- */

  /** Only a swap of the map itself can void what vouches for its deadline. */
  ghost predicate SparesDrain(kind: WriteKind, e: MapStatus, id: string) {
    kind != Swap || e.id != id
  }

  /** A write that keeps the map's deadline leaves it vouched for. */
  lemma WriteKeepsStored(s: State, t: State, kind: WriteKind, e: MapStatus, n: nat, id: string)
    requires InPass(s) && Synced(s) && WritesEntry(s, t, kind, e) && SparesDrain(kind, e, id)
    requires n <= |s.w.log| && StoredVouched(s, n, id)
    requires id != e.id || Entry(s.pass.value.cluster.status, id).deadline == e.deadline
    ensures StoredVouched(t, n, id)
  {
    hide Vouched, Since;
    var event := StepAdds(s, t, n);
    if Current(s) {
      assert Soft(Stored(s, id), Entry(s.pass.value.cluster.status, id));
    }
    assert Stored(t, id).deadline == Stored(s, id).deadline;
    if Stored(s, id).deadline.Some? {
      StaysVouched(s, t, n, event, id, Stored(t, id).deadline.value);
    }
  }

  /** After a write by the map at hand, what is still pending is as vouched for as before. */
  lemma WriteKeepsPass(s: State, t: State, kind: WriteKind, e: MapStatus, n: nat, id: string)
    requires InPass(s) && AtMap(s) && e.id == Id(s) && WritesEntry(s, t, kind, e) && Moves(s, t)
    requires n <= |s.w.log| && PassVouched(s, n, id) && ListsOnce(s, id)
    requires t.pass.Some? ==>
      !Untouched(t.pass.value, s.pass.value.at) || (Mine(s).deadline == e.deadline && kind != Swap)
    ensures PassVouched(t, n, id)
  {
    hide VouchedEarlier, Since;
    var event := StepAdds(s, t, n);
    if t.pass.Some? && YetToAct(t.pass.value, id) {
      PendingShrinks(s, t, id);
      PendingElsewhere(s, t, id);
      if MemoryDeadline(s, id).Some? {
        StaysVouched(s, t, n, event, id, MemoryDeadline(s, id).value);
      }
    }
  }

  /** A map listed once that the pass is at but has touched is pending no more. */
  lemma PendingElsewhere(s: State, t: State, id: string)
    requires InPass(s) && AtMap(s) && t.pass.Some? && Moves(s, t) && Once(s.pass.value.cluster.spec, id)
    requires t.pass.value.cluster.spec == s.pass.value.cluster.spec && YetToAct(t.pass.value, id)
    ensures Id(s) != id || Untouched(t.pass.value, s.pass.value.at)
  {
  }

  lemma DrainWriteKeepsStored(s: State, o: Outcome, n: nat, id: string)
    requires InPass(s) && s.pass.value.call.DrainPersist? && Synced(s) && n <= |s.w.log| && StoredVouched(s, n, id)
    requires AboutToAct(s, n, id)
    ensures StoredVouched(ActDrain(s, o), n, id)
  {
    hide Vouched, ActDrain, Since;
    var t, since, spec := ActDrain(s, o), s.pass.value.call.since, s.pass.value.cluster.spec;
    var e := AtDrainStart(Mine(s), since, spec);
    DrainWritesEntry(s, o);
    if id != e.id {
      WriteKeepsStored(s, t, DrainStart(since, Grace(spec)), e, n, id);
    } else {
      var event := StepAdds(s, t, n);
      if t.w.cluster.status != s.w.cluster.status {
        DrainStartVouches(Since(s, n), event.value, id, since + Grace(spec));
      } else if Stored(s, id).deadline.Some? {
        StaysVouched(s, t, n, event, id, Stored(t, id).deadline.value);
      }
    }
  }

  lemma DrainWriteKeepsPass(s: State, o: Outcome, n: nat, id: string)
    requires InPass(s) && s.pass.value.call.DrainPersist? && n <= |s.w.log| && PassVouched(s, n, id) && ListsOnce(s, id)
    ensures PassVouched(ActDrain(s, o), n, id)
  {
    hide ActDrain, PassVouched;
    var since, spec := s.pass.value.call.since, s.pass.value.cluster.spec;
    DrainWritesEntry(s, o);
    WriteKeepsPass(s, ActDrain(s, o), DrainStart(since, Grace(spec)), AtDrainStart(Mine(s), since, spec), n, id);
  }

  lemma SwapWriteKeepsVouched(s: State, o: Outcome, n: nat, id: string)
    requires InPass(s) && s.pass.value.call.SwapPersist? && Synced(s) && n <= |s.w.log|
    requires StoredVouched(s, n, id) && PassVouched(s, n, id) && ListsOnce(s, id)
    ensures StoredVouched(ActSwap(s, o), n, id) && PassVouched(ActSwap(s, o), n, id)
  {
    hide Vouched, ActSwap, PassVouched, Since;
    var t, e := ActSwap(s, o), AtSwap(Mine(s));
    SwapWritesEntry(s, o);
    if id != e.id {
      WriteKeepsStored(s, t, Swap, e, n, id);
    } else if Stored(t, id).deadline.Some? {
      var event := StepAdds(s, t, n);
      StaysVouched(s, t, n, event, id, Stored(t, id).deadline.value);
    }
    WriteKeepsPass(s, t, Swap, e, n, id);
  }

  lemma RollbackWriteKeepsVouched(s: State, o: Outcome, n: nat, id: string)
    requires InPass(s) && s.pass.value.call.RollbackPersist? && Synced(s) && n <= |s.w.log|
    requires StoredVouched(s, n, id) && PassVouched(s, n, id) && ListsOnce(s, id)
    ensures StoredVouched(ActRollback(s, o), n, id) && PassVouched(ActRollback(s, o), n, id)
  {
    hide StoredVouched, ActRollback, PassVouched;
    var t, e := ActRollback(s, o), AtRollback(Mine(s), s.w.clock);
    RollbackWritesEntry(s, o);
    WriteKeepsStored(s, t, Rollback, e, n, id);
    WriteKeepsPass(s, t, Rollback, e, n, id);
  }

  lemma FinalWriteKeepsVouched(s: State, o: Outcome, n: nat, id: string)
    requires InPass(s) && s.pass.value.call.FinalWrite? && Synced(s) && n <= |s.w.log| && StoredVouched(s, n, id)
    ensures StoredVouched(ActFinish(s, o), n, id) && PassVouched(ActFinish(s, o), n, id)
  {
    hide Vouched, ActFinish, Since;
    var t := ActFinish(s, o);
    var event := StepAdds(s, t, n);
    FinalWriteEffect(s, o);
    PruneEntry(s.pass.value.cluster.status, s.pass.value.cluster.spec, id);
    if Current(s) {
      assert Soft(Stored(s, id), Entry(s.pass.value.cluster.status, id));
    }
    if Stored(s, id).deadline.Some? {
      StaysVouched(s, t, n, event, id, Stored(s, id).deadline.value);
    }
  }

  lemma BeginKeepsVouched(s: State, o: Outcome, n: nat, id: string)
    requires s.pass.None? && n <= |s.w.log| && StoredVouched(s, n, id)
    ensures StoredVouched(ActBegin(s, o), n, id) && PassVouched(ActBegin(s, o), n, id)
  {
    hide Vouched, VouchedEarlier, Since;
    var t := ActBegin(s, o);
    var event := StepAdds(s, t, n);
    if Stored(s, id).deadline.Some? {
      StaysVouched(s, t, n, event, id, Stored(s, id).deadline.value);
      BeginningMakesEarlier(Since(s, n), id, Stored(s, id).deadline.value);
    }
  }

  /* ---------- the whole invariant ---------- */

  lemma RollJobIsAboutToAct(s: State, o: Outcome, n: nat, id: string)
    requires InPass(s) && s.pass.value.call.RollJob? && n <= |s.w.log|
    ensures AboutToAct(ActRoll(s, o), n, id)
  {
    hide RollUpdate, ReadJob;
    var side := VolumeSide(OtherVolume(Mine(s).active));
    RollUpdateIsAboutToAct(SeeJob(s, o, side, true), SeenVerdict(s, o, side), s.pass.value.call.pod, n, id);
  }

  lemma RollUpdateIsAboutToAct(s: State, verdict: Verdict, pod: Pod, n: nat, id: string)
    requires InPass(s) && s.pass.value.call.RollJob? && n <= |s.w.log|
    ensures AboutToAct(RollUpdate(s, verdict, pod), n, id)
  {
    hide Honoured, AfterDrainStart, Since;
  }

  lemma SwapWriteIsAboutToAct(s: State, o: Outcome, n: nat, id: string)
    requires InPass(s) && s.pass.value.call.SwapPersist? && Placed(s) && n <= |s.w.log| && PassVouched(s, n, id)
    ensures AboutToAct(ActSwap(s, o), n, id)
  {
    if Id(s) == id {
      assert Untouched(s.pass.value, s.pass.value.at);
      assert YetToAct(s.pass.value, id);
      assert ElapsedBy(Since(s, n), id, s.w.clock);
    }
    hide VouchedEarlier, ElapsedBy, MapVouched, YetToAct;
    SwapWriteReports(s, o, n);
    hide ActSwap, Since;
  }

  lemma SwapWriteReports(s: State, o: Outcome, n: nat)
    requires InPass(s) && s.pass.value.call.SwapPersist? && n <= |s.w.log|
    ensures var t := ActSwap(s, o);
      t.pass.Some? ==>
        && t.pass.value.call.SwapDelete? && AtMap(t) && Id(t) == Id(s) && t.w.clock == s.w.clock
        && n < |t.w.log| && |Since(t, n)| > 0 && Since(t, n)[..|Since(t, n)| - 1] == Since(s, n)
        && var e := Since(t, n)[|Since(t, n)| - 1]; e.Wrote? && e.kind == Swap && e.id == Id(s)
  {
  }

  lemma DrainWriteIsAboutToAct(s: State, o: Outcome, n: nat, id: string)
    requires InPass(s) && s.pass.value.call.DrainPersist? && n <= |s.w.log|
    ensures AboutToAct(ActDrain(s, o), n, id)
  {
    hide Honoured;
  }

  lemma ElsewhereIsAboutToAct(s: State, n: nat, id: string)
    requires Wf(s) && n <= |s.w.log|
    requires s.pass.Some? ==>
      !s.pass.value.call.SwapDelete? && !s.pass.value.call.Announce? && !s.pass.value.call.DrainPersist?
    ensures AboutToAct(s, n, id)
  {
  }

  lemma ActionKeepsAboutToAct(s: State, o: Outcome, n: nat, id: string)
    requires Wf(s) && Placed(s) && n <= |s.w.log| && PassVouched(s, n, id)
    ensures AboutToAct(Action(s, o), n, id)
  {
    hide ActPrepare, ActDispatch, ActFirst, ActRollback, ActRoll, ActDrain, ActSwap, ActSwapped, ActFinish;
    hide AboutToAct, Placed, PassVouched;
    if s.pass.None? {
      ElsewhereIsAboutToAct(ActBegin(s, o), n, id);
    } else {
      match s.pass.value.call
      case RollJob(_) => RollJobIsAboutToAct(s, o, n, id);
      case SwapPersist(_) => SwapWriteIsAboutToAct(s, o, n, id);
      case DrainPersist(_) => DrainWriteIsAboutToAct(s, o, n, id);
      case _ => ElsewhereIsAboutToAct(Action(s, o), n, id);
    }
  }

  lemma ActionKeepsVouched(s: State, o: Outcome, n: nat, id: string)
    requires Wf(s) && Synced(s) && n <= |s.w.log| && AboutToAct(s, n, id)
    requires StoredVouched(s, n, id) && PassVouched(s, n, id) && ListsOnce(s, id)
    ensures StoredVouched(Action(s, o), n, id) && PassVouched(Action(s, o), n, id)
  {
    hide ActPrepare, ActDispatch, ActFirst, ActRollback, ActRoll, ActDrain, ActSwap, ActSwapped, ActFinish, ActBegin;
    hide StoredVouched, PassVouched, ListsOnce, Synced, AboutToAct;
    if s.pass.None? {
      BeginKeepsVouched(s, o, n, id);
    } else {
      match s.pass.value.call
      case DrainPersist(_) =>
        DrainWriteKeepsStored(s, o, n, id);
        DrainWriteKeepsPass(s, o, n, id);
      case SwapPersist(_) => SwapWriteKeepsVouched(s, o, n, id);
      case RollbackPersist(_) => RollbackWriteKeepsVouched(s, o, n, id);
      case FinalWrite => FinalWriteKeepsVouched(s, o, n, id);
      case _ =>
        ActionIsQuiet(s, o);
        QuietKeepsVouched(s, Action(s, o), n, id);
    }
  }

  lemma ActionKeepsHonoured(s: State, o: Outcome, n: nat, id: string)
    requires Wf(s) && n <= |s.w.log| && AboutToAct(s, n, id) && AllHonoured(Since(s, n), id)
    ensures AllHonoured(Since(Action(s, o), n), id)
  {
    hide Since;
    var t := Action(s, o);
    var e := StepAdds(s, t, n);
    if s.pass.Some? && !IsWrite(s.pass.value.call) && e.Some? {
      QuietIsAllowed(s, o, n, id);
    }
    hide Action, AllHonoured, AboutToAct;
    KeepsAllHonoured(s, t, n, e, id);
  }

  lemma StepKeepsPatient(s: State, l: Label, n: nat, id: string)
    requires Wf(s) && Sound(s) && Patient(s, n, id)
    requires l.Env? ==> Once(l.world.cluster.spec, id)
    ensures Patient(Step(s, l), n, id)
  {
    hide Action, VouchedEarlier, Vouched, AllHonoured, Once, YetToAct, Honoured, AfterDrainStart;
    match l
    case Act(o) =>
      ActionKeepsVouched(s, o, n, id);
      ActionKeepsAboutToAct(s, o, n, id);
      ActionKeepsHonoured(s, o, n, id);
      ActionKeepsSpecs(s, o);
    case _ => OutsideKeepsPatient(s, l, n, id);
  }

  lemma OutsideKeepsPatient(s: State, l: Label, n: nat, id: string)
    requires Wf(s) && !l.Act? && Patient(s, n, id) && (l.Env? ==> Once(l.world.cluster.spec, id))
    ensures Patient(Step(s, l), n, id)
  {
    hide VouchedEarlier, Vouched, AllHonoured, Once, YetToAct, AfterDrainStart;
  }

  /* ---------- whole runs ---------- */

  ghost predicate EnvOnce(labels: seq<Label>, id: string) {
    forall l :: l in labels && l.Env? ==> Once(l.world.cluster.spec, id)
  }

  lemma {:induction false} RunKeepsPatient(s: State, labels: seq<Label>, n: nat, id: string)
    requires Wf(s) && Sound(s) && Patient(s, n, id) && EnvOnce(labels, id)
    ensures Sound(Run(s, labels)) && Patient(Run(s, labels), n, id)
  {
    hide Action, Sound, Patient, Once;
    if labels != [] {
      var prefix, l := labels[..|labels| - 1], labels[|labels| - 1];
      assert l in labels;
      RunKeepsPatient(s, prefix, n, id);
      StepKeepsSound(Run(s, prefix), l);
      StepKeepsPatient(Run(s, prefix), l, n, id);
    }
  }

  /** The map has no drain on record or in the pass's copy, and the pass is in none of its map's later stages. */
  ghost predicate Undrained(s: State, id: string)
    requires Wf(s)
  {
    && Stored(s, id).deadline.None?
    && (s.pass.Some? ==>
          MemoryDeadline(s, id).None?
          && (AtMap(s) && Id(s) == id ==>
                !s.pass.value.call.DrainPersist? && !s.pass.value.call.Announce? && !s.pass.value.call.SwapDelete?))
  }

  /** From any moment at which the map has no drain on record, with every operator restart, crash and conflict from
      then on: a roll deletes its pod at time t only after a pass before the present one, but since that moment,
      stored a deadline `since + grace` with grace at least zero and t no earlier than that, no swap of the map having
      been stored in between; and an announcement directly follows the write of a drain start with a positive grace. */
  lemma GraceIsHonoured(s: State, labels: seq<Label>, id: string)
    requires Wf(s) && Sound(s) && Undrained(s, id) && ListsOnce(s, id) && EnvOnce(labels, id)
    ensures s.w.log <= Run(s, labels).w.log && AllHonoured(Run(s, labels).w.log[|s.w.log|..], id)
  {
    hide Once, Run, Sound;
    assert Since(s, |s.w.log|) == [];
    RunKeepsPatient(s, labels, |s.w.log|, id);
  }

  predicate IsDrainWrite(e: Event, id: string) {
    e.Wrote? && e.id == id && e.kind.DrainStart?
  }

  function DrainWrites(log: seq<Event>, id: string, stored: bool): nat {
    if log == [] then 0
    else
      var e := log[|log| - 1];
      DrainWrites(log[..|log| - 1], id, stored) + (if IsDrainWrite(e, id) && e.stored == stored then 1 else 0)
  }

  function Announcements(log: seq<Event>, id: string): nat {
    if log == [] then 0
    else Announcements(log[..|log| - 1], id) + (if log[|log| - 1] == Announced(id) then 1 else 0)
  }

  /** Each announcement uses up a drain-start write of its own: where no such write was refused, players are warned
      at most once per stored drain start. */
  lemma {:induction false} AnnouncedOncePerDrain(log: seq<Event>, id: string)
    requires AllHonoured(log, id)
    ensures Announcements(log, id) + (if log != [] && IsDrainWrite(log[|log| - 1], id) then 1 else 0)
         <= DrainWrites(log, id, true) + DrainWrites(log, id, false)
  {
    if log != [] {
      var rest := log[..|log| - 1];
      assert forall k :: 0 <= k < |rest| ==> rest[..k] == log[..k] && rest[k] == log[k];
      AnnouncedOncePerDrain(rest, id);
      assert Allowed(log[..|log| - 1], log[|log| - 1], id);
    }
  }
}
