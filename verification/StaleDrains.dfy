/** A drain that was started and is not wanted any more: finding the map's pod with its wanted hash again does not end
    it, and the next roll swaps at once. What holds from such a moment on, and exactly when. */
module StaleDrains {
  import opened ArkTypes
  import opened Statuses
  import opened World
  import opened Operator
  import opened Transitions
  import opened Coherence
  import opened GraceSafety
  import opened Runs
  import opened Visits
  import Drift
  import Slugs

  /* ---------- the copy's deadline is the stored one ---------- */

  /** Until the pass acts on the map's drain, its copy has the deadline on record. */
  ghost predicate Agreed(s: State, id: string) {
    s.pass.Some? && YetToAct(s.pass.value, id) ==> MemoryDeadline(s, id) == Stored(s, id).deadline
  }

  lemma QuietKeepsAgreed(s: State, t: State, id: string)
    requires InPass(s) && Quiet(s, t) && Moves(s, t) && Agreed(s, id)
    ensures Agreed(t, id)
  {
    hide YetToAct;
    if t.pass.Some? && YetToAct(t.pass.value, id) {
      PendingShrinks(s, t, id);
      assert Soft(Entry(s.pass.value.cluster.status, id), Entry(t.pass.value.cluster.status, id));
    }
  }

  lemma WriteKeepsAgreed(s: State, t: State, kind: WriteKind, e: MapStatus, id: string)
    requires InPass(s) && AtMap(s) && e.id == Id(s) && WritesEntry(s, t, kind, e) && Moves(s, t)
    requires Agreed(s, id) && Once(s.pass.value.cluster.spec, id)
    requires t.pass.Some? ==> !Untouched(t.pass.value, s.pass.value.at) || Mine(s).deadline == e.deadline
    ensures Agreed(t, id)
  {
    hide YetToAct, Once;
    if t.pass.Some? && YetToAct(t.pass.value, id) {
      PendingShrinks(s, t, id);
      PendingElsewhere(s, t, id);
    }
  }

  lemma ActionKeepsAgreed(s: State, o: Outcome, id: string)
    requires Wf(s) && Agreed(s, id) && ListsOnce(s, id)
    ensures Agreed(Action(s, o), id)
  {
    hide ActPrepare, ActDispatch, ActFirst, ActRollback, ActRoll, ActDrain, ActSwap, ActSwapped, ActFinish;
    hide Agreed, WritesEntry, Once;
    var t := Action(s, o);
    if s.pass.None? {
      BeginAgrees(s, o, id);
    } else {
      match s.pass.value.call
      case DrainPersist(since) =>
        var spec := s.pass.value.cluster.spec;
        DrainWritesEntry(s, o);
        WriteKeepsAgreed(s, t, DrainStart(since, Grace(spec)), AtDrainStart(Mine(s), since, spec), id);
      case SwapPersist(_) =>
        SwapWritesEntry(s, o);
        WriteKeepsAgreed(s, t, Swap, AtSwap(Mine(s)), id);
      case RollbackPersist(_) =>
        RollbackWritesEntry(s, o);
        WriteKeepsAgreed(s, t, Rollback, AtRollback(Mine(s), s.w.clock), id);
      case FinalWrite =>
        FinalWriteEffect(s, o);
        EndedAgrees(t, id);
      case _ =>
        ActionIsQuiet(s, o);
        QuietKeepsAgreed(s, t, id);
    }
  }

  lemma BeginAgrees(s: State, o: Outcome, id: string)
    requires s.pass.None?
    ensures Agreed(ActBegin(s, o), id)
  {
  }

  lemma EndedAgrees(t: State, id: string)
    requires t.pass.None?
    ensures Agreed(t, id)
  {
  }

  lemma {:induction false} RunKeepsAgreed(s: State, labels: seq<Label>, id: string)
    requires Wf(s) && Agreed(s, id) && ListsOnce(s, id) && EnvOnce(labels, id)
    ensures Agreed(Run(s, labels), id) && ListsOnce(Run(s, labels), id)
  {
    hide Action, Once, YetToAct;
    if labels != [] {
      var prefix, l := labels[..|labels| - 1], labels[|labels| - 1];
      assert l in labels;
      RunKeepsAgreed(s, prefix, id);
      var r := Run(s, prefix);
      RunLast(s, labels);
      hide Run;
      if l.Act? {
        ActionKeepsAgreed(r, l.outcome, id);
        ActionKeepsSpecs(r, l.outcome);
      }
    }
  }

  /* ---------- found as wanted ---------- */

  /** The pass has found the map's live pod, and it has the wanted hash. */
  predicate FoundAsWanted(s: State, id: string) {
    && s.pass.Some? && s.pass.value.call.ReadAddress? && AtMap(s) && Id(s) == id
    && s.pass.value.call.found.Some? && s.pass.value.call.found.value.hash == s.pass.value.call.hash
  }

  /** Each deletion of the map's pod by a roll from the n-th event on follows a drain start stored since then. */
  ghost predicate FreshlyDrained(log: seq<Event>, n: nat, id: string) {
    forall k :: n <= k < |log| && log[k].Deleted? && log[k].why == ByRoll && log[k].id == id ==>
      StartedSince(log, n, k, id)
  }

  ghost predicate StartedSince(log: seq<Event>, n: nat, k: nat, id: string) {
    exists j, d :: n <= j < k && j < |log| && IsDrainStart(log[j], id, d)
  }

  lemma HonouredIsFresh(log: seq<Event>, n: nat, id: string)
    requires n <= |log| && AllHonoured(log[n..], id)
    ensures FreshlyDrained(log, n, id)
  {
    hide IsDrainStart, NoSwap;
    var rest := log[n..];
    forall k | n <= k < |log| && log[k].Deleted? && log[k].why == ByRoll && log[k].id == id
      ensures StartedSince(log, n, k, id)
    {
      assert rest[k - n] == log[k];
      assert Allowed(rest[..k - n], rest[k - n], id);
      var before := rest[..k - n][..k - n - 1];
      var d :| d <= log[k].at && VouchedEarlier(before, id, d);
      var j, b :| 0 <= j < b < |before| && IsDrainStart(before[j], id, d) && before[b].Began?
        && NoSwap(before[j..], id);
      assert before[j] == log[n + j];
    }
  }

  /** Where no deadline is on record when the pod is found as wanted, later rolls start a drain of their own. */
  lemma FreshFromHere(o: State, before: seq<Label>, after: seq<Label>, id: string)
    requires o.pass.None? && Once(o.w.cluster.spec, id) && EnvOnce(before, id) && EnvOnce(after, id)
    requires FoundAsWanted(Run(o, before), id) && Stored(Run(o, before), id).deadline.None?
    ensures FreshlyDrained(Run(Run(o, before), after).w.log, |Run(o, before).w.log|, id)
  {
    hide Run, Once;
    var s := Run(o, before);
    RunKeepsAgreed(o, before, id);
    RunIsSound(o, before);
    assert Untouched(s.pass.value, s.pass.value.at);
    assert YetToAct(s.pass.value, id);
    GraceIsHonoured(s, after, id);
    HonouredIsFresh(Run(s, after).w.log, |s.w.log|, id);
  }

  /* ---------- a drain that is not wanted any more ---------- */

  /** An edit that leaves the map alone in spec and wants another pod of it. */
  ghost predicate EditTells(w: World, id: string, pod: Pod, edit: Spec) {
    && |edit.maps| == 1 && edit.maps[0].id == id && edit.rollout == Parallel
    && ReadHash(w, Ok, edit, 0, Defaulted(Entry(w.cluster.status, id).active)) != pod.hash
  }

  function OtherJob(w: World, id: string, edit: Spec): JobKey {
    Job(edit, id, VolumeSide(OtherVolume(Defaulted(Entry(w.cluster.status, id).active))))
  }

  /** The edit is made, the Job it asks for done, other pods are gone and d has come. */
  function Edited(w: World, id: string, pod: Pod, edit: Spec, d: int): World {
    w.(pods := [pod], cluster := w.cluster.(spec := edit, rev := w.cluster.rev + 1),
       jobs := map[OtherJob(w, id, edit) := [JobCondition(Complete, true)]],
       clock := if d > w.clock then d else w.clock)
  }

  lemma EditedMay(w: World, id: string, pod: Pod, edit: Spec, d: int)
    requires pod in w.pods
    ensures EnvMay(w, Edited(w, id, pod, edit, d))
  {
    hide Slugs.MapSlug;
    assert SamePod(pod, pod);
  }

  /** The next pass after the edit comes to the map with the old deadline. */
  lemma EditedVisit(w: World, id: string, pod: Pod, edit: Spec, d: int)
    requires Live(pod, Slugs.MapSlug(id)) && EditTells(w, id, pod, edit)
      && Entry(w.cluster.status, id).deadline == Some(d)
    ensures var v := Edited(w, id, pod, edit, d);
      var u := State(Begun(v), Some(PassBegun(v)));
      && Run(State(v, None), Oks(2)) == u && AtVisit(u) && Id(u) == id && UpToDate(u)
      && Drifting(u) && OtherInstalled(u) && Refreshed(u).deadline == Some(d) && d <= u.w.clock
  {
    hide Run, Slugs.MapSlug, FindActivePod, Template;
    var v := Edited(w, id, pod, edit, d);
    Opening(v);
    var u := State(Begun(v), Some(PassBegun(v)));
    FoundAlone(pod, Slugs.MapSlug(id), Wanted(u));
    assert JobVerdict([JobCondition(Complete, true)]) == JobSucceeded;
  }

  /** Where a deadline is on record, however old, an edit can have the map's live pod deleted with no drain started. */
  lemma StaleRoll(s: State, id: string, pod: Pod, edit: Spec) returns (labels: seq<Label>)
    requires Wf(s) && pod in s.w.pods && Live(pod, Slugs.MapSlug(id)) && EditTells(s.w, id, pod, edit)
    requires Stored(s, id).deadline.Some?
    ensures EnvOnce(labels, id) && forall l :: l in labels ==> !(l.Act? && l != Act(Ok))
    ensures RolledAtOnce(s.w.log + [Began], Run(s, labels).w.log, id)
  {
    hide Run, Slugs.MapSlug, EditTells, Edited, Drifting, OtherInstalled, EnvMay, RolledAtOnce, Once;
    var d := Stored(s, id).deadline.value;
    var v := Edited(s.w, id, pod, edit, d);
    EditedKeeps(s.w, id, pod, edit, d);
    EditedMay(s.w, id, pod, edit, d);
    EditedVisit(s.w, id, pod, edit, d);
    var x, u := State(v, None), State(Begun(v), Some(PassBegun(v)));
    var n := EndsDrain(u);
    OksAdd(x, 2, n);
    MoveAndGo(State(s.w, None), v, 2 + n);
    labels := [Cut] + ([Env(v)] + Oks(2 + n));
    NoneYet(s);
    CutAndGo(s, [], [Env(v)] + Oks(2 + n));
    assert [] + [Cut] + ([Env(v)] + Oks(2 + n)) == labels;
    hide Oks;
  }

  lemma EditedKeeps(w: World, id: string, pod: Pod, edit: Spec, d: int)
    requires EditTells(w, id, pod, edit)
    ensures var v := Edited(w, id, pod, edit, d); v.hash == w.hash && v.log == w.log && Once(v.cluster.spec, id)
  {
    hide Slugs.MapSlug;
  }

  lemma RolledIsStale(log: seq<Event>, after: seq<Event>, id: string)
    requires RolledAtOnce(log + [Began], after, id)
    ensures !FreshlyDrained(after, |log|, id)
  {
    var k := |after| - 1;
    assert after[..|log| + 1] == log + [Began];
    assert after[|log|] == Began;
    forall j, d | |log| <= j < k ensures !IsDrainStart(after[j], id, d) {
    }
    assert !StartedSince(after, |log|, k, id);
  }

  /** Every later roll starts a drain of its own. */
  ghost predicate StaysFresh(s: State, id: string)
    requires Wf(s)
  {
    forall after: seq<Label> :: EnvOnce(after, id) ==> FreshlyDrained(Run(s, after).w.log, |s.w.log|, id)
  }

  /** From the moment the map's pod is found with its wanted hash, each later deletion of it by a roll follows a drain
      start stored since then, if and only if no deadline was on record at that moment; provided the pod is still up
      and some edit of the spec wants another. */
  lemma FreshIffNoDeadline(o: State, before: seq<Label>, id: string, edit: Spec)
    requires o.pass.None? && Once(o.w.cluster.spec, id) && EnvOnce(before, id)
    requires FoundAsWanted(Run(o, before), id)
    requires var s := Run(o, before); var pod := s.pass.value.call.found.value;
      pod in s.w.pods && Live(pod, Slugs.MapSlug(id)) && EditTells(s.w, id, pod, edit)
    ensures StaysFresh(Run(o, before), id) <==> Stored(Run(o, before), id).deadline.None?
  {
    hide Run, Once, Slugs.MapSlug, EditTells, FreshlyDrained, EnvOnce;
    var s := Run(o, before);
    if Stored(s, id).deadline.None? {
      forall after: seq<Label> | EnvOnce(after, id) ensures FreshlyDrained(Run(s, after).w.log, |s.w.log|, id) {
        FreshFromHere(o, before, after, id);
      }
    } else {
      var labels := StaleRoll(s, id, s.pass.value.call.found.value, edit);
      RolledIsStale(s.w.log, Run(s, labels).w.log, id);
    }
  }

  /* ---------- a run that comes to such a moment ---------- */

  function OneMap(id: string, image: string): Spec {
    Spec(image, [MapSpec(id, [])], [], 7777, 27020, "", "", Parallel, 60)
  }

  function ByImage(): Drift.HashInput -> string {
    (x: Drift.HashInput) => x.image
  }

  function Server(id: string): Pod {
    Pod(Slugs.MapSlug(id), "old", ServerA, false, true, false)
  }

  function Serving(id: string): MapStatus {
    MapStatus(id, Running, ServerA, ServerA, None, "", [])
  }

  /** The image was just edited and is installed on the other volume; the server still runs the old one. */
  function JustEdited(id: string): World {
    World(ByImage(), Cluster(OneMap(id, "new"), [Serving(id)], Summary(1, 1, ClusterRunning), 1), [Server(id)],
          map[Job(OneMap(id, "new"), id, SideB) := [JobCondition(Complete, true)]], map[], "", map[], 0, [])
  }

  function DrainingTo(id: string, d: int): MapStatus {
    Serving(id).(phase := DrainingActive, deadline := Some(d))
  }

  /** The pass starts the drain. */
  lemma DrainStarts(id: string)
    ensures var t := Run(State(JustEdited(id), None), Oks(8));
      && t.w == JustEdited(id).(cluster := t.w.cluster, log := t.w.log)
      && t.w.cluster.spec == OneMap(id, "new") && t.w.cluster.status == [DrainingTo(id, 60)]
      && UpToDate(t) && t.pass.value.call.ListOrphans? && t.pass.value.cluster.spec == t.w.cluster.spec
      && t.pass.value.cluster.status == t.w.cluster.status && t.pass.value.at == 1
  {
    hide Run, Slugs.MapSlug, FindActivePod;
    var w := JustEdited(id);
    Opening(w);
    var u := State(Begun(w), Some(PassBegun(w)));
    FoundAlone(Server(id), Slugs.MapSlug(id), Wanted(u));
    assert JobVerdict([JobCondition(Complete, true)]) == JobSucceeded;
    assert "old"[0] != "new"[0];
    OksAdd(State(w, None), 2, 6);
    Visits.Drains(u);
    PutOne(Serving(id), DrainingTo(id, 60));
    ToldKeeps(u, NextJob(u), true);
  }

  /** The edit is taken back. */
  function TakenBack(w: World, id: string): World {
    w.(cluster := w.cluster.(spec := OneMap(id, "old"), rev := w.cluster.rev + 1))
  }

  lemma FindsAsWanted(v: World, id: string)
    requires v == JustEdited(id).(cluster := v.cluster, log := v.log)
    requires v.cluster.spec == OneMap(id, "old") && v.cluster.status == [DrainingTo(id, 60)]
    ensures var t := Run(State(v, None), Oks(5));
      && FoundAsWanted(t, id) && t.pass.value.call.found == Some(Server(id)) && t.w == Begun(v)
  {
    hide Run, Slugs.MapSlug, FindActivePod;
    Opening(v);
    var u := State(Begun(v), Some(PassBegun(v)));
    FoundAlone(Server(id), Slugs.MapSlug(id), Wanted(u));
    OksAdd(State(v, None), 2, 3);
    ComesToFound(u);
  }

  lemma BackTells(v: World, id: string)
    requires v == JustEdited(id).(cluster := v.cluster, log := v.log) && v.cluster.status == [DrainingTo(id, 60)]
    ensures EditTells(Begun(v), id, Server(id), OneMap(id, "new"))
  {
    hide Slugs.MapSlug;
    assert "old"[0] != "new"[0];
  }

  /** Edit, start a drain, take the edit back: in a run without mishap the pod is found as wanted with the deadline of
      that drain on record, and the same edit again has it deleted with no drain started. */
  lemma EditTakenBack(id: string) returns (w: World, before: seq<Label>, again: seq<Label>)
    ensures w.log == [] && Once(w.cluster.spec, id) && EnvOnce(before, id) && EnvOnce(again, id)
    ensures forall l :: l in before + again && l.Act? ==> l == Act(Ok)
    ensures var s := Run(State(w, None), before);
      FoundAsWanted(s, id) && Stored(s, id).deadline == Some(60)
      && EditTells(s.w, id, s.pass.value.call.found.value, OneMap(id, "new"))
      && RolledAtOnce(s.w.log + [Began], Run(s, again).w.log, id)
  {
    hide Run, Slugs.MapSlug, RolledAtOnce, EditTells, EnvMay;
    w := JustEdited(id);
    var o := State(w, None);
    DrainStarts(id);
    var t := Run(o, Oks(8));
    NothingGoes(OneMap(id, "new"), Server(id), DrainingTo(id, 60));
    PassEnds(t);
    OksAdd(o, 8, 2);
    var u := Run(o, Oks(10)).w;
    var v := TakenBack(u, id);
    MayMove(u, v);
    MoveAndGo(State(u, None), v, 5);
    FindsAsWanted(v, id);
    BackTells(v, id);
    before := Oks(10) + ([Env(v)] + Oks(5));
    RunThrough(o, Oks(10), [Env(v)] + Oks(5));
    again := StaleRoll(Run(o, before), id, Server(id), OneMap(id, "new"));
  }
}
