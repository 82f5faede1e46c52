/** Why grace periods ask for map IDs that are listed once: for every spec that lists an ID twice there is a run without
    any mishap in which one pass starts the drain of that map and ends it. */
module Duplicates {
  import opened ArkTypes
  import opened Statuses
  import opened World
  import opened Operator
  import opened Coherence
  import opened Effects
  import opened Runs
  import opened Visits
  import Drift
  import GraceSafety
  import Slugs

  /** Only the pass under way has begun. */
  predicate NoNewPass(log: seq<Event>) {
    log != [] && forall k :: 1 <= k < |log| ==> !log[k].Began?
  }

  lemma NoNewPassExtends(log: seq<Event>, e: Event)
    requires NoNewPass(log) && !e.Began?
    ensures NoNewPass(log + [e])
  {
  }

  /** All pods are wanted to have the same hash. */
  function AnyHash(): Drift.HashInput -> string {
    (x: Drift.HashInput) => ""
  }

  /** A pod of the map that has another. */
  function OddPod(id: string): Pod {
    Pod(Slugs.MapSlug(id), "old", ServerA, false, true, false)
  }

  function DoneJobs(spec: Spec, id: string): map<JobKey, seq<JobCondition>> {
    map[Job(spec, id, SideB) := [JobCondition(Complete, true)]]
  }

  /** The pass comes to the k-th map, with the drain of the doubled map standing at the deadline, if any. */
  ghost predicate Visiting(s: State, spec: Spec, id: string, k: nat, deadline: Option<int>) {
    && AtVisit(s) && UpToDate(s) && s.pass.value.at == k && s.pass.value.gate == ""
    && s.pass.value.cluster.spec == spec && s.w.cluster.spec == spec
    && OddWorld(s.w, id)
    && Ready(Entry(s.pass.value.cluster.status, id), deadline)
  }

  ghost predicate OddWorld(w: World, id: string) {
    w.hash == AnyHash() && w.addresses == map[] && w.pods == [OddPod(id)] && NoNewPass(w.log)
  }

  /** The map runs on server-a and nobody is to be told of a shutdown. */
  predicate Ready(e: MapStatus, deadline: Option<int>) {
    e.deadline == deadline && Defaulted(e.active) == ServerA && e.rcon == ""
  }

  /** The environment sets the Jobs and the clock. */
  function Moved(w: World, jobs: map<JobKey, seq<JobCondition>>, clock: int): World {
    w.(jobs := jobs, clock := clock)
  }

  lemma MovesOn(s: State, spec: Spec, id: string, k: nat, deadline: Option<int>, jobs: map<JobKey, seq<JobCondition>>,
      clock: int, n: nat)
    requires Visiting(s, spec, id, k, deadline) && clock >= s.w.clock
    ensures Wf(s) && Visiting(s.(w := Moved(s.w, jobs, clock)), spec, id, k, deadline)
    ensures Wf(s.(w := Moved(s.w, jobs, clock)))
    ensures Run(s, [Env(Moved(s.w, jobs, clock))] + Oks(n)) == Run(s.(w := Moved(s.w, jobs, clock)), Oks(n))
  {
    hide Run, Slugs.MapSlug, Ready, NoNewPass, EnvMay;
    MayMove(s.w, Moved(s.w, jobs, clock));
    MoveAndGo(s, Moved(s.w, jobs, clock), n);
  }

  lemma WantedIsEmpty(s: State, spec: Spec, id: string, k: nat, deadline: Option<int>)
    requires Visiting(s, spec, id, k, deadline)
    ensures Wanted(s) == "" && OddPod(id).hash != "" && Refreshed(s) == Settled(s)
    ensures Found(s) == if Slug(s) == Slugs.MapSlug(id) then Some(OddPod(id)) else None
  {
    hide Slugs.MapSlug, Ready, NoNewPass;
    var pods, slug := s.w.pods, Slug(s);
    assert "old" != "";
    assert OddPod(id) in pods;
    var found := FindActivePod(pods, slug, "");
    assert found.Some? ==> found.value in pods;
    assert found.None? ==> !Live(OddPod(id), slug);
  }

  /* ---------- the other maps ---------- */

  /** Another map, whose Job is missing, installs it and is left. */
  lemma OtherInstalls(s: State, spec: Spec, id: string, k: nat, deadline: Option<int>)
    requires Visiting(s, spec, id, k, deadline) && k + 1 < |spec.maps| && spec.maps[k].id != id && s.w.jobs == map[]
    ensures Wf(s) && Visiting(Run(s, Oks(6)), spec, id, k + 1, deadline) && Run(s, Oks(6)).w.clock == s.w.clock
  {
    WantedIsEmpty(s, spec, id, k, deadline);
    if Found(s).Some? {
      RollInstalls(s);
      InstalledVisits(s, spec, id, k, deadline, NextJob(s), true, Refreshed(s).(phase := InstallingInactive));
    } else {
      FirstInstalls(s);
      InstalledVisits(s, spec, id, k, deadline, OwnJob(s), false, Refreshed(s).(phase := InstallingActive));
    }
  }

  lemma InstalledVisits(s: State, spec: Spec, id: string, k: nat, deadline: Option<int>, key: JobKey, rolling: bool,
      e: MapStatus)
    requires Visiting(s, spec, id, k, deadline) && k + 1 < |spec.maps| && spec.maps[k].id != id && e.id == Id(s)
    ensures var t := State(InstalledWorld(Told(s, key, rolling), key, Id(s), Ok), Some(Left(s, e, true)));
      Visiting(t, spec, id, k + 1, deadline)
  {
    hide Slugs.MapSlug, Ready, MountedLive;
    ToldKeeps(s, key, rolling);
    var told := Told(s, key, rolling);
    assert told.log == s.w.log + [told.log[|s.w.log|]];
    hide Told;
    NoNewPassExtends(s.w.log, told.log[|s.w.log|]);
    NoNewPassExtends(told.log, Installed(Id(s), key, MountedLive(told.pods, key.slug, key.side)));
  }

  /** Nothing but calls that succeed and moves that leave spec alone. */
  ghost predicate Smooth(labels: seq<Label>, spec: Spec) {
    forall l :: l in labels ==> l == Act(Ok) || (l.Env? && l.world.cluster.spec == spec)
  }

  lemma OksAreSmooth(v: World, n: nat, spec: Spec)
    requires v.cluster.spec == spec
    ensures Smooth([Env(v)] + Oks(n), spec) && Smooth(Oks(n), spec)
  {
  }

  lemma OtherVisit(s: State, spec: Spec, id: string, k: nat, deadline: Option<int>) returns (labels: seq<Label>)
    requires Visiting(s, spec, id, k, deadline) && k + 1 < |spec.maps| && spec.maps[k].id != id
    ensures Wf(s) && Visiting(Run(s, labels), spec, id, k + 1, deadline) && Smooth(labels, spec)
    ensures Run(s, labels).w.clock == s.w.clock
  {
    var v := Moved(s.w, map[], s.w.clock);
    MovesOn(s, spec, id, k, deadline, map[], s.w.clock, 6);
    labels := [Env(v)] + Oks(6);
    OksAreSmooth(v, 6, spec);
    OtherInstalls(s.(w := v), spec, id, k, deadline);
  }

  /** From the k-th map to the n-th, if none between is the doubled one. */
  lemma {:induction false} Walk(s: State, spec: Spec, id: string, k: nat, n: nat, deadline: Option<int>)
    returns (labels: seq<Label>)
    requires Visiting(s, spec, id, k, deadline) && k <= n < |spec.maps|
    requires forall m :: k <= m < n ==> spec.maps[m].id != id
    ensures Wf(s) && Visiting(Run(s, labels), spec, id, n, deadline) && Smooth(labels, spec)
    ensures Run(s, labels).w.clock == s.w.clock
    decreases n - k
  {
    hide Run, Visiting;
    VisitingIsWf(s, spec, id, k, deadline);
    if k == n {
      labels := [];
      NoneYet(s);
    } else {
      var one := OtherVisit(s, spec, id, k, deadline);
      var rest := Walk(Run(s, one), spec, id, k + 1, n, deadline);
      RunThrough(s, one, rest);
      labels := one + rest;
    }
  }

  lemma VisitingIsWf(s: State, spec: Spec, id: string, k: nat, deadline: Option<int>)
    requires Visiting(s, spec, id, k, deadline)
    ensures Wf(s) && k < |spec.maps| && s.w.cluster.spec == spec
  {
  }

  /* ---------- the doubled map ---------- */

  lemma Doubled(s: State, spec: Spec, id: string, k: nat, deadline: Option<int>)
    requires Visiting(s, spec, id, k, deadline) && spec.maps[k].id == id && s.w.jobs == DoneJobs(spec, id)
    ensures Drifting(s) && OtherInstalled(s) && Found(s) == Some(OddPod(id)) && Ready(Refreshed(s), deadline)
  {
    hide Slugs.MapSlug, NoNewPass, Wanted, Found, AnyHash;
    WantedIsEmpty(s, spec, id, k, deadline);
    assert JobVerdict([JobCondition(Complete, true)]) == JobSucceeded;
  }

  /** Seen first, with its Job done, it starts to drain. */
  lemma DoubledDrains(s: State, spec: Spec, id: string, k: nat)
    requires Visiting(s, spec, id, k, None) && spec.maps[k].id == id && s.w.jobs == DoneJobs(spec, id)
      && k + 1 < |spec.maps|
    ensures Wf(s) && Visiting(Run(s, Oks(6)), spec, id, k + 1, Some(s.w.clock + Grace(spec)))
    ensures Run(s, Oks(6)).w.clock == s.w.clock
  {
    hide Run, Slugs.MapSlug, Found, Wanted, Drifting, OtherInstalled, Drained;
    Doubled(s, spec, id, k, None);
    Visits.Drains(s);
    DrainedVisits(s, spec, id, k);
  }

  lemma DrainedVisits(s: State, spec: Spec, id: string, k: nat)
    requires Visiting(s, spec, id, k, None) && spec.maps[k].id == id && k + 1 < |spec.maps| && Ready(Refreshed(s), None)
    ensures Visiting(Drained(s), spec, id, k + 1, Some(s.w.clock + Grace(spec))) && Drained(s).w.clock == s.w.clock
  {
    hide Slugs.MapSlug, Told, Refreshed, Put, NextJob, NoNewPass;
    ToldKeeps(s, NextJob(s), true);
    var told := Told(s, NextJob(s), true);
    assert told.log == s.w.log + [told.log[|s.w.log|]];
    NoNewPassExtends(s.w.log, told.log[|s.w.log|]);
    var e := AtDrainStart(Refreshed(s), s.w.clock, spec);
    NoNewPassExtends(told.log, Tells(s, DrainStart(s.w.clock, Grace(spec)), e));
  }

  /** The last thing to happen was the deletion of the map's pod for a roll, in the only pass there was. */
  predicate EndsEarly(log: seq<Event>, id: string) {
    NoNewPass(log) && log[|log| - 1].Deleted? && log[|log| - 1].why == ByRoll && log[|log| - 1].id == id
  }

  /** Seen again, with the grace period over, it swaps. */
  lemma DoubledSwaps(s: State, spec: Spec, id: string, k: nat, d: int) returns (n: nat)
    requires Visiting(s, spec, id, k, Some(d)) && spec.maps[k].id == id && s.w.jobs == DoneJobs(spec, id)
      && d <= s.w.clock
    ensures Wf(s) && EndsEarly(Run(s, Oks(n)).w.log, id)
  {
    hide Run, Slugs.MapSlug, Found, Wanted, Drifting, OtherInstalled, AnyHash;
    Doubled(s, spec, id, k, Some(d));
    n := EndsDrain(s);
    EarlyLog(s.w.log, Run(s, Oks(n)).w.log, id);
  }

  lemma EarlyLog(before: seq<Event>, after: seq<Event>, id: string)
    requires NoNewPass(before) && RolledAtOnce(before, after, id)
    ensures EndsEarly(after, id)
  {
    forall k | 1 <= k < |after| ensures !after[k].Began? {
      assert k < |before| ==> after[k] == after[..|before|][k];
    }
  }

  lemma EarlyIsNotHonoured(log: seq<Event>, id: string)
    requires EndsEarly(log, id)
    ensures !GraceSafety.AllHonoured(log, id)
  {
    hide GraceSafety.VouchedEarlier;
    var rest := log[..|log| - 1];
    var before := if rest == [] then [] else rest[..|rest| - 1];
    forall d ensures !GraceSafety.VouchedEarlier(before, id, d) {
      NoneIsEarlier(log, id, |before|, d);
      assert before == log[..|before|];
    }
    assert GraceSafety.AllHonoured(log, id) ==> GraceSafety.Allowed(rest, log[|log| - 1], id);
  }

  lemma NoneIsEarlier(log: seq<Event>, id: string, n: nat, d: int)
    requires NoNewPass(log) && n <= |log|
    ensures !GraceSafety.VouchedEarlier(log[..n], id, d)
  {
    hide GraceSafety.IsDrainStart, GraceSafety.NoSwap;
  }

  /* ---------- the run ---------- */

  /** A cluster that has seen no pass yet, the doubled map's pod up. */
  function Fresh(spec: Spec, id: string): World {
    World(AnyHash(), Cluster(spec, [], Summary(0, 0, ClusterPending), 1), [OddPod(id)], map[], map[], "", map[], 0, [])
  }

  lemma FreshOpens(spec: Spec, id: string)
    requires spec.maps != []
    ensures Visiting(Run(State(Fresh(spec, id), None), Oks(2)), spec, id, 0, None)
    ensures Run(State(Fresh(spec, id), None), Oks(2)).w.clock == 0
  {
    hide Run, Slugs.MapSlug;
    Opening(Fresh(spec, id));
  }

  /** The first place of the map from the k-th on. */
  lemma {:induction false} FirstFrom(maps: seq<MapSpec>, id: string, k: nat, b: nat) returns (i: nat)
    requires k <= b < |maps| && maps[b].id == id
    ensures k <= i <= b && maps[i].id == id && forall m :: k <= m < i ==> maps[m].id != id
    decreases b - k
  {
    if maps[k].id == id {
      i := k;
    } else {
      i := FirstFrom(maps, id, k + 1, b);
    }
  }

  /** The first two places of a doubled map. */
  lemma TwoPlaces(spec: Spec, id: string) returns (i: nat, j: nat)
    requires !GraceSafety.Once(spec, id)
    ensures i < j < |spec.maps| && spec.maps[i].id == id && spec.maps[j].id == id
    ensures forall m :: 0 <= m < i ==> spec.maps[m].id != id
    ensures forall m :: i < m < j ==> spec.maps[m].id != id
  {
    var a, b :| 0 <= a < b < |spec.maps| && spec.maps[a].id == id && spec.maps[b].id == id;
    i := FirstFrom(spec.maps, id, 0, a);
    j := FirstFrom(spec.maps, id, i + 1, b);
  }

  lemma DrainVisit(s: State, spec: Spec, id: string, i: nat) returns (labels: seq<Label>)
    requires Visiting(s, spec, id, i, None) && i + 1 < |spec.maps| && spec.maps[i].id == id
    ensures Wf(s) && Visiting(Run(s, labels), spec, id, i + 1, Some(s.w.clock + Grace(spec))) && Smooth(labels, spec)
    ensures Run(s, labels).w.clock == s.w.clock
  {
    hide Run, Visiting;
    VisitingIsWf(s, spec, id, i, None);
    var v := Moved(s.w, DoneJobs(spec, id), s.w.clock);
    MovesOn(s, spec, id, i, None, DoneJobs(spec, id), s.w.clock, 6);
    labels := [Env(v)] + Oks(6);
    OksAreSmooth(v, 6, spec);
    DoubledDrains(s.(w := v), spec, id, i);
  }

  lemma SwapVisit(s: State, spec: Spec, id: string, j: nat, d: int) returns (labels: seq<Label>)
    requires Visiting(s, spec, id, j, Some(d)) && spec.maps[j].id == id
    ensures Wf(s) && EndsEarly(Run(s, labels).w.log, id) && Smooth(labels, spec)
  {
    var now := if d > s.w.clock then d else s.w.clock;
    var v := Moved(s.w, DoneJobs(spec, id), now);
    MovesOn(s, spec, id, j, Some(d), DoneJobs(spec, id), now, 0);
    var n := DoubledSwaps(s.(w := v), spec, id, j, d);
    MovesOn(s, spec, id, j, Some(d), DoneJobs(spec, id), now, n);
    labels := [Env(v)] + Oks(n);
    OksAreSmooth(v, n, spec);
  }

  lemma SmoothAdds(a: seq<Label>, b: seq<Label>, spec: Spec)
    requires Smooth(a, spec) && Smooth(b, spec)
    ensures Smooth(a + b, spec)
  {
  }

  /** Whatever spec lists a map twice, with whatever grace period and policy: from a fresh cluster with that spec, in a
      run in which every call succeeds and spec stays, one pass deletes the map's pod for a roll, without an earlier
      pass having started the drain. */
  lemma TwiceListedSkipsAPass(spec: Spec, id: string) returns (w: World, labels: seq<Label>)
    requires !GraceSafety.Once(spec, id)
    ensures w.log == [] && w.cluster.spec == spec && w.cluster.status == [] && Smooth(labels, spec)
    ensures EndsEarly(Run(State(w, None), labels).w.log, id)
    ensures !GraceSafety.AllHonoured(Run(State(w, None), labels).w.log, id)
  {
    hide Run, Visiting, Smooth, EndsEarly, GraceSafety.AllHonoured;
    var i, j := TwoPlaces(spec, id);
    w := Fresh(spec, id);
    var s := State(w, None);
    FreshOpens(spec, id);
    OksAreSmooth(w, 2, spec);
    var a := Run(s, Oks(2));
    VisitingIsWf(a, spec, id, 0, None);
    var first := Walk(a, spec, id, 0, i, None);
    RunThrough(s, Oks(2), first);
    SmoothAdds(Oks(2), first, spec);
    var b := Run(a, first);
    var drain := DrainVisit(b, spec, id, i);
    RunThrough(s, Oks(2) + first, drain);
    SmoothAdds(Oks(2) + first, drain, spec);
    var c := Run(b, drain);
    var d := Some(b.w.clock + Grace(spec));
    VisitingIsWf(c, spec, id, i + 1, d);
    var second := Walk(c, spec, id, i + 1, j, d);
    RunThrough(s, Oks(2) + first + drain, second);
    SmoothAdds(Oks(2) + first + drain, second, spec);
    var swap := SwapVisit(Run(c, second), spec, id, j, d.value);
    RunThrough(s, Oks(2) + first + drain + second, swap);
    SmoothAdds(Oks(2) + first + drain + second, swap, spec);
    labels := Oks(2) + first + drain + second + swap;
    EarlyIsNotHonoured(Run(s, labels).w.log, id);
  }

  /* ---------- the exact condition ---------- */

  ghost predicate Holds(labels: seq<Label>, spec: Spec) {
    forall l :: l in labels && l.Env? ==> l.world.cluster.spec == spec
  }

  /** No run of a fresh cluster with this spec cuts a grace period of the map short. */
  ghost predicate AlwaysHonoured(spec: Spec, id: string) {
    forall w: World, labels: seq<Label> ::
      w.log == [] && w.cluster.spec == spec && Entry(w.cluster.status, id).deadline.None? && Holds(labels, spec)
      ==> GraceSafety.AllHonoured(Run(State(w, None), labels).w.log, id)
  }

  /** Grace is honoured for a map in every run under a spec if and only if the spec lists it at most once. */
  lemma HonouredIffListedOnce(spec: Spec, id: string)
    ensures AlwaysHonoured(spec, id) <==> GraceSafety.Once(spec, id)
  {
    hide Run, GraceSafety.AllHonoured, GraceSafety.Once, Smooth, EndsEarly;
    if GraceSafety.Once(spec, id) {
      forall w: World, labels: seq<Label> |
        w.log == [] && w.cluster.spec == spec && Entry(w.cluster.status, id).deadline.None? && Holds(labels, spec)
        ensures GraceSafety.AllHonoured(Run(State(w, None), labels).w.log, id)
      {
        GraceSafety.GraceIsHonoured(State(w, None), labels, id);
        assert Run(State(w, None), labels).w.log[0..] == Run(State(w, None), labels).w.log;
      }
    } else {
      var w, labels := TwiceListedSkipsAPass(spec, id);
      SmoothHolds(labels, spec);
    }
  }

  lemma SmoothHolds(labels: seq<Label>, spec: Spec)
    requires Smooth(labels, spec)
    ensures Holds(labels, spec)
  {
  }
}
