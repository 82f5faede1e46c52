/** What a pass comes to at one map when the calls up to its choice all succeed. */
module Visits {
  import opened ArkTypes
  import opened Statuses
  import opened World
  import opened Operator
  import opened Transitions
  import opened Effects
  import opened Runs
  import Slugs

  function PassBegun(w: World): Pass {
    Pass(EnsureMap, 0, w.cluster, false, Gate(w.cluster), w.cluster.status)
  }

  function Begun(w: World): World {
    w.(log := w.log + [Began])
  }

  /** The first two calls: read the cluster, ensure its objects. */
  lemma Opening(w: World)
    requires w.cluster.spec.maps != []
    ensures Run(State(w, None), Oks(2)) == State(Begun(w), Some(PassBegun(w)))
  {
    hide Run, Action, Gate;
    var s := State(w, None);
    NoneYet(s);
    OneMore(s, 0);
    BeginResult(w, Ok);
    OneMore(s, 1);
    EnsureClusterResult(Run(s, Oks(1)), Ok);
  }

  /** The pass is about to look at a map. */
  predicate AtVisit(s: State) {
    s.pass.Some? && s.pass.value.call.EnsureMap? && AtMap(s)
  }

  /** The map's entry once its volume is chosen. */
  function Settled(s: State): (e: MapStatus)
    requires AtMap(s)
    ensures e.id == Id(s)
  {
    Mine(s).(active := Defaulted(Mine(s).active))
  }

  /** ... and once its address is refreshed. */
  function Refreshed(s: State): (e: MapStatus)
    requires AtMap(s)
    ensures e.id == Id(s) && e == Settled(s).(rcon := e.rcon)
  {
    Addressed(Settled(s), s.w, Ok)
  }

  function Wanted(s: State): string
    requires AtMap(s)
  {
    ReadHash(s.w, Ok, s.pass.value.cluster.spec, s.pass.value.at, Settled(s).active)
  }

  function Found(s: State): Option<Pod>
    requires AtMap(s)
  {
    FindActivePod(s.w.pods, Slug(s), Wanted(s))
  }

  /** The pass with e as its map's entry, about to make the call. */
  function Holding(s: State, e: MapStatus, call: Call): Pass
    requires AtMap(s)
  {
    s.pass.value.(cluster := s.pass.value.cluster.(status := Put(s.pass.value.cluster.status, e)), call := call)
  }

  lemma Ensures(s: State)
    requires AtVisit(s)
    ensures Wf(s) && Action(s, Ok) == State(s.w, Some(Holding(s, Settled(s), ReadRevisions)))
  {
    hide Action, Slugs.MapSlug, Put;
    PrepareResult(s, Ok);
  }

  lemma Reads(s: State, u: State)
    requires AtVisit(s) && u == State(s.w, Some(Holding(s, Settled(s), ReadRevisions)))
    ensures Wf(u) && Action(u, Ok) == State(s.w, Some(Holding(s, Settled(s), ListPods(Wanted(s)))))
  {
    hide Action, Slugs.MapSlug, Put, ReadHash;
    PrepareResult(u, Ok);
  }

  lemma Lists(s: State, u: State)
    requires AtVisit(s) && u == State(s.w, Some(Holding(s, Settled(s), ListPods(Wanted(s)))))
    ensures Wf(u) && Action(u, Ok) == State(s.w, Some(Holding(s, Settled(s), ReadAddress(Wanted(s), Found(s)))))
  {
    hide Action, Slugs.MapSlug, Put, ReadHash, FindActivePod;
    PrepareResult(u, Ok);
  }

  /** Where the choice leaves the pass. */
  function Dispatched(s: State): Pass
    requires AtVisit(s)
  {
    var e := Refreshed(s);
    DispatchPass(Holding(s, e, ReadAddress(Wanted(s), Found(s))), Id(s), e, Wanted(s), Found(s), s.w.clock)
  }

  lemma Addresses(s: State, u: State)
    requires AtVisit(s) && u == State(s.w, Some(Holding(s, Settled(s), ReadAddress(Wanted(s), Found(s)))))
    ensures Wf(u) && Action(u, Ok) == State(s.w, Some(Dispatched(s)))
  {
    hide Action, Slugs.MapSlug, Put, ReadHash, FindActivePod, DispatchPass;
    PutTwice(s.pass.value.cluster.status, Settled(s), Refreshed(s));
    DispatchResult(u, Ok);
  }

  /** Ensure the map's objects, read the revisions, list the pods: the map's pod is found, if it has one. */
  lemma ComesToFound(s: State)
    requires AtVisit(s)
    ensures Wf(s) && Run(s, Oks(3)) == State(s.w, Some(Holding(s, Settled(s), ReadAddress(Wanted(s), Found(s)))))
  {
    hide Run, Action, Wf, Holding, Wanted, Found, Settled;
    Ensures(s);
    NoneYet(s);
    OneMore(s, 0);
    OneMore(s, 1);
    Reads(s, Run(s, Oks(1)));
    OneMore(s, 2);
    Lists(s, Run(s, Oks(2)));
  }

  /** ... and the address is read. */
  lemma MapFront(s: State)
    requires AtVisit(s)
    ensures Wf(s) && Run(s, Oks(4)) == State(s.w, Some(Dispatched(s)))
  {
    hide Run, Action, Wf, Dispatched, Holding, Wanted, Found, Settled;
    ComesToFound(s);
    OneMore(s, 3);
    Addresses(s, Run(s, Oks(3)));
  }

  lemma FoundAlone(pod: Pod, slug: string, hash: string)
    requires Live(pod, slug)
    ensures FindActivePod([pod], slug, hash) == Some(pod)
  {
    assert pod in [pod];
    var found := FindActivePod([pod], slug, hash);
    assert found.Some? ==> found.value in [pod];
  }

  /* ---------- the choice and the Job's verdict ---------- */

  /** The map has a live pod with another hash than the wanted one, and no other map holds it back. */
  predicate Drifting(s: State)
    requires AtMap(s)
  {
    && Found(s).Some? && Found(s).value.hash != Wanted(s)
    && (s.pass.value.gate == "" || s.pass.value.gate == Id(s))
  }

  lemma Rolls(s: State)
    requires AtVisit(s) && Drifting(s)
    ensures Wf(s)
    ensures Run(s, Oks(4)) == State(s.w, Some(Holding(s, Refreshed(s), RollJob(Found(s).value)).(busy := true)))
  {
    hide Run, Slugs.MapSlug, FindActivePod, ReadHash, SteadyPass;
    MapFront(s);
  }

  /** The Job of the other side. */
  function NextJob(s: State): JobKey
    requires AtMap(s)
  {
    Job(s.pass.value.cluster.spec, Id(s), VolumeSide(OtherVolume(Settled(s).active)))
  }

  function Gated(s: State): bool
    requires AtMap(s)
  {
    s.pass.value.cluster.spec.rollout != Parallel
  }

  /** The world once the Job was asked for. */
  function Told(s: State, key: JobKey, rolling: bool): World
    requires AtMap(s)
  {
    SeenWorld(s.w, key, Id(s), ReadJob(s.w, Ok, key), rolling, Gated(s), s.pass.value.start)
  }

  lemma ToldKeeps(s: State, key: JobKey, rolling: bool)
    requires AtMap(s)
    ensures var t := Told(s, key, rolling);
      t == s.w.(log := t.log) && |t.log| == |s.w.log| + 1 && t.log[..|s.w.log|] == s.w.log
    ensures Told(s, key, rolling).log[|s.w.log|].JobSeen?
  {
    hide ReadJob, Slugs.MapSlug;
  }

  lemma FoundWhenDrifting(s: State)
    requires AtMap(s) && Drifting(s)
    ensures Found(s).Some?
  {
    hide Found, Wanted;
  }

  lemma RollAsks(s: State)
    requires AtVisit(s) && Drifting(s)
    ensures Wf(s)
    ensures var pod, e := Found(s).value, Refreshed(s);
      Run(s, Oks(5))
      == State(Told(s, NextJob(s), true),
               Some(RollPass(Holding(s, e, RollJob(pod)).(busy := true), e, ReadJob(s.w, Ok, NextJob(s)), pod,
                 s.w.clock)))
  {
    hide Run, Action, Slugs.MapSlug, Found, Wanted, ReadJob, RollPass, Refreshed, Put, Drifting;
    Rolls(s);
    FoundWhenDrifting(s);
    OneMore(s, 4);
    RollJobResult(Run(s, Oks(4)), Ok);
  }

  lemma PutOver(s: State, e: MapStatus, f: MapStatus)
    requires AtMap(s) && e.id == f.id
    ensures Put(Put(s.pass.value.cluster.status, e), f) == Put(s.pass.value.cluster.status, f)
  {
    PutTwice(s.pass.value.cluster.status, e, f);
  }

  /** The map is left with e as its entry. */
  function Left(s: State, e: MapStatus, busy: bool): Pass
    requires AtMap(s)
  {
    NextPass(Holding(s, e, EnsureMap), Holding(s, e, EnsureMap).cluster, busy)
  }

  /** A missing Job of the other side is installed. */
  lemma RollInstalls(s: State)
    requires AtVisit(s) && Drifting(s) && NextJob(s) !in s.w.jobs
    ensures Wf(s)
    ensures Run(s, Oks(6))
         == State(InstalledWorld(Told(s, NextJob(s), true), NextJob(s), Id(s), Ok),
                  Some(Left(s, Refreshed(s).(phase := InstallingInactive), true)))
  {
    ComesToInstall(s);
    RollInstallStep(s, Run(s, Oks(5)));
    hide *;
    OneMore(s, 5);
  }

  lemma ComesToInstall(s: State)
    requires AtVisit(s) && Drifting(s) && NextJob(s) !in s.w.jobs
    ensures Wf(s)
    ensures Run(s, Oks(5))
      == State(Told(s, NextJob(s), true), Some(Holding(s, Refreshed(s), RollInstall).(busy := true)))
  {
    hide Run, Slugs.MapSlug, Found, Wanted;
    RollAsks(s);
  }

  lemma RollInstallStep(s: State, u: State)
    requires AtVisit(s)
    requires u == State(Told(s, NextJob(s), true), Some(Holding(s, Refreshed(s), RollInstall).(busy := true)))
    ensures Wf(u)
    ensures Action(u, Ok)
         == State(InstalledWorld(Told(s, NextJob(s), true), NextJob(s), Id(s), Ok),
                  Some(Left(s, Refreshed(s).(phase := InstallingInactive), true)))
  {
    hide Action, Slugs.MapSlug, InstalledWorld, Put, Told, Refreshed;
    PutOver(s, Refreshed(s), Refreshed(s).(phase := InstallingInactive));
    RollInstallResult(u, Ok);
  }

  /** The Job of the map's own side. */
  function OwnJob(s: State): JobKey
    requires AtMap(s)
  {
    Job(s.pass.value.cluster.spec, Id(s), VolumeSide(Settled(s).active))
  }

  lemma FirstAsks(s: State)
    requires AtVisit(s) && Found(s).None?
    ensures Wf(s)
    ensures var e := Refreshed(s);
      Run(s, Oks(5))
      == State(Told(s, OwnJob(s), false),
               Some(FirstPass(Holding(s, e, FirstJob(Wanted(s))), e, ReadJob(s.w, Ok, OwnJob(s)), Wanted(s),
                 s.w.clock)))
  {
    hide SteadyPass;
    MapFront(s);
    OneMore(s, 4);
    hide Run, Action, Slugs.MapSlug, Found, Wanted, ReadJob, FirstPass;
    FirstJobResult(Run(s, Oks(4)), Ok);
  }

  /** A missing Job of a map without a pod is installed. */
  lemma FirstInstalls(s: State)
    requires AtVisit(s) && Found(s).None? && OwnJob(s) !in s.w.jobs
    ensures Wf(s)
    ensures Run(s, Oks(6))
         == State(InstalledWorld(Told(s, OwnJob(s), false), OwnJob(s), Id(s), Ok),
                  Some(Left(s, Refreshed(s).(phase := InstallingActive), true)))
  {
    ComesToFirstInstall(s);
    FirstInstallStep(s, Run(s, Oks(5)));
    hide *;
    OneMore(s, 5);
  }

  lemma ComesToFirstInstall(s: State)
    requires AtVisit(s) && Found(s).None? && OwnJob(s) !in s.w.jobs
    ensures Wf(s) && Run(s, Oks(5)) == State(Told(s, OwnJob(s), false), Some(Holding(s, Refreshed(s), FirstInstall)))
  {
    hide Run, Slugs.MapSlug, Found, Wanted;
    FirstAsks(s);
  }

  lemma FirstInstallStep(s: State, u: State)
    requires AtVisit(s) && u == State(Told(s, OwnJob(s), false), Some(Holding(s, Refreshed(s), FirstInstall)))
    ensures Wf(u)
    ensures Action(u, Ok)
         == State(InstalledWorld(Told(s, OwnJob(s), false), OwnJob(s), Id(s), Ok),
                  Some(Left(s, Refreshed(s).(phase := InstallingActive), true)))
  {
    hide Action, Slugs.MapSlug, InstalledWorld, Put, Told, Refreshed;
    PutOver(s, Refreshed(s), Refreshed(s).(phase := InstallingActive));
    FirstInstallResult(u, Ok);
  }

  /* ---------- drain and swap ---------- */

  /** The other side is installed. */
  predicate OtherInstalled(s: State)
    requires AtMap(s)
  {
    NextJob(s) in s.w.jobs && JobVerdict(s.w.jobs[NextJob(s)]) == JobSucceeded
  }

  /** The pass's copy is the stored cluster's. */
  predicate UpToDate(s: State) {
    s.pass.Some? && s.pass.value.cluster.rev == s.w.cluster.rev
  }

  /** What a stored write of e leaves of the cluster. */
  function Written(s: State, e: MapStatus): Cluster
    requires AtMap(s)
  {
    var c := s.pass.value.cluster;
    s.w.cluster.(status := Put(c.status, e), summary := c.summary, rev := s.w.cluster.rev + 1)
  }

  function Tells(s: State, kind: WriteKind, e: MapStatus): Event
    requires AtMap(s)
  {
    Wrote(kind, Id(s), s.w.clock, true, Gated(s), s.pass.value.start, s.w.cluster, Written(s, e))
  }

  /** The world once the write is stored, after the Job was asked for. */
  function Stores(s: State, kind: WriteKind, e: MapStatus): World
    requires AtMap(s)
  {
    var told := Told(s, NextJob(s), true);
    told.(cluster := Written(s, e), log := told.log + [Tells(s, kind, e)])
  }

  lemma ComesToDrain(s: State)
    requires AtVisit(s) && Drifting(s) && OtherInstalled(s) && Refreshed(s).deadline.None?
    ensures Wf(s)
    ensures Run(s, Oks(5))
         == State(Told(s, NextJob(s), true), Some(Holding(s, Refreshed(s), DrainPersist(s.w.clock)).(busy := true)))
  {
    hide Run, Slugs.MapSlug, Found, Wanted;
    RollAsks(s);
  }

  lemma ComesToSwap(s: State)
    requires AtVisit(s) && Drifting(s) && OtherInstalled(s) && Refreshed(s).rcon == ""
    requires Refreshed(s).deadline.Some? && Refreshed(s).deadline.value <= s.w.clock
    ensures Wf(s)
    ensures Run(s, Oks(5))
         == State(Told(s, NextJob(s), true), Some(Holding(s, Refreshed(s), SwapPersist(Found(s).value)).(busy := true)))
  {
    hide Run, Slugs.MapSlug, Found, Wanted;
    RollAsks(s);
  }

  /** The map starts to drain and is left to it, as no one is to be told. */
  lemma Drains(s: State)
    requires AtVisit(s) && Drifting(s) && OtherInstalled(s) && UpToDate(s)
    requires Refreshed(s).deadline.None? && Refreshed(s).rcon == ""
    ensures Wf(s) && Run(s, Oks(6)) == Drained(s)
  {
    ComesToDrain(s);
    DrainStep(s, Run(s, Oks(5)));
    hide *;
    OneMore(s, 5);
  }

  function Drained(s: State): State
    requires AtMap(s)
  {
    var e := AtDrainStart(Refreshed(s), s.w.clock, s.pass.value.cluster.spec);
    var p := Left(s, e, true);
    State(Stores(s, DrainStart(s.w.clock, Grace(s.pass.value.cluster.spec)), e),
          Some(p.(cluster := p.cluster.(rev := s.w.cluster.rev + 1))))
  }

  lemma DrainStep(s: State, u: State)
    requires AtVisit(s) && UpToDate(s) && Refreshed(s).rcon == ""
    requires u == State(Told(s, NextJob(s), true),
      Some(Holding(s, Refreshed(s), DrainPersist(s.w.clock)).(busy := true)))
    ensures Wf(u) && Action(u, Ok) == Drained(s)
  {
    hide Action, Slugs.MapSlug, Put, NextJob, Told, Refreshed;
    PutOver(s, Refreshed(s), AtDrainStart(Refreshed(s), s.w.clock, s.pass.value.cluster.spec));
    ToldKeeps(s, NextJob(s), true);
    DrainResult(u, Ok);
  }

  /** The map swaps at once: the swap is stored, the pod to be deleted next. */
  lemma Swaps(s: State)
    requires AtVisit(s) && Drifting(s) && OtherInstalled(s) && UpToDate(s) && Refreshed(s).rcon == ""
    requires Refreshed(s).deadline.Some? && Refreshed(s).deadline.value <= s.w.clock
    ensures Wf(s) && Run(s, Oks(6)) == Swapped(s, Found(s).value)
  {
    ComesToSwap(s);
    SwapStep(s, Run(s, Oks(5)), Found(s).value);
    hide *;
    OneMore(s, 5);
  }

  function Swapped(s: State, pod: Pod): State
    requires AtMap(s)
  {
    var h := Holding(s, AtSwap(Refreshed(s)), SwapDelete(pod));
    State(Stores(s, Swap, AtSwap(Refreshed(s))),
      Some(h.(busy := true, cluster := h.cluster.(rev := s.w.cluster.rev + 1))))
  }

  lemma SwapStep(s: State, u: State, pod: Pod)
    requires AtVisit(s) && UpToDate(s)
    requires u == State(Told(s, NextJob(s), true), Some(Holding(s, Refreshed(s), SwapPersist(pod)).(busy := true)))
    ensures Wf(u) && Action(u, Ok) == Swapped(s, pod)
  {
    hide Action, Slugs.MapSlug, Put, NextJob, Told, Refreshed;
    PutOver(s, Refreshed(s), AtSwap(Refreshed(s)));
    ToldKeeps(s, NextJob(s), true);
    SwapResult(u, Ok);
  }

  /** With someone to tell, the game is saved first. */
  lemma ComesToSave(s: State)
    requires AtVisit(s) && Drifting(s) && OtherInstalled(s) && Refreshed(s).rcon != ""
    requires Refreshed(s).deadline.Some? && Refreshed(s).deadline.value <= s.w.clock
    ensures Wf(s)
    ensures Run(s, Oks(5))
         == State(Told(s, NextJob(s), true), Some(Holding(s, Refreshed(s), SaveAndExit(Found(s).value)).(busy := true)))
  {
    hide Run, Slugs.MapSlug, Found, Wanted;
    RollAsks(s);
  }

  /** From an up-to-date copy about to swap: the swap is stored and the pod deleted. */
  lemma SwapsFrom(u: State)
    requires InPass(u) && u.pass.value.call.SwapPersist? && UpToDate(u)
    ensures var t := Run(u, Oks(2));
      && |t.w.log| == |u.w.log| + 2 && t.w.log[..|u.w.log|] == u.w.log
      && var e, f := t.w.log[|u.w.log|], t.w.log[|u.w.log| + 1];
      && e.Wrote? && e.kind == Swap && e.id == Id(u) && e.stored
      && f == Deleted(ByRoll, Id(u), u.w.clock, true)
  {
    hide Run, Action, Slugs.MapSlug, Put, DeletePod;
    NoneYet(u);
    OneMore(u, 0);
    SwapResult(u, Ok);
    OneMore(u, 1);
    SwappedResult(Run(u, Oks(1)), Ok);
  }

  /** The log grew by no drain start, and at last by the deletion of the map's pod for a roll. */
  ghost predicate RolledAtOnce(before: seq<Event>, after: seq<Event>, id: string) {
    && |before| < |after| && after[..|before|] == before
    && (forall k :: |before| <= k < |after| ==> !after[k].Began? && !(after[k].Wrote? && after[k].kind.DrainStart?))
    && var last := after[|after| - 1]; last.Deleted? && last.why == ByRoll && last.id == id && last.applied
  }

  ghost predicate AtSwapOf(s: State, u: State) {
    && AtMap(s) && InPass(u) && u.pass.value.call.SwapPersist? && UpToDate(u) && Id(u) == Id(s)
    && |s.w.log| <= |u.w.log| && u.w.log[..|s.w.log|] == s.w.log
    && (forall k :: |s.w.log| <= k < |u.w.log| ==> u.w.log[k].JobSeen? || u.w.log[k].SavedAndExited?)
  }

  lemma ComesToEnd(s: State) returns (n: nat)
    requires AtVisit(s) && Drifting(s) && OtherInstalled(s) && UpToDate(s)
    requires Refreshed(s).deadline.Some? && Refreshed(s).deadline.value <= s.w.clock
    ensures Wf(s) && AtSwapOf(s, Run(s, Oks(n)))
  {
    hide Run, Slugs.MapSlug, Found, Wanted, Told, Drifting, OtherInstalled, Refreshed, Put;
    ToldKeeps(s, NextJob(s), true);
    if Refreshed(s).rcon == "" {
      n := 5;
      ComesToSwap(s);
    } else {
      n := 6;
      ComesToSave(s);
      SavesNext(s, Run(s, Oks(5)));
      OneMore(s, 5);
    }
  }

  lemma SavesNext(s: State, u: State)
    requires AtVisit(s) && UpToDate(s) && Drifting(s)
    requires u == State(Told(s, NextJob(s), true),
      Some(Holding(s, Refreshed(s), SaveAndExit(Found(s).value)).(busy := true)))
    ensures Wf(u) && AtSwapOf(s, Action(u, Ok))
  {
    hide Action, Slugs.MapSlug, Found, Wanted, Told, Drifting, Refreshed, Put;
    FoundWhenDrifting(s);
    ToldKeeps(s, NextJob(s), true);
    MessageResult(u, Ok);
  }

  /** A drain whose deadline has passed ends at once, whoever set the deadline and whenever. */
  lemma EndsDrain(s: State) returns (n: nat)
    requires AtVisit(s) && Drifting(s) && OtherInstalled(s) && UpToDate(s)
    requires Refreshed(s).deadline.Some? && Refreshed(s).deadline.value <= s.w.clock
    ensures Wf(s) && RolledAtOnce(s.w.log, Run(s, Oks(n)).w.log, Id(s))
  {
    hide Run, Slugs.MapSlug, Found, Wanted, Drifting, OtherInstalled, Refreshed;
    var m := ComesToEnd(s);
    var u := Run(s, Oks(m));
    n := m + 2;
    OksAdd(s, m, 2);
    SwapsFrom(u);
    LogsCompose(s.w.log, u.w.log, u.w.log, Run(s, Oks(n)).w.log);
  }

  lemma LogsCompose(a: seq<Event>, b: seq<Event>, c: seq<Event>, d: seq<Event>)
    requires |a| <= |b| <= |c| <= |d| && b[..|a|] == a && c[..|b|] == b && d[..|c|] == c
    ensures d[..|a|] == a && d[..|b|] == b
    ensures forall k :: |a| <= k < |b| ==> d[k] == b[k]
    ensures forall k :: |b| <= k < |c| ==> d[k] == c[k]
  {
  }

  /* ---------- the new pod ---------- */

  /** After the swap, with the new pod's name free: the old pod goes and the new one comes. */
  lemma Replaces(u: State)
    requires InPass(u) && u.pass.value.call.SwapDelete?
    requires var p := u.pass.value;
      !Named(u.w.pods, Slug(u), ReadHash(u.w, Ok, p.cluster.spec, p.at, Mine(u).active))
    ensures var t, p := Run(u, Oks(3)), u.pass.value;
      && t.w.jobs == u.w.jobs && t.w.cluster == u.w.cluster
      && t.w.pods == DeletePod(u.w.pods, p.call.pod.slug, p.call.pod.hash)
                     + [Pod(Slug(u), ReadHash(u.w, Ok, p.cluster.spec, p.at, Mine(u).active), Mine(u).active, false,
                       false, false)]
  {
    hide Run, Action, Slugs.MapSlug, Named, Template, DeletePod;
    NoneYet(u);
    OneMore(u, 0);
    SwappedResult(u, Ok);
    OneMore(u, 1);
    var a := Run(u, Oks(1));
    SwappedResult(a, Ok);
    OneMore(u, 2);
    var b := Run(u, Oks(2));
    SameReads(u.w, a.w, u.pass.value.cluster.spec, u.pass.value.at, Mine(u).active);
    SwapCreateResult(b, Ok);
    DeletionKeepsNamed(u.w.pods, u.pass.value.call.pod, Slug(u), b.pass.value.call.hash);
  }

  lemma SameReads(w: World, v: World, spec: Spec, i: nat, volume: Volume)
    requires i < |spec.maps| && v.hash == w.hash && v.iniRevs == w.iniRevs && v.secretsRev == w.secretsRev
    ensures ReadHash(v, Ok, spec, i, volume) == ReadHash(w, Ok, spec, i, volume)
  {
  }

  lemma DeletionKeepsNamed(pods: seq<Pod>, pod: Pod, slug: string, hash: string)
    ensures Named(DeletePod(pods, pod.slug, pod.hash), slug, hash) == Named(pods, slug, hash)
  {
    var r := DeletePod(pods, pod.slug, pod.hash);
    if Named(r, slug, hash) {
      var i :| 0 <= i < |r| && r[i].slug == slug && r[i].hash == hash;
      assert pods[i].slug == slug && pods[i].hash == hash;
    }
    if Named(pods, slug, hash) {
      var i :| 0 <= i < |pods| && pods[i].slug == slug && pods[i].hash == hash;
      assert r[i].slug == slug && r[i].hash == hash;
    }
  }

  /* ---------- the end of a pass ---------- */

  /** All maps seen to and no pod to collect: the statuses are stored and the pass is over. */
  lemma PassEnds(t: State)
    requires t.pass.Some? && t.pass.value.call.ListOrphans? && UpToDate(t)
    requires |t.pass.value.cluster.spec.maps| <= t.pass.value.at && Orphans(t.w.pods, t.pass.value.cluster.spec) == []
    ensures Wf(t)
    ensures var v, p := Run(t, Oks(2)), t.pass.value;
      && v.pass.None? && v.w == t.w.(cluster := v.w.cluster, log := v.w.log)
      && v.w.cluster.spec == t.w.cluster.spec && v.w.cluster.status == Prune(p.cluster.status, p.cluster.spec)
  {
    hide Run, Action, Slugs.MapSlug, CountReady, AggregatePhase, Prune, Orphans;
    NoneYet(t);
    OneMore(t, 0);
    ListOrphansResult(t, Ok);
    OneMore(t, 1);
    FinalResult(Run(t, Oks(1)), Ok);
  }

  /** With one map, its pod and its entry there is nothing to collect or prune. */
  lemma NothingGoes(spec: Spec, pod: Pod, e: MapStatus)
    requires |spec.maps| == 1 && pod.slug == Slugs.MapSlug(spec.maps[0].id) && e.id == spec.maps[0].id
    ensures Orphans([pod], spec) == [] && Prune([e], spec) == [e]
  {
    hide Slugs.MapSlug;
    assert Kept(spec, pod.slug);
    assert Orphans([pod][1..], spec) == [];
    assert Prune([e][1..], spec) == [];
  }

  lemma PutOne(d: MapStatus, e: MapStatus)
    requires d.id == e.id
    ensures Put([d], e) == [e] && Entry([e], e.id) == e
  {
    assert [d][1..] == [];
  }
}
