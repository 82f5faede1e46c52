/** Why exclusivity asks what it asks of a run. Five runs with a single mishap each, of another kind each time, and
    every other call succeeding, after which a Job installs onto the volume a live server mounts, two servers are up,
    or a pod runs on a volume that is not the one on record. */
module Windows {
  import opened ArkTypes
  import opened Statuses
  import opened World
  import opened Operator
  import opened Coherence
  import opened Effects
  import opened Runs
  import Drift
  import Exclusivity
  import LivePods
  import Slugs
  import Visits

  /* ---------- a cluster of one map ---------- */

  const ID := "M"

  function Slot(): string {
    Slugs.MapSlug(ID)
  }

  function SomeSpec(): Spec {
    Spec("", [MapSpec(ID, [])], [], 7777, 27020, "", "", UnsetRollout, 0)
  }

  /** The only thing that tells two templates apart here is the volume. */
  function ByVolume(): Drift.HashInput -> string {
    (x: Drift.HashInput) => x.activeVolume
  }

  predicate Alone(status: seq<MapStatus>) {
    |status| <= 1 && (|status| == 1 ==> status[0].id == ID)
  }

  ghost predicate OneMap(w: World) {
    w.cluster.spec == SomeSpec() && Alone(w.cluster.status) && w.addresses == map[] && w.hash == ByVolume()
  }

  function Recorded(w: World): MapStatus {
    Entry(w.cluster.status, ID)
  }

  /** The entry of the map once the pass has chosen its volume. */
  function Ours(w: World): MapStatus {
    Recorded(w).(active := Defaulted(Recorded(w).active))
  }

  function Copy(w: World): Cluster {
    w.cluster.(status := Put(w.cluster.status, Ours(w)))
  }

  function Wanted(w: World): string {
    VolumeName(Ours(w).active)
  }

  function PassAt(w: World, call: Call, c: Cluster, busy: bool): Option<Pass> {
    Some(Pass(call, 0, c, busy, Gate(w.cluster), w.cluster.status))
  }

  lemma PutAgain(maps: seq<MapStatus>, d: MapStatus, e: MapStatus)
    requires Alone(maps) && d.id == e.id == ID
    ensures Put(Put(maps, d), e) == Put(maps, e) == [e] && Alone([e])
  {
    if maps != [] {
      assert maps[1..] == [];
    }
    assert [d][1..] == [];
  }

  lemma SpecIs()
    ensures |SomeSpec().maps| == 1 && SomeSpec().maps[0].id == ID
  {
  }

  /** The pass comes to the map. */
  function Visit(w: World): State {
    State(Visits.Begun(w), Some(Visits.PassBegun(w)))
  }

  lemma VisitIs(w: World)
    requires OneMap(w)
    ensures var s := Visit(w);
      && Visits.AtVisit(s) && Id(s) == ID && Visits.UpToDate(s) && Visits.Wanted(s) == Wanted(w)
      && Visits.Settled(s) == Visits.Refreshed(s) == Ours(w)
      && Run(State(w, None), Oks(2)) == s
  {
    hide Run, Slugs.MapSlug, Gate;
    SpecIs();
    Visits.Opening(w);
  }

  /* ---------- a pod that does not have the wanted hash ---------- */

  /** The map's one pod is live but has drifted. */
  ghost predicate DriftedPod(w: World, p: Pod) {
    OneMap(w) && w.pods == [p] && Live(p, Slot()) && p.hash != Wanted(w)
  }

  lemma GateIsOwn(c: Cluster)
    requires Alone(c.status)
    ensures Gate(c) == "" || Gate(c) == ID
  {
    if c.status != [] {
      assert FirstInFlight(c.status[1..]) == "";
    }
  }

  /** The Job of the side the map is to move to. */
  function TargetJob(w: World): JobKey {
    Job(SomeSpec(), ID, VolumeSide(OtherVolume(Ours(w).active)))
  }

  /** The last thing to happen was an install on a volume that a live server of the map mounts. */
  predicate EndsMounted(log: seq<Event>) {
    log != [] && log[|log| - 1].Installed? && log[|log| - 1].id == ID && log[|log| - 1].mounted
  }

  lemma DriftIs(w: World, p: Pod)
    requires DriftedPod(w, p)
    ensures var s := Visit(w);
      Visits.AtVisit(s) && Visits.Drifting(s) && Visits.Found(s) == Some(p) && Visits.NextJob(s) == TargetJob(w)
  {
    hide Run, Slugs.MapSlug, Gate, FindActivePod, VolumeName, Visits.Wanted, Visits.Settled;
    VisitIs(w);
    Visits.FoundAlone(p, Slot(), Wanted(w));
    GateIsOwn(w.cluster);
  }

  function Asked(w: World, verdict: Verdict): World {
    SeenWorld(Visits.Begun(w), TargetJob(w), ID, verdict, true, true, w.cluster.status)
  }

  /** Where the Job is missing, it comes to be installed, whatever the pod mounts. */
  lemma InstallsMounted(w: World, p: Pod)
    requires DriftedPod(w, p) && TargetJob(w) !in w.jobs
    requires VolumeSide(p.volume) == VolumeSide(OtherVolume(Ours(w).active))
    ensures EndsMounted(Run(State(w, None), Oks(8)).w.log)
  {
    hide Run, Gate, Slugs.MapSlug, Wanted, Visits.Wanted, Visits.Found, Visits.Drifting;
    VisitIs(w);
    DriftIs(w, p);
    OksAdd(State(w, None), 2, 6);
    Visits.RollInstalls(Visit(w));
    assert Live(w.pods[0], Slot());
    assert MountedLive(w.pods, Slot(), VolumeSide(p.volume));
  }

  /** A drain on the way to its end: the new volume is installed, the grace period over, the old pod still up. */
  ghost predicate DrainedPod(w: World, p: Pod) {
    && DriftedPod(w, p) && TargetJob(w) in w.jobs && w.jobs[TargetJob(w)] == [JobCondition(Complete, true)]
    && Ours(w).deadline.Some? && Ours(w).deadline.value <= w.clock && Ours(w).rcon == ""
  }

  lemma DrainedIsInstalled(w: World, p: Pod)
    requires DrainedPod(w, p)
    ensures Visits.AtVisit(Visit(w)) && Visits.OtherInstalled(Visit(w))
    ensures Visits.Told(Visit(w), TargetJob(w), true) == Asked(w, JobSucceeded)
  {
    hide Run, Gate, Slugs.MapSlug, Wanted, Visits.Wanted, Visits.Found, Visits.Drifting;
    VisitIs(w);
    DriftIs(w, p);
    assert JobVerdict([JobCondition(Complete, true)]) == JobSucceeded;
  }

  lemma Swaps(w: World, p: Pod)
    requires DrainedPod(w, p)
    ensures Run(State(w, None), Oks(7)) == State(Asked(w, JobSucceeded), PassAt(w, SwapPersist(p), Copy(w), true))
  {
    hide Run, Gate, Slugs.MapSlug, Wanted, Visits.Wanted, Visits.Found, Visits.Drifting, Visits.Told, Asked, Put;
    VisitIs(w);
    DriftIs(w, p);
    DrainedIsInstalled(w, p);
    OksAdd(State(w, None), 2, 5);
    Visits.ComesToSwap(Visit(w));
  }

  /** The world once the swap is stored. */
  function Swapped(w: World): World {
    var after := w.cluster.(status := [AtSwap(Ours(w))], rev := w.cluster.rev + 1);
    var write := Wrote(Swap, ID, w.clock, true, true, w.cluster.status, w.cluster, after);
    Asked(w, JobSucceeded).(cluster := after, log := Asked(w, JobSucceeded).log + [write])
  }

  lemma SwapStored(w: World, p: Pod)
    requires DrainedPod(w, p)
    ensures Run(State(w, None), Oks(8)) == State(Swapped(w), PassAt(w, SwapDelete(p), Swapped(w).cluster, true))
  {
    hide Run, Gate, Slugs.MapSlug, Wanted, Visits.Wanted, Visits.Found, Visits.Drifting, Visits.Told, Asked, Put;
    VisitIs(w);
    DriftIs(w, p);
    DrainedIsInstalled(w, p);
    AskedKeeps(w);
    PutAgain(w.cluster.status, Ours(w), AtSwap(Ours(w)));
    OksAdd(State(w, None), 2, 6);
    Visits.Swaps(Visit(w));
  }

  lemma AskedKeeps(w: World)
    ensures Asked(w, JobSucceeded).cluster == w.cluster && Asked(w, JobSucceeded).clock == w.clock
  {
    hide Slugs.MapSlug;
  }

  /* ---------- the start of each run ---------- */

  /** A new log, and the map as it should be. */
  ghost predicate Starts(w: World) {
    w.log == [] && Slot() != "" && Exclusivity.SpecFits(w.cluster.spec, ID, true) && Exclusivity.TidyMap(w, ID)
  }

  function Shop(status: MapStatus, pod: Pod, jobs: map<JobKey, seq<JobCondition>>): World {
    World(ByVolume(), Cluster(SomeSpec(), [status], Summary(1, 0, Updating), 1), [pod], jobs, map[], "", map[], 10, [])
  }

  lemma SlotIsSome()
    ensures Slot() != ""
  {
    assert ID !in Slugs.KNOWN_SLUGS by {
      assert forall k :: k in Slugs.KNOWN_SLUGS ==> |k| > 1;
      assert |ID| == 1;
    }
    assert Slugs.ToLower(ID) == "m";
    assert Slugs.TrimSuffix("m", "_wp") == "m";
    assert Slugs.UnderscoresToDashes("m") == "m";
    assert Slugs.CollapseRuns("m", false) == "m";
  }

  lemma ShopStarts(e: MapStatus, p: Pod, jobs: map<JobKey, seq<JobCondition>>)
    requires e.id == ID && Live(p, Slot()) && IsServer(e.active) && IsServer(e.lastGood) && p.volume == e.active
    ensures Starts(Shop(e, p, jobs)) && OneMap(Shop(e, p, jobs)) && Ours(Shop(e, p, jobs)) == e
  {
    SlotIsSome();
    SpecIs();
    hide Slugs.MapSlug;
    assert Slugs.MapSlug(SomeSpec().maps[0].id) == Slot();
  }

  function Draining(): MapStatus {
    MapStatus(ID, DrainingActive, ServerA, ServerA, Some(0), "", [])
  }

  function OldPod(): Pod {
    Pod(Slot(), "old", ServerA, false, true, false)
  }

  function Drained(): World {
    Shop(Draining(), OldPod(), map[Job(SomeSpec(), ID, SideB) := [JobCondition(Complete, true)]])
  }

  lemma DrainedIs()
    ensures Starts(Drained()) && DrainedPod(Drained(), OldPod()) && Ours(Drained()) == Draining()
  {
    hide Slugs.MapSlug;
    ShopStarts(Draining(), OldPod(), Drained().jobs);
    assert "old"[0] != "server-a"[0];
  }

  lemma JobsDiffer()
    ensures Job(SomeSpec(), ID, SideA) != Job(SomeSpec(), ID, SideB)
  {
    hide Slugs.MapSlug;
  }

  /** Up to its last event the log is an undisturbed one, and that is a stored change of the map's volume. */
  ghost predicate JustChanged(log: seq<Event>) {
    Exclusivity.Undisturbed(log, ID, false) && Exclusivity.Open(log, ID)
  }

  lemma ChangedAtLast(log: seq<Event>)
    requires log != [] && ChangesVolume(log[|log| - 1], ID) && log[|log| - 1].stored
    requires forall k :: 0 <= k < |log| - 1 ==> log[k].Began? || log[k].JobSeen?
    ensures JustChanged(log)
  {
    hide Slugs.MapSlug;
  }

  /* ---------- one crash ---------- */

  /** From a tidy start, in a run without environment moves in which every call succeeds and the operator dies once,
      right after a swap is stored and so in the window, the next pass points an init Job at the volume the map's
      live server mounts. */
  lemma OneCrashInTheWindow() returns (w: World, before: seq<Label>, after: seq<Label>)
    ensures Starts(w)
    ensures forall l :: l in before + after ==> l == Act(Ok)
    ensures JustChanged(Run(State(w, None), before).w.log)
    ensures EndsMounted(Run(State(w, None), before + [Cut] + after).w.log)
  {
    hide Run, Slugs.MapSlug, JustChanged, Starts, Gate;
    w, before, after := Drained(), Oks(8), Oks(8);
    DrainedIs();
    SwapStored(w, OldPod());
    var d := Swapped(w);
    ChangedAtLast(d.log);
    CutAndGo(State(w, None), before, after);
    JobsDiffer();
    assert Ours(d).active == ServerB;
    assert "old"[0] != "server-b"[0];
    InstallsMounted(d, OldPod());
  }

  function Crashing(): MapStatus {
    MapStatus(ID, Running, ServerB, ServerA, None, "", [])
  }

  function BadPod(): Pod {
    Pod(Slot(), "server-b", ServerB, false, false, true)
  }

  /** The world once the rollback is stored. */
  function RolledBack(w: World): World {
    var after := w.cluster.(status := [AtRollback(Ours(w), w.clock)], rev := w.cluster.rev + 1);
    var write := Wrote(Rollback, ID, w.clock, true, true, w.cluster.status, w.cluster, after);
    Visits.Begun(w).(cluster := after, log := Visits.Begun(w).log + [write])
  }

  lemma RollbackStored(w: World)
    requires w == Shop(Crashing(), BadPod(), map[]) && OneMap(w) && Ours(w) == Crashing()
    ensures Run(State(w, None), Oks(7)).w == RolledBack(w)
  {
    hide Run, Action, Gate, Slugs.MapSlug, SetCondition, FindActivePod;
    var s := State(w, None);
    SpecIs();
    VisitIs(w);
    OksAdd(s, 2, 4);
    Visits.MapFront(Visit(w));
    Visits.FoundAlone(BadPod(), Slot(), Wanted(w));
    OneMore(s, 6);
    var u := Run(s, Oks(6));
    assert u == State(Visits.Begun(w), PassAt(w, RollbackPersist(BadPod()), Copy(w), true));
    PutAgain(w.cluster.status, Ours(w), AtRollback(Ours(w), w.clock));
    PutAgain(w.cluster.status, Ours(w), Ours(w));
    RollbackResult(u, Ok);
  }

  /** The same with a crash right after a rollback is stored. */
  lemma OneCrashAfterRollback() returns (w: World, before: seq<Label>, after: seq<Label>)
    ensures Starts(w)
    ensures forall l :: l in before + after ==> l == Act(Ok)
    ensures JustChanged(Run(State(w, None), before).w.log)
    ensures EndsMounted(Run(State(w, None), before + [Cut] + after).w.log)
  {
    hide Run, Slugs.MapSlug, JustChanged, Starts, Gate, SetCondition;
    w, before, after := Shop(Crashing(), BadPod(), map[]), Oks(7), Oks(8);
    ShopStarts(Crashing(), BadPod(), map[]);
    RollbackStored(w);
    var d := RolledBack(w);
    ChangedAtLast(d.log);
    CutAndGo(State(w, None), before, after);
    assert Ours(d).active == ServerA;
    assert "server-a"[7] != "server-b"[7];
    InstallsMounted(d, BadPod());
  }

  /* ---------- one call ---------- */

  function NextPod(): Pod {
    Pod(Slot(), "server-b", ServerB, false, false, false)
  }

  /** The pass went on from the write of the swap, stored or refused. */
  ghost predicate PastTheWrite(w: World, u: State, c: Cluster) {
    && u.w.hash == ByVolume() && u.w.pods == [OldPod()]
    && u.pass == PassAt(w, SwapDelete(OldPod()), c, true) && c.spec == SomeSpec() && c.status == [AtSwap(Draining())]
  }

  /** The new pod has come, and the last event tells of it. */
  ghost predicate Replaced(u: World, o: Outcome, t: World) {
    && t.pods == DeletedWorld(u, o, ByRoll, ID, OldPod()).pods + [NextPod()]
    && t.log != [] && t.log[|t.log| - 1].Created? && t.log[|t.log| - 1].id == ID
    && t.log[|t.log| - 1].volume == ServerB && t.log[|t.log| - 1].recorded == Defaulted(Recorded(u).active)
  }

  lemma DeleteStep(w: World, u: State, c: Cluster, o: Outcome)
    requires PastTheWrite(w, u, c)
    ensures Wf(u) && Action(u, o) == State(DeletedWorld(u.w, o, ByRoll, ID, OldPod()), PassAt(w, Rehash, c, true))
  {
    hide Action, Gate, Slugs.MapSlug, DeletePod;
    SpecIs();
    SwappedResult(u, o);
  }

  lemma RehashStep(w: World, u: State, c: Cluster, o: Outcome)
    requires PastTheWrite(w, u, c)
    ensures var a := State(DeletedWorld(u.w, o, ByRoll, ID, OldPod()), PassAt(w, Rehash, c, true));
      Wf(a) && Action(a, Ok) == State(a.w, PassAt(w, SwapCreate("server-b"), c, true))
  {
    hide Action, Gate, Slugs.MapSlug, DeletePod;
    SpecIs();
    SwappedResult(State(DeletedWorld(u.w, o, ByRoll, ID, OldPod()), PassAt(w, Rehash, c, true)), Ok);
  }

  lemma Deletes(w: World, u: State, c: Cluster, o: Outcome)
    requires PastTheWrite(w, u, c)
    ensures Wf(u)
    ensures Run(u, [Act(o)] + Oks(1))
         == State(DeletedWorld(u.w, o, ByRoll, ID, OldPod()), PassAt(w, SwapCreate("server-b"), c, true))
  {
    DeleteStep(w, u, c, o);
    RehashStep(w, u, c, o);
    hide *;
    ActedOn(u, o);
    var a := Run(u, [Act(o)]);
    RunThrough(u, [Act(o)], Oks(1));
    NoneYet(a);
    OneMore(a, 0);
  }

  lemma Replaces(w: World, u: State, c: Cluster, o: Outcome)
    requires PastTheWrite(w, u, c)
    ensures Wf(u) && Replaced(u.w, o, Run(u, [Act(o)] + Oks(2)).w)
  {
    SpecIs();
    Deletes(w, u, c, o);
    hide Run, Action, PastTheWrite, DeletedWorld, Slugs.MapSlug, PassAt;
    assert [Act(o)] + Oks(2) == [Act(o)] + Oks(1) + [Act(Ok)];
    Then(u, [Act(o)] + Oks(1), Act(Ok));
    Creates(w, u, c, o);
  }

  lemma Creates(w: World, u: State, c: Cluster, o: Outcome)
    requires PastTheWrite(w, u, c)
    ensures var b := State(DeletedWorld(u.w, o, ByRoll, ID, OldPod()), PassAt(w, SwapCreate("server-b"), c, true));
      Wf(b) && Replaced(u.w, o, Action(b, Ok).w)
  {
    hide Action, Gate, Slugs.MapSlug, DeletePod;
    SpecIs();
    var b := State(DeletedWorld(u.w, o, ByRoll, ID, OldPod()), PassAt(w, SwapCreate("server-b"), c, true));
    SwapCreateResult(b, Ok);
    assert !Named(b.w.pods, Slot(), "server-b") by {
      assert "old"[0] != "server-b"[0];
    }
  }

  lemma TwoUp(u: World, t: World)
    requires u.pods == [OldPod()] && Replaced(u, Fail, t)
    ensures !LivePods.Sole(t.pods, Slot())
  {
    hide Slugs.MapSlug;
    assert Live(t.pods[0], Slot()) && Live(t.pods[1], Slot());
  }

  /** The deletion after a stored swap fails, which the code ignores: two servers of the map are up. */
  lemma OneDeletionUnnoticed() returns (w: World, before: seq<Label>, after: seq<Label>)
    ensures Starts(w)
    ensures forall l :: l in before + after ==> l == Act(Ok)
    ensures JustChanged(Run(State(w, None), before).w.log)
    ensures !LivePods.Sole(Run(State(w, None), before + [Act(Fail)] + after).w.pods, Slot())
  {
    hide Run, Slugs.MapSlug, JustChanged, Starts, Gate, Replaced, Oks, LivePods.Sole;
    w, before, after := Drained(), Oks(8), Oks(2);
    DrainedIs();
    SwapStored(w, OldPod());
    var u := Run(State(w, None), before);
    ChangedAtLast(u.w.log);
    assert Ours(w) == Draining();
    Replaces(w, u, Swapped(w).cluster, Fail);
    assert before + ([Act(Fail)] + after) == before + [Act(Fail)] + after;
    RunThrough(State(w, None), before, [Act(Fail)] + after);
    TwoUp(u.w, Run(State(w, None), before + [Act(Fail)] + after).w);
  }

  /** The last pod was created on a volume that is not the one on record. */
  predicate EndsOffRecord(log: seq<Event>) {
    log != [] && log[|log| - 1].Created? && log[|log| - 1].id == ID && log[|log| - 1].volume != log[|log| - 1].recorded
  }

  function Bumped(w: World): World {
    w.(cluster := w.cluster.(rev := w.cluster.rev + 1))
  }

  lemma SwapRefused(w: World)
    requires w == Drained() && DrainedPod(w, OldPod()) && Ours(w) == Draining()
    ensures var v := Bumped(Asked(w, JobSucceeded));
      var u := Run(State(w, None), Oks(7) + [Env(v)] + Oks(1));
      && EnvMay(Asked(w, JobSucceeded), v) && u.w.pods == w.pods && u.w.hash == w.hash && Recorded(u.w) == Draining()
      && u.pass == PassAt(w, SwapDelete(OldPod()), Copy(w).(status := [AtSwap(Draining())]), true)
  {
    hide Run, Action, Step, Gate, Slugs.MapSlug, EnvMay;
    var s, v := State(w, None), Bumped(Asked(w, JobSucceeded));
    Swaps(w, OldPod());
    SpecIs();
    MayMove(Asked(w, JobSucceeded), v);
    Then(s, Oks(7), Env(v));
    EnvIs(Run(s, Oks(7)), v);
    var a := Run(s, Oks(7) + [Env(v)]);
    RunThrough(s, Oks(7) + [Env(v)], Oks(1));
    NoneYet(a);
    OneMore(a, 0);
    PutAgain(w.cluster.status, Ours(w), AtSwap(Ours(w)));
    SwapResult(a, Ok);
  }

  /** Something raises the resource version just before the swap is written, as any writer may: the write is refused,
      the code goes on, and the new pod runs on a volume that is not the one on record. */
  lemma OneSwapRefused() returns (w: World, before: seq<Label>, v: World, after: seq<Label>)
    ensures Starts(w)
    ensures forall l :: l in before + after ==> l == Act(Ok)
    ensures EnvMay(Run(State(w, None), before).w, v) && v == Bumped(Run(State(w, None), before).w)
    ensures EndsOffRecord(Run(State(w, None), before + [Env(v)] + after).w.log)
  {
    hide Run, Slugs.MapSlug, Starts, Gate, EnvMay, Replaced, DrainedPod, OneMap, Asked;
    w, before, v, after := Drained(), Oks(7), Bumped(Asked(Drained(), JobSucceeded)), Oks(4);
    DrainedIs();
    Swaps(w, OldPod());
    SwapRefused(w);
    var first := before + [Env(v)] + Oks(1);
    var u := Run(State(w, None), first);
    Replaces(w, u, Copy(w).(status := [AtSwap(Draining())]), Ok);
    assert first + ([Act(Ok)] + Oks(2)) == before + [Env(v)] + after;
    RunThrough(State(w, None), first, [Act(Ok)] + Oks(2));
    OffRecord(u.w, Run(State(w, None), before + [Env(v)] + after).w);
  }

  lemma OffRecord(u: World, t: World)
    requires Recorded(u) == Draining() && Replaced(u, Ok, t)
    ensures EndsOffRecord(t.log)
  {
    hide Slugs.MapSlug, DeletePod;
  }

  /* ---------- one orphan ---------- */

  function Serving(): MapStatus {
    MapStatus(ID, Running, ServerB, ServerB, None, "", [])
  }

  function GoodPod(): Pod {
    Pod(Slot(), "server-b", ServerB, false, true, false)
  }

  /** The user takes the map out of spec. */
  function Without(w: World): World {
    w.(cluster := w.cluster.(spec := w.cluster.spec.(maps := []), rev := w.cluster.rev + 1))
  }

  /** The user puts the map into spec. */
  function With(w: World): World {
    w.(cluster := w.cluster.(spec := SomeSpec(), rev := w.cluster.rev + 1))
  }

  function Shopping(): World {
    Shop(Serving(), GoodPod(), map[])
  }

  lemma NothingLeft(status: seq<MapStatus>)
    requires |status| == 1
    ensures Prune(status, SomeSpec().(maps := [])) == []
  {
    hide Slugs.MapSlug;
    assert Prune(status[1..], SomeSpec().(maps := [])) == [];
  }

  /** A pass over the empty spec that fails to list the pods forgets the map and leaves its pod. */
  lemma Forgets(w: World)
    requires w == Without(Shopping())
    ensures var t := Run(State(w, None), Oks(2) + [Act(Fail)] + Oks(1));
      && t.pass.None? && t.w.cluster.spec == w.cluster.spec && t.w.cluster.status == [] && t.w.pods == w.pods
      && t.w.jobs == w.jobs && t.w.hash == w.hash && t.w.addresses == w.addresses
  {
    hide Run, Action, Gate, Slugs.MapSlug, Prune, CountReady, AggregatePhase;
    var s := State(w, None);
    NoneYet(s);
    OneMore(s, 0);
    BeginResult(w, Ok);
    OneMore(s, 1);
    EnsureClusterResult(Run(s, Oks(1)), Ok);
    var a := Run(s, Oks(2));
    ActedOn(a, Fail);
    ListOrphansResult(a, Fail);
    RunThrough(s, Oks(2), [Act(Fail)]);
    var b := Run(s, Oks(2) + [Act(Fail)]);
    RunThrough(s, Oks(2) + [Act(Fail)], Oks(1));
    NoneYet(b);
    OneMore(b, 0);
    NothingLeft(w.cluster.status);
    FinalResult(b, Ok);
  }

  /** The user takes the map out of spec and a pass fails to list its pod; when the map is back, it starts over on
      server-a, and a Job is pointed at the volume the left-over server mounts. */
  lemma OneOrphanLeft()
    returns (w: World, gone: World, before: seq<Label>, middle: seq<Label>, back: World, after: seq<Label>)
    ensures Starts(w)
    ensures forall l :: l in before + middle + after ==> l == Act(Ok)
    ensures gone == Without(w) && EnvMay(w, gone)
    ensures var left := Run(State(w, None), [Env(gone)] + before + [Act(Fail)] + middle).w;
      back == With(left) && EnvMay(left, back)
    ensures EndsMounted(Run(State(w, None), [Env(gone)] + before + [Act(Fail)] + middle + [Env(back)] + after).w.log)
  {
    hide Run, Slugs.MapSlug, Starts, EnvMay, Step, Gate;
    w, before, middle, after := Shopping(), Oks(2), Oks(1), Oks(8);
    gone := Without(w);
    ShopStarts(Serving(), GoodPod(), map[]);
    MayMove(w, gone);
    var s := State(w, None);
    Then(s, [], Env(gone));
    NoneYet(s);
    EnvIs(s, gone);
    assert [] + [Env(gone)] == [Env(gone)];
    var pass := Oks(2) + [Act(Fail)] + Oks(1);
    Forgets(gone);
    RunThrough(s, [Env(gone)], pass);
    var first := [Env(gone)] + before + [Act(Fail)] + middle;
    assert [Env(gone)] + pass == first;
    var left := Run(s, first).w;
    back := With(left);
    MayMove(left, back);
    Then(s, first, Env(back));
    EnvIs(Run(s, first), back);
    RunThrough(s, first + [Env(back)], after);
    assert Ours(back).active == ServerA;
    assert "server-a"[7] != "server-b"[7];
    InstallsMounted(back, GoodPod());
  }
}
