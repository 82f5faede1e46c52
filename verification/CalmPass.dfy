/** A pass in which every call succeeds and nothing else moves, map by map: the turn of each map in the step system
    is the single step of module Turns. */
module CalmPass {
  import opened ArkTypes
  import opened Statuses
  import opened World
  import opened Operator
  import opened Transitions
  import opened Coherence
  import opened Turns
  import opened LivePods
  import Slugs
  import Drift

  /** n successful calls of the pass, or as many as there are to its end. */
  function Calmly(s: State, n: nat): State
    requires Wf(s)
    decreases n
  {
    if n == 0 || s.pass.None? then s else Calmly(Action(s, Ok), n - 1)
  }

  ghost predicate Reaches(s: State, t: State)
    requires Wf(s)
  {
    exists n: nat :: Calmly(s, n) == t
  }

  lemma ReachesSelf(s: State)
    requires Wf(s)
    ensures Reaches(s, s)
  {
    assert Calmly(s, 0) == s;
  }

  lemma {:induction false} CalmlyAdds(s: State, m: nat, n: nat)
    requires Wf(s)
    ensures Wf(Calmly(s, m)) && Calmly(s, m + n) == Calmly(Calmly(s, m), n)
    decreases m
  {
    hide Action;
    if m > 0 && s.pass.Some? {
      CalmlyAdds(Action(s, Ok), m - 1, n);
    }
  }

  lemma ReachesTrans(s: State, t: State, u: State)
    requires Wf(s) && Reaches(s, t) && Wf(t) && Reaches(t, u)
    ensures Reaches(s, u)
  {
    hide Calmly;
    var m: nat :| Calmly(s, m) == t;
    var n: nat :| Calmly(t, n) == u;
    CalmlyAdds(s, m, n);
  }

  lemma ReachesNext(s: State, t: State)
    requires Wf(s) && s.pass.Some? && Wf(t) && Action(s, Ok) == t
    ensures Reaches(s, t)
  {
    hide Action;
    assert Calmly(t, 0) == t;
    assert Calmly(s, 1) == t;
  }

  /** Where a finished pass ends is no matter of how many steps one allows. */
  lemma EndIsUnique(s: State, m: nat, n: nat)
    requires Wf(s) && Calmly(s, m).pass.None? && Calmly(s, n).pass.None?
    ensures Calmly(s, m) == Calmly(s, n)
  {
    hide Action;
    CalmlyAdds(s, m, n);
    CalmlyAdds(s, n, m);
    assert Calmly(Calmly(s, m), n) == Calmly(s, m);
    assert Calmly(Calmly(s, n), m) == Calmly(s, n);
  }

  /* ---------- the view of one map ---------- */

  /** The wanted hash of the i-th map as a function of its volume. */
  function Desired(hash: Drift.HashInput -> string, spec: Spec, i: nat, iniRev: string,
      secretsRev: string): Volume -> string
    requires i < |spec.maps|
  {
    v => hash(Template(spec, i, v, iniRev, secretsRev))
  }

  function DesiredOf(w: World, spec: Spec, i: nat): Volume -> string
    requires i < |spec.maps|
  {
    var id := spec.maps[i].id;
    Desired(w.hash, spec, i, if id in w.iniRevs then w.iniRevs[id] else "|", w.secretsRev)
  }

  function SettingOf(w: World, spec: Spec, i: nat, gate: string): Setting
    requires i < |spec.maps|
  {
    var id := spec.maps[i].id;
    Setting(Slugs.MapSlug(id), spec, w.clock, if id in w.addresses then Some(w.addresses[id]) else None,
            DesiredOf(w, spec, i), gate != "" && gate != id)
  }

  function LocalOf(pods: seq<Pod>, jobs: map<JobKey, seq<JobCondition>>, c: Cluster, id: string): Local {
    Local(Entry(c.status, id), FirstWith(pods, Slugs.MapSlug(id), None),
          VerdictOf(jobs, Job(c.spec, id, SideA)), VerdictOf(jobs, Job(c.spec, id, SideB)))
  }

  function VerdictOf(jobs: map<JobKey, seq<JobCondition>>, key: JobKey): Verdict {
    if key !in jobs then JobMissing else JobVerdict(jobs[key])
  }

  lemma DesiredIsRead(w: World, spec: Spec, i: nat, v: Volume)
    requires i < |spec.maps|
    ensures ReadHash(w, Ok, spec, i, v) == DesiredOf(w, spec, i)(v)
  {
  }

  /** At most one live pod carries the slug, and none is still going away. */
  ghost predicate Single(pods: seq<Pod>, slug: string) {
    && (forall p, q :: p in pods && q in pods && p.slug == slug && q.slug == slug ==> p == q)
    && (forall p :: p in pods && p.slug == slug ==> !p.terminating)
  }

  lemma SingleFound(pods: seq<Pod>, slug: string, hash: string)
    requires Single(pods, slug)
    ensures FindActivePod(pods, slug, hash) == FirstWith(pods, slug, None)
  {
    var found, first := FindActivePod(pods, slug, hash), FirstWith(pods, slug, None);
    if found.Some? {
      assert Live(found.value, slug);
    }
  }

  /* ---------- the front of a turn ---------- */

  function Chosen(s: State): MapStatus
    requires AtMap(s)
  {
    Mine(s).(active := Defaulted(Mine(s).active))
  }

  function AtDispatch(s: State): (t: State)
    requires AtMap(s)
    ensures AtMap(t) && t.w == s.w && t.pass.value.at == s.pass.value.at && Mine(t) == Chosen(s) && Id(t) == Id(s)
    ensures t.pass.value.call.ReadAddress? && t.pass.value.gate == s.pass.value.gate
      && t.pass.value.start == s.pass.value.start
  {
    var p := s.pass.value;
    var hash := DesiredOf(s.w, p.cluster.spec, p.at)(Defaulted(Mine(s).active));
    Goto(Edit(s, Chosen(s)), ReadAddress(hash, FirstWith(s.w.pods, Slugs.MapSlug(Id(s)), None)))
  }

  lemma ReachesDispatch(s: State)
    requires InPass(s) && s.pass.value.call.EnsureMap? && Single(s.w.pods, Slugs.MapSlug(Id(s)))
    ensures Reaches(s, AtDispatch(s))
  {
    hide Slugs.MapSlug, Single, FirstWith, FindActivePod, Template, DesiredOf, ReadHash;
    var p, slug := s.pass.value, Slugs.MapSlug(Id(s));
    var hash := ReadHash(s.w, Ok, p.cluster.spec, p.at, Defaulted(Mine(s).active));
    DesiredIsRead(s.w, p.cluster.spec, p.at, Defaulted(Mine(s).active));
    SingleFound(s.w.pods, slug, hash);
    var a := Goto(Edit(s, Chosen(s)), ReadRevisions);
    var b := Goto(a, ListPods(hash));
    var c := Goto(b, ReadAddress(hash, FindActivePod(s.w.pods, slug, hash)));
    PrepareSteps(s, a, b, c, hash);
    hide Action;
    ReachesNext(s, a);
    ReachesNext(a, b);
    ReachesNext(b, c);
    hide Reaches;
    ReachesTrans(s, a, b);
    ReachesTrans(s, b, c);
  }

  lemma PrepareSteps(s: State, a: State, b: State, c: State, hash: string)
    requires InPass(s) && s.pass.value.call.EnsureMap?
    requires hash == ReadHash(s.w, Ok, s.pass.value.cluster.spec, s.pass.value.at, Defaulted(Mine(s).active))
    requires a == Goto(Edit(s, Chosen(s)), ReadRevisions) && b == Goto(a, ListPods(hash))
    requires c == Goto(b, ReadAddress(hash, FindActivePod(s.w.pods, Slugs.MapSlug(Id(s)), hash)))
    ensures Wf(a) && Wf(b) && Wf(c) && Action(s, Ok) == a && Action(a, Ok) == b && Action(b, Ok) == c
  {
    hide Slugs.MapSlug, FindActivePod, ReadHash;
  }

  /* ---------- the stages of a turn ---------- */

  /** What no call of a pass changes in the world. */
  ghost predicate SameSurroundings(w: World, v: World) {
    && v.hash == w.hash && v.iniRevs == w.iniRevs && v.secretsRev == w.secretsRev
    && v.addresses == w.addresses && v.clock == w.clock && v.cluster.spec == w.cluster.spec
  }

  /** The pass of b is the pass of u further on: at `call`, and with e as the map's entry. */
  ghost predicate Carried(u: State, b: State, e: MapStatus)
    requires AtMap(u)
  {
    && e.id == Id(u)
    && b.pass.Some?
    && b.pass.value.cluster.spec == u.pass.value.cluster.spec
    && b.pass.value.cluster.status == Put(u.pass.value.cluster.status, e)
    && b.pass.value.gate == u.pass.value.gate
    && SameSurroundings(u.w, b.w)
    && (Current(u) ==> Current(b))
  }

  ghost predicate Stage(u: State, b: State, call: Call, e: MapStatus)
    requires AtMap(u)
  {
    Carried(u, b, e) && b.pass.value.at == u.pass.value.at && b.pass.value.call == call
  }

  /** The map's turn is over. */
  ghost predicate Lands(u: State, b: State, e: MapStatus)
    requires AtMap(u)
  {
    Carried(u, b, e) && b.pass.value.at == u.pass.value.at + 1 && b.pass.value.call == NextMap(u)
  }

  function NextMap(u: State): Call
    requires AtMap(u)
  {
    if u.pass.value.at + 1 < |u.pass.value.cluster.spec.maps| then EnsureMap else ListOrphans
  }

  predicate SamePodsAndJobs(u: State, b: State) {
    b.w.pods == u.w.pods && b.w.jobs == u.w.jobs
  }

  lemma StageIsThere(u: State, b: State, call: Call, e: MapStatus)
    requires AtMap(u) && Stage(u, b, call, e)
    ensures AtMap(b) && Id(b) == Id(u) && Mine(b) == e && (!EndsPass(call) ==> InPass(b))
  {
  }

  /** Editing the entry once more replaces the first edit. */
  lemma EditStays(u: State, b: State, e: MapStatus, f: MapStatus)
    requires AtMap(u) && Carried(u, b, e) && f.id == e.id
    ensures Carried(u, Edit(b, f), f)
  {
    PutTwice(u.pass.value.cluster.status, e, f);
  }

  /* ---------- dispatch ---------- */

  function Refreshed(u: State): MapStatus
    requires AtMap(u)
  {
    Addressed(Mine(u), u.w, Ok)
  }

  lemma ReadyIsRefreshed(s: State, l: Local)
    requires AtMap(s) && l.entry == Mine(s)
    ensures var p := s.pass.value;
      Ready(SettingOf(s.w, p.cluster.spec, p.at, p.gate), l) == Refreshed(AtDispatch(s))
  {
    hide Slugs.MapSlug, DesiredOf, FirstWith;
  }

  function AfterSteady(u: State, pod: Pod, e: MapStatus): MapStatus
    requires AtMap(u)
  {
    if pod.ready then AtReady(e, u.w.clock) else WithCondition(e, PodReady, false, "PodNotReady", u.w.clock)
  }

  lemma SteadyLands(u: State, b: State, pod: Pod, e: MapStatus)
    requires AtMap(u) && Stage(u, b, u.pass.value.call, e) && !pod.crashing
    ensures Lands(u, Steady(b, pod), AfterSteady(u, pod, e)) && SamePodsAndJobs(b, Steady(b, pod))
  {
    hide SetCondition;
    PutTwice(u.pass.value.cluster.status, e, AfterSteady(u, pod, e));
  }

  lemma DispatchMatch(u: State, pod: Pod)
    requires InPass(u) && u.pass.value.call.ReadAddress? && u.pass.value.call.found == Some(pod)
    requires pod.hash == u.pass.value.call.hash && !pod.crashing
    ensures var t := Action(u, Ok); Lands(u, t, AfterSteady(u, pod, Refreshed(u))) && SamePodsAndJobs(u, t)
  {
    hide Steady, AfterSteady, Lands;
    SteadyLands(u, Edit(u, Refreshed(u)), pod, Refreshed(u));
  }

  lemma DispatchHeld(u: State, pod: Pod)
    requires InPass(u) && u.pass.value.call.ReadAddress? && u.pass.value.call.found == Some(pod)
    requires pod.hash != u.pass.value.call.hash && u.pass.value.gate != "" && u.pass.value.gate != Id(u)
    ensures var t := Action(u, Ok); Lands(u, t, Refreshed(u)) && SamePodsAndJobs(u, t)
  {
  }

  lemma DispatchFirst(u: State)
    requires InPass(u) && u.pass.value.call.ReadAddress? && u.pass.value.call.found.None?
    ensures var t := Action(u, Ok); Stage(u, t, FirstJob(u.pass.value.call.hash), Refreshed(u)) && SamePodsAndJobs(u, t)
  {
  }

  lemma DispatchRoll(u: State, pod: Pod)
    requires InPass(u) && u.pass.value.call.ReadAddress? && u.pass.value.call.found == Some(pod)
    requires pod.hash != u.pass.value.call.hash && !(u.pass.value.gate != "" && u.pass.value.gate != Id(u))
    ensures var t := Action(u, Ok); Stage(u, t, RollJob(pod), Refreshed(u)) && SamePodsAndJobs(u, t)
  {
  }

  /* ---------- firstStart ---------- */

  function JobFor(u: State, side: Side): JobKey
    requires AtMap(u)
  {
    Job(u.pass.value.cluster.spec, Id(u), side)
  }

  lemma FirstJobStep(u: State, b: State, hash: string, e: MapStatus)
    requires AtMap(u) && Stage(u, b, FirstJob(hash), e) && InPass(b)
    ensures var t, v := Action(b, Ok), VerdictOf(b.w.jobs, JobFor(u, VolumeSide(e.active)));
      && (v == JobMissing ==> Stage(u, t, FirstInstall, e))
      && (v == JobRunning ==> Lands(u, t, e.(phase := InstallingActive)))
      && (v == JobGaveUp ==> Lands(u, t, AtInstallFailure(e, u.w.clock)))
      && (v == JobSucceeded ==> Stage(u, t, FirstCreate(hash), e))
      && SamePodsAndJobs(b, t)
  {
    hide SetCondition, Slugs.MapSlug, JobVerdict;
    var v := VerdictOf(b.w.jobs, JobFor(u, VolumeSide(e.active)));
    if v == JobRunning {
      PutTwice(u.pass.value.cluster.status, e, e.(phase := InstallingActive));
    } else if v == JobGaveUp {
      PutTwice(u.pass.value.cluster.status, e, AtInstallFailure(e, u.w.clock));
    }
  }

  lemma FirstInstallStep(u: State, b: State, e: MapStatus)
    requires AtMap(u) && Stage(u, b, FirstInstall, e) && InPass(b)
    requires JobFor(u, VolumeSide(e.active)) !in b.w.jobs
    ensures var t := Action(b, Ok);
      && Lands(u, t, e.(phase := InstallingActive))
      && t.w.pods == b.w.pods && t.w.jobs == b.w.jobs[JobFor(u, VolumeSide(e.active)) := []]
  {
    hide Slugs.MapSlug, MountedLive;
    PutTwice(u.pass.value.cluster.status, e, e.(phase := InstallingActive));
  }

  lemma FirstCreateStep(u: State, b: State, hash: string, e: MapStatus)
    requires AtMap(u) && Stage(u, b, FirstCreate(hash), e) && InPass(b)
    requires !Named(b.w.pods, Slugs.MapSlug(Id(u)), hash)
    ensures var t := Action(b, Ok);
      && Lands(u, t, e.(phase := Provisioning))
      && t.w.pods == b.w.pods + [Pod(Slugs.MapSlug(Id(u)), hash, e.active, false, false, false)]
      && t.w.jobs == b.w.jobs
  {
    hide Slugs.MapSlug, Named;
    PutTwice(u.pass.value.cluster.status, e, e.(phase := Provisioning));
  }

  /* ---------- rollUpdate ---------- */

  lemma RollUpdateStage(u: State, b: State, verdict: Verdict, pod: Pod, e: MapStatus)
    requires AtMap(u) && Stage(u, b, RollJob(pod), e) && InPass(b)
    ensures var t := RollUpdate(b, verdict, pod);
      && (verdict == JobMissing ==> Stage(u, t, RollInstall, e))
      && (verdict == JobRunning ==> Lands(u, t, e.(phase := InstallingInactive)))
      && (verdict == JobGaveUp ==> Lands(u, t, AtInstallFailure(e, u.w.clock)))
      && (verdict == JobSucceeded ==> AfterInstall(u, t, pod, e))
  {
    hide SetCondition;
    if verdict == JobRunning {
      PutTwice(u.pass.value.cluster.status, e, e.(phase := InstallingInactive));
    } else if verdict == JobGaveUp {
      PutTwice(u.pass.value.cluster.status, e, AtInstallFailure(e, u.w.clock));
    } else if verdict == JobSucceeded {
      PutTwice(u.pass.value.cluster.status, e, e.(phase := DrainingActive));
    }
  }

  lemma RollJobStep(u: State, b: State, pod: Pod, e: MapStatus)
    requires AtMap(u) && Stage(u, b, RollJob(pod), e) && InPass(b)
    ensures var t, v := Action(b, Ok), VerdictOf(b.w.jobs, JobFor(u, VolumeSide(OtherVolume(e.active))));
      && (v == JobMissing ==> Stage(u, t, RollInstall, e))
      && (v == JobRunning ==> Lands(u, t, e.(phase := InstallingInactive)))
      && (v == JobGaveUp ==> Lands(u, t, AtInstallFailure(e, u.w.clock)))
      && (v == JobSucceeded ==> AfterInstall(u, t, pod, e))
      && SamePodsAndJobs(b, t)
  {
    hide Slugs.MapSlug, JobVerdict, RollUpdate, AfterInstall, Lands;
    var side := VolumeSide(OtherVolume(e.active));
    RollUpdateStage(u, SeeJob(b, Ok, side, true), SeenVerdict(b, Ok, side), pod, e);
  }

  /** The deadline decides what follows a finished install. */
  ghost predicate AfterInstall(u: State, t: State, pod: Pod, e: MapStatus)
    requires AtMap(u)
  {
    if e.deadline.None? then Stage(u, t, DrainPersist(u.w.clock), e)
    else if u.w.clock < e.deadline.value then Lands(u, t, e.(phase := DrainingActive))
    else Stage(u, t, if e.rcon != "" then SaveAndExit(pod) else SwapPersist(pod), e)
  }

  lemma RollInstallStep(u: State, b: State, e: MapStatus)
    requires AtMap(u) && Stage(u, b, RollInstall, e) && InPass(b)
    requires JobFor(u, VolumeSide(OtherVolume(e.active))) !in b.w.jobs
    ensures var t := Action(b, Ok);
      && Lands(u, t, e.(phase := InstallingInactive))
      && t.w.pods == b.w.pods && t.w.jobs == b.w.jobs[JobFor(u, VolumeSide(OtherVolume(e.active))) := []]
  {
    hide Slugs.MapSlug, MountedLive;
    PutTwice(u.pass.value.cluster.status, e, e.(phase := InstallingInactive));
  }

  /** A status write by a pass whose copy is current. */
  lemma CalmWrite(u: State, b: State, e: MapStatus, kind: WriteKind, id: string)
    requires AtMap(u) && Carried(u, b, e) && Current(u)
    ensures var t := Write(b, Ok, kind, id);
      && Carried(u, t, e) && SamePodsAndJobs(b, t)
      && t.pass.value.at == b.pass.value.at && t.pass.value.call == b.pass.value.call
      && t.w.cluster.status == Put(u.pass.value.cluster.status, e)
  {
  }

  lemma DrainPersistStep(u: State, b: State, e: MapStatus)
    requires AtMap(u) && Current(u) && Stage(u, b, DrainPersist(u.w.clock), e) && InPass(b)
    ensures var t, f := Action(b, Ok), AtDrainStart(e, u.w.clock, u.pass.value.cluster.spec);
      && (if Grace(u.pass.value.cluster.spec) > 0 && e.rcon != "" then Stage(u, t, Announce, f) else Lands(u, t, f))
      && SamePodsAndJobs(b, t)
  {
    var spec := u.pass.value.cluster.spec;
    var f := AtDrainStart(e, u.w.clock, spec);
    EditStays(u, b, e, f);
    CalmWrite(u, Edit(b, f), f, DrainStart(u.w.clock, Grace(spec)), Id(u));
    hide Write;
  }

  lemma AnnounceStep(u: State, b: State, e: MapStatus)
    requires AtMap(u) && Stage(u, b, Announce, e) && InPass(b)
    ensures Lands(u, Action(b, Ok), e) && SamePodsAndJobs(b, Action(b, Ok))
  {
  }

  lemma SaveStep(u: State, b: State, pod: Pod, e: MapStatus)
    requires AtMap(u) && Stage(u, b, SaveAndExit(pod), e) && InPass(b)
    ensures Stage(u, Action(b, Ok), SwapPersist(pod), e) && SamePodsAndJobs(b, Action(b, Ok))
  {
  }

  lemma SwapPersistStep(u: State, b: State, pod: Pod, e: MapStatus)
    requires AtMap(u) && Current(u) && Stage(u, b, SwapPersist(pod), e) && InPass(b)
    ensures Stage(u, Action(b, Ok), SwapDelete(pod), AtSwap(e)) && SamePodsAndJobs(b, Action(b, Ok))
    ensures Action(b, Ok).w.cluster.status == Put(u.pass.value.cluster.status, AtSwap(e))
  {
    EditStays(u, b, e, AtSwap(e));
    CalmWrite(u, Edit(b, AtSwap(e)), AtSwap(e), Swap, Id(u));
    hide Write;
  }

  lemma SwapDeleteStep(u: State, b: State, pod: Pod, e: MapStatus)
    requires AtMap(u) && Stage(u, b, SwapDelete(pod), e) && InPass(b)
    ensures var t := Action(b, Ok);
      && Stage(u, t, Rehash, e)
      && t.w.pods == DeletePod(b.w.pods, pod.slug, pod.hash) && t.w.jobs == b.w.jobs
  {
    hide DeletePod;
  }

  lemma RehashStep(u: State, b: State, e: MapStatus)
    requires AtMap(u) && Stage(u, b, Rehash, e) && InPass(b)
    ensures var t := Action(b, Ok);
      && Stage(u, t, SwapCreate(DesiredOf(u.w, u.pass.value.cluster.spec, u.pass.value.at)(e.active)), e)
      && SamePodsAndJobs(b, t)
  {
    DesiredIsRead(b.w, u.pass.value.cluster.spec, u.pass.value.at, e.active);
    hide ReadHash, Template;
  }

  lemma SwapCreateStep(u: State, b: State, hash: string, e: MapStatus)
    requires AtMap(u) && Stage(u, b, SwapCreate(hash), e) && InPass(b)
    ensures var t := Action(b, Ok);
      && Lands(u, t, e)
      && t.w.pods == (if Named(b.w.pods, Slugs.MapSlug(Id(u)), hash) then b.w.pods
                      else b.w.pods + [Pod(Slugs.MapSlug(Id(u)), hash, e.active, false, false, false)])
      && t.w.jobs == b.w.jobs
  {
    hide Slugs.MapSlug, Named;
  }

  /* ---------- the whole turn ---------- */

  ghost predicate LiveOne(pods: seq<Pod>, slug: string) {
    forall p, q :: p in pods && q in pods && Live(p, slug) && Live(q, slug) ==> p == q
  }

  /** The two lists agree on all pods of other maps. */
  ghost predicate PodFrame(a: seq<Pod>, b: seq<Pod>, slug: string) {
    forall p: Pod :: p.slug != slug ==> (p in a <==> p in b)
  }

  ghost predicate JobFrame(a: map<JobKey, seq<JobCondition>>, b: map<JobKey, seq<JobCondition>>, slug: string) {
    forall key: JobKey :: key.slug != slug ==> (key in a <==> key in b) && (key in a ==> a[key] == b[key])
  }

  function View(s: State): Local
    requires AtMap(s)
  {
    LocalOf(s.w.pods, s.w.jobs, s.pass.value.cluster, Id(s))
  }

  function Around(s: State): Setting
    requires AtMap(s)
  {
    SettingOf(s.w, s.pass.value.cluster.spec, s.pass.value.at, s.pass.value.gate)
  }

  /** The map at hand, and no other, has moved as its view says. */
  ghost predicate WorldTurns(s: State, t: State, m: Local)
    requires AtMap(s)
  {
    && FirstWith(t.w.pods, Slug(s), None) == m.pod
    && VerdictOf(t.w.jobs, JobFor(s, SideA)) == m.jobA
    && VerdictOf(t.w.jobs, JobFor(s, SideB)) == m.jobB
    && PodFrame(s.w.pods, t.w.pods, Slug(s)) && JobFrame(s.w.jobs, t.w.jobs, Slug(s))
    && LiveOne(t.w.pods, Slug(s))
  }

  ghost predicate Turned(s: State, t: State)
    requires AtMap(s) && Hopeful(View(s))
  {
    var m := Turn(Around(s), View(s));
    && Lands(s, t, m.entry)
    && WorldTurns(s, t, m)
    && (View(s).pod.Some? && !Drifted(Around(s), View(s)) ==> SamePodsAndJobs(s, t))
  }

  lemma ReachesOn(s: State, a: State, b: State)
    requires Wf(s) && Wf(a) && Reaches(s, a) && a.pass.Some? && b == Action(a, Ok)
    ensures Reaches(s, b)
  {
    hide Action, Reaches;
    ReachesNext(a, b);
    ReachesTrans(s, a, b);
  }

  lemma LandsFromStart(s: State, t: State, e: MapStatus)
    requires AtMap(s) && Lands(AtDispatch(s), t, e)
    ensures Lands(s, t, e)
  {
    hide Slugs.MapSlug, FirstWith, DesiredOf;
    PutTwice(s.pass.value.cluster.status, Chosen(s), e);
  }

  lemma SameWorldTurns(s: State, t: State, m: Local)
    requires AtMap(s) && Single(s.w.pods, Slug(s)) && SamePodsAndJobs(s, t)
    requires m.pod == View(s).pod && m.jobA == View(s).jobA && m.jobB == View(s).jobB
    ensures WorldTurns(s, t, m)
  {
    hide Slugs.MapSlug;
  }

  lemma StartedTurns(s: State, t: State, m: Local, side: Side)
    requires AtMap(s) && Single(s.w.pods, Slug(s)) && t.w.pods == s.w.pods
    requires t.w.jobs == s.w.jobs[JobFor(s, side) := []]
    requires m == Started(View(s), side).(entry := m.entry)
    ensures WorldTurns(s, t, m)
  {
    hide Slugs.MapSlug;
  }

  lemma CreatedTurns(s: State, t: State, m: Local, pod: Pod)
    requires AtMap(s) && Live(pod, Slug(s)) && t.w.jobs == s.w.jobs && m == View(s).(entry := m.entry, pod := Some(pod))
    requires exists pods :: t.w.pods == pods + [pod] && PodFrame(s.w.pods, pods, Slug(s)) && Vacant(pods, Slug(s))
    ensures WorldTurns(s, t, m)
  {
    hide Slugs.MapSlug;
    var pods :| t.w.pods == pods + [pod] && PodFrame(s.w.pods, pods, Slug(s)) && Vacant(pods, Slug(s));
    var first := FirstWith(t.w.pods, Slug(s), None);
    assert pod in t.w.pods;
    assert first.Some?;
  }

  lemma VacatedTurns(s: State, t: State, m: Local)
    requires AtMap(s) && t.w.jobs == s.w.jobs && m == View(s).(entry := m.entry, pod := None)
    requires PodFrame(s.w.pods, t.w.pods, Slug(s)) && Vacant(t.w.pods, Slug(s))
    ensures WorldTurns(s, t, m)
  {
    hide Slugs.MapSlug;
  }

  lemma DeletedIsVacant(pods: seq<Pod>, pod: Pod)
    requires Single(pods, pod.slug) && pod in pods
    ensures var rest := DeletePod(pods, pod.slug, pod.hash);
      && PodFrame(pods, rest, pod.slug) && Vacant(rest, pod.slug)
      && (forall hash :: Named(rest, pod.slug, hash) <==> hash == pod.hash)
  {
    var rest := DeletePod(pods, pod.slug, pod.hash);
    forall p | p in rest && p.slug == pod.slug ensures p == pod.(terminating := true) {
      var i :| 0 <= i < |rest| && rest[i] == p;
      assert pods[i] in pods;
    }
    forall p: Pod | p.slug != pod.slug ensures p in pods <==> p in rest {
      if p in pods {
        var i :| 0 <= i < |pods| && pods[i] == p;
        assert rest[i] == p;
      }
      if p in rest {
        var i :| 0 <= i < |rest| && rest[i] == p;
        assert pods[i] == p;
      }
    }
    var i :| 0 <= i < |pods| && pods[i] == pod;
    assert rest[i].slug == pod.slug && rest[i].hash == pod.hash;
  }

  ghost predicate CalmStart(s: State)
    requires Wf(s)
  {
    && s.pass.Some? && s.pass.value.call.EnsureMap? && AtMap(s) && Current(s)
    && Single(s.w.pods, Slug(s)) && Hopeful(View(s))
  }

  lemma SingleVacant(pods: seq<Pod>, slug: string)
    requires Single(pods, slug) && FirstWith(pods, slug, None).None?
    ensures Vacant(pods, slug) && forall hash :: !Named(pods, slug, hash)
  {
    forall p | p in pods ensures p.slug != slug {
      assert !Live(p, slug);
    }
  }

  lemma DispatchStart(s: State)
    requires Wf(s) && CalmStart(s)
    ensures var u := AtDispatch(s);
      && InPass(u) && Reaches(s, u) && Current(u) && SamePodsAndJobs(s, u)
      && Refreshed(u) == Ready(Around(s), View(s))
      && u.pass.value.call == ReadAddress(Around(s).desired(Refreshed(u).active), View(s).pod)
  {
    ReachesDispatch(s);
    ReadyIsRefreshed(s, View(s));
    hide Slugs.MapSlug, DesiredOf, FirstWith, Single, Reaches, JobVerdict;
  }

  lemma StartTurn(s: State) returns (t: State)
    requires Wf(s) && CalmStart(s) && View(s).pod.None?
    ensures Wf(t) && Reaches(s, t) && Turned(s, t)
  {
    var u := AtDispatch(s);
    DispatchStart(s);
    var e, hash := Refreshed(u), u.pass.value.call.hash;
    var side := VolumeSide(e.active);
    SingleVacant(s.w.pods, Slug(s));
    var b := Action(u, Ok);
    var c := Action(b, Ok);
    t := Action(c, Ok);
    StartSteps(s, u, b, c, t);
    hide Action;
    ReachesOn(s, u, b);
    ReachesOn(s, b, c);
    if JobOf(View(s), side) == JobRunning {
      t := c;
      StartRunningTurned(s, t, e);
    } else if JobOf(View(s), side) == JobMissing {
      ReachesOn(s, c, t);
      StartMissingTurned(s, t, e);
    } else {
      ReachesOn(s, c, t);
      StartCreatedTurned(s, t, e);
    }
  }

  /** The two or three calls of firstStart. */
  lemma StartSteps(s: State, u: State, b: State, c: State, t: State)
    requires Wf(s) && CalmStart(s) && View(s).pod.None?
    requires u == AtDispatch(s) && InPass(u) && Current(u) && SamePodsAndJobs(s, u)
    requires u.pass.value.call.ReadAddress? && u.pass.value.call.found.None?
    requires forall hash :: !Named(s.w.pods, Slug(s), hash)
    requires b == Action(u, Ok) && Wf(b) && c == Action(b, Ok) && Wf(c) && t == Action(c, Ok)
    ensures var e, hash := Refreshed(u), u.pass.value.call.hash;
      var side := VolumeSide(e.active);
      && b.pass.Some? && c.pass.Some?
      && (JobOf(View(s), side) == JobRunning ==> Lands(u, c, e.(phase := InstallingActive)) && SamePodsAndJobs(s, c))
      && (JobOf(View(s), side) == JobMissing ==>
            Lands(u, t, e.(phase := InstallingActive))
            && t.w.pods == s.w.pods && t.w.jobs == s.w.jobs[JobFor(s, side) := []])
      && (JobOf(View(s), side) == JobSucceeded ==>
            Lands(u, t, e.(phase := Provisioning))
            && t.w.pods == s.w.pods + [Pod(Slug(s), hash, e.active, false, false, false)] && t.w.jobs == s.w.jobs)
  {
    hide Action, Stage, Lands, Slugs.MapSlug, FirstWith, DesiredOf, Named, JobVerdict, Single;
    var e, hash := Refreshed(u), u.pass.value.call.hash;
    DispatchFirst(u);
    StageIsThere(u, b, FirstJob(hash), e);
    FirstJobStep(u, b, hash, e);
    var v := JobOf(View(s), VolumeSide(e.active));
    if v == JobRunning {
      LandsSomewhere(u, c, e.(phase := InstallingActive));
    } else if v == JobMissing {
      StageIsThere(u, c, FirstInstall, e);
      FirstInstallStep(u, c, e);
    } else if v == JobSucceeded {
      StageIsThere(u, c, FirstCreate(hash), e);
      FirstCreateStep(u, c, hash, e);
    }
  }

  lemma LandsSomewhere(u: State, t: State, e: MapStatus)
    requires AtMap(u) && Lands(u, t, e)
    ensures t.pass.Some?
  {
  }

  lemma StartRunningTurned(s: State, t: State, e: MapStatus)
    requires Wf(s) && CalmStart(s) && View(s).pod.None? && e == Ready(Around(s), View(s))
    requires JobOf(View(s), VolumeSide(e.active)) == JobRunning
    requires Lands(AtDispatch(s), t, e.(phase := InstallingActive)) && SamePodsAndJobs(s, t)
    ensures Turned(s, t)
  {
    LandsFromStart(s, t, e.(phase := InstallingActive));
    hide Lands, WorldTurns, AtDispatch, Slugs.MapSlug, FirstWith, JobVerdict, Single, SettingOf, Ready;
    SameWorldTurns(s, t, Turn(Around(s), View(s)));
  }

  lemma StartMissingTurned(s: State, t: State, e: MapStatus)
    requires Wf(s) && CalmStart(s) && View(s).pod.None? && e == Ready(Around(s), View(s))
    requires JobOf(View(s), VolumeSide(e.active)) == JobMissing
    requires Lands(AtDispatch(s), t, e.(phase := InstallingActive)) && t.w.pods == s.w.pods
    requires t.w.jobs == s.w.jobs[JobFor(s, VolumeSide(e.active)) := []]
    ensures Turned(s, t)
  {
    LandsFromStart(s, t, e.(phase := InstallingActive));
    hide Lands, WorldTurns, AtDispatch, Slugs.MapSlug, FirstWith, JobVerdict, Single, SettingOf, Ready, JobFor;
    StartedTurns(s, t, Turn(Around(s), View(s)), VolumeSide(e.active));
  }

  lemma StartCreatedTurned(s: State, t: State, e: MapStatus)
    requires Wf(s) && CalmStart(s) && View(s).pod.None? && e == Ready(Around(s), View(s))
    requires JobOf(View(s), VolumeSide(e.active)) == JobSucceeded
    requires Lands(AtDispatch(s), t, e.(phase := Provisioning)) && t.w.jobs == s.w.jobs
    requires t.w.pods == s.w.pods + [FreshPod(Around(s), e.active)]
    ensures Turned(s, t)
  {
    LandsFromStart(s, t, e.(phase := Provisioning));
    SingleVacant(s.w.pods, Slug(s));
    hide Lands, WorldTurns, AtDispatch, FirstWith, JobVerdict, Single, Ready, JobFor, Vacant, Slugs.MapSlug;
    CreatedTurns(s, t, Turn(Around(s), View(s)), FreshPod(Around(s), e.active));
  }

  /** A pod with the wanted hash, or a drifted one held back: one call. */
  lemma StayTurn(s: State) returns (t: State)
    requires Wf(s) && CalmStart(s) && View(s).pod.Some?
    requires !Drifted(Around(s), View(s)) || Around(s).held
    ensures Wf(t) && Reaches(s, t) && Turned(s, t)
  {
    var u := AtDispatch(s);
    DispatchStart(s);
    t := Action(u, Ok);
    var pod, e := View(s).pod.value, Refreshed(u);
    AroundDispatch(s);
    if Drifted(Around(s), View(s)) {
      DispatchHeld(u, pod);
      LandsFromStart(s, t, e);
    } else {
      DispatchMatch(u, pod);
      LandsFromStart(s, t, AfterSteady(u, pod, e));
    }
    hide Action, Lands, AtDispatch, Slugs.MapSlug, FirstWith, JobVerdict, Single, SetCondition, JobFor, Vacant;
    SameWorldTurns(s, t, Turn(Around(s), View(s)));
    hide SettingOf, WorldTurns, Reaches;
    ReachesOn(s, u, t);
  }

  lemma AroundDispatch(s: State)
    requires AtMap(s)
    ensures Around(s).held == (s.pass.value.gate != "" && s.pass.value.gate != Id(s))
    ensures Around(s).clock == s.w.clock && Around(s).slug == Slug(s) && Around(s).spec == s.pass.value.cluster.spec
    ensures Around(s).desired == DesiredOf(s.w, s.pass.value.cluster.spec, s.pass.value.at)
    ensures View(s).entry == Mine(s)
  {
  }

  /* ---------- the turn of a drifted map ---------- */

  ghost predicate RollingStart(s: State)
    requires Wf(s)
  {
    CalmStart(s) && Drifted(Around(s), View(s)) && !Around(s).held
  }

  function RollVerdict(s: State): Verdict
    requires AtMap(s)
  {
    JobOf(View(s), VolumeSide(OtherVolume(Defaulted(View(s).entry.active))))
  }

  /** The pass has asked for the Job of the other side. */
  lemma RollStart(s: State) returns (c: State)
    requires Wf(s) && RollingStart(s)
    ensures Wf(c) && Reaches(s, c) && SamePodsAndJobs(s, c) && c.pass.Some?
    ensures var u, pod := AtDispatch(s), View(s).pod.value; var e := Refreshed(u);
      && (RollVerdict(s) == JobMissing ==> Stage(u, c, RollInstall, e))
      && (RollVerdict(s) == JobRunning ==> Lands(u, c, e.(phase := InstallingInactive)))
      && (RollVerdict(s) == JobSucceeded ==> AfterInstall(u, c, pod, e))
  {
    var u := AtDispatch(s);
    DispatchStart(s);
    AroundDispatch(s);
    var b := Action(u, Ok);
    c := Action(b, Ok);
    RollSighted(s, Refreshed(u));
    hide Action, AtDispatch, Slugs.MapSlug, FirstWith, JobVerdict, Single, Reaches, SettingOf, Stage, Lands;
    hide AfterInstall, DesiredOf;
    RollSteps(u, b, c, View(s).pod.value);
    ReachesOn(s, u, b);
    ReachesOn(s, b, c);
  }

  lemma RollSteps(u: State, b: State, c: State, pod: Pod)
    requires InPass(u) && u.pass.value.call.ReadAddress? && u.pass.value.call.found == Some(pod)
    requires pod.hash != u.pass.value.call.hash && !(u.pass.value.gate != "" && u.pass.value.gate != Id(u))
    requires b == Action(u, Ok) && Wf(b) && c == Action(b, Ok)
    ensures var e := Refreshed(u);
      var v := VerdictOf(u.w.jobs, JobFor(u, VolumeSide(OtherVolume(e.active))));
      && b.pass.Some? && (v != JobGaveUp ==> c.pass.Some?) && SamePodsAndJobs(u, c)
      && (v == JobMissing ==> Stage(u, c, RollInstall, e))
      && (v == JobRunning ==> Lands(u, c, e.(phase := InstallingInactive)))
      && (v == JobSucceeded ==> AfterInstall(u, c, pod, e))
  {
    hide Action, Slugs.MapSlug, JobVerdict;
    var e := Refreshed(u);
    DispatchRoll(u, pod);
    StageIsThere(u, b, RollJob(pod), e);
    RollJobStep(u, b, pod, e);
  }

  lemma RollSighted(s: State, e: MapStatus)
    requires AtMap(s) && e.active == Defaulted(View(s).entry.active)
    ensures RollVerdict(s) == VerdictOf(s.w.jobs, JobFor(AtDispatch(s), VolumeSide(OtherVolume(e.active))))
  {
    hide Slugs.MapSlug, FirstWith, JobVerdict;
  }

  lemma InstallRunningTurn(s: State) returns (t: State)
    requires Wf(s) && RollingStart(s) && RollVerdict(s) == JobRunning
    ensures Wf(t) && Reaches(s, t) && Turned(s, t)
  {
    t := RollStart(s);
    DispatchStart(s);
    LandsFromStart(s, t, Refreshed(AtDispatch(s)).(phase := InstallingInactive));
    hide Lands, WorldTurns, AtDispatch, Slugs.MapSlug, FirstWith, JobVerdict, Single, SettingOf, Ready, Reaches;
    SameWorldTurns(s, t, Turn(Around(s), View(s)));
  }

  lemma InstallMissingTurn(s: State) returns (t: State)
    requires Wf(s) && RollingStart(s) && RollVerdict(s) == JobMissing
    ensures Wf(t) && Reaches(s, t) && Turned(s, t)
  {
    var u := AtDispatch(s);
    var c := RollStart(s);
    var e := Refreshed(u);
    t := Action(c, Ok);
    DispatchStart(s);
    StageIsThere(u, c, RollInstall, e);
    RollUnsighted(s, e);
    RollInstallStep(u, c, e);
    LandsFromStart(s, t, e.(phase := InstallingInactive));
    hide Action, Lands, WorldTurns, AtDispatch, Slugs.MapSlug, FirstWith, JobVerdict, Single, SettingOf, Ready, Reaches;
    hide JobFor, Stage;
    ReachesOn(s, c, t);
    StartedTurns(s, t, Turn(Around(s), View(s)), VolumeSide(OtherVolume(e.active)));
  }

  lemma RollUnsighted(s: State, e: MapStatus)
    requires AtMap(s) && e.active == Defaulted(View(s).entry.active)
    ensures RollVerdict(s) == JobMissing ==> JobFor(AtDispatch(s), VolumeSide(OtherVolume(e.active))) !in s.w.jobs
    ensures forall side :: JobFor(AtDispatch(s), side) == JobFor(s, side)
  {
    hide Slugs.MapSlug, FirstWith, JobVerdict;
  }

  lemma WaitTurn(s: State) returns (t: State)
    requires Wf(s) && RollingStart(s) && RollVerdict(s) == JobSucceeded
    requires View(s).entry.deadline.Some? && s.w.clock < View(s).entry.deadline.value
    ensures Wf(t) && Reaches(s, t) && Turned(s, t)
  {
    t := RollStart(s);
    DispatchStart(s);
    AroundDispatch(s);
    LandsFromStart(s, t, Refreshed(AtDispatch(s)).(phase := DrainingActive));
    hide Lands, WorldTurns, AtDispatch, Slugs.MapSlug, FirstWith, JobVerdict, Single, SettingOf, Ready, Reaches;
    SameWorldTurns(s, t, Turn(Around(s), View(s)));
  }

  lemma DrainTurn(s: State) returns (t: State)
    requires Wf(s) && RollingStart(s) && RollVerdict(s) == JobSucceeded && View(s).entry.deadline.None?
    ensures Wf(t) && Reaches(s, t) && Turned(s, t)
  {
    var u := AtDispatch(s);
    var c := RollStart(s);
    var e := Refreshed(u);
    DispatchStart(s);
    AroundDispatch(s);
    StageIsThere(u, c, DrainPersist(u.w.clock), e);
    DrainPersistStep(u, c, e);
    var d := Action(c, Ok);
    var f := AtDrainStart(e, u.w.clock, u.pass.value.cluster.spec);
    DrainTail(s, u, c, d, e, f);
    t := if Grace(u.pass.value.cluster.spec) > 0 && e.rcon != "" then Action(d, Ok) else d;
    LandsFromStart(s, t, f);
    hide Action, Lands, WorldTurns, AtDispatch, Slugs.MapSlug, FirstWith, JobVerdict, Single, SettingOf, Ready, Reaches;
    SameWorldTurns(s, t, Turn(Around(s), View(s)));
  }

  lemma DrainTail(s: State, u: State, c: State, d: State, e: MapStatus, f: MapStatus)
    requires Wf(s) && AtMap(u) && Wf(c) && c.pass.Some? && Reaches(s, c) && d == Action(c, Ok)
    requires if Grace(u.pass.value.cluster.spec) > 0 && e.rcon != "" then Stage(u, d, Announce, f) else Lands(u, d, f)
    ensures var t := if Grace(u.pass.value.cluster.spec) > 0 && e.rcon != "" then Action(d, Ok) else d;
      && Wf(t) && Reaches(s, t) && Lands(u, t, f)
      && SamePodsAndJobs(d, t)
  {
    ReachesOn(s, c, d);
    if Grace(u.pass.value.cluster.spec) > 0 && e.rcon != "" {
      StageIsThere(u, d, Announce, f);
      AnnounceStep(u, d, f);
      hide Action;
      ReachesOn(s, d, Action(d, Ok));
    }
  }

  /* ---------- the swap ---------- */

  function RenewedPods(u: State, pods: seq<Pod>, pod: Pod, v: Volume): seq<Pod>
    requires AtMap(u)
  {
    var rest := DeletePod(pods, pod.slug, pod.hash);
    var made := Pod(Slug(u), DesiredOf(u.w, u.pass.value.cluster.spec, u.pass.value.at)(v), v, false, false, false);
    if Named(rest, Slug(u), made.hash) then rest else rest + [made]
  }

  lemma SwapSteps(u: State, c: State, d: State, f: State, g: State, t: State, pod: Pod, e: MapStatus)
    requires AtMap(u) && Current(u) && Stage(u, c, SwapPersist(pod), e) && Wf(c)
    requires d == Action(c, Ok) && Wf(d) && f == Action(d, Ok) && Wf(f) && g == Action(f, Ok) && Wf(g)
      && t == Action(g, Ok)
    ensures d.pass.Some? && f.pass.Some? && g.pass.Some?
    ensures Lands(u, t, AtSwap(e))
    ensures t.w.jobs == c.w.jobs && t.w.pods == RenewedPods(u, c.w.pods, pod, AtSwap(e).active)
  {
    hide Action, Slugs.MapSlug, Named, Stage, Lands, DesiredOf, DeletePod, Current;
    var hash := DesiredOf(u.w, u.pass.value.cluster.spec, u.pass.value.at)(AtSwap(e).active);
    StageIsThere(u, c, SwapPersist(pod), e);
    SwapPersistStep(u, c, pod, e);
    StageIsThere(u, d, SwapDelete(pod), AtSwap(e));
    SwapDeleteStep(u, d, pod, AtSwap(e));
    StageIsThere(u, f, Rehash, AtSwap(e));
    RehashStep(u, f, AtSwap(e));
    StageIsThere(u, g, SwapCreate(hash), AtSwap(e));
    SwapCreateStep(u, g, hash, AtSwap(e));
  }

  lemma SwapReaches(s: State, u: State, c: State, pod: Pod, e: MapStatus) returns (t: State)
    requires Wf(s) && AtMap(u) && Current(u) && Stage(u, c, SwapPersist(pod), e) && Wf(c) && Reaches(s, c)
    ensures Wf(t) && Reaches(s, t) && Lands(u, t, AtSwap(e))
    ensures t.w.jobs == c.w.jobs && t.w.pods == RenewedPods(u, c.w.pods, pod, AtSwap(e).active)
  {
    StageIsThere(u, c, SwapPersist(pod), e);
    hide Action, Reaches, Stage, Lands, RenewedPods, Current;
    var d := Action(c, Ok);
    var f := Action(d, Ok);
    var g := Action(f, Ok);
    t := Action(g, Ok);
    SwapSteps(u, c, d, f, g, t, pod, e);
    ReachesOn(s, c, d);
    ReachesOn(s, d, f);
    ReachesOn(s, f, g);
    ReachesOn(s, g, t);
  }

  lemma SwapTurn(s: State) returns (t: State)
    requires Wf(s) && RollingStart(s) && RollVerdict(s) == JobSucceeded
    requires View(s).entry.deadline.Some? && s.w.clock >= View(s).entry.deadline.value
    ensures Wf(t) && Reaches(s, t) && Turned(s, t)
  {
    var u, pod := AtDispatch(s), View(s).pod.value;
    var c := RollStart(s);
    var e := Refreshed(u);
    DispatchStart(s);
    AroundDispatch(s);
    hide Action, Reaches, Lands, Turned, AtDispatch, Slugs.MapSlug, FirstWith, JobVerdict, Single, SettingOf;
    hide WorldTurns, RenewedPods, DesiredOf;
    if e.rcon != "" {
      StageIsThere(u, c, SaveAndExit(pod), e);
      SaveStep(u, c, pod, e);
      ReachesOn(s, c, Action(c, Ok));
      t := SwapReaches(s, u, Action(c, Ok), pod, e);
    } else {
      StageIsThere(u, c, SwapPersist(pod), e);
      t := SwapReaches(s, u, c, pod, e);
    }
    SwappedTurned(s, t, e);
  }

  lemma SwappedTurned(s: State, t: State, e: MapStatus)
    requires Wf(s) && RollingStart(s) && RollVerdict(s) == JobSucceeded
    requires View(s).entry.deadline.Some? && s.w.clock >= View(s).entry.deadline.value
    requires e == Ready(Around(s), View(s)) && Lands(AtDispatch(s), t, AtSwap(e))
    requires t.w.jobs == s.w.jobs
      && t.w.pods == RenewedPods(AtDispatch(s), s.w.pods, View(s).pod.value, AtSwap(e).active)
    ensures Turned(s, t)
  {
    LandsFromStart(s, t, AtSwap(e));
    AroundDispatch(s);
    RenewedTurns(s, t, e);
    hide Lands, WorldTurns, AtDispatch, Slugs.MapSlug, FirstWith, JobVerdict, Single, SettingOf, Ready, RenewedPods;
    hide DesiredOf;
  }

  lemma RenewedTurns(s: State, t: State, e: MapStatus)
    requires Wf(s) && CalmStart(s) && View(s).pod.Some?
    requires t.w.jobs == s.w.jobs
      && t.w.pods == RenewedPods(AtDispatch(s), s.w.pods, View(s).pod.value, AtSwap(e).active)
    ensures WorldTurns(s, t, Swapped(Around(s), View(s), e))
  {
    var pod := View(s).pod.value;
    AroundDispatch(s);
    DeletedIsVacant(s.w.pods, pod);
    var rest := DeletePod(s.w.pods, pod.slug, pod.hash);
    var made := FreshPod(Around(s), OtherVolume(e.active));
    RenewedIs(s, rest, made, pod, e);
    hide Slugs.MapSlug, FirstWith, JobVerdict, Single, SettingOf, DesiredOf, DeletePod, WorldTurns, Vacant, JobFor;
    hide Named, RenewedPods, AtDispatch;
    if made.hash == pod.hash {
      VacatedTurns(s, t, Swapped(Around(s), View(s), e));
    } else {
      CreatedTurns(s, t, Swapped(Around(s), View(s), e), made);
    }
  }

  lemma RenewedIs(s: State, rest: seq<Pod>, made: Pod, pod: Pod, e: MapStatus)
    requires AtMap(s) && rest == DeletePod(s.w.pods, pod.slug, pod.hash) && pod.slug == Slug(s)
    requires made == FreshPod(Around(s), OtherVolume(e.active))
    requires forall hash :: Named(rest, pod.slug, hash) <==> hash == pod.hash
    ensures RenewedPods(AtDispatch(s), s.w.pods, pod, AtSwap(e).active)
      == (if made.hash == pod.hash then rest else rest + [made])
  {
    hide Slugs.MapSlug, FirstWith, DeletePod, Named;
  }

  /** In an undisturbed pass the turn of each map is the single step of its view, and leaves the other maps alone. */
  lemma MapTurn(s: State) returns (t: State)
    requires Wf(s) && CalmStart(s)
    ensures Wf(t) && Reaches(s, t) && Turned(s, t)
  {
    AroundDispatch(s);
    hide Reaches, Turned, SettingOf, LocalOf, Slugs.MapSlug, DesiredOf;
    if View(s).pod.None? {
      t := StartTurn(s);
    } else if !Drifted(Around(s), View(s)) || Around(s).held {
      t := StayTurn(s);
    } else {
      match RollVerdict(s)
      case JobMissing => t := InstallMissingTurn(s);
      case JobRunning => t := InstallRunningTurn(s);
      case JobSucceeded =>
        if View(s).entry.deadline.None? {
          t := DrainTurn(s);
        } else if s.w.clock < View(s).entry.deadline.value {
          t := WaitTurn(s);
        } else {
          t := SwapTurn(s);
        }
    }
  }
}
