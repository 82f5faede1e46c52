/** What the controller decides, call by call: which answers end a pass, what it finds out about a map, and what it does
    next. Everything here is told in terms of the stored objects and the answer, not of how the pass computes it. */
module Choices {
  import opened ArkTypes
  import opened Statuses
  import opened World
  import opened Operator
  import opened Effects
  import opened Loops
  import Coherence
  import Slugs
  import Transitions

  /* ---------- which answers end a pass ---------- */

  /** The answer to the call ends the pass. Errors of the reads a map can do without, of deletions, of orphan
      collection and of messages to players never do; a conflicting status write does not, a failed one does. */
  predicate EndsThePass(s: State, o: Outcome)
    requires s.pass.Some?
  {
    var current := s.pass.value.cluster.rev == s.w.cluster.rev;
    match s.pass.value.call
    case EnsureCluster | EnsureMap | ListPods(_) => o != Ok
    case FirstInstall | RollInstall | FirstCreate(_) | SwapCreate(_) => o == Fail || o == Lost
    case DrainPersist(_) | SwapPersist(_) | RollbackPersist(_) => o == Fail || o == Clash || (o == Lost && current)
    case FinalWrite => true
    case _ => false
  }

  lemma FrontEndsIff(s: State, o: Outcome)
    requires InPass(s)
      && (s.pass.value.call.EnsureMap? || s.pass.value.call.ReadRevisions? || s.pass.value.call.ListPods?
          || s.pass.value.call.ReadAddress?)
    ensures Action(s, o).pass.None? <==> EndsThePass(s, o)
  {
    hide Action, Slugs.MapSlug, FindActivePod, ReadHash, DispatchPass;
    if s.pass.value.call.ReadAddress? {
      DispatchResult(s, o);
    } else {
      PrepareResult(s, o);
    }
  }

  lemma JobsEndIff(s: State, o: Outcome)
    requires InPass(s)
      && (s.pass.value.call.FirstJob? || s.pass.value.call.FirstInstall? || s.pass.value.call.FirstCreate?
          || s.pass.value.call.RollJob? || s.pass.value.call.RollInstall? || s.pass.value.call.SwapCreate?)
    ensures Action(s, o).pass.None? <==> EndsThePass(s, o)
  {
    hide Action, Slugs.MapSlug, ReadJob, FirstPass, RollPass, InstalledWorld, CreatedWorld, SeenWorld;
    match s.pass.value.call
    case FirstJob(_) => FirstJobResult(s, o);
    case FirstInstall => FirstInstallResult(s, o);
    case FirstCreate(_) => FirstCreateResult(s, o);
    case RollJob(_) => RollJobResult(s, o);
    case RollInstall => RollInstallResult(s, o);
    case SwapCreate(_) => SwapCreateResult(s, o);
  }

  lemma WritesEndIff(s: State, o: Outcome)
    requires InPass(s) && Transitions.IsWrite(s.pass.value.call)
    ensures Action(s, o).pass.None? <==> EndsThePass(s, o)
  {
    hide Action, Put, Finished, SetCondition, Write;
    match s.pass.value.call
    case DrainPersist(since) =>
      DrainResult(s, o);
      var spec := s.pass.value.cluster.spec;
      WriteEndsIff(Edit(s, AtDrainStart(Mine(s), since, spec)), o, DrainStart(since, Grace(spec)), Id(s));
    case SwapPersist(_) =>
      SwapResult(s, o);
      WriteEndsIff(Edit(s, AtSwap(Mine(s))), o, Swap, Id(s));
    case RollbackPersist(_) =>
      RollbackResult(s, o);
      WriteEndsIff(Edit(s, AtRollback(Mine(s), s.w.clock)), o, Rollback, Id(s));
    case FinalWrite => FinalResult(s, o);
  }

  lemma WriteEndsIff(u: State, o: Outcome, kind: WriteKind, id: string)
    requires u.pass.Some?
    ensures Write(u, o, kind, id).pass.None?
       <==> o == Fail || o == Clash || (o == Lost && u.pass.value.cluster.rev == u.w.cluster.rev)
  {
  }

  lemma RestEndsIff(s: State, o: Outcome)
    requires InPass(s)
      && (s.pass.value.call.RollbackDelete? || s.pass.value.call.SwapDelete? || s.pass.value.call.Rehash?
          || s.pass.value.call.Announce? || s.pass.value.call.SaveAndExit? || s.pass.value.call.EnsureCluster?
          || s.pass.value.call.ListOrphans? || s.pass.value.call.DeleteOrphan?)
    ensures Action(s, o).pass.None? <==> EndsThePass(s, o)
  {
    hide Action, DeletedWorld, ReadHash, Orphans, DeleteNext;
    match s.pass.value.call
    case RollbackDelete(_) => RollbackDeleteResult(s, o);
    case SwapDelete(_) | Rehash => SwappedResult(s, o);
    case Announce | SaveAndExit(_) => MessageResult(s, o);
    case EnsureCluster => EnsureClusterResult(s, o);
    case ListOrphans => ListOrphansResult(s, o);
    case DeleteOrphan(_) => DeleteOrphanResult(s, o);
  }

  /** A pass ends exactly on the answers that end it. */
  lemma PassEndsIff(s: State, o: Outcome)
    requires InPass(s)
    ensures Action(s, o).pass.None? <==> EndsThePass(s, o)
  {
    hide Action, EndsThePass;
    match s.pass.value.call
    case EnsureMap | ReadRevisions | ListPods(_) | ReadAddress(_, _) => FrontEndsIff(s, o);
    case FirstJob(_) | FirstInstall | FirstCreate(_) | RollJob(_) | RollInstall | SwapCreate(_) => JobsEndIff(s, o);
    case DrainPersist(_) | SwapPersist(_) | RollbackPersist(_) | FinalWrite => WritesEndIff(s, o);
    case _ => RestEndsIff(s, o);
  }

  /* ---------- a pass begins ---------- */

  /** A pass begins when the cluster can be read, on a copy of it, with no map seen to. Under the Parallel policy
      nothing holds a map back, else the first map mid-update does, or none. */
  lemma BeginsWith(w: World, o: Outcome)
    ensures var t := Action(State(w, None), o);
      && (t.pass.Some? <==> o == Ok)
      && (t.pass.Some? ==>
            var p := t.pass.value;
            && p.cluster == w.cluster && p.start == w.cluster.status && p.at == 0 && !p.busy && p.call.EnsureCluster?
            && (w.cluster.spec.rollout == Parallel ==> p.gate == "")
            && (w.cluster.spec.rollout != Parallel ==>
                  && (forall i: nat :: HoldsBack(w.cluster.status, i) ==> p.gate == w.cluster.status[i].id)
                  && ((forall i: nat :: !HoldsBack(w.cluster.status, i)) ==> p.gate == "")))
  {
    hide Action, HoldsBack, FirstInFlight;
    BeginResult(w, o);
    FirstInFlightHoldsBack(w.cluster.status);
  }

  /* ---------- finding the pod ---------- */

  /** A listing of the pods finds the pod to take among those there are, for the hash at hand. */
  lemma FindsThePod(s: State, o: Outcome)
    requires InPass(s) && s.pass.value.call.ListPods? && o == Ok
    ensures var t, hash := Action(s, o), s.pass.value.call.hash;
      && t.pass.Some? && t.pass.value.call.ReadAddress? && t.pass.value.call.hash == hash
      && var found := t.pass.value.call.found;
      && (found.Some? <==> exists i: nat :: IsChoice(s.w.pods, Slug(s), hash, i))
      && (forall i: nat :: IsChoice(s.w.pods, Slug(s), hash, i) ==> found == Some(s.w.pods[i]))
      && (found.None? <==> forall p :: p in s.w.pods ==> p.terminating || p.slug != Slug(s))
  {
    hide Action, Slugs.MapSlug, FindActivePod, IsChoice;
    PrepareResult(s, o);
    ActivePodIsChoice(s.w.pods, Slug(s), s.pass.value.call.hash);
  }

  /** Nobody takes the map's pod for drifted. */
  predicate TakenAsWanted(s: State, hash: string) {
    s.pass.Some? && s.pass.value.call.ReadAddress? ==>
      s.pass.value.call.hash == hash
      && s.pass.value.call.found.Some? && s.pass.value.call.found.value.hash == hash
  }

  /** The pass is still at its n-th map, past the listing of its pods. */
  predicate StillAt(s: State, n: nat) {
    && s.pass.Some? && s.pass.value.at == n && AtMap(s)
    && IsMapCall(s.pass.value.call) && !s.pass.value.call.EnsureMap? && !s.pass.value.call.ReadRevisions?
    && !s.pass.value.call.ListPods?
  }

  /** The calls of firstStart and of rollUpdate. */
  predicate InstallsOrRolls(call: Call) {
    call.FirstJob? || call.FirstInstall? || call.FirstCreate? || Transitions.IsRoll(call)
  }

  lemma WantedIsListed(s: State)
    requires InPass(s) && s.pass.value.call.ListPods?
    requires exists p :: p in s.w.pods && !p.terminating && p.slug == Slug(s) && p.hash == s.pass.value.call.hash
    ensures var t := Action(s, Ok);
      TakenAsWanted(t, s.pass.value.call.hash) && t.pass.Some? && t.pass.value.call.ReadAddress?
  {
    hide Action, Slugs.MapSlug;
    FindsThePod(s, Ok);
    var p :| p in s.w.pods && !p.terminating && p.slug == Slug(s) && p.hash == s.pass.value.call.hash;
    var i :| 0 <= i < |s.w.pods| && s.w.pods[i] == p;
  }

  /** One more step at the map: it is neither installed nor rolled. */
  lemma WantedIsKept(s: State, l: Label, n: nat, hash: string)
    requires Wf(s) && StillAt(s, n) && StillAt(Step(s, l), n)
    requires TakenAsWanted(s, hash) && !InstallsOrRolls(s.pass.value.call)
    ensures TakenAsWanted(Step(s, l), hash) && !InstallsOrRolls(Step(s, l).pass.value.call)
  {
    hide Action, Slugs.MapSlug, SteadyPass;
    if l.Act? {
      assert Step(s, l) == Action(s, l.outcome);
      if s.pass.value.call.ReadAddress? {
        DispatchResult(s, l.outcome);
        SteadyStays(s, l.outcome);
      }
    }
  }

  lemma SteadyStays(s: State, o: Outcome)
    requires InPass(s) && s.pass.value.call.ReadAddress?
    ensures forall p: Pass, e: MapStatus, pod: Pod, now: int ::
      var call := SteadyPass(p, e, pod, now).call; call.RollbackPersist? || StartsMap(call)
  {
    hide SetCondition;
  }

  /** When the pods of a map were listed with a live one among them that has the wanted hash, this pass neither installs
      nor rolls the map, whatever else is listed, happens or fails. */
  lemma {:induction false} WantedPodIsNotRolled(s: State, labels: seq<Label>)
    requires InPass(s) && s.pass.value.call.ListPods? && labels != [] && labels[0] == Act(Ok)
    requires exists p :: p in s.w.pods && !p.terminating && p.slug == Slug(s) && p.hash == s.pass.value.call.hash
    requires forall k :: 1 <= k <= |labels| ==> StillAt(Run(s, labels[..k]), s.pass.value.at)
    ensures var t := Run(s, labels);
      && StillAt(t, s.pass.value.at)
      && TakenAsWanted(t, s.pass.value.call.hash) && !InstallsOrRolls(t.pass.value.call)
    decreases |labels|
  {
    hide Step, StillAt, TakenAsWanted, Slugs.MapSlug;
    assert labels[..|labels|] == labels;
    if |labels| == 1 {
      assert labels[..0] == [];
      FirstStep(s, labels);
      WantedIsListed(s);
    } else {
      var shorter := labels[..|labels| - 1];
      assert forall k :: 1 <= k <= |shorter| ==> shorter[..k] == labels[..k];
      WantedPodIsNotRolled(s, shorter);
      assert StillAt(Run(s, labels[..|labels|]), s.pass.value.at);
      WantedIsKept(Run(s, shorter), labels[|labels| - 1], s.pass.value.at, s.pass.value.call.hash);
    }
  }

  lemma FirstStep(s: State, labels: seq<Label>)
    requires Wf(s) && |labels| == 1 && labels[0] == Act(Ok)
    ensures Run(s, labels) == Action(s, Ok)
  {
    hide Action;
    assert labels[..0] == [];
  }

  /* ---------- the choice at a map ---------- */

  /** The map's objects are ensured; the volume is server-a when none is on record, else the one on record. */
  lemma ChoosesVolume(s: State)
    requires InPass(s) && s.pass.value.call.EnsureMap?
    ensures var t := Action(s, Ok);
      && t.w == s.w && AtMap(t) && t.pass.value.call.ReadRevisions? && Id(t) == Id(s)
      && Mine(t) == Mine(s).(active := if Mine(s).active == Unset then ServerA else Mine(s).active)
  {
    hide Action, Slugs.MapSlug;
    PrepareResult(s, Ok);
  }

  /** The pod found has the wanted hash. */
  predicate HasWanted(s: State)
    requires InPass(s) && s.pass.value.call.ReadAddress?
  {
    s.pass.value.call.found.Some? && s.pass.value.call.found.value.hash == s.pass.value.call.hash
  }

  /** It has another hash. */
  predicate HasDrifted(s: State)
    requires InPass(s) && s.pass.value.call.ReadAddress?
  {
    s.pass.value.call.found.Some? && s.pass.value.call.found.value.hash != s.pass.value.call.hash
  }

  /** It crash-loops, and another volume is known to be good. */
  predicate CanGoBack(s: State)
    requires InPass(s) && s.pass.value.call.ReadAddress? && HasWanted(s)
  {
    s.pass.value.call.found.value.crashing && Mine(s).lastGood != Unset && Mine(s).lastGood != Mine(s).active
  }

  /** The first condition of the kind among them. */
  predicate Says(conditions: seq<Condition>, kind: ConditionType, status: bool, reason: string) {
    exists i :: 0 <= i < |conditions| && conditions[i].kind == kind && conditions[i].status == status
      && conditions[i].reason == reason && forall k :: 0 <= k < i ==> conditions[k].kind != kind
  }

  lemma {:induction false} SetConditionSays(cs: seq<Condition>, kind: ConditionType, status: bool, reason: string,
      now: int)
    ensures Says(SetCondition(cs, kind, status, reason, now), kind, status, reason)
    ensures forall other, b, why :: other != kind ==>
      (Says(SetCondition(cs, kind, status, reason, now), other, b, why) <==> Says(cs, other, b, why))
  {
    var j := 0;
    while j < |cs| && cs[j].kind != kind
      invariant j <= |cs| && forall k :: 0 <= k < j ==> cs[k].kind != kind
    {
      j := j + 1;
    }
    SetConditionAt(cs, j, kind, status, reason, now);
    var r := SetCondition(cs, kind, status, reason, now);
    hide SetCondition;
    assert r[j].kind == kind && r[j].status == status && r[j].reason == reason;
    forall other, b, why | other != kind ensures Says(r, other, b, why) <==> Says(cs, other, b, why) {
      OthersSaySame(cs, r, j, kind, other, b, why);
    }
  }

  lemma OthersSaySame(cs: seq<Condition>, r: seq<Condition>, j: nat, kind: ConditionType, other: ConditionType,
      b: bool, why: string)
    requires other != kind && |cs| <= |r| <= |cs| + 1 && j < |r| && (|r| > |cs| ==> j == |cs|)
    requires r[j].kind == kind && (j < |cs| ==> cs[j].kind == kind)
    requires forall k :: 0 <= k < |cs| && k != j ==> r[k] == cs[k]
    ensures Says(r, other, b, why) <==> Says(cs, other, b, why)
  {
    if Says(r, other, b, why) {
      var i :| 0 <= i < |r| && r[i].kind == other && r[i].status == b && r[i].reason == why
        && forall k :: 0 <= k < i ==> r[k].kind != other;
      assert cs[i] == r[i] && forall k :: 0 <= k < i && k != j ==> r[k].kind == cs[k].kind;
    }
    if Says(cs, other, b, why) {
      var i :| 0 <= i < |cs| && cs[i].kind == other && cs[i].status == b && cs[i].reason == why
        && forall k :: 0 <= k < i ==> cs[k].kind != other;
      assert cs[i] == r[i] && forall k :: 0 <= k < i && k != j ==> r[k].kind == cs[k].kind;
    }
  }

  /** The next call at the map: the first Job when no pod is found; the rollback of a crash-looping pod when there is a
      volume to go back to; the Job of the roll when the pod has drifted and no other map holds this one back. Else the
      pass goes on to the next map, and asks to be requeued soon unless it found a ready, steady pod. */
  lemma Dispatches(s: State, o: Outcome)
    requires InPass(s) && s.pass.value.call.ReadAddress?
    ensures var t, p := Action(s, o), s.pass.value;
      && t.w == s.w && t.pass.Some?
      && var call := t.pass.value.call;
      && (call.FirstJob? <==> p.call.found.None?) && (call.FirstJob? ==> call.hash == p.call.hash)
      && (call.RollbackPersist? <==> HasWanted(s) && CanGoBack(s))
      && (call.RollJob? <==> HasDrifted(s) && (p.gate == "" || p.gate == Id(s)))
      && (call.RollbackPersist? || call.RollJob? ==> call.pod == p.call.found.value)
      && (t.pass.value.busy <==>
            (p.busy || HasDrifted(s) || (HasWanted(s) && (p.call.found.value.crashing || !p.call.found.value.ready))))
  {
    hide Action, Slugs.MapSlug, SetCondition, Put;
    DispatchResult(s, o);
  }

  /** f is e once a pod with the wanted hash was found that is not rolled back: a ready one that does not crash makes it
      Running and its volume the last good one, and the PodReady condition says what was found. */
  predicate TellsSteady(e: MapStatus, f: MapStatus, pod: Pod) {
    var steady := pod.ready && !pod.crashing;
    && f == e.(phase := f.phase, lastGood := f.lastGood, conditions := f.conditions)
    && f.phase == (if steady then Running else e.phase)
    && f.lastGood == (if steady then e.active else e.lastGood)
    && Says(f.conditions, PodReady, steady,
         if pod.crashing then "PodCrashLooping" else if pod.ready then "RCONReachable" else "PodNotReady")
  }

  lemma SteadyTells(p: Pass, e: MapStatus, pod: Pod, now: int)
    requires e == Entry(p.cluster.status, e.id)
    ensures var f := Entry(SteadyPass(p, e, pod, now).cluster.status, e.id);
      if pod.crashing && e.lastGood != Unset && e.lastGood != e.active then f == e else TellsSteady(e, f, pod)
  {
    hide SetCondition, Says;
    SetConditionSays(e.conditions, PodReady, false, "PodCrashLooping", now);
    SetConditionSays(e.conditions, PodReady, true, "RCONReachable", now);
    SetConditionSays(e.conditions, PodReady, false, "PodNotReady", now);
  }

  /** The map's entry after the choice: its address is the one on hand, if any, and a steady pod is told of. */
  lemma DispatchShows(s: State, o: Outcome)
    requires InPass(s) && s.pass.value.call.ReadAddress?
    ensures var t := Action(s, o);
      t.pass.Some? &&
      var e, f := Mine(s), Entry(t.pass.value.cluster.status, Id(s));
      var g := e.(rcon := if o == Ok && Id(s) in s.w.addresses then s.w.addresses[Id(s)] else e.rcon);
      if HasWanted(s) && !CanGoBack(s) then TellsSteady(g, f, s.pass.value.call.found.value) else f == g
  {
    hide Action, Slugs.MapSlug, SetCondition, TellsSteady, SteadyPass;
    DispatchResult(s, o);
    var p, e := s.pass.value, Addressed(Mine(s), s.w, o);
    if HasWanted(s) {
      SteadyTells(p.(cluster := p.cluster.(status := Put(p.cluster.status, e))), e, p.call.found.value, s.w.clock);
    }
  }

  /* ---------- init Jobs ---------- */

  /** The Job that installs the spec's image, or the usual one, on a side of the map. */
  predicate IsJobOf(key: JobKey, spec: Spec, id: string, side: Side) {
    && key.slug == Slugs.MapSlug(id) && key.side == side
    && key.image == if spec.image == "" then "docker.io/sknnr/ark-ascended-server:latest" else spec.image
  }

  lemma JobIsJobOf(spec: Spec, id: string, side: Side)
    ensures IsJobOf(Job(spec, id, side), spec, id, side)
  {
    hide Slugs.MapSlug;
  }

  /** What is to be said of a Job: a read that fails counts as a failed Job. */
  predicate IsVerdict(w: World, o: Outcome, key: JobKey, verdict: Verdict) {
    if o != Ok then verdict == JobGaveUp
    else if key !in w.jobs then verdict == JobMissing
    else
      && (verdict == JobSucceeded <==> exists i: nat {:trigger CompleteFirst(w.jobs[key], i)} ::
            i < |w.jobs[key]| && CompleteFirst(w.jobs[key], i))
      && (verdict == JobRunning <==>
            JobCondition(Complete, true) !in w.jobs[key] && JobCondition(JobFailed, true) !in w.jobs[key])
      && verdict != JobMissing
  }

  lemma ReadsVerdict(w: World, o: Outcome, key: JobKey)
    ensures IsVerdict(w, o, key, ReadJob(w, o, key))
  {
    hide CompleteFirst, JobVerdict;
    if key in w.jobs {
      JobVerdictMeans(w.jobs[key]);
      CompleteIsInRange(w.jobs[key]);
    }
  }

  lemma CompleteIsInRange(conditions: seq<JobCondition>)
    ensures forall i: nat :: CompleteFirst(conditions, i) ==> i < |conditions|
  {
  }

  /** The call logs what it saw of the map's Job for the side. */
  ghost predicate Sees(s: State, o: Outcome, side: Side, rolling: bool)
    requires InPass(s) && (s.pass.value.call.FirstJob? || s.pass.value.call.RollJob?)
  {
    var t := Action(s, o);
    && |t.w.log| == |s.w.log| + 1 && t.w.log[..|s.w.log|] == s.w.log && t.w == s.w.(log := t.w.log)
    && var e := t.w.log[|s.w.log|];
    && e.JobSeen? && e.id == Id(s) && e.rolling == rolling && e.at == s.w.clock
    && IsJobOf(e.key, s.pass.value.cluster.spec, Id(s), side) && IsVerdict(s.w, o, e.key, e.verdict)
  }

  /** The verdict the call logs. */
  function Seen(s: State, o: Outcome): Verdict
    requires InPass(s) && (s.pass.value.call.FirstJob? || s.pass.value.call.RollJob?)
  {
    var log := Action(s, o).w.log;
    if |log| > 0 && log[|log| - 1].JobSeen? then log[|log| - 1].verdict else JobMissing
  }

  lemma FirstJobSees(s: State, o: Outcome)
    requires InPass(s) && s.pass.value.call.FirstJob?
    ensures Sees(s, o, if Mine(s).active == ServerB then SideB else SideA, false)
    ensures var p, e := s.pass.value, Mine(s);
      Action(s, o).pass == Some(FirstPass(p, e, Seen(s, o), p.call.hash, s.w.clock))
  {
    hide Action, Slugs.MapSlug, ReadJob, FirstPass, IsVerdict, IsJobOf;
    FirstJobResult(s, o);
    var spec, side := s.pass.value.cluster.spec, VolumeSide(Mine(s).active);
    JobIsJobOf(spec, Id(s), side);
    ReadsVerdict(s.w, o, Job(spec, Id(s), side));
  }

  lemma RollJobSees(s: State, o: Outcome)
    requires InPass(s) && s.pass.value.call.RollJob?
    ensures Sees(s, o, if Mine(s).active == ServerA then SideB else SideA, true)
    ensures var p, e := s.pass.value, Mine(s);
      Action(s, o).pass == Some(RollPass(p, e, Seen(s, o), p.call.pod, s.w.clock))
  {
    hide Action, Slugs.MapSlug, ReadJob, RollPass, IsVerdict, IsJobOf;
    RollJobResult(s, o);
    var spec, side := s.pass.value.cluster.spec, VolumeSide(OtherVolume(Mine(s).active));
    JobIsJobOf(spec, Id(s), side);
    ReadsVerdict(s.w, o, Job(spec, Id(s), side));
  }

  /** Without a pod, the Job of the map's own side decides: a missing one is installed, a finished one lets the pod be
      created, a running one is waited for and a failed one is told and left. */
  lemma FirstJobDecides(s: State, o: Outcome)
    requires InPass(s) && s.pass.value.call.FirstJob?
    ensures Sees(s, o, if Mine(s).active == ServerB then SideB else SideA, false)
    ensures var t := Action(s, o);
      && t.pass.Some?
      && (t.pass.value.call.FirstInstall? <==> Seen(s, o) == JobMissing)
      && (t.pass.value.call.FirstCreate? <==> Seen(s, o) == JobSucceeded)
      && (t.pass.value.call.FirstCreate? ==> t.pass.value.call.hash == s.pass.value.call.hash)
      && (t.pass.value.busy <==> (s.pass.value.busy || Seen(s, o) == JobRunning))
  {
    FirstJobSees(s, o);
    hide Action, Slugs.MapSlug, Sees, Seen, SetCondition, Put;
  }

  /** With a drifted pod, the Job of the other side decides: a missing one is installed, a running one waited for, a
      failed one told and left; a finished one lets the drain begin if there is none on record, and the pod be
      replaced when it is over, the game being saved first if the server's address is known. */
  lemma RollJobDecides(s: State, o: Outcome)
    requires InPass(s) && s.pass.value.call.RollJob?
    ensures Sees(s, o, if Mine(s).active == ServerA then SideB else SideA, true)
    ensures var t, e, ready := Action(s, o), Mine(s), Seen(s, o) == JobSucceeded;
      && t.pass.Some?
      && var call := t.pass.value.call;
      && (call.RollInstall? <==> Seen(s, o) == JobMissing)
      && (call.DrainPersist? <==> ready && e.deadline.None?)
      && (call.DrainPersist? ==> call.since == s.w.clock)
      && (call.SaveAndExit? <==> ready && e.deadline.Some? && e.deadline.value <= s.w.clock && e.rcon != "")
      && (call.SwapPersist? <==> ready && e.deadline.Some? && e.deadline.value <= s.w.clock && e.rcon == "")
      && (call.SaveAndExit? || call.SwapPersist? ==> call.pod == s.pass.value.call.pod)
      && t.pass.value.busy == s.pass.value.busy
  {
    RollJobSees(s, o);
    hide Action, Slugs.MapSlug, Sees, Seen, SetCondition, Put;
  }

  /** f is e but for the phase, and for the condition that tells of a failed Job. */
  predicate TellsFailure(e: MapStatus, f: MapStatus, verdict: Verdict) {
    && f == e.(phase := f.phase, conditions := f.conditions)
    && if verdict == JobGaveUp then Says(f.conditions, InstallSucceeded, false, "InstallJobFailed")
       else f.conditions == e.conditions
  }

  lemma FailureIsTold(e: MapStatus, now: int)
    ensures TellsFailure(e, AtInstallFailure(e, now), JobGaveUp)
  {
    hide Says, SetCondition;
    SetConditionSays(e.conditions, InstallSucceeded, false, "InstallJobFailed", now);
  }

  lemma PassesTellFailure(p: Pass, e: MapStatus, verdict: Verdict, hash: string, pod: Pod, now: int)
    requires e == Entry(p.cluster.status, e.id)
    ensures TellsFailure(e, Entry(FirstPass(p, e, verdict, hash, now).cluster.status, e.id), verdict)
    ensures TellsFailure(e, Entry(RollPass(p, e, verdict, pod, now).cluster.status, e.id), verdict)
  {
    FailureIsTold(e, now);
    hide AtInstallFailure, Says;
  }

  /** A failed Job is told in the map's entry, the rest of which stays but for the phase. */
  lemma JobFailureIsTold(s: State, o: Outcome)
    requires InPass(s) && (s.pass.value.call.FirstJob? || s.pass.value.call.RollJob?)
    ensures var t := Action(s, o);
      t.pass.Some? && TellsFailure(Mine(s), Entry(t.pass.value.cluster.status, Id(s)), Seen(s, o))
  {
    hide Action, Slugs.MapSlug, Sees, Seen, FirstPass, RollPass, TellsFailure, Put;
    var p, call, e := s.pass.value, s.pass.value.call, Mine(s);
    if call.FirstJob? {
      FirstJobSees(s, o);
      PassesTellFailure(p, e, Seen(s, o), call.hash, Pod("", "", Unset, false, false, false), s.w.clock);
    } else {
      RollJobSees(s, o);
      PassesTellFailure(p, e, Seen(s, o), "", call.pod, s.w.clock);
    }
  }

  /** The call asks for the Job of the side; it is there afterwards, new if it was not, unless the server refused. */
  lemma InstallsTheJob(s: State, o: Outcome) returns (key: JobKey)
    requires InPass(s) && (s.pass.value.call.FirstInstall? || s.pass.value.call.RollInstall?)
    ensures IsJobOf(key, s.pass.value.cluster.spec, Id(s),
      if Mine(s).active == (if s.pass.value.call.FirstInstall? then ServerB else ServerA) then SideB else SideA)
    ensures Action(s, o).w.jobs == if key !in s.w.jobs && o in {Ok, Lost} then s.w.jobs[key := []] else s.w.jobs
  {
    hide Action, Slugs.MapSlug, MountedLive, Put;
    if s.pass.value.call.FirstInstall? {
      key := Job(s.pass.value.cluster.spec, Id(s), VolumeSide(Mine(s).active));
      FirstInstallResult(s, o);
    } else {
      key := Job(s.pass.value.cluster.spec, Id(s), VolumeSide(OtherVolume(Mine(s).active)));
      RollInstallResult(s, o);
    }
  }

  /* ---------- pods ---------- */

  /** The pod created runs on the map's volume under the hash at hand, and is neither ready, crashing nor going away
      yet; nothing is created when its name is taken or the server refuses. */
  lemma CreatesThePod(s: State, o: Outcome)
    requires InPass(s) && (s.pass.value.call.FirstCreate? || s.pass.value.call.SwapCreate?)
    ensures var slug, hash := Slug(s), s.pass.value.call.hash;
      Action(s, o).w.pods ==
        if o in {Ok, Lost} && forall p :: p in s.w.pods ==> p.slug != slug || p.hash != hash
        then s.w.pods + [Pod(slug, hash, Mine(s).active, false, false, false)]
        else s.w.pods
  {
    hide Action, Slugs.MapSlug, Put;
    if s.pass.value.call.FirstCreate? {
      FirstCreateResult(s, o);
    } else {
      SwapCreateResult(s, o);
    }
    NamedMeans(s.w.pods, Slug(s), s.pass.value.call.hash);
    hide Named;
  }

  lemma NamedMeans(pods: seq<Pod>, slug: string, hash: string)
    ensures Named(pods, slug, hash) <==> exists p :: p in pods && p.slug == slug && p.hash == hash
  {
    if Named(pods, slug, hash) {
      var i :| 0 <= i < |pods| && pods[i].slug == slug && pods[i].hash == hash;
      assert pods[i] in pods;
    }
  }

  /** Hashes are computed for the volume on record in memory: the map's own before its pods are listed, the new one once
      it is swapped. */
  lemma HashesForVolume(s: State, o: Outcome)
    requires InPass(s) && (s.pass.value.call.ReadRevisions? || s.pass.value.call.Rehash?)
    ensures var p := s.pass.value;
      var hash := ReadHash(s.w, o, p.cluster.spec, p.at, Mine(s).active);
      Action(s, o) ==
        State(s.w, Some(p.(call := if p.call.ReadRevisions? then ListPods(hash) else SwapCreate(hash))))
  {
    hide Action, Slugs.MapSlug, ReadHash;
    if s.pass.value.call.ReadRevisions? {
      PrepareResult(s, o);
    } else {
      SwappedResult(s, o);
    }
  }

  /* ---------- status writes and the end of a pass ---------- */

  /** The entry a status write in the middle of a pass stores. */
  function WrittenEntry(s: State): MapStatus
    requires InPass(s) && IsMapCall(s.pass.value.call) && Transitions.IsWrite(s.pass.value.call)
  {
    match s.pass.value.call
    case DrainPersist(since) => AtDrainStart(Mine(s), since, s.pass.value.cluster.spec)
    case SwapPersist(_) => AtSwap(Mine(s))
    case _ => AtRollback(Mine(s), s.w.clock)
  }

  lemma MidWritePuts(s: State, o: Outcome)
    requires InPass(s) && IsMapCall(s.pass.value.call) && Transitions.IsWrite(s.pass.value.call)
    ensures var t := Action(s, o);
      t.pass.Some? ==> t.pass.value.cluster.status == Put(s.pass.value.cluster.status, WrittenEntry(s))
  {
    hide Action, SetCondition, Put, Write;
    match s.pass.value.call
    case DrainPersist(since) =>
      DrainResult(s, o);
      var spec := s.pass.value.cluster.spec;
      WriteKeepsStatus(Edit(s, AtDrainStart(Mine(s), since, spec)), o, DrainStart(since, Grace(spec)), Id(s));
    case SwapPersist(_) =>
      SwapResult(s, o);
      WriteKeepsStatus(Edit(s, AtSwap(Mine(s))), o, Swap, Id(s));
    case RollbackPersist(_) =>
      RollbackResult(s, o);
      WriteKeepsStatus(Edit(s, AtRollback(Mine(s), s.w.clock)), o, Rollback, Id(s));
  }

  lemma WriteKeepsStatus(u: State, o: Outcome, kind: WriteKind, id: string)
    requires u.pass.Some?
    ensures var t := Write(u, o, kind, id);
      t.pass.Some? ==> t.pass.value.cluster.status == u.pass.value.cluster.status
  {
  }

  /** What is written: a drain start sets the deadline, a grace period later; a swap goes to the other volume and ends
      the drain; a rollback goes to the last good volume and is told of. */
  lemma MidWritesStore(s: State, o: Outcome)
    requires InPass(s) && IsMapCall(s.pass.value.call) && Transitions.IsWrite(s.pass.value.call)
    requires Action(s, o).pass.Some?
    ensures var e, f := Mine(s), Entry(Action(s, o).pass.value.cluster.status, Id(s));
      match s.pass.value.call
      case DrainPersist(since) =>
        var grace := s.pass.value.cluster.spec.grace;
        f == e.(deadline := Some(if grace > 0 then since + grace else since), phase := DrainingActive)
      case SwapPersist(_) =>
        f == e.(active := if e.active == ServerA then ServerB else ServerA, deadline := None, phase := Swapping)
      case _ =>
        f == e.(active := e.lastGood, conditions := f.conditions)
        && Says(f.conditions, RollbackOccurred, true, "PodCrashLooping")
  {
    MidWritePuts(s, o);
    hide Action, SetCondition, Says;
    SetConditionSays(Mine(s).conditions, RollbackOccurred, true, "PodCrashLooping", s.w.clock);
  }

  /** Some map in spec has the slug. */
  predicate IsSlugOfSpec(slug: string, spec: Spec) {
    exists i :: 0 <= i < |spec.maps| && Slugs.MapSlug(spec.maps[i].id) == slug
  }

  /** The pods to be collected are the labelled ones whose slug no map in spec has; none are when they cannot be
      listed. */
  lemma CollectsOrphans(s: State, o: Outcome)
    requires InPass(s) && s.pass.value.call.ListOrphans?
    ensures var t := Action(s, o);
      && t.pass.Some? && (t.pass.value.call.FinalWrite? || t.pass.value.call.DeleteOrphan?)
      && (o != Ok ==> t.pass.value.call.FinalWrite?)
      && (o == Ok ==> forall p: Pod ::
            (p in s.w.pods && p.slug != "" && !IsSlugOfSpec(p.slug, s.pass.value.cluster.spec))
            <==> t.pass.value.call.DeleteOrphan? && p in t.pass.value.call.todo)
  {
    hide Action, Slugs.MapSlug;
    ListOrphansResult(s, o);
    assert forall slug :: Kept(s.pass.value.cluster.spec, slug) <==> IsSlugOfSpec(slug, s.pass.value.cluster.spec);
    hide Kept;
  }

  /** A stored final status holds the entries of memory whose slug some map in spec has, reading as they do there,
      counts the maps in spec and those that read Running, and rolls their phases up. */
  lemma FinalWriteStores(s: State, o: Outcome)
    requires InPass(s) && s.pass.value.call.FinalWrite?
    requires var t, n := Action(s, o), |s.w.log|; |t.w.log| > n && t.w.log[n].Wrote? && t.w.log[n].stored
    ensures var p, after := s.pass.value, Action(s, o).w.cluster;
      && after == Action(s, o).w.log[|s.w.log|].after && after.spec == s.w.cluster.spec
      && (forall id {:trigger Entry(after.status, id)} ::
            Entry(after.status, id)
              == if IsSlugOfSpec(Slugs.MapSlug(id), p.cluster.spec) then Entry(p.cluster.status, id) else Blank(id))
      && after.summary.total == |p.cluster.spec.maps|
      && after.summary.ready == |ReadyAmong(after.status, |after.status|)|
      && after.summary.phase == AggregatePhase(after.status)
  {
    hide Action, Slugs.MapSlug, Prune, CountReady, AggregatePhase;
    FinalResult(s, o);
    var p := s.pass.value;
    var maps := Prune(p.cluster.status, p.cluster.spec);
    assert maps[..|maps|] == maps;
    CountReadyIs(maps, |maps|);
    forall id ensures Entry(maps, id)
      == if IsSlugOfSpec(Slugs.MapSlug(id), p.cluster.spec) then Entry(p.cluster.status, id) else Blank(id)
    {
      Coherence.PruneEntry(p.cluster.status, p.cluster.spec, id);
      assert Kept(p.cluster.spec, Slugs.MapSlug(id)) <==> IsSlugOfSpec(Slugs.MapSlug(id), p.cluster.spec);
    }
  }
}
