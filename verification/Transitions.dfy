/** What each step can do to the stored cluster, the copy in memory and the log: the facts every safety proof
    starts from. */
module Transitions {
  import opened ArkTypes
  import opened Statuses
  import opened World
  import opened Operator
  import Slugs

  /** LastGoodVolume names the other volume: the state in which a crash loop rolls back. */
  predicate Split(e: MapStatus) {
    e.lastGood != Unset && e.lastGood != Defaulted(e.active)
  }

  /** b is a after edits that move no drain, no volume, and arm no rollback. */
  ghost predicate Soft(a: MapStatus, b: MapStatus) {
    && b.deadline == a.deadline
    && (b.active == a.active || b.active == Defaulted(a.active))
    && (b.lastGood == a.lastGood || !Split(b))
  }

  predicate IsRoll(call: Call) {
    call.RollJob? || call.RollInstall? || call.DrainPersist? || call.Announce? || call.SaveAndExit?
    || call.SwapPersist? || call.SwapDelete? || call.Rehash? || call.SwapCreate?
  }

  predicate IsWrite(call: Call) {
    call.DrainPersist? || call.SwapPersist? || call.RollbackPersist? || call.FinalWrite?
  }

  ghost predicate SamePass(p: Pass, q: Pass) {
    && q.cluster.rev == p.cluster.rev
    && q.cluster.spec == p.cluster.spec
    && q.gate == p.gate
    && q.start == p.start
  }

  ghost predicate SoftStatuses(a: seq<MapStatus>, b: seq<MapStatus>) {
    forall id :: Soft(Entry(a, id), Entry(b, id))
  }

  /** Only maps in `entering` are in flight in b without being so in a. */
  ghost predicate FlightGrowsBy(a: seq<MapStatus>, b: seq<MapStatus>, entering: Option<string>) {
    forall id :: InFlight(Entry(b, id).phase) ==> InFlight(Entry(a, id).phase) || entering == Some(id)
  }

  ghost predicate OthersKept(a: seq<MapStatus>, b: seq<MapStatus>, id: string) {
    forall other :: other != id ==> Entry(b, other) == Entry(a, other)
  }

  /** The map a pass is rolling. */
  function Rolling(s: State): Option<string>
    requires InPass(s)
  {
    if IsRoll(s.pass.value.call) then Some(Id(s)) else None
  }

  ghost predicate Logged(s: State, t: State) {
    || t.w.log == s.w.log
    || (|t.w.log| == |s.w.log| + 1 && s.w.log == t.w.log[..|s.w.log|] && !t.w.log[|s.w.log|].Wrote?)
  }

  /** A step that writes no status: the statuses in memory are softly edited, one map's at most, and only the
      map being rolled can enter flight. */
  ghost predicate Quiet(s: State, t: State)
    requires InPass(s)
  {
    && t.w.cluster == s.w.cluster
    && t.w.clock == s.w.clock
    && Logged(s, t)
    && (t.pass.Some? ==> SoftPass(s, t))
  }

  ghost predicate SoftPass(s: State, t: State)
    requires InPass(s) && t.pass.Some?
  {
    var a, b := s.pass.value.cluster.status, t.pass.value.cluster.status;
    && SamePass(s.pass.value, t.pass.value)
    && SoftStatuses(a, b)
    && FlightGrowsBy(a, b, Rolling(s))
    && (AtMap(s) ==> OthersKept(a, b, Id(s)))
    && (!AtMap(s) ==> a == b)
    && (Distinct(a) ==> Distinct(b))
    && Extends(a, b, At(s))
  }

  /** b lists whom a lists and at most one map more. */
  ghost predicate Extends(a: seq<MapStatus>, b: seq<MapStatus>, own: Option<string>) {
    forall id :: (Has(a, id) ==> Has(b, id)) && (Has(b, id) ==> Has(a, id) || own == Some(id))
  }

  /** The map a pass is at. */
  function At(s: State): Option<string> {
    if AtMap(s) then Some(Id(s)) else None
  }

  lemma PutExtends(maps: seq<MapStatus>, e: MapStatus)
    ensures Extends(maps, Put(maps, e), Some(e.id))
    ensures Has(Put(maps, e), e.id)
  {
    PutShape(maps, e);
    var r := Put(maps, e);
    assert Has(r, e.id) by {
      if Has(maps, e.id) {
        var i :| 0 <= i < |maps| && maps[i].id == e.id;
        assert r[i].id == e.id;
      } else {
        assert r[|maps|].id == e.id;
      }
    }
    forall id ensures (Has(maps, id) ==> Has(r, id)) && (Has(r, id) ==> Has(maps, id) || id == e.id) {
      if Has(maps, id) {
        var i :| 0 <= i < |maps| && maps[i].id == id;
        assert r[i].id == id;
      }
      if Has(r, id) {
        var i :| 0 <= i < |r| && r[i].id == id;
        assert i < |maps| ==> maps[i].id == id;
      }
    }
  }

  /** t differs from s in the log, the place in the pass, and nothing the safety proofs watch. */
  ghost predicate Beside(s: State, t: State)
    requires s.pass.Some?
  {
    && t.w.cluster == s.w.cluster
    && t.w.clock == s.w.clock
    && Logged(s, t)
    && (t.pass.Some? ==> t.pass.value.gate == s.pass.value.gate && t.pass.value.start == s.pass.value.start)
  }

  lemma UneditedIsQuiet(s: State, t: State)
    requires InPass(s) && Beside(s, t)
    requires t.pass.Some? ==> t.pass.value.cluster == s.pass.value.cluster
    ensures Quiet(s, t)
  {
  }

  lemma PutIsSoft(maps: seq<MapStatus>, e: MapStatus)
    requires Soft(Entry(maps, e.id), e)
    ensures SoftStatuses(maps, Put(maps, e))
  {
  }

  lemma PutKeepsOthers(maps: seq<MapStatus>, e: MapStatus)
    ensures OthersKept(maps, Put(maps, e), e.id)
  {
  }

  lemma PutEntersFlight(maps: seq<MapStatus>, e: MapStatus, entering: Option<string>)
    requires InFlight(e.phase) ==> InFlight(Entry(maps, e.id).phase) || entering == Some(e.id)
    ensures FlightGrowsBy(maps, Put(maps, e), entering)
  {
  }

  lemma EditedIsQuiet(s: State, t: State, e: MapStatus)
    requires InPass(s) && AtMap(s) && Beside(s, t) && t.pass.Some?
    requires t.pass.value.cluster == s.pass.value.cluster.(status := Put(s.pass.value.cluster.status, e))
    requires e.id == Id(s) && Soft(Mine(s), e)
    requires InFlight(e.phase) ==> InFlight(Mine(s).phase) || Rolling(s) == Some(e.id)
    ensures Quiet(s, t)
  {
    var maps := s.pass.value.cluster.status;
    PutIsSoft(maps, e);
    PutKeepsOthers(maps, e);
    PutEntersFlight(maps, e, Rolling(s));
    PutExtends(maps, e);
    hide Has;
    if Distinct(maps) {
      PutKeepsDistinct(maps, e);
    }
  }

  lemma PrepareIsQuiet(s: State, o: Outcome)
    requires InPass(s)
      && (s.pass.value.call.EnsureMap? || s.pass.value.call.ReadRevisions? || s.pass.value.call.ListPods?)
    ensures Quiet(s, ActPrepare(s, o))
  {
    var t := ActPrepare(s, o);
    if s.pass.value.call.EnsureMap? && o == Ok {
      EditedIsQuiet(s, t, Mine(s).(active := Defaulted(Mine(s).active)));
    } else {
      UneditedIsQuiet(s, t);
    }
  }

  lemma FirstStartIsQuiet(s: State, u: State, verdict: Verdict, hash: string)
    requires InPass(s) && s.pass.value.call.FirstJob? && u.pass == s.pass && Beside(s, u)
    ensures Quiet(s, FirstStart(u, verdict, hash))
  {
    var t, e := FirstStart(u, verdict, hash), Mine(s);
    match verdict
    case JobRunning => EditedIsQuiet(s, t, e.(phase := InstallingActive));
    case JobGaveUp => EditedIsQuiet(s, t, AtInstallFailure(e, u.w.clock));
    case _ => UneditedIsQuiet(s, t);
  }

  lemma RollUpdateIsQuiet(s: State, u: State, verdict: Verdict, pod: Pod)
    requires InPass(s) && s.pass.value.call.RollJob? && u.pass == s.pass && Beside(s, u)
    ensures Quiet(s, RollUpdate(u, verdict, pod))
  {
    var t, e := RollUpdate(u, verdict, pod), Mine(s);
    match verdict
    case JobMissing => UneditedIsQuiet(s, t);
    case JobRunning => EditedIsQuiet(s, t, e.(phase := InstallingInactive));
    case JobGaveUp => EditedIsQuiet(s, t, AtInstallFailure(e, u.w.clock));
    case JobSucceeded =>
      if e.deadline.Some? && u.w.clock < e.deadline.value {
        EditedIsQuiet(s, t, e.(phase := DrainingActive));
      } else {
        UneditedIsQuiet(s, t);
      }
  }

  lemma InstallIsQuiet(s: State, u: State, o: Outcome, side: Side, phase: MapPhase)
    requires InPass(s) && AtMap(s) && Beside(s, u) && u.w == s.w
    requires u.pass.Some? && u.pass.value.cluster == s.pass.value.cluster && u.pass.value.at == s.pass.value.at
    requires InFlight(phase) ==> IsRoll(s.pass.value.call)
    ensures Quiet(s, Install(u, o, side, phase))
  {
    var t := Install(u, o, side, phase);
    if t.pass.None? {
      UneditedIsQuiet(s, t);
    } else {
      EditedIsQuiet(s, t, Mine(s).(phase := phase));
    }
  }

  lemma FirstPodIsQuiet(s: State, o: Outcome, hash: string)
    requires InPass(s) && s.pass.value.call == FirstCreate(hash)
    ensures Quiet(s, FirstPod(s, o, hash))
  {
    hide Slugs.MapSlug, Named;
    var t := FirstPod(s, o, hash);
    if t.pass.None? {
      UneditedIsQuiet(s, t);
    } else {
      EditedIsQuiet(s, t, Mine(s).(phase := Provisioning));
    }
  }

  lemma FirstIsQuiet(s: State, o: Outcome)
    requires InPass(s)
      && (s.pass.value.call.FirstJob? || s.pass.value.call.FirstInstall? || s.pass.value.call.FirstCreate?)
    ensures Quiet(s, ActFirst(s, o))
  {
    hide Quiet, FirstPod, FirstStart, Install;
    var side := VolumeSide(Mine(s).active);
    match s.pass.value.call
    case FirstJob(hash) => FirstStartIsQuiet(s, SeeJob(s, o, side, false), SeenVerdict(s, o, side), hash);
    case FirstInstall => InstallIsQuiet(s, Busy(s), o, side, InstallingActive);
    case FirstCreate(hash) => FirstPodIsQuiet(s, o, hash);
  }

  lemma RollIsQuiet(s: State, o: Outcome)
    requires InPass(s) && (s.pass.value.call.RollJob? || s.pass.value.call.RollInstall?)
    ensures Quiet(s, ActRoll(s, o))
  {
    var side := VolumeSide(OtherVolume(Mine(s).active));
    match s.pass.value.call
    case RollJob(pod) => RollUpdateIsQuiet(s, SeeJob(s, o, side, true), SeenVerdict(s, o, side), pod);
    case RollInstall => InstallIsQuiet(s, s, o, side, InstallingInactive);
  }

  lemma DispatchIsQuiet(s: State, o: Outcome)
    requires InPass(s) && s.pass.value.call.ReadAddress?
    ensures Quiet(s, ActDispatch(s, o))
  {
    var t := ActDispatch(s, o);
    var e := Addressed(Mine(s), s.w, o);
    var ReadAddress(hash, found) := s.pass.value.call;
    if found.Some? && found.value.hash == hash {
      SteadyIsQuiet(s, Edit(s, e), e, found.value);
    } else {
      EditedIsQuiet(s, t, e);
    }
  }

  lemma PutTwice(maps: seq<MapStatus>, d: MapStatus, e: MapStatus)
    requires d.id == e.id
    ensures Put(Put(maps, d), e) == Put(maps, e)
  {
    if maps != [] && maps[0].id != e.id {
      PutTwice(maps[1..], d, e);
      assert Put(maps, d)[1..] == Put(maps[1..], d);
    }
  }

  lemma SteadyIsQuiet(s: State, u: State, d: MapStatus, pod: Pod)
    requires InPass(s) && AtMap(s) && d.id == Id(s) && Soft(Mine(s), d) && d.phase == Mine(s).phase && u == Edit(s, d)
    ensures Quiet(s, Steady(u, pod))
  {
    var t := Steady(u, pod);
    var e :=
      if ShouldRollBack(d, pod) then d
      else if pod.crashing then WithCondition(d, PodReady, false, "PodCrashLooping", s.w.clock)
      else if pod.ready then AtReady(d, s.w.clock)
      else WithCondition(d, PodReady, false, "PodNotReady", s.w.clock);
    PutTwice(s.pass.value.cluster.status, d, e);
    EditedIsQuiet(s, t, e);
  }

  lemma SaveIsQuiet(s: State, o: Outcome)
    requires InPass(s) && s.pass.value.call.SaveAndExit?
    ensures Quiet(s, ActSwap(s, o))
  {
    UneditedIsQuiet(s, ActSwap(s, o));
  }

  lemma SwappedIsQuiet(s: State, o: Outcome)
    requires InPass(s) && (s.pass.value.call.SwapDelete? || s.pass.value.call.Rehash? || s.pass.value.call.SwapCreate?)
    ensures Quiet(s, ActSwapped(s, o))
  {
    hide ReadHash, Slugs.MapSlug;
    UneditedIsQuiet(s, ActSwapped(s, o));
  }

  lemma DeleteOrAnnounceIsQuiet(s: State, o: Outcome)
    requires InPass(s) && (s.pass.value.call.RollbackDelete? || s.pass.value.call.Announce?)
    ensures s.pass.value.call.RollbackDelete? ==> Quiet(s, ActRollback(s, o))
    ensures s.pass.value.call.Announce? ==> Quiet(s, ActDrain(s, o))
  {
    UneditedIsQuiet(s, if s.pass.value.call.Announce? then ActDrain(s, o) else ActRollback(s, o));
  }

  lemma FinishIsQuiet(s: State, o: Outcome)
    requires InPass(s)
      && (s.pass.value.call.EnsureCluster? || s.pass.value.call.ListOrphans? || s.pass.value.call.DeleteOrphan?)
    ensures Quiet(s, ActFinish(s, o))
  {
    UneditedIsQuiet(s, ActFinish(s, o));
  }

  /** Every call but the four status writes leaves the stored cluster alone. */
  lemma ActionIsQuiet(s: State, o: Outcome)
    requires InPass(s) && !IsWrite(s.pass.value.call)
    ensures Quiet(s, Action(s, o))
  {
    hide ActPrepare, ActDispatch, ActFirst, ActRollback, ActRoll, ActDrain, ActSwap, ActSwapped, ActFinish;
    match s.pass.value.call
    case EnsureMap | ReadRevisions | ListPods(_) => PrepareIsQuiet(s, o);
    case ReadAddress(_, _) => DispatchIsQuiet(s, o);
    case FirstJob(_) | FirstInstall | FirstCreate(_) => FirstIsQuiet(s, o);
    case RollJob(_) | RollInstall => RollIsQuiet(s, o);
    case SaveAndExit(_) => SaveIsQuiet(s, o);
    case SwapDelete(_) | Rehash | SwapCreate(_) => SwappedIsQuiet(s, o);
    case RollbackDelete(_) | Announce => DeleteOrAnnounceIsQuiet(s, o);
    case EnsureCluster | ListOrphans | DeleteOrphan(_) => FinishIsQuiet(s, o);
  }
}
