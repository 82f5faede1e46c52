/** The status a pass stores at its end agrees with spec: one entry per map, and a summary that says Running exactly
    when all are. */
module StatusAgreement {
  import opened ArkTypes
  import opened Statuses
  import opened World
  import opened Operator
  import opened Transitions
  import opened Coherence
  import RolloutSafety
  import GraceSafety
  import Slugs

  /* ---------- what agreement means ---------- */

  /** One entry for each map in spec and none else. */
  ghost predicate Matches(maps: seq<MapStatus>, spec: Spec) {
    && Distinct(maps)
    && |maps| == |spec.maps|
    && (forall m :: m in maps ==> exists i :: 0 <= i < |spec.maps| && spec.maps[i].id == m.id)
    && (forall i :: 0 <= i < |spec.maps| ==> Has(maps, spec.maps[i].id))
  }

  ghost predicate Agrees(c: Cluster) {
    && Matches(c.status, c.spec)
    && c.summary.total == |c.spec.maps|
    && 0 <= c.summary.ready <= c.summary.total
    && (c.summary.phase == ClusterRunning <==> c.summary.ready == c.summary.total && c.summary.total > 0)
    && (c.summary.phase == ClusterRunning <==> c.status != [] && forall m :: m in c.status ==> m.phase == Running)
  }

  /** Each stored end-of-pass status agrees with spec, unless spec lists a map twice. */
  ghost predicate EventAgrees(e: Event) {
    e.Wrote? && e.stored && e.kind == Final ==> (Agrees(e.after) <==> GraceSafety.DistinctIds(e.after.spec))
  }

  ghost predicate AllAgree(log: seq<Event>) {
    forall k :: 0 <= k < |log| ==> EventAgrees(log[k])
  }

  /* ---------- counting and aggregating ---------- */

  lemma {:induction false} ReadyCount(maps: seq<MapStatus>)
    ensures CountReady(maps) <= |maps|
    ensures CountReady(maps) == |maps| <==> forall i :: 0 <= i < |maps| ==> maps[i].phase == Running
  {
    if maps != [] {
      ReadyCount(maps[1..]);
      assert forall i :: 0 <= i < |maps[1..]| ==> maps[1..][i] == maps[i + 1];
      if CountReady(maps) == |maps| {
        forall i | 0 <= i < |maps| ensures maps[i].phase == Running {
          assert i > 0 ==> maps[i] == maps[1..][i - 1];
        }
      }
    }
  }

  /** The priorities of the roll-up: it reads Running exactly when there are maps and all of them are. */
  lemma AggregateRuns(maps: seq<MapStatus>)
    ensures AggregatePhase(maps) == ClusterRunning <==> maps != [] && CountReady(maps) == |maps|
  {
    ReadyCount(maps);
    if maps != [] && CountReady(maps) == |maps| {
      assert maps[0].phase == Running;
    }
  }

  /* ---------- prune ---------- */

  ghost predicate TellApart(ids: set<string>) {
    forall a, b :: a in ids && b in ids && Slugs.MapSlug(a) == Slugs.MapSlug(b) ==> a == b
  }

  ghost predicate StatusIn(maps: seq<MapStatus>, ids: set<string>) {
    forall m :: m in maps ==> m.id in ids
  }

  ghost predicate MapsIn(spec: Spec, ids: set<string>) {
    forall i :: 0 <= i < |spec.maps| ==> spec.maps[i].id in ids
  }

  lemma {:induction false} PruneHas(maps: seq<MapStatus>, spec: Spec, id: string)
    ensures Has(Prune(maps, spec), id) <==> Has(maps, id) && Kept(spec, Slugs.MapSlug(id))
  {
    hide Kept, Slugs.MapSlug;
    if maps != [] {
      var rest := Prune(maps[1..], spec);
      PruneHas(maps[1..], spec, id);
      HasCons(maps[0], maps[1..], id);
      HasCons(maps[0], rest, id);
      assert maps == [maps[0]] + maps[1..];
    }
  }

  lemma HasCons(m: MapStatus, rest: seq<MapStatus>, id: string)
    ensures Has([m] + rest, id) <==> m.id == id || Has(rest, id)
  {
    var maps := [m] + rest;
    assert maps[0] == m && forall i :: 0 <= i < |rest| ==> maps[i + 1] == rest[i];
  }

  function Ids(maps: seq<MapStatus>): set<string> {
    set m | m in maps :: m.id
  }

  function SpecIds(spec: Spec): set<string> {
    set m | m in spec.maps :: m.id
  }

  lemma {:induction false} DistinctCount(maps: seq<MapStatus>)
    requires Distinct(maps)
    ensures |Ids(maps)| == |maps|
  {
    if maps != [] {
      var n := |maps| - 1;
      DistinctCount(maps[..n]);
      assert Ids(maps) == Ids(maps[..n]) + {maps[n].id};
      assert maps[n].id !in Ids(maps[..n]);
    }
  }

  lemma {:induction false} SpecCount(spec: Spec)
    ensures |SpecIds(spec)| <= |spec.maps|
    ensures |SpecIds(spec)| == |spec.maps| <==> GraceSafety.DistinctIds(spec)
    decreases |spec.maps|
  {
    if spec.maps != [] {
      var n := |spec.maps| - 1;
      var rest := spec.(maps := spec.maps[..n]);
      SpecCount(rest);
      assert SpecIds(spec) == SpecIds(rest) + {spec.maps[n].id};
      LastIsNew(spec, rest);
    }
  }

  lemma LastIsNew(spec: Spec, rest: Spec)
    requires spec.maps != [] && rest == spec.(maps := spec.maps[..|spec.maps| - 1])
    ensures GraceSafety.DistinctIds(spec)
       <==> GraceSafety.DistinctIds(rest) && spec.maps[|spec.maps| - 1].id !in SpecIds(rest)
  {
    var n := |spec.maps| - 1;
    if spec.maps[n].id in SpecIds(rest) {
      var m :| m in rest.maps && m.id == spec.maps[n].id;
      var i :| 0 <= i < n && spec.maps[i] == m;
    } else {
      forall i | 0 <= i < n ensures spec.maps[i].id != spec.maps[n].id {
        assert spec.maps[i] == rest.maps[i] && rest.maps[i] in rest.maps;
      }
    }
    if GraceSafety.DistinctIds(spec) {
      forall i, j | 0 <= i < j < n ensures rest.maps[i].id != rest.maps[j].id {
        assert spec.maps[i].id != spec.maps[j].id;
      }
    }
    if GraceSafety.DistinctIds(rest) {
      forall i, j | 0 <= i < j < n ensures spec.maps[i].id != spec.maps[j].id {
        assert rest.maps[i].id != rest.maps[j].id;
      }
    }
  }

  /** Whoever shares a slug with a map in spec is in spec. */
  ghost predicate NoStray(maps: seq<MapStatus>, spec: Spec) {
    forall m :: m in maps && Kept(spec, Slugs.MapSlug(m.id)) ==> m.id in SpecIds(spec)
  }

  /** Pruning a status that covers spec leaves exactly spec if and only if spec lists no map twice and no entry of a
      map outside spec has the slug of one inside: the pruning goes by slug. */
  lemma PrunedMatches(maps: seq<MapStatus>, spec: Spec)
    requires Distinct(maps)
    requires forall i :: 0 <= i < |spec.maps| ==> Has(maps, spec.maps[i].id)
    ensures Matches(Prune(maps, spec), spec) <==> NoStray(maps, spec) && GraceSafety.DistinctIds(spec)
  {
    hide Slugs.MapSlug, GraceSafety.DistinctIds, Distinct;
    if NoStray(maps, spec) && GraceSafety.DistinctIds(spec) {
      PruneCovers(maps, spec);
    }
    if Matches(Prune(maps, spec), spec) {
      MatchingIsDistinct(Prune(maps, spec), spec);
      forall m | m in maps && Kept(spec, Slugs.MapSlug(m.id)) ensures m.id in SpecIds(spec) {
        MatchingIsNoStray(maps, spec, m);
      }
    }
  }

  lemma MatchingIsNoStray(maps: seq<MapStatus>, spec: Spec, m: MapStatus)
    requires Matches(Prune(maps, spec), spec) && m in maps && Kept(spec, Slugs.MapSlug(m.id))
    ensures m.id in SpecIds(spec)
  {
    hide Slugs.MapSlug, Kept, Distinct;
    PruneHas(maps, spec, m.id);
    assert Has(maps, m.id);
    var r := Prune(maps, spec);
    var k :| 0 <= k < |r| && r[k].id == m.id;
    assert r[k] in r;
    var i :| 0 <= i < |spec.maps| && spec.maps[i].id == m.id;
    assert spec.maps[i] in spec.maps;
  }

  lemma SameIds(maps: seq<MapStatus>, spec: Spec)
    requires forall m :: m in maps ==> exists i :: 0 <= i < |spec.maps| && spec.maps[i].id == m.id
    requires forall i :: 0 <= i < |spec.maps| ==> Has(maps, spec.maps[i].id)
    ensures Ids(maps) == SpecIds(spec)
  {
    forall id | id in Ids(maps) ensures id in SpecIds(spec) {
      var m :| m in maps && m.id == id;
      var i :| 0 <= i < |spec.maps| && spec.maps[i].id == m.id;
      assert spec.maps[i] in spec.maps;
    }
    forall id | id in SpecIds(spec) ensures id in Ids(maps) {
      var m :| m in spec.maps && m.id == id;
      var i :| 0 <= i < |spec.maps| && spec.maps[i] == m;
      assert Has(maps, spec.maps[i].id);
      var k :| 0 <= k < |maps| && maps[k].id == id;
      assert maps[k] in maps;
    }
  }

  lemma MatchingIsDistinct(maps: seq<MapStatus>, spec: Spec)
    requires Matches(maps, spec)
    ensures GraceSafety.DistinctIds(spec)
  {
    SameIds(maps, spec);
    DistinctCount(maps);
    SpecCount(spec);
  }

  lemma PruneCovers(maps: seq<MapStatus>, spec: Spec)
    requires GraceSafety.DistinctIds(spec) && Distinct(maps) && NoStray(maps, spec)
    requires forall i :: 0 <= i < |spec.maps| ==> Has(maps, spec.maps[i].id)
    ensures Matches(Prune(maps, spec), spec)
  {
    hide Slugs.MapSlug;
    var r := Prune(maps, spec);
    RolloutSafety.PruneKeepsDistinct(maps, spec);
    forall i | 0 <= i < |spec.maps| ensures Has(r, spec.maps[i].id) {
      PruneHas(maps, spec, spec.maps[i].id);
      assert Kept(spec, Slugs.MapSlug(spec.maps[i].id));
    }
    forall m | m in r ensures exists i :: 0 <= i < |spec.maps| && spec.maps[i].id == m.id {
      PruneHas(maps, spec, m.id);
      assert Has(r, m.id);
      assert m in maps && m.id in SpecIds(spec);
      var n :| n in spec.maps && n.id == m.id;
    }
    SameIds(r, spec);
    DistinctCount(r);
    SpecCount(spec);
  }

  lemma ApartIsNoStray(maps: seq<MapStatus>, spec: Spec, ids: set<string>)
    requires TellApart(ids) && StatusIn(maps, ids) && MapsIn(spec, ids)
    ensures NoStray(maps, spec)
  {
    hide Slugs.MapSlug;
    forall m | m in maps && Kept(spec, Slugs.MapSlug(m.id)) ensures m.id in SpecIds(spec) {
      var i :| 0 <= i < |spec.maps| && Slugs.MapSlug(spec.maps[i].id) == Slugs.MapSlug(m.id);
      assert spec.maps[i] in spec.maps;
    }
  }

  lemma FinishedAgrees(c: Cluster, ids: set<string>)
    requires TellApart(ids) && StatusIn(c.status, ids) && MapsIn(c.spec, ids) && Distinct(c.status)
    requires forall i :: 0 <= i < |c.spec.maps| ==> Has(c.status, c.spec.maps[i].id)
    ensures Agrees(Finished(c)) <==> GraceSafety.DistinctIds(c.spec)
  {
    ApartIsNoStray(c.status, c.spec, ids);
    PrunedMatches(c.status, c.spec);
    ReadyCount(Finished(c).status);
    AggregateRuns(Finished(c).status);
    hide Prune, AggregatePhase, CountReady, TellApart, StatusIn, MapsIn, Distinct, NoStray, GraceSafety.DistinctIds;
  }

  /* ---------- what a pass has listed so far ---------- */

  /** How many maps in spec the pass has listed for sure. */
  function Reached(p: Pass): nat {
    if p.call.EnsureCluster? then 0 else if StartsMap(p.call) || EndsPass(p.call) then p.at else p.at + 1
  }

  ghost predicate CoversTo(maps: seq<MapStatus>, spec: Spec, n: nat) {
    forall i :: 0 <= i < |spec.maps| && i < n ==> Has(maps, spec.maps[i].id)
  }

  ghost predicate WellListed(maps: seq<MapStatus>, ids: set<string>) {
    StatusIn(maps, ids) && Distinct(maps)
  }

  ghost predicate PassLists(p: Pass, ids: set<string>) {
    MapsIn(p.cluster.spec, ids) && WellListed(p.cluster.status, ids)
      && CoversTo(p.cluster.status, p.cluster.spec, Reached(p))
  }

  ghost predicate Lists(s: State, ids: set<string>) {
    && MapsIn(s.w.cluster.spec, ids) && WellListed(s.w.cluster.status, ids)
    && (s.pass.Some? ==> PassLists(s.pass.value, ids))
  }

  lemma ExtendsIn(a: seq<MapStatus>, b: seq<MapStatus>, own: Option<string>, ids: set<string>)
    requires StatusIn(a, ids) && Extends(a, b, own) && (own.Some? ==> own.value in ids)
    ensures StatusIn(b, ids)
  {
    forall m | m in b ensures m.id in ids {
      assert Has(b, m.id);
      if Has(a, m.id) {
        var i :| 0 <= i < |a| && a[i].id == m.id;
        assert a[i] in a;
      }
    }
  }

  lemma ExtendsCovers(a: seq<MapStatus>, b: seq<MapStatus>, own: Option<string>, spec: Spec, n: nat)
    requires CoversTo(a, spec, n) && Extends(a, b, own)
    ensures CoversTo(b, spec, n)
  {
    hide Has;
  }

  lemma ReachedFurther(s: State, t: State)
    requires InPass(s) && Wf(t) && t.pass.Some? && Moves(s, t)
    ensures Reached(t.pass.value) <= Reached(s.pass.value) + (if s.pass.value.call.EnsureMap? then 1 else 0)
    ensures s.pass.value.call.EnsureMap? ==> Reached(t.pass.value) == s.pass.value.at + 1
  {
  }

  lemma QuietLists(s: State, t: State, ids: set<string>)
    requires InPass(s) && Wf(t) && Moves(s, t) && Quiet(s, t) && Lists(s, ids)
    requires s.pass.value.call.EnsureMap? && t.pass.Some? ==> Has(t.pass.value.cluster.status, Id(s))
    ensures Lists(t, ids)
  {
    if t.pass.Some? {
      var p, q := s.pass.value, t.pass.value;
      ReachedFurther(s, t);
      assert Extends(p.cluster.status, q.cluster.status, At(s));
      hide Quiet, Extends, Has, StatusIn, Distinct;
      ListsFurther(s, t, ids);
    }
  }

  lemma ListsFurther(s: State, t: State, ids: set<string>)
    requires InPass(s) && t.pass.Some? && SoftPass(s, t) && PassLists(s.pass.value, ids)
    requires Reached(t.pass.value) <= Reached(s.pass.value) + (if s.pass.value.call.EnsureMap? then 1 else 0)
    requires s.pass.value.call.EnsureMap? ==> Has(t.pass.value.cluster.status, Id(s))
    ensures PassLists(t.pass.value, ids)
  {
    hide Extends, Has, StatusIn, Distinct, SoftStatuses, FlightGrowsBy, OthersKept;
    var p, q := s.pass.value, t.pass.value;
    ExtendsCovers(p.cluster.status, q.cluster.status, At(s), p.cluster.spec, Reached(p));
    ExtendsIn(p.cluster.status, q.cluster.status, At(s), ids);
  }

  lemma EnsureMapHas(s: State, o: Outcome)
    requires InPass(s) && s.pass.value.call.EnsureMap?
    ensures ActPrepare(s, o).pass.Some? ==> Has(ActPrepare(s, o).pass.value.cluster.status, Id(s))
  {
    PutExtends(s.pass.value.cluster.status, Mine(s).(active := Defaulted(Mine(s).active)));
    hide Has;
  }

  lemma WriteLists(s: State, t: State, kind: WriteKind, e: MapStatus, ids: set<string>)
    requires InPass(s) && AtMap(s) && !s.pass.value.call.EnsureMap? && Wf(t) && Moves(s, t)
      && WritesEntry(s, t, kind, e)
    requires e.id == Id(s) && Lists(s, ids) && SpecsStay(s, t)
    ensures Lists(t, ids)
  {
    hide Has, StatusIn, Distinct, CoversTo;
    var maps := s.pass.value.cluster.status;
    PutExtends(maps, e);
    PutKeepsDistinct(maps, e);
    ExtendsIn(maps, Put(maps, e), Some(e.id), ids);
    if t.pass.Some? {
      ReachedFurther(s, t);
      ExtendsCovers(maps, Put(maps, e), Some(e.id), s.pass.value.cluster.spec, Reached(s.pass.value));
      CoversLess(Put(maps, e), s.pass.value.cluster.spec, Reached(t.pass.value), Reached(s.pass.value));
    }
  }

  lemma CoversLess(maps: seq<MapStatus>, spec: Spec, m: nat, n: nat)
    requires CoversTo(maps, spec, n) && m <= n
    ensures CoversTo(maps, spec, m)
  {
    hide Has;
  }

  lemma MidWriteLists(s: State, o: Outcome, ids: set<string>)
    requires InPass(s) && IsWrite(s.pass.value.call) && !s.pass.value.call.FinalWrite? && Lists(s, ids)
    ensures Lists(Action(s, o), ids)
  {
    hide ActPrepare, ActDispatch, ActFirst, ActRollback, ActRoll, ActDrain, ActSwap, ActSwapped, ActFinish;
    hide WritesEntry, Lists, SpecsStay;
    var t := Action(s, o);
    ActionKeepsSpecs(s, o);
    match s.pass.value.call
    case DrainPersist(since) =>
      DrainWritesEntry(s, o);
      WriteLists(s, t, DrainStart(since, Grace(s.pass.value.cluster.spec)),
        AtDrainStart(Mine(s), since, s.pass.value.cluster.spec), ids);
    case SwapPersist(_) =>
      SwapWritesEntry(s, o);
      WriteLists(s, t, Swap, AtSwap(Mine(s)), ids);
    case RollbackPersist(_) =>
      RollbackWritesEntry(s, o);
      WriteLists(s, t, Rollback, AtRollback(Mine(s), s.w.clock), ids);
  }

  lemma FinalWriteLists(s: State, o: Outcome, ids: set<string>)
    requires InPass(s) && s.pass.value.call.FinalWrite? && Lists(s, ids)
    ensures Lists(ActFinish(s, o), ids)
  {
    var maps, spec := s.pass.value.cluster.status, s.pass.value.cluster.spec;
    FinalWriteEffect(s, o);
    ActionKeepsSpecs(s, o);
    RolloutSafety.PruneKeepsDistinct(maps, spec);
    hide ActFinish, Prune, Distinct, CoversTo;
  }

  lemma BeginLists(s: State, o: Outcome, ids: set<string>)
    requires s.pass.None? && Lists(s, ids)
    ensures Lists(ActBegin(s, o), ids)
  {
    hide StatusIn, Distinct, MapsIn;
  }

  lemma ActionLists(s: State, o: Outcome, ids: set<string>)
    requires Wf(s) && Lists(s, ids)
    ensures Lists(Action(s, o), ids)
  {
    hide ActPrepare, ActDispatch, ActFirst, ActRollback, ActRoll, ActDrain, ActSwap, ActSwapped, ActFinish, ActBegin;
    hide Lists, Quiet, Has;
    if s.pass.None? {
      BeginLists(s, o, ids);
    } else {
      match s.pass.value.call
      case DrainPersist(_) | SwapPersist(_) | RollbackPersist(_) => MidWriteLists(s, o, ids);
      case FinalWrite => FinalWriteLists(s, o, ids);
      case EnsureMap =>
        EnsureMapHas(s, o);
        ActionIsQuiet(s, o);
        QuietLists(s, Action(s, o), ids);
      case _ =>
        ActionIsQuiet(s, o);
        QuietLists(s, Action(s, o), ids);
    }
  }

  /* ---------- the events ---------- */

  lemma FinalEventAgrees(s: State, o: Outcome, ids: set<string>)
    requires InPass(s) && s.pass.value.call.FinalWrite? && Lists(s, ids) && Synced(s) && TellApart(ids)
    ensures |ActFinish(s, o).w.log| > |s.w.log| ==> EventAgrees(ActFinish(s, o).w.log[|s.w.log|])
  {
    FinishedAgrees(s.pass.value.cluster, ids);
    FinalEventIs(s, o);
    hide ActFinish, Finished, Agrees;
  }

  lemma FinalEventIs(s: State, o: Outcome)
    requires InPass(s) && s.pass.value.call.FinalWrite? && Synced(s)
    ensures |ActFinish(s, o).w.log| > |s.w.log| ==>
      var e := ActFinish(s, o).w.log[|s.w.log|];
      var c := Finished(s.pass.value.cluster);
      e.Wrote? && e.stored ==> e.after == c.(rev := e.after.rev)
  {
    hide Prune, CountReady, AggregatePhase, SoftStatuses;
  }

  lemma OtherEventsAgree(s: State, o: Outcome)
    requires InPass(s) && !s.pass.value.call.FinalWrite?
    ensures |Action(s, o).w.log| > |s.w.log| ==> EventAgrees(Action(s, o).w.log[|s.w.log|])
  {
    hide Action, Agrees;
  }

  lemma ActionAgrees(s: State, o: Outcome, ids: set<string>)
    requires Wf(s) && Lists(s, ids) && Synced(s) && TellApart(ids)
    ensures |Action(s, o).w.log| > |s.w.log| ==> EventAgrees(Action(s, o).w.log[|s.w.log|])
  {
    hide ActPrepare, ActDispatch, ActFirst, ActRollback, ActRoll, ActDrain, ActSwap, ActSwapped, ActFinish;
    hide Lists, Synced, Agrees;
    if s.pass.Some? {
      if s.pass.value.call.FinalWrite? {
        FinalEventAgrees(s, o, ids);
      } else {
        OtherEventsAgree(s, o);
      }
    }
  }

  ghost predicate EnvSpecsIn(labels: seq<Label>, ids: set<string>) {
    forall l :: l in labels && l.Env? ==> MapsIn(l.world.cluster.spec, ids)
  }

  lemma StepAgrees(s: State, l: Label, ids: set<string>)
    requires Wf(s) && Sound(s) && Lists(s, ids) && TellApart(ids) && AllAgree(s.w.log)
    requires l.Env? ==> MapsIn(l.world.cluster.spec, ids)
    ensures Lists(Step(s, l), ids) && AllAgree(Step(s, l).w.log)
  {
    hide Action, Synced, Placed, EventAgrees, TellApart, MapsIn, WellListed, PassLists;
    if l.Act? {
      var t := Action(s, l.outcome);
      ActionLists(s, l.outcome, ids);
      ActionAgrees(s, l.outcome, ids);
      forall k | 0 <= k < |t.w.log| ensures EventAgrees(t.w.log[k]) {
        assert k < |s.w.log| ==> t.w.log[k] == t.w.log[..|s.w.log|][k];
      }
    }
  }

  lemma {:induction false} RunAgrees(s: State, labels: seq<Label>, ids: set<string>)
    requires Wf(s) && Sound(s) && Lists(s, ids) && TellApart(ids) && AllAgree(s.w.log) && EnvSpecsIn(labels, ids)
    ensures Sound(Run(s, labels)) && Lists(Run(s, labels), ids) && AllAgree(Run(s, labels).w.log)
  {
    hide Action, Sound, Lists, AllAgree, TellApart, MapsIn;
    if labels != [] {
      var prefix, l := labels[..|labels| - 1], labels[|labels| - 1];
      assert l in labels;
      RunAgrees(s, prefix, ids);
      StepKeepsSound(Run(s, prefix), l);
      StepAgrees(Run(s, prefix), l, ids);
    }
  }

  /** In every run over specs and statuses whose maps' IDs have distinct slugs, each status stored at the end of a pass
      has exactly one entry per map of the spec it is stored with, counts no more maps ready than there are, and reads
      Running exactly when all of them, at least one, are ready; if and only if that spec lists no map twice. */
  lemma StatusAgreesWithSpec(s: State, labels: seq<Label>, ids: set<string>)
    requires s.pass.None? && s.w.log == [] && TellApart(ids) && EnvSpecsIn(labels, ids)
    requires MapsIn(s.w.cluster.spec, ids) && StatusIn(s.w.cluster.status, ids) && Distinct(s.w.cluster.status)
    ensures AllAgree(Run(s, labels).w.log)
  {
    RunAgrees(s, labels, ids);
  }
}
