/** Convergence: pass by pass, in an environment that lets Jobs finish and pods come up, the cluster gets strictly
    closer to every map running as wanted, under every rollout policy, and stays there. */
module Convergence {
  import opened ArkTypes
  import opened Statuses
  import opened World
  import opened Operator
  import opened Turns
  import opened Handover
  import opened LivePods
  import opened CalmPass
  import opened WholePass
  import GraceSafety
  import RolloutSafety
  import Runs
  import StatusAgreement
  import Slugs

  /** Between two passes: time passes, Jobs succeed and stay, terminating pods vanish, live ones stay and become
      ready; spec, summary and revisions hold still. */
  ghost predicate Helpful(u: World, v: World) {
    && EnvMay(u, v)
    && v.hash == u.hash && v.cluster.spec == u.cluster.spec && v.cluster.summary == u.cluster.summary
    && v.iniRevs == u.iniRevs && v.secretsRev == u.secretsRev && v.addresses == u.addresses
    && v.clock > u.clock
    && (forall key :: key in u.jobs ==> key in v.jobs)
    && (forall key :: key in v.jobs ==> JobVerdict(v.jobs[key]) == JobSucceeded)
    && (forall q :: q in v.pods ==> !q.terminating && q.ready && !q.crashing)
    && (forall p :: p in u.pods && !p.terminating ==> exists q :: q in v.pods && SamePod(p, q))
  }

  ghost predicate Round(w: World, v: World) {
    exists u :: OnePass(w, u) && Helpful(u, v)
  }

  ghost predicate OnCourse(w: World) {
    DistinctSlugs(w.cluster.spec) && Promising(w, w.cluster) && WellListed(w.cluster.spec, w.cluster.status)
  }

  /* ---------- the measure ---------- */

  function RankSum(w: World, n: nat): nat
    requires n <= |w.cluster.spec.maps|
  {
    if n == 0 then 0 else RankSum(w, n - 1) + RankAt(w, n - 1)
  }

  lemma {:induction false} PruneLength(maps: seq<MapStatus>, spec: Spec)
    ensures |Prune(maps, spec)| <= |maps|
    ensures |Prune(maps, spec)| == |maps| <==> NoStale(spec, maps)
  {
    hide Kept, Slugs.MapSlug;
    if maps != [] {
      PruneLength(maps[1..], spec);
      assert maps == [maps[0]] + maps[1..];
      assert NoStale(spec, maps) <==> Kept(spec, Slugs.MapSlug(maps[0].id)) && NoStale(spec, maps[1..]);
    }
  }

  function Stale(w: World): nat {
    PruneLength(w.cluster.status, w.cluster.spec);
    |w.cluster.status| - |Prune(w.cluster.status, w.cluster.spec)|
  }

  /** The ranks of the maps in spec, and what is left of maps that are not. */
  function Distance(w: World): nat {
    RankSum(w, |w.cluster.spec.maps|) + Stale(w) + |Orphans(w.pods, w.cluster.spec)|
  }

  lemma {:induction false} SumsCompare(w: World, v: World, n: nat)
    requires n <= |w.cluster.spec.maps| && v.cluster.spec == w.cluster.spec
    requires forall i: nat :: i < n ==> RankAt(v, i) <= RankAt(w, i)
    ensures RankSum(v, n) <= RankSum(w, n)
    ensures (exists i: nat :: i < n && RankAt(v, i) < RankAt(w, i)) ==> RankSum(v, n) < RankSum(w, n)
  {
    hide RankAt;
    if n > 0 {
      SumsCompare(w, v, n - 1);
    }
  }

  lemma {:induction false} SumIsZero(w: World, n: nat)
    requires n <= |w.cluster.spec.maps|
    ensures RankSum(w, n) == 0 <==> forall i: nat :: i < n ==> RankAt(w, i) == 0
  {
    hide RankAt;
    if n > 0 {
      SumIsZero(w, n - 1);
    }
  }

  /* ---------- what help does to one map ---------- */

  lemma TurnStaysHopeful(x: Setting, l: Local)
    requires Hopeful(l)
    ensures Hopeful(Turn(x, l))
  {
    hide SetCondition;
  }

  lemma HelpedPods(u: World, v: World, slug: string)
    requires Helpful(u, v) && LiveOne(u.pods, slug)
    ensures Single(v.pods, slug)
    ensures FirstWith(u.pods, slug, None).None? ==> FirstWith(v.pods, slug, None).None?
  {
    forall q | q in v.pods && q.slug == slug
      ensures exists p :: p in u.pods && Live(p, slug) && SamePod(p, q)
    {
      var p :| p in u.pods && SamePod(p, q);
      assert Live(p, slug);
    }
    forall q, r | q in v.pods && r in v.pods && q.slug == slug && r.slug == slug ensures q == r {
      assert SameName(q, r);
      var i :| 0 <= i < |v.pods| && v.pods[i] == q;
      var j :| 0 <= j < |v.pods| && v.pods[j] == r;
      assert i == j;
    }
  }

  lemma HelpedPod(u: World, v: World, slug: string)
    requires Helpful(u, v) && LiveOne(u.pods, slug) && FirstWith(u.pods, slug, None).Some?
    requires !FirstWith(u.pods, slug, None).value.crashing
    ensures FirstWith(v.pods, slug, None) == Some(FirstWith(u.pods, slug, None).value.(ready := true))
  {
    HelpedPods(u, v, slug);
    var p := FirstWith(u.pods, slug, None).value;
    var q :| q in v.pods && SamePod(p, q);
    assert Live(q, slug);
    assert q == p.(ready := true);
  }

  lemma HelpedView(u: World, v: World, i: nat)
    requires Helpful(u, v) && i < |u.cluster.spec.maps|
    requires LiveOne(u.pods, SlugAt(u.cluster.spec, i)) && Hopeful(ViewAt(u, u.cluster, i))
    ensures Single(v.pods, SlugAt(u.cluster.spec, i))
    ensures Helps(ViewAt(u, u.cluster, i), ViewAt(v, v.cluster, i))
  {
    hide Slugs.MapSlug, FirstWith, Single, LiveOne, JobVerdict, EnvMay;
    var slug := SlugAt(u.cluster.spec, i);
    HelpedPods(u, v, slug);
    if FirstWith(u.pods, slug, None).Some? {
      HelpedPod(u, v, slug);
    }
    StatusIsKept(u, v);
  }

  lemma StatusIsKept(u: World, v: World)
    requires EnvMay(u, v)
    ensures v.cluster.status == u.cluster.status
  {
  }

  /* ---------- one round ---------- */

  lemma SettingLater(w: World, u: World, v: World, i: nat)
    requires SameSurroundings(w, u) && Helpful(u, v) && i < |w.cluster.spec.maps|
    ensures Later(SettingOf(w, w.cluster.spec, i, Gate(w.cluster)), SettingOf(v, v.cluster.spec, i, Gate(v.cluster)))
  {
    hide Slugs.MapSlug, EnvMay, Gate;
  }

  predicate HeldAt(w: World, i: nat)
    requires i < |w.cluster.spec.maps|
  {
    SettingOf(w, w.cluster.spec, i, Gate(w.cluster)).held
  }

  lemma MapProgress(w: World, u: World, v: World, i: nat)
    requires OnCourse(w) && PassOutcome(w, u) && Helpful(u, v) && i < |w.cluster.spec.maps|
    ensures v.cluster.spec == w.cluster.spec
    ensures Single(v.pods, SlugAt(v.cluster.spec, i)) && Hopeful(ViewAt(v, v.cluster, i))
    ensures RankAt(v, i) <= RankAt(w, i)
    ensures RankAt(w, i) > 0 && !HeldAt(w, i) ==> RankAt(v, i) < RankAt(w, i)
  {
    hide Slugs.MapSlug, EnvMay, Gate, Single, LiveOne, Turn, Rank, ViewAt, SettingOf, Hopeful, WellListed, Listed;
    SameSpec(w, u, v);
    assert ViewAt(u, u.cluster, i) == TurnAt(w, i) && LiveOne(u.pods, SlugAt(w.cluster.spec, i));
    var x := SettingOf(w, w.cluster.spec, i, Gate(w.cluster));
    var y := SettingOf(v, v.cluster.spec, i, Gate(v.cluster));
    TurnStaysHopeful(x, ViewAt(w, w.cluster, i));
    hide Helpful, PassOutcome;
    HelpedView(u, v, i);
    SettingLater(w, u, v, i);
    RankDrops(x, y, ViewAt(w, w.cluster, i), ViewAt(v, v.cluster, i));
  }

  lemma SameSpec(w: World, u: World, v: World)
    requires SameSurroundings(w, u) && Helpful(u, v)
    ensures v.cluster.spec == w.cluster.spec == u.cluster.spec
  {
  }

  /** If anything is left to do, some map that may move has it to do: the gating map is never at rest. */
  lemma SomeoneMoves(w: World, k: nat) returns (i: nat)
    requires OnCourse(w) && k < |w.cluster.spec.maps| && RankAt(w, k) > 0 && NoStale(w.cluster.spec, w.cluster.status)
    ensures i < |w.cluster.spec.maps| && RankAt(w, i) > 0 && !HeldAt(w, i)
  {
    hide Slugs.MapSlug, Rank, FirstWith, VerdictOf, Hopeful;
    var gate := Gate(w.cluster);
    if gate == "" {
      i := k;
    } else {
      RolloutSafety.FirstInFlightIsListed(w.cluster.status);
      RolloutSafety.FirstInFlightIsInFlight(w.cluster.status);
      var l :| 0 <= l < |w.cluster.status| && w.cluster.status[l].id == gate;
      var m := w.cluster.status[l];
      assert m in w.cluster.status;
      assert Kept(w.cluster.spec, Slugs.MapSlug(m.id));
      var j :| 0 <= j < |w.cluster.spec.maps| && Slugs.MapSlug(w.cluster.spec.maps[j].id) == Slugs.MapSlug(m.id);
      i := j;
      assert w.cluster.spec.maps[i].id == gate;
      if RankAt(w, i) == 0 {
        AtRest(SettingOf(w, w.cluster.spec, i, gate), ViewAt(w, w.cluster, i));
      }
    }
  }

  lemma NothingLeftOver(w: World, u: World, v: World)
    requires OnCourse(w) && PassOutcome(w, u) && Helpful(u, v)
    ensures Stale(v) == 0 && |Orphans(v.pods, v.cluster.spec)| == 0
    ensures WellListed(v.cluster.spec, v.cluster.status)
  {
    hide Slugs.MapSlug, Kept, ViewAt, Single, LiveOne, Hopeful, WellListed, TurnAt, Prune, AllAtRest;
    var spec := w.cluster.spec;
    StatusIsKept(u, v);
    SameSpec(w, u, v);
    PruneLength(v.cluster.status, spec);
    forall q | q in v.pods ensures q.slug == "" || Kept(spec, q.slug) {
      var p :| p in u.pods && SamePod(p, q);
      assert !p.terminating;
    }
    NoOrphans(v.pods, spec);
  }

  lemma StaysOnCourse(w: World, u: World, v: World)
    requires OnCourse(w) && PassOutcome(w, u) && Helpful(u, v)
    ensures OnCourse(v) && v.cluster.spec == w.cluster.spec
  {
    NothingLeftOver(w, u, v);
    SameSpec(w, u, v);
    hide Slugs.MapSlug, PassOutcome, Helpful, Single, Hopeful, ViewAt, SlugAt, WellListed;
    forall i: nat | i < |w.cluster.spec.maps|
      ensures Single(v.pods, SlugAt(v.cluster.spec, i)) && Hopeful(ViewAt(v, v.cluster, i))
    {
      MapProgress(w, u, v, i);
    }
  }

  lemma RanksProgress(w: World, u: World, v: World)
    requires OnCourse(w) && PassOutcome(w, u) && Helpful(u, v) && v.cluster.spec == w.cluster.spec
    ensures var n := |w.cluster.spec.maps|;
      && RankSum(v, n) <= RankSum(w, n)
      && (RankSum(w, n) > 0 && NoStale(w.cluster.spec, w.cluster.status) ==> RankSum(v, n) < RankSum(w, n))
  {
    hide RankAt, PassOutcome, Helpful, HeldAt, NoStale, OnCourse;
    var n := |w.cluster.spec.maps|;
    forall i: nat | i < n ensures RankAt(v, i) <= RankAt(w, i) {
      MapProgress(w, u, v, i);
    }
    SumsCompare(w, v, n);
    if RankSum(w, n) > 0 && NoStale(w.cluster.spec, w.cluster.status) {
      SumIsZero(w, n);
      var k: nat :| k < n && RankAt(w, k) > 0;
      var i := SomeoneMoves(w, k);
      MapProgress(w, u, v, i);
    }
  }

  lemma RoundProgressFrom(w: World, u: World, v: World)
    requires OnCourse(w) && PassOutcome(w, u) && Helpful(u, v)
    ensures OnCourse(v) && v.cluster.spec == w.cluster.spec
    ensures Distance(w) > 0 ==> Distance(v) < Distance(w)
    ensures Distance(w) == 0 ==> Distance(v) == 0
  {
    StaysOnCourse(w, u, v);
    NothingLeftOver(w, u, v);
    StaleOrNot(w);
    RanksProgress(w, u, v);
    hide OnCourse, PassOutcome, Helpful, Stale, Orphans, NoStale, RankSum;
  }

  lemma StaleOrNot(w: World)
    ensures Stale(w) == 0 <==> NoStale(w.cluster.spec, w.cluster.status)
  {
    PruneLength(w.cluster.status, w.cluster.spec);
  }

  /* ---------- all rounds ---------- */

  lemma OnePassIsUnique(w: World, u: World, v: World)
    requires OnePass(w, u) && OnePass(w, v)
    ensures u == v
  {
    hide ActBegin, Calmly;
    var b := ActBegin(State(w, None), Ok);
    var s :| Reaches(b, s) && s.pass.None? && s.w == u;
    var t :| Reaches(b, t) && t.pass.None? && t.w == v;
    var m: nat :| Calmly(b, m) == s;
    var n: nat :| Calmly(b, n) == t;
    EndIsUnique(b, m, n);
  }

  /** An undisturbed pass is a run of the step system in which every call succeeds. */
  lemma {:induction false} CalmlyIsARun(s: State, labels: seq<Label>, n: nat) returns (more: seq<Label>)
    requires Wf(s)
    ensures Run(s, more) == Calmly(Run(s, labels), n)
    ensures labels <= more && forall k :: |labels| <= k < |more| ==> more[k] == Act(Ok)
    decreases n
  {
    hide Action, Run;
    more := labels;
    if n > 0 && Run(s, labels).pass.Some? {
      Runs.Then(s, labels, Act(Ok));
      more := CalmlyIsARun(s, labels + [Act(Ok)], n - 1);
      assert labels <= labels + [Act(Ok)] <= more;
      forall k | |labels| <= k < |more| ensures more[k] == Act(Ok) {
        if k == |labels| {
          assert more[k] == (labels + [Act(Ok)])[k];
        }
      }
    }
  }

  lemma OnePassIsARun(w: World, v: World) returns (labels: seq<Label>)
    requires OnePass(w, v)
    ensures Run(State(w, None), labels) == State(v, None) && forall l :: l in labels ==> l == Act(Ok)
  {
    hide ActBegin, Calmly;
    var s := State(w, None);
    var b := ActBegin(s, Ok);
    var t :| Reaches(b, t) && t.pass.None? && t.w == v;
    var n: nat :| Calmly(b, n) == t;
    Runs.ActedOn(s, Ok);
    labels := CalmlyIsARun(s, [Act(Ok)], n);
  }

  /** One round: the cluster stays on course, and as long as anything is left to do, less is left after it. */
  lemma RoundProgress(w: World, v: World)
    requires OnCourse(w) && Round(w, v)
    ensures OnCourse(v) && v.cluster.spec == w.cluster.spec
    ensures Distance(w) > 0 ==> Distance(v) < Distance(w)
    ensures Distance(w) == 0 ==> Distance(v) == 0
  {
    hide OnePass, Helpful, PassOutcome, Distance;
    var u :| OnePass(w, u) && Helpful(u, v);
    var u' := PassTurns(w);
    OnePassIsUnique(w, u, u');
    RoundProgressFrom(w, u, v);
  }

  /** OneAtATime looks at the statuses stored before the pass and at nothing else: when they have no map mid-update,
      one pass starts every map that drifted. */
  lemma IdlePassStartsEveryDrift(w: World, v: World, i: nat)
    requires OnCourse(w) && OnePass(w, v) && Gate(w.cluster) == "" && i < |w.cluster.spec.maps|
    requires Drifted(SettingOf(w, w.cluster.spec, i, ""), ViewAt(w, w.cluster, i))
    ensures InFlight(Entry(v.cluster.status, w.cluster.spec.maps[i].id).phase)
  {
    var u := PassTurns(w);
    OnePassIsUnique(w, u, v);
    hide Slugs.MapSlug, SettingOf, Turn, FirstWith, VerdictOf, Kept, Listed, WellListed, SetCondition, Single, Hopeful;
    hide LiveOne;
    assert ViewAt(v, v.cluster, i) == TurnAt(w, i);
    DriftStarts(SettingOf(w, w.cluster.spec, i, ""), ViewAt(w, w.cluster, i));
    NotHeld(w, i);
  }

  lemma NotHeld(w: World, i: nat)
    requires i < |w.cluster.spec.maps|
    ensures !SettingOf(w, w.cluster.spec, i, "").held
  {
  }

  ghost predicate Rounds(ws: seq<World>) {
    forall k :: 0 <= k < |ws| - 1 ==> Round(ws[k], ws[k + 1])
  }

  /** The distance of the first cluster bounds the number of rounds until nothing is left to do. */
  lemma {:induction false} Converges(ws: seq<World>)
    requires ws != [] && OnCourse(ws[0]) && Rounds(ws) && |ws| > Distance(ws[0])
    ensures var last := ws[|ws| - 1];
      OnCourse(last) && Distance(last) == 0 && last.cluster.spec == ws[0].cluster.spec
  {
    hide OnCourse, Round, Distance;
    if |ws| > 1 {
      assert Round(ws[0], ws[0 + 1]);
      RoundProgress(ws[0], ws[1]);
      assert ws[1..][0] == ws[1];
      forall k | 0 <= k < |ws[1..]| - 1 ensures Round(ws[1..][k], ws[1..][k + 1]) {
        assert Round(ws[k + 1], ws[k + 1 + 1]);
      }
      if Distance(ws[0]) == 0 {
        RoundsStay(ws[1..]);
      } else {
        Converges(ws[1..]);
      }
    }
  }

  lemma {:induction false} RoundsStay(ws: seq<World>)
    requires ws != [] && OnCourse(ws[0]) && Rounds(ws) && Distance(ws[0]) == 0
    ensures var last := ws[|ws| - 1];
      OnCourse(last) && Distance(last) == 0 && last.cluster.spec == ws[0].cluster.spec
  {
    hide OnCourse, Round, Distance;
    if |ws| > 1 {
      assert Round(ws[0], ws[0 + 1]);
      RoundProgress(ws[0], ws[1]);
      forall k | 0 <= k < |ws[1..]| - 1 ensures Round(ws[1..][k], ws[1..][k + 1]) {
        assert Round(ws[k + 1], ws[k + 1 + 1]);
      }
      RoundsStay(ws[1..]);
    }
  }

  /** The map has exactly one server pod: ready, not going away, with the wanted hash; and its status says Running. */
  ghost predicate RunsAsWanted(w: World, i: nat)
    requires i < |w.cluster.spec.maps|
  {
    var spec := w.cluster.spec;
    var e := Entry(w.cluster.status, spec.maps[i].id);
    && e.phase == Running && e.lastGood == e.active
    && (exists p :: p in w.pods && Live(p, SlugAt(spec, i)) && p.ready && p.hash == DesiredOf(w, spec, i)(e.active))
    && Single(w.pods, SlugAt(spec, i))
  }

  /** When nothing is left to do every map runs as wanted, and a further undisturbed pass changes no map status, no
      pod and no Job; its summary counts every map ready and reads Running, if there are maps. */
  lemma AtRestAtLast(w: World, v: World)
    requires OnCourse(w) && Distance(w) == 0 && OnePass(w, v)
    ensures forall i: nat :: i < |w.cluster.spec.maps| ==> RunsAsWanted(w, i)
    ensures StaysPut(w, v) && v.cluster.summary == AllReady(|w.cluster.spec.maps|)
  {
    var u := PassTurns(w);
    OnePassIsUnique(w, u, v);
    SummaryIsAllReady(w, v);
    SumIsZero(w, |w.cluster.spec.maps|);
    StaleOrNot(w);
    NothingChanges(w, v);
    hide OnePass, PassOutcome, NoStale, Orphans, RankAt, SlugAt, ViewAt, Single, Hopeful, RunsAsWanted;
    forall i: nat | i < |w.cluster.spec.maps| ensures RunsAsWanted(w, i) {
      ZeroRuns(w, i);
    }
  }

  function AllReady(n: nat): Summary {
    Summary(n, n, if n > 0 then ClusterRunning else ClusterPending)
  }

  lemma SlugsTellIds(spec: Spec)
    requires DistinctSlugs(spec)
    ensures GraceSafety.DistinctIds(spec)
  {
    hide Slugs.MapSlug;
    forall i, j | 0 <= i < j < |spec.maps| ensures spec.maps[i].id != spec.maps[j].id {
      SlugsDiffer(spec, i, j);
    }
  }

  /** At rest the statuses are those of the maps in spec, all of them Running. */
  lemma RestIsRunning(w: World)
    requires OnCourse(w) && Distance(w) == 0
    ensures StatusAgreement.Matches(w.cluster.status, w.cluster.spec)
    ensures forall m :: m in w.cluster.status ==> m.phase == Running
  {
    var spec, maps := w.cluster.spec, w.cluster.status;
    SumIsZero(w, |spec.maps|);
    StaleOrNot(w);
    SlugsTellIds(spec);
    PruneLeavesNoStale(maps, spec);
    hide Slugs.MapSlug, RankAt, Orphans, SettingOf, Single, Prune, RankSum, LocalOf, Has, Entry, NoStale, DistinctSlugs;
    hide Promising, StatusAgreement.NoStray;
    forall i: nat | i < |spec.maps|
      ensures Entry(maps, spec.maps[i].id).phase == Running && Has(maps, spec.maps[i].id)
    {
      RestIsListed(w, i);
    }
    forall m | m in maps ensures m.id in StatusAgreement.SpecIds(spec) && m.phase == Running {
      RestIsKept(spec, maps, m);
    }
    RestIsNoStray(spec, maps);
    StatusAgreement.PrunedMatches(maps, spec);
  }

  lemma RestIsListed(w: World, i: nat)
    requires OnCourse(w) && i < |w.cluster.spec.maps| && RankAt(w, i) == 0
    ensures var e := Entry(w.cluster.status, w.cluster.spec.maps[i].id);
      e.phase == Running && Has(w.cluster.status, e.id)
  {
    hide Slugs.MapSlug, Orphans, SettingOf, Prune, RankSum;
    ZeroRuns(w, i);
    EntryIsListed(w.cluster.status, w.cluster.spec.maps[i].id);
  }

  lemma RestIsKept(spec: Spec, maps: seq<MapStatus>, m: MapStatus)
    requires m in maps && WellListed(spec, maps) && NoStale(spec, maps)
    requires forall i :: 0 <= i < |spec.maps| ==> Entry(maps, spec.maps[i].id).phase == Running
    ensures m.id in StatusAgreement.SpecIds(spec) && m.phase == Running
  {
    hide Slugs.MapSlug, Entry;
    var i :| 0 <= i < |spec.maps| && Slugs.MapSlug(spec.maps[i].id) == Slugs.MapSlug(m.id);
    assert m.id == spec.maps[i].id && spec.maps[i] in spec.maps;
    DistinctEntry(maps, m);
  }

  lemma RestIsNoStray(spec: Spec, maps: seq<MapStatus>)
    requires forall m :: m in maps ==> m.id in StatusAgreement.SpecIds(spec)
    ensures StatusAgreement.NoStray(maps, spec)
  {
    hide Slugs.MapSlug, Kept;
  }

  lemma {:induction false} EntryIsListed(maps: seq<MapStatus>, id: string)
    requires Entry(maps, id) != Blank(id)
    ensures Has(maps, id)
  {
    if maps[0].id != id {
      EntryIsListed(maps[1..], id);
      var i :| 0 <= i < |maps[1..]| && maps[1..][i].id == id;
      assert maps[i + 1].id == id;
    }
  }

  lemma {:induction false} DistinctEntry(maps: seq<MapStatus>, m: MapStatus)
    requires Distinct(maps) && m in maps
    ensures Entry(maps, m.id) == m
  {
    if maps[0] != m {
      assert m in maps[1..];
      var i :| 0 <= i < |maps| && maps[i] == m;
      assert maps[0].id != maps[i].id;
      DistinctEntry(maps[1..], m);
    }
  }

  lemma SummaryIsAllReady(w: World, v: World)
    requires OnCourse(w) && Distance(w) == 0 && PassOutcome(w, v)
    ensures v.cluster.summary == AllReady(|w.cluster.spec.maps|)
  {
    NothingChanges(w, v);
    RestIsRunning(w);
    StatusAgreement.ReadyCount(w.cluster.status);
    StatusAgreement.AggregateRuns(w.cluster.status);
    hide Orphans, RankSum, Promising, Listed, WellListed, ViewAt, TurnAt, Stale, LiveOne, SlugAt, Distinct, RankAt;
    hide NoStale;
    hide CountReady;
    forall i | 0 <= i < |w.cluster.status| ensures w.cluster.status[i].phase == Running {
      assert w.cluster.status[i] in w.cluster.status;
    }
  }

  /** A cluster at rest that a round led to already has the summary that every further pass writes. */
  lemma SummaryStays(before: World, w: World, v: World)
    requires OnCourse(before) && Round(before, w) && Distance(w) == 0 && OnePass(w, v)
    ensures v.cluster.summary == w.cluster.summary
  {
    RoundProgress(before, w);
    AtRestAtLast(w, v);
    hide OnePass, PassOutcome, OnCourse, Distance;
    var u :| OnePass(before, u) && Helpful(u, w);
    var u' := PassTurns(before);
    OnePassIsUnique(before, u, u');
    var end := PassTurns(w);
    OnePassIsUnique(w, v, end);
    SummaryIsOfStatus(before, u);
    SummaryIsOfStatus(w, v);
    StatusIsKept(u, w);
  }

  function SummaryOf(spec: Spec, maps: seq<MapStatus>): Summary {
    Summary(|spec.maps|, CountReady(maps), AggregatePhase(maps))
  }

  lemma SummaryIsOfStatus(w: World, v: World)
    requires Promising(w, w.cluster) && PassOutcome(w, v)
    ensures v.cluster.summary == SummaryOf(w.cluster.spec, v.cluster.status) && v.cluster.spec == w.cluster.spec
  {
    hide CountReady, AggregatePhase, Listed, WellListed, TurnAt, ViewAt, LiveOne;
  }

  lemma NothingChanges(w: World, v: World)
    requires Promising(w, w.cluster) && PassOutcome(w, v) && Distance(w) == 0
    ensures StaysPut(w, v)
  {
    SumIsZero(w, |w.cluster.spec.maps|);
    StaleOrNot(w);
    assert AllAtRest(w);
    hide AllAtRest, NoStale, Orphans, RankSum, Promising, Listed, WellListed, ViewAt, TurnAt, StaysPut, Stale, LiveOne;
    hide SlugAt;
  }

  lemma ZeroRuns(w: World, i: nat)
    requires OnCourse(w) && i < |w.cluster.spec.maps| && RankAt(w, i) == 0
    ensures RunsAsWanted(w, i)
  {
    hide Slugs.MapSlug, VerdictOf, DesiredOf, Gate, SetCondition;
    AtRest(SettingOf(w, w.cluster.spec, i, Gate(w.cluster)), ViewAt(w, w.cluster, i));
    ZeroIsRecorded(SettingOf(w, w.cluster.spec, i, Gate(w.cluster)), ViewAt(w, w.cluster, i));
  }

  lemma ZeroIsRecorded(x: Setting, l: Local)
    requires Rank(x, l) == 0
    ensures l.entry.lastGood == l.entry.active
  {
    hide SetCondition;
  }

  /* ---------- help is possible ---------- */

  function Revived(pods: seq<Pod>): (r: seq<Pod>)
    ensures forall q :: q in r ==> !q.terminating && q.ready && !q.crashing
    ensures forall q :: q in r ==> exists p :: p in pods && !p.terminating && SamePod(p, q)
    ensures forall p :: p in pods && !p.terminating ==> exists q :: q in r && SamePod(p, q)
  {
    if pods == [] then []
    else if pods[0].terminating then Revived(pods[1..])
    else
      var q := pods[0].(ready := true, crashing := false);
      assert SamePod(pods[0], q);
      [q] + Revived(pods[1..])
  }

  lemma SamePodName(p: Pod, q: Pod, r: Pod)
    requires SamePod(p, r)
    ensures SameName(q, r) ==> SameName(q, p)
  {
  }

  lemma RevivedHead(pods: seq<Pod>)
    requires pods != [] && UniqueNames(pods)
    ensures forall j :: 0 <= j < |Revived(pods[1..])| ==> !SameName(pods[0], Revived(pods[1..])[j])
  {
    var rest := Revived(pods[1..]);
    hide SameName, SamePod, Revived;
    forall j | 0 <= j < |rest| ensures !SameName(pods[0], rest[j]) {
      assert rest[j] in rest;
      var p :| p in pods[1..] && !p.terminating && SamePod(p, rest[j]);
      var k :| 0 <= k < |pods[1..]| && pods[1..][k] == p;
      assert !SameName(pods[0], pods[k + 1]);
      SamePodName(p, pods[0], rest[j]);
    }
  }

  lemma ConsUnique(p: Pod, q: Pod, rest: seq<Pod>)
    requires UniqueNames(rest) && SamePod(p, q)
    requires forall j :: 0 <= j < |rest| ==> !SameName(p, rest[j])
    ensures UniqueNames([q] + rest)
  {
    forall i, j | 0 <= i < j < |[q] + rest| ensures !SameName(([q] + rest)[i], ([q] + rest)[j]) {
      assert ([q] + rest)[j] == rest[j - 1];
      if i > 0 {
        assert ([q] + rest)[i] == rest[i - 1];
      } else {
        assert !SameName(p, rest[j - 1]);
      }
    }
  }

  lemma {:induction false} RevivedNames(pods: seq<Pod>)
    requires UniqueNames(pods)
    ensures UniqueNames(Revived(pods))
  {
    if pods != [] {
      TailUnique(pods);
      RevivedNames(pods[1..]);
      if !pods[0].terminating {
        var q := pods[0].(ready := true, crashing := false);
        RevivedHead(pods);
        assert SamePod(pods[0], q);
        hide UniqueNames, SameName, SamePod;
        ConsUnique(pods[0], q, Revived(pods[1..]));
      }
    }
  }

  lemma TailUnique(pods: seq<Pod>)
    requires pods != [] && UniqueNames(pods)
    ensures UniqueNames(pods[1..])
  {
    hide SameName;
    forall i, j | 0 <= i < j < |pods[1..]| ensures !SameName(pods[1..][i], pods[1..][j]) {
      assert !SameName(pods[i + 1], pods[j + 1]);
    }
  }

  lemma RevivedMay(u: World, v: World)
    requires UniqueNames(v.pods) && v.pods == Revived(u.pods) && v.cluster == u.cluster && v.log == u.log
      && v.clock >= u.clock
    ensures EnvMay(u, v)
  {
    hide UniqueNames, SamePod;
  }

  lemma HelpBy(u: World, v: World)
    requires EnvMay(u, v) && v.pods == Revived(u.pods) && v.clock == u.clock + 1
    requires v == u.(pods := v.pods, clock := v.clock, jobs := v.jobs)
    requires v.jobs == map key | key in u.jobs :: [JobCondition(Complete, true)]
    ensures Helpful(u, v)
  {
    hide EnvMay, SamePod, Revived;
    CompleteSucceeds();
    hide JobVerdict;
    assert v.hash == u.hash && v.cluster.spec == u.cluster.spec && v.addresses == u.addresses;
    assert v.iniRevs == u.iniRevs && v.secretsRev == u.secretsRev;
  }

  lemma CompleteSucceeds()
    ensures JobVerdict([JobCondition(Complete, true)]) == JobSucceeded
  {
  }

  /** A world whose pod names are unique can be helped. */
  lemma HelpIsPossible(u: World) returns (v: World)
    requires UniqueNames(u.pods)
    ensures Helpful(u, v) && UniqueNames(v.pods)
  {
    RevivedNames(u.pods);
    v := u.(pods := Revived(u.pods), clock := u.clock + 1,
            jobs := map key | key in u.jobs :: [JobCondition(Complete, true)]);
    hide UniqueNames, EnvMay, Helpful, Revived;
    RevivedMay(u, v);
    HelpBy(u, v);
  }

  lemma DeletionKeepsNames(s: State, o: Outcome, why: DeleteReason, about: string, pod: Pod)
    requires UniqueNames(s.w.pods)
    ensures UniqueNames(Delete(s, o, why, about, pod).w.pods)
  {
  }

  lemma CreationKeepsNames(s: State, o: Outcome, hash: string)
    requires AtMap(s) && UniqueNames(s.w.pods)
    ensures UniqueNames(Create(s, o, hash).w.pods)
  {
    hide Slugs.MapSlug;
    var pod := NewPod(s, hash);
    forall i | 0 <= i < |s.w.pods| && !Named(s.w.pods, pod.slug, hash) ensures !SameName(s.w.pods[i], pod) {
    }
  }

  /** No call makes two pods of one name. */
  lemma ActionKeepsNames(s: State, o: Outcome)
    requires Wf(s) && UniqueNames(s.w.pods)
    ensures UniqueNames(Action(s, o).w.pods)
  {
    hide ActPrepare, ActDispatch, ActFirst, ActRollback, ActRoll, ActDrain, ActSwap, ActSwapped, ActFinish, ActBegin;
    hide UniqueNames, Delete, Create;
    if s.pass.Some? {
      var call := s.pass.value.call;
      if LeavesPods(call) {
        PodsStay(s, o);
      } else if Creates(call) {
        CreatedWorld(s, o);
        CreationKeepsNames(Creator(s), o, call.hash);
      } else {
        match call
        case DeleteOrphan(todo) =>
          OrphanDeletion(s, o);
          DeletionKeepsNames(s, o, Orphaned, todo[0].slug, todo[0]);
        case SwapDelete(pod) =>
          SwapDeletion(s, o);
          DeletionKeepsNames(s, o, ByRoll, Id(s), pod);
        case RollbackDelete(pod) =>
          RollbackDeletion(s, o);
          DeletionKeepsNames(s, o, ByRollback, Id(s), pod);
        case _ => ListingKeepsPods(s, o);
      }
    }
  }

  lemma {:induction false} CalmKeepsNames(s: State, n: nat)
    requires Wf(s) && UniqueNames(s.w.pods)
    ensures UniqueNames(Calmly(s, n).w.pods)
    decreases n
  {
    hide Action, UniqueNames;
    if n > 0 && s.pass.Some? {
      ActionKeepsNames(s, Ok);
      CalmKeepsNames(Action(s, Ok), n - 1);
    }
  }

  /** Rounds exist: on course and with unique pod names, a pass and a helping environment lead somewhere, and there pod
      names are unique again. */
  lemma RoundsExist(w: World) returns (v: World)
    requires OnCourse(w) && UniqueNames(w.pods)
    ensures Round(w, v) && OnCourse(v) && UniqueNames(v.pods)
  {
    hide UniqueNames, Helpful, Calmly, PassOutcome, DistinctSlugs, Promising, WellListed;
    var u := PassTurns(w);
    var b := ActBegin(State(w, None), Ok);
    var t :| Reaches(b, t) && t.pass.None? && t.w == u;
    var n: nat :| Calmly(b, n) == t;
    CalmKeepsNames(b, n);
    v := HelpIsPossible(u);
    RoundProgress(w, v);
  }

  /** And rest is reached: some rounds, no more than the distance there is to go, lead to a cluster with nothing left
      to do. */
  lemma {:induction false} RestIsReached(w: World) returns (ws: seq<World>)
    requires OnCourse(w) && UniqueNames(w.pods)
    ensures ws != [] && ws[0] == w && Rounds(ws) && |ws| <= Distance(w) + 1
    ensures OnCourse(ws[|ws| - 1]) && Distance(ws[|ws| - 1]) == 0
    decreases Distance(w)
  {
    hide OnCourse, UniqueNames, Round, Distance;
    if Distance(w) == 0 {
      ws := [w];
    } else {
      var v := RoundsExist(w);
      RoundProgress(w, v);
      var rest := RestIsReached(v);
      ws := [w] + rest;
      forall k | 0 <= k < |ws| - 1 ensures Round(ws[k], ws[k + 1]) {
        if k > 0 {
          assert Round(rest[k - 1], rest[k - 1 + 1]);
        }
      }
    }
  }
}
