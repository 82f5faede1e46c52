/** An undisturbed pass over the whole cluster: every map takes its turn, orphans go, the statuses are stored. */
module WholePass {
  import opened ArkTypes
  import opened Statuses
  import opened World
  import opened Operator
  import opened Coherence
  import opened Turns
  import opened LivePods
  import opened CalmPass
  import RolloutSafety
  import Slugs

  /* ---------- the starting point ---------- */

  function SlugAt(spec: Spec, i: nat): string
    requires i < |spec.maps|
  {
    Slugs.MapSlug(spec.maps[i].id)
  }

  ghost predicate DistinctSlugs(spec: Spec) {
    && (forall i, j :: 0 <= i < j < |spec.maps| ==> SlugAt(spec, i) != SlugAt(spec, j))
    && (forall i :: 0 <= i < |spec.maps| ==> SlugAt(spec, i) != "")
  }

  /** No status entry of a map that left spec shares a slug with one in spec. */
  ghost predicate NoNamesake(spec: Spec, maps: seq<MapStatus>) {
    forall m, i :: m in maps && 0 <= i < |spec.maps| && Slugs.MapSlug(m.id) == SlugAt(spec, i) ==>
      m.id == spec.maps[i].id
  }

  ghost predicate WellListed(spec: Spec, maps: seq<MapStatus>) {
    Distinct(maps) && NoNamesake(spec, maps)
  }

  function ViewAt(w: World, c: Cluster, i: nat): Local
    requires i < |c.spec.maps|
  {
    LocalOf(w.pods, w.jobs, c, c.spec.maps[i].id)
  }

  /** One server pod per map at most, none going away or crash-looping, no init Job failed. */
  ghost predicate Promising(w: World, c: Cluster) {
    forall i :: 0 <= i < |c.spec.maps| ==> Single(w.pods, SlugAt(c.spec, i)) && Hopeful(ViewAt(w, c, i))
  }

  /** Only maps in `from..` are as they were; those before have taken their turn. */
  ghost predicate Underway(w: World, s: State, n: nat) {
    && DistinctSlugs(w.cluster.spec) && Promising(w, w.cluster)
    && s.pass.Some?
    && var p, spec := s.pass.value, w.cluster.spec;
    && p.cluster.spec == spec && p.gate == Gate(w.cluster) && p.at == n <= |spec.maps|
    && p.call == (if n < |spec.maps| then EnsureMap else ListOrphans)
    && SameSurroundings(w, s.w) && Current(s)
    && AllWaiting(w, s, n) && AllDone(w, s, n)
    && SameOutside(w.pods, s.w.pods, spec)
    && (WellListed(spec, w.cluster.status) ==> WellListed(spec, p.cluster.status))
  }

  ghost predicate Waiting(w: World, s: State, i: nat)
    requires s.pass.Some? && i < |w.cluster.spec.maps| && s.pass.value.cluster.spec == w.cluster.spec
  {
    ViewAt(s.w, s.pass.value.cluster, i) == ViewAt(w, w.cluster, i) && Single(s.w.pods, SlugAt(w.cluster.spec, i))
  }

  function TurnAt(w: World, i: nat): Local
    requires i < |w.cluster.spec.maps| && Hopeful(ViewAt(w, w.cluster, i))
  {
    Turn(SettingOf(w, w.cluster.spec, i, Gate(w.cluster)), ViewAt(w, w.cluster, i))
  }

  ghost predicate Done(w: World, s: State, i: nat)
    requires s.pass.Some? && i < |w.cluster.spec.maps| && s.pass.value.cluster.spec == w.cluster.spec
    requires Hopeful(ViewAt(w, w.cluster, i))
  {
    ViewAt(s.w, s.pass.value.cluster, i) == TurnAt(w, i) && LiveOne(s.w.pods, SlugAt(w.cluster.spec, i))
  }

  ghost predicate AllWaiting(w: World, s: State, n: nat)
    requires s.pass.Some? && s.pass.value.cluster.spec == w.cluster.spec
  {
    forall i: nat :: n <= i < |w.cluster.spec.maps| ==> Waiting(w, s, i)
  }

  ghost predicate AllDone(w: World, s: State, n: nat)
    requires s.pass.Some? && s.pass.value.cluster.spec == w.cluster.spec && Promising(w, w.cluster)
    requires n <= |w.cluster.spec.maps|
  {
    forall i: nat :: i < n ==> Done(w, s, i)
  }

  /** The lists agree on the pods of maps not in spec. */
  ghost predicate SameOutside(a: seq<Pod>, b: seq<Pod>, spec: Spec) {
    forall p: Pod :: !Kept(spec, p.slug) ==> (p in a <==> p in b)
  }

  /* ---------- one map after the other ---------- */

  lemma FirstWithFrame(a: seq<Pod>, b: seq<Pod>, slug: string, other: string)
    requires PodFrame(a, b, slug) && other != slug && LiveOne(a, other)
    ensures FirstWith(b, other, None) == FirstWith(a, other, None) && LiveOne(b, other)
    ensures Single(a, other) ==> Single(b, other)
  {
    var p, q := FirstWith(a, other, None), FirstWith(b, other, None);
    if p.Some? {
      assert p.value in b;
    }
    if q.Some? {
      assert q.value in a;
    }
  }

  lemma JobsFrame(a: map<JobKey, seq<JobCondition>>, b: map<JobKey, seq<JobCondition>>, slug: string, spec: Spec,
      id: string)
    requires JobFrame(a, b, slug) && Slugs.MapSlug(id) != slug
    ensures forall side :: VerdictOf(b, Job(spec, id, side)) == VerdictOf(a, Job(spec, id, side))
  {
    hide Slugs.MapSlug, JobVerdict;
  }

  lemma ViewFrame(s: State, t: State, m: Local, i: nat)
    requires AtMap(s) && WorldTurns(s, t, m) && Lands(s, t, m.entry)
    requires i < |s.pass.value.cluster.spec.maps| && SlugAt(s.pass.value.cluster.spec, i) != Slug(s)
    requires LiveOne(s.w.pods, SlugAt(s.pass.value.cluster.spec, i))
    ensures ViewAt(t.w, t.pass.value.cluster, i) == ViewAt(s.w, s.pass.value.cluster, i)
    ensures LiveOne(t.w.pods, SlugAt(s.pass.value.cluster.spec, i))
    ensures Single(s.w.pods, SlugAt(s.pass.value.cluster.spec, i)) ==>
      Single(t.w.pods, SlugAt(s.pass.value.cluster.spec, i))
  {
    hide Slugs.MapSlug, JobVerdict, FirstWith, Single, LiveOne, PodFrame, JobFrame;
    var spec := s.pass.value.cluster.spec;
    FirstWithFrame(s.w.pods, t.w.pods, Slug(s), SlugAt(spec, i));
    JobsFrame(s.w.jobs, t.w.jobs, Slug(s), spec, spec.maps[i].id);
  }

  lemma OutsideFrame(a: seq<Pod>, b: seq<Pod>, spec: Spec, i: nat)
    requires i < |spec.maps| && PodFrame(a, b, SlugAt(spec, i))
    ensures SameOutside(a, b, spec)
  {
    hide Slugs.MapSlug;
    assert Kept(spec, SlugAt(spec, i));
  }

  lemma SameSetting(w: World, v: World, spec: Spec, i: nat, gate: string)
    requires SameSurroundings(w, v) && i < |spec.maps|
    ensures SettingOf(v, spec, i, gate) == SettingOf(w, spec, i, gate)
  {
    hide Slugs.MapSlug;
  }

  lemma UnderwayStarts(w: World, s: State, i: nat)
    requires i < |w.cluster.spec.maps| && Wf(s) && Underway(w, s, i)
    ensures CalmStart(s) && View(s) == ViewAt(w, w.cluster, i) && Slug(s) == SlugAt(w.cluster.spec, i)
    ensures Around(s) == SettingOf(w, w.cluster.spec, i, Gate(w.cluster))
  {
    hide Slugs.MapSlug, LocalOf, SettingOf, Single, Hopeful, Done, SameSurroundings, SameOutside, WellListed;
    hide DistinctSlugs, Gate;
    assert Waiting(w, s, i);
    SameSetting(w, s.w, w.cluster.spec, i, Gate(w.cluster));
  }

  lemma SlugsDiffer(spec: Spec, i: nat, j: nat)
    requires DistinctSlugs(spec) && i < |spec.maps| && j < |spec.maps| && i != j
    ensures SlugAt(spec, i) != SlugAt(spec, j)
  {
    hide SlugAt;
  }

  lemma SingleIsLiveOne(pods: seq<Pod>, slug: string)
    requires Single(pods, slug)
    ensures LiveOne(pods, slug)
  {
  }

  /** What landing leaves of the pass. */
  lemma LandsFurther(w: World, s: State, t: State, e: MapStatus, i: nat)
    requires AtMap(s) && Lands(s, t, e) && Current(s) && SameSurroundings(w, s.w) && s.pass.value.at == i
    ensures t.pass.value.cluster.spec == s.pass.value.cluster.spec && t.pass.value.gate == s.pass.value.gate
    ensures t.pass.value.at == i + 1
    ensures t.pass.value.call == (if i + 1 < |s.pass.value.cluster.spec.maps| then EnsureMap else ListOrphans)
    ensures SameSurroundings(w, t.w) && Current(t)
  {
  }

  lemma PutKeepsWellListed(spec: Spec, maps: seq<MapStatus>, e: MapStatus, i: nat)
    requires DistinctSlugs(spec) && WellListed(spec, maps) && i < |spec.maps| && e.id == spec.maps[i].id
    ensures WellListed(spec, Put(maps, e))
  {
    hide Slugs.MapSlug;
    PutKeepsDistinct(maps, e);
    PutShape(maps, e);
    forall m, j | m in Put(maps, e) && 0 <= j < |spec.maps| && Slugs.MapSlug(m.id) == SlugAt(spec, j)
      ensures m.id == spec.maps[j].id
    {
      if i != j {
        SlugsDiffer(spec, i, j);
      }
      var k :| 0 <= k < |Put(maps, e)| && Put(maps, e)[k] == m;
      assert k < |maps| ==> maps[k].id == m.id;
    }
  }

  lemma LandsWellListed(w: World, s: State, t: State, e: MapStatus, i: nat)
    requires AtMap(s) && Lands(s, t, e) && s.pass.value.at == i && s.pass.value.cluster.spec == w.cluster.spec
    requires DistinctSlugs(w.cluster.spec)
    ensures WellListed(w.cluster.spec, s.pass.value.cluster.status) ==>
      WellListed(w.cluster.spec, t.pass.value.cluster.status)
  {
    hide WellListed, DistinctSlugs;
    if WellListed(w.cluster.spec, s.pass.value.cluster.status) {
      PutKeepsWellListed(w.cluster.spec, s.pass.value.cluster.status, e, i);
    }
  }

  lemma TurnedIsDone(w: World, s: State, t: State, i: nat)
    requires i < |w.cluster.spec.maps| && Hopeful(ViewAt(w, w.cluster, i))
    requires AtMap(s) && s.pass.value.cluster.spec == w.cluster.spec && s.pass.value.at == i
    requires Hopeful(View(s)) && Turned(s, t)
    requires View(s) == ViewAt(w, w.cluster, i) && Around(s) == SettingOf(w, w.cluster.spec, i, Gate(w.cluster))
    ensures Done(w, t, i)
  {
    hide Slugs.MapSlug, SettingOf, LiveOne, Turn, FirstWith, VerdictOf, PodFrame, JobFrame;
  }

  lemma OthersWait(w: World, s: State, t: State, m: Local, i: nat)
    requires DistinctSlugs(w.cluster.spec) && Promising(w, w.cluster) && i < |w.cluster.spec.maps|
    requires AtMap(s) && s.pass.value.cluster.spec == w.cluster.spec && s.pass.value.at == i
    requires t.pass.Some? && Lands(s, t, m.entry) && WorldTurns(s, t, m) && t.pass.value.cluster.spec == w.cluster.spec
    requires AllWaiting(w, s, i)
    ensures AllWaiting(w, t, i + 1)
  {
    hide Single, Hopeful, ViewAt, SlugAt, WorldTurns, Lands, Waiting, DistinctSlugs, Done, Slugs.MapSlug, Turn;
    forall j: nat | i + 1 <= j < |w.cluster.spec.maps| ensures Waiting(w, t, j) {
      assert Waiting(w, s, j);
      OtherGoesOn(w, s, t, m, i, j);
    }
  }

  lemma OthersAreDone(w: World, s: State, t: State, m: Local, i: nat)
    requires DistinctSlugs(w.cluster.spec) && Promising(w, w.cluster) && i < |w.cluster.spec.maps|
    requires AtMap(s) && s.pass.value.cluster.spec == w.cluster.spec && s.pass.value.at == i
    requires t.pass.Some? && Lands(s, t, m.entry) && WorldTurns(s, t, m) && t.pass.value.cluster.spec == w.cluster.spec
    requires AllDone(w, s, i) && Done(w, t, i)
    ensures AllDone(w, t, i + 1)
  {
    hide Single, Hopeful, ViewAt, SlugAt, WorldTurns, Lands, Waiting, DistinctSlugs, Done, Slugs.MapSlug, Turn;
    forall j: nat | j < i ensures Done(w, t, j) {
      assert Done(w, s, j);
      OtherGoesOn(w, s, t, m, i, j);
    }
  }

  /** The map at hand takes its turn. */
  lemma TurnGoesOn(w: World, s: State, t: State, i: nat)
    requires i < |w.cluster.spec.maps| && Wf(s) && Underway(w, s, i) && CalmStart(s) && Turned(s, t)
    requires View(s) == ViewAt(w, w.cluster, i) && Slug(s) == SlugAt(w.cluster.spec, i)
    requires Around(s) == SettingOf(w, w.cluster.spec, i, Gate(w.cluster))
    ensures Underway(w, t, i + 1)
  {
    var m := Turn(Around(s), View(s));
    LandsFurther(w, s, t, m.entry, i);
    LandsWellListed(w, s, t, m.entry, i);
    TurnedIsDone(w, s, t, i);
    hide Promising, DistinctSlugs, Done, Lands, WorldTurns, SameSurroundings, SameOutside, WellListed, CalmStart;
    hide Current;
    hide AllWaiting, AllDone, ViewAt, SlugAt, Turn, SettingOf, LocalOf, Slugs.MapSlug;
    OthersWait(w, s, t, m, i);
    OthersAreDone(w, s, t, m, i);
    TurnOutside(w, s, t, m, i);
  }

  lemma OtherGoesOn(w: World, s: State, t: State, m: Local, i: nat, j: nat)
    requires DistinctSlugs(w.cluster.spec) && i < |w.cluster.spec.maps| && j < |w.cluster.spec.maps| && i != j
    requires AtMap(s) && s.pass.value.cluster.spec == w.cluster.spec && s.pass.value.at == i
    requires Lands(s, t, m.entry) && WorldTurns(s, t, m) && Hopeful(ViewAt(w, w.cluster, j))
    ensures Done(w, s, j) ==> Done(w, t, j)
    ensures Waiting(w, s, j) ==> Waiting(w, t, j)
  {
    hide Slugs.MapSlug, LocalOf, Single, LiveOne, Hopeful, Turn, TurnAt, WorldTurns;
    SlugsDiffer(w.cluster.spec, j, i);
    if Done(w, s, j) {
      ViewFrame(s, t, m, j);
    }
    if Waiting(w, s, j) {
      SingleIsLiveOne(s.w.pods, SlugAt(w.cluster.spec, j));
      ViewFrame(s, t, m, j);
    }
  }

  lemma TurnOutside(w: World, s: State, t: State, m: Local, i: nat)
    requires AtMap(s) && WorldTurns(s, t, m) && i < |w.cluster.spec.maps| && Slug(s) == SlugAt(w.cluster.spec, i)
    requires SameOutside(w.pods, s.w.pods, w.cluster.spec)
    ensures SameOutside(w.pods, t.w.pods, w.cluster.spec)
  {
    hide Slugs.MapSlug, Kept;
    OutsideFrame(s.w.pods, t.w.pods, w.cluster.spec, i);
  }

  /* ---------- maps at rest ---------- */

  function RankAt(w: World, i: nat): nat
    requires i < |w.cluster.spec.maps|
  {
    Rank(SettingOf(w, w.cluster.spec, i, Gate(w.cluster)), ViewAt(w, w.cluster, i))
  }

  ghost predicate AllAtRest(w: World) {
    forall i: nat :: i < |w.cluster.spec.maps| ==> RankAt(w, i) == 0
  }

  /** Nothing the pass has done so far shows. */
  predicate Unmoved(w: World, s: State) {
    s.pass.Some? && s.w.pods == w.pods && s.w.jobs == w.jobs && s.pass.value.cluster.status == w.cluster.status
  }

  lemma {:induction false} PutSame(maps: seq<MapStatus>, id: string)
    requires Entry(maps, id) != Blank(id)
    ensures Put(maps, Entry(maps, id)) == maps
  {
    if maps[0].id != id {
      PutSame(maps[1..], id);
      assert maps == [maps[0]] + maps[1..];
    }
  }

  lemma RestStays(w: World, s: State, t: State, i: nat)
    requires Promising(w, w.cluster) && i < |w.cluster.spec.maps| && RankAt(w, i) == 0
    requires AtMap(s) && s.pass.value.at == i && s.pass.value.cluster.spec == w.cluster.spec && Unmoved(w, s)
    requires View(s) == ViewAt(w, w.cluster, i) && Around(s) == SettingOf(w, w.cluster.spec, i, Gate(w.cluster))
    requires Hopeful(View(s)) && Turned(s, t)
    ensures t.pass.Some? && Unmoved(w, t)
  {
    AtRest(Around(s), View(s));
    PutSame(w.cluster.status, Id(s));
    hide Slugs.MapSlug, FirstWith, VerdictOf, SettingOf, Turn, Ready;
  }

  lemma UnderwayIsAt(w: World, s: State, i: nat)
    requires Underway(w, s, i)
    ensures s.pass.Some? && s.pass.value.at == i && s.pass.value.cluster.spec == w.cluster.spec
  {
  }

  lemma CalmStartIsHopeful(s: State)
    requires Wf(s) && CalmStart(s)
    ensures Hopeful(View(s))
  {
  }

  /** The pass gets from s to the n-th map at t. */
  ghost predicate GetsTo(w: World, s: State, t: State, n: nat)
    requires Wf(s)
  {
    Wf(t) && Reaches(s, t) && Underway(w, t, n) && (AllAtRest(w) && Unmoved(w, s) ==> Unmoved(w, t))
  }

  lemma OneTurn(w: World, s: State, i: nat) returns (t: State)
    requires i < |w.cluster.spec.maps| && Wf(s) && Underway(w, s, i)
    ensures GetsTo(w, s, t, i + 1)
  {
    UnderwayStarts(w, s, i);
    UnderwayIsAt(w, s, i);
    CalmStartIsHopeful(s);
    hide DistinctSlugs, CalmStart, Turned, Unmoved, Reaches, RankAt, View, Around, ViewAt, SettingOf, SlugAt;
    t := MapTurn(s);
    TurnGoesOn(w, s, t, i);
    if AllAtRest(w) && Unmoved(w, s) {
      RestStays(w, s, t, i);
    }
  }

  lemma GetsFurther(w: World, s: State, r: State, t: State, m: nat, n: nat)
    requires Wf(s) && GetsTo(w, s, r, m) && GetsTo(w, r, t, n)
    ensures GetsTo(w, s, t, n)
  {
    hide Underway, Reaches, Unmoved, AllAtRest;
    ReachesTrans(s, r, t);
  }

  /** All maps from the n-th on take their turns. */
  lemma {:induction false} MapsTurn(w: World, s: State, n: nat) returns (t: State)
    requires n <= |w.cluster.spec.maps| && Wf(s) && Underway(w, s, n)
    ensures GetsTo(w, s, t, |w.cluster.spec.maps|)
    decreases |w.cluster.spec.maps| - n
  {
    hide Underway, Reaches, Unmoved, AllAtRest;
    if n == |w.cluster.spec.maps| {
      ReachesSelf(s);
      return s;
    }
    var r := OneTurn(w, s, n);
    t := MapsTurn(w, r, n + 1);
    hide GetsTo;
    GetsFurther(w, s, r, t, n + 1, |w.cluster.spec.maps|);
  }

  /* ---------- the start of the pass ---------- */

  lemma PassBegins(w: World) returns (s: State)
    requires DistinctSlugs(w.cluster.spec) && Promising(w, w.cluster)
    ensures Wf(s) && Underway(w, s, 0) && Unmoved(w, s)
    ensures ActBegin(State(w, None), Ok).pass.Some? && Reaches(ActBegin(State(w, None), Ok), s)
  {
    var b := ActBegin(State(w, None), Ok);
    s := GotoMap(b, 0);
    assert Action(b, Ok) == s;
    hide Slugs.MapSlug, FirstWith, VerdictOf, Single, Hopeful, Action, Gate;
    ReachesNext(b, s);
    forall i: nat | i < |w.cluster.spec.maps| ensures Waiting(w, s, i) {
    }
  }

  /* ---------- the end of the pass ---------- */

  /** Every pod still to be deleted belongs to no map in spec. */
  ghost predicate OnlyOrphans(spec: Spec, todo: seq<Pod>) {
    forall q :: q in todo ==> !Kept(spec, q.slug)
  }

  /** The lists agree on the pods of maps in spec. */
  ghost predicate SameInside(a: seq<Pod>, b: seq<Pod>, spec: Spec) {
    forall p: Pod :: Kept(spec, p.slug) ==> (p in a <==> p in b)
  }

  /** t is s at the final write, with some orphans deleted. */
  ghost predicate Swept(s: State, t: State)
    requires s.pass.Some?
  {
    && t.pass == Some(s.pass.value.(call := FinalWrite))
    && t.w.jobs == s.w.jobs && t.w.cluster == s.w.cluster && SameSurroundings(s.w, t.w)
    && SameInside(s.w.pods, t.w.pods, s.pass.value.cluster.spec)
    && Listed(t.w.pods, s.pass.value.cluster.spec, [])
  }

  lemma DeleteInside(pods: seq<Pod>, spec: Spec, slug: string, hash: string)
    requires !Kept(spec, slug)
    ensures SameInside(pods, DeletePod(pods, slug, hash), spec)
  {
    hide Kept;
    var rest := DeletePod(pods, slug, hash);
    forall p: Pod | Kept(spec, p.slug) ensures p in pods <==> p in rest {
      if p in pods {
        var i :| 0 <= i < |pods| && pods[i] == p;
        assert rest[i] == p;
      }
      if p in rest {
        var i :| 0 <= i < |rest| && rest[i] == p;
        assert pods[i].slug == p.slug;
      }
    }
  }

  lemma DeleteOrphanStep(s: State) returns (t: State)
    requires InPass(s) && s.pass.value.call.DeleteOrphan?
    ensures var todo := s.pass.value.call.todo;
      && t == Action(s, Ok) && Wf(t)
      && t.pass == Some(s.pass.value.(call := DeleteNext(todo[1..])))
      && t.w.pods == DeletePod(s.w.pods, todo[0].slug, todo[0].hash)
      && t.w.jobs == s.w.jobs && t.w.cluster == s.w.cluster && SameSurroundings(s.w, t.w)
  {
    hide DeletePod;
    t := Action(s, Ok);
  }

  lemma SweptFurther(s: State, r: State, t: State, todo: seq<Pod>)
    requires todo != [] && s.pass.Some? && r.pass == Some(s.pass.value.(call := DeleteNext(todo[1..])))
    requires r.w.jobs == s.w.jobs && r.w.cluster == s.w.cluster && SameSurroundings(s.w, r.w)
    requires SameInside(s.w.pods, r.w.pods, s.pass.value.cluster.spec) && Swept(r, t)
    ensures Swept(s, t)
  {
    hide Kept, Listed;
  }

  lemma {:induction false} Sweep(s: State, todo: seq<Pod>) returns (t: State)
    requires Wf(s) && s.pass.Some? && s.pass.value.call == DeleteNext(todo)
    requires OnlyOrphans(s.pass.value.cluster.spec, todo) && Listed(s.w.pods, s.pass.value.cluster.spec, todo)
    ensures Wf(t) && Reaches(s, t) && Swept(s, t)
    ensures todo == [] ==> t == s
    decreases |todo|
  {
    hide Listed, Reaches, Kept, Action, Slugs.MapSlug;
    if todo == [] {
      ReachesSelf(s);
      return s;
    }
    var spec := s.pass.value.cluster.spec;
    var r := DeleteOrphanStep(s);
    DeleteKeepsListed(s.w.pods, spec, todo);
    DeleteInside(s.w.pods, spec, todo[0].slug, todo[0].hash);
    ReachesNext(s, r);
    hide SameInside, DeletePod, Swept;
    t := Sweep(r, todo[1..]);
    SweptFurther(s, r, t, todo);
    ReachesTrans(s, r, t);
  }

  lemma ListStep(s: State) returns (t: State)
    requires InPass(s) && s.pass.value.call.ListOrphans?
    ensures t == Action(s, Ok) && Wf(t) && Reaches(s, t)
    ensures t == Goto(s, DeleteNext(Orphans(s.w.pods, s.pass.value.cluster.spec)))
  {
    hide Orphans, Reaches, Kept, Slugs.MapSlug;
    t := Action(s, Ok);
    hide Action;
    ReachesNext(s, t);
  }

  lemma FinalStep(s: State) returns (t: State)
    requires InPass(s) && s.pass.value.call.FinalWrite? && Current(s)
    ensures t == Action(s, Ok) && t.pass.None?
    ensures SamePodsAndJobs(s, t) && SameSurroundings(s.w, t.w)
    ensures var c := Finished(s.pass.value.cluster);
      t.w.cluster.status == c.status && t.w.cluster.summary == c.summary
  {
    hide Prune, CountReady, AggregatePhase, Kept;
    t := Action(s, Ok);
  }

  /** From the listing of orphans to the end. */
  lemma PassEnds(s: State) returns (t: State)
    requires InPass(s) && s.pass.value.call.ListOrphans? && Current(s)
    ensures Wf(t) && Reaches(s, t) && t.pass.None?
    ensures t.w.jobs == s.w.jobs && SameSurroundings(s.w, t.w)
    ensures SameInside(s.w.pods, t.w.pods, s.pass.value.cluster.spec) && Listed(t.w.pods, s.pass.value.cluster.spec, [])
    ensures var c := Finished(s.pass.value.cluster);
      t.w.cluster.status == c.status && t.w.cluster.summary == c.summary
    ensures Orphans(s.w.pods, s.pass.value.cluster.spec) == [] ==> t.w.pods == s.w.pods
  {
    var spec, todo := s.pass.value.cluster.spec, Orphans(s.w.pods, s.pass.value.cluster.spec);
    OrphansListed(s.w.pods, spec);
    var a := ListStep(s);
    hide Orphans, Listed, SameInside, Reaches, Finished, Action, Kept;
    assert OnlyOrphans(spec, todo);
    var b := Sweep(a, todo);
    t := FinalStep(b);
    ReachesTrans(s, a, b);
    ReachesOn(s, b, t);
  }

  /* ---------- a whole pass ---------- */

  /** An undisturbed pass on the cluster in w ends with the world v. */
  ghost predicate OnePass(w: World, v: World) {
    exists t: State :: Reaches(ActBegin(State(w, None), Ok), t) && t.pass.None? && t.w == v
  }

  ghost predicate NoStale(spec: Spec, maps: seq<MapStatus>) {
    forall m :: m in maps ==> Kept(spec, Slugs.MapSlug(m.id))
  }

  /** What the pass made of w: each map in spec took its turn, orphans and entries of maps not in spec are gone, the
      summary tells the statuses stored with it. */
  ghost predicate PassOutcome(w: World, v: World)
    requires Promising(w, w.cluster)
  {
    var spec := w.cluster.spec;
    && SameSurroundings(w, v)
    && (forall i: nat :: i < |spec.maps| ==>
      ViewAt(v, v.cluster, i) == TurnAt(w, i) && LiveOne(v.pods, SlugAt(spec, i)))
    && NoStale(spec, v.cluster.status) && Listed(v.pods, spec, [])
    && (WellListed(spec, w.cluster.status) ==> WellListed(spec, v.cluster.status))
    && v.cluster.summary == Summary(|spec.maps|, CountReady(v.cluster.status), AggregatePhase(v.cluster.status))
    && (AllAtRest(w) && NoStale(spec, w.cluster.status) && |Orphans(w.pods, spec)| == 0 ==> StaysPut(w, v))
  }

  predicate StaysPut(w: World, v: World) {
    v.pods == w.pods && v.jobs == w.jobs && v.cluster.status == w.cluster.status
  }

  lemma {:induction false} PruneLeavesNoStale(maps: seq<MapStatus>, spec: Spec)
    ensures NoStale(spec, Prune(maps, spec))
    ensures NoStale(spec, maps) ==> Prune(maps, spec) == maps
  {
    hide Kept, Slugs.MapSlug;
    if maps != [] {
      PruneLeavesNoStale(maps[1..], spec);
      if NoStale(spec, maps) {
        assert maps[0] in maps;
        assert forall m :: m in maps[1..] ==> m in maps;
        assert maps == [maps[0]] + maps[1..];
      }
    }
  }

  lemma PruneKeepsWellListed(maps: seq<MapStatus>, spec: Spec)
    requires WellListed(spec, maps)
    ensures WellListed(spec, Prune(maps, spec))
  {
    hide Prune, Kept, Slugs.MapSlug;
    RolloutSafety.PruneKeepsDistinct(maps, spec);
  }

  lemma InsideFound(a: seq<Pod>, b: seq<Pod>, spec: Spec, slug: string)
    requires SameInside(a, b, spec) && Kept(spec, slug) && LiveOne(a, slug)
    ensures FirstWith(b, slug, None) == FirstWith(a, slug, None) && LiveOne(b, slug)
  {
    hide Kept;
    var p, q := FirstWith(a, slug, None), FirstWith(b, slug, None);
    if p.Some? {
      assert p.value in b;
    }
    if q.Some? {
      assert q.value in a;
    }
  }

  /** The end of the pass changes no view of a map in spec. */
  lemma EndKeepsView(s: State, v: World, i: nat)
    requires s.pass.Some? && i < |s.pass.value.cluster.spec.maps|
    requires v.cluster.spec == s.pass.value.cluster.spec && v.jobs == s.w.jobs
    requires v.cluster.status == Prune(s.pass.value.cluster.status, v.cluster.spec)
    requires SameInside(s.w.pods, v.pods, v.cluster.spec) && LiveOne(s.w.pods, SlugAt(v.cluster.spec, i))
    ensures ViewAt(v, v.cluster, i) == ViewAt(s.w, s.pass.value.cluster, i)
      && LiveOne(v.pods, SlugAt(v.cluster.spec, i))
  {
    hide Slugs.MapSlug, Prune, FirstWith, SameInside, LiveOne, VerdictOf;
    var spec := v.cluster.spec;
    assert Kept(spec, SlugAt(spec, i));
    PruneEntry(s.pass.value.cluster.status, spec, spec.maps[i].id);
    InsideFound(s.w.pods, v.pods, spec, SlugAt(spec, i));
  }

  lemma {:induction false} NoOrphans(pods: seq<Pod>, spec: Spec)
    requires forall p :: p in pods ==> p.slug == "" || Kept(spec, p.slug)
    ensures Orphans(pods, spec) == []
  {
    hide Kept;
    if pods != [] {
      NoOrphans(pods[1..], spec);
    }
  }

  lemma OrphansOutside(a: seq<Pod>, b: seq<Pod>, spec: Spec)
    requires SameOutside(a, b, spec) && Orphans(a, spec) == []
    ensures Orphans(b, spec) == []
  {
    hide Kept;
    forall p | p in b ensures p.slug == "" || Kept(spec, p.slug) {
      assert p in Orphans(a, spec) <==> p in a && p.slug != "" && !Kept(spec, p.slug);
    }
    NoOrphans(b, spec);
  }

  /** What the listing of orphans starts from, and what the pass leaves. */
  lemma EndOutcome(w: World, s: State, v: World)
    requires Promising(w, w.cluster) && Underway(w, s, |w.cluster.spec.maps|)
    requires v.jobs == s.w.jobs && SameSurroundings(s.w, v)
    requires SameInside(s.w.pods, v.pods, w.cluster.spec) && Listed(v.pods, w.cluster.spec, [])
    requires var c := Finished(s.pass.value.cluster); v.cluster.status == c.status && v.cluster.summary == c.summary
    requires Orphans(s.w.pods, w.cluster.spec) == [] ==> v.pods == s.w.pods
    requires AllAtRest(w) ==> Unmoved(w, s)
    ensures PassOutcome(w, v)
  {
    hide Slugs.MapSlug, Prune, FirstWith, SameInside, LiveOne, VerdictOf, Listed, WellListed, RankAt, TurnAt, ViewAt;
    hide Kept;
    hide NoStale, SameOutside, Orphans, CountReady, AggregatePhase, Single, Hopeful, SlugAt;
    var spec, maps := w.cluster.spec, s.pass.value.cluster.status;
    PruneLeavesNoStale(maps, spec);
    if WellListed(spec, w.cluster.status) {
      PruneKeepsWellListed(maps, spec);
    }
    forall i: nat | i < |spec.maps|
      ensures ViewAt(v, v.cluster, i) == TurnAt(w, i) && LiveOne(v.pods, SlugAt(spec, i))
    {
      assert Done(w, s, i);
      EndKeepsView(s, v, i);
    }
    if Orphans(w.pods, spec) == [] {
      OrphansOutside(w.pods, s.w.pods, spec);
    }
  }

  /** Every undisturbed pass on a promising cluster ends, and its outcome is one turn of each map. */
  lemma PassTurns(w: World) returns (v: World)
    requires DistinctSlugs(w.cluster.spec) && Promising(w, w.cluster)
    ensures OnePass(w, v) && PassOutcome(w, v)
  {
    var b := ActBegin(State(w, None), Ok);
    var n := |w.cluster.spec.maps|;
    var s := PassBegins(w);
    var r := MapsTurn(w, s, 0);
    UnderwayEnds(w, r);
    hide Reaches, Underway, PassOutcome, DistinctSlugs, Promising, Unmoved, AllAtRest, Finished, Orphans, SameInside;
    hide Listed;
    var t := PassEnds(r);
    v := t.w;
    ReachesTrans(b, s, r);
    ReachesTrans(b, r, t);
    EndOutcome(w, r, v);
  }

  lemma UnderwayEnds(w: World, r: State)
    requires Wf(r) && Underway(w, r, |w.cluster.spec.maps|)
    ensures InPass(r) && r.pass.value.call.ListOrphans? && Current(r) && r.pass.value.cluster.spec == w.cluster.spec
  {
  }
}
