/** The loops of status.go, job.go and arkcluster_controller.go, proved against the functions the step system uses. */
module Loops {
  import opened ArkTypes
  import opened Statuses
  import opened World
  import opened Operator
  import Slugs

  /* ---------- internal/reconcile/status.go ---------- */

  lemma {:induction false} PutAt(maps: seq<MapStatus>, i: nat, e: MapStatus)
    requires i <= |maps| && forall k :: 0 <= k < i ==> maps[k].id != e.id
    requires i < |maps| ==> maps[i].id == e.id
    ensures Put(maps, e) == if i < |maps| then maps[i := e] else maps + [e]
    ensures Entry(maps, e.id) == if i < |maps| then maps[i] else Blank(e.id)
  {
    if i > 0 {
      PutAt(maps[1..], i - 1, e);
    }
  }

  lemma {:induction false} SetConditionAt(cs: seq<Condition>, j: nat, kind: ConditionType, status: bool,
      reason: string, now: int)
    requires j <= |cs| && forall k :: 0 <= k < j ==> cs[k].kind != kind
    requires j < |cs| ==> cs[j].kind == kind
    ensures SetCondition(cs, kind, status, reason, now)
         == if j == |cs| then cs + [Condition(kind, status, reason, now)]
            else cs[j := if cs[j].status != status then Condition(kind, status, reason, now)
              else cs[j].(reason := reason)]
  {
    if j > 0 {
      SetConditionAt(cs[1..], j - 1, kind, status, reason, now);
    } else if j < |cs| {
      assert cs == [cs[0]] + cs[1..];
    }
  }

  /** The per-map status list of a cluster object in memory. */
  class StatusList {
    var maps: seq<MapStatus>

    constructor (maps: seq<MapStatus>)
      ensures this.maps == maps
    {
      this.maps := maps;
    }

    /** The entry of a map, appended when there is none. */
    method EnsureMapStatus(id: string) returns (i: nat)
      modifies this
      ensures Has(old(maps), id) ==> maps == old(maps)
      ensures !Has(old(maps), id) ==> maps == old(maps) + [MapStatus(id, NoPhase, Unset, Unset, None, "", [])]
      ensures i < |maps| && maps[i].id == id
      ensures maps == Put(old(maps), Entry(old(maps), id)) && maps[i] == Entry(old(maps), id)
      ensures forall k :: 0 <= k < i ==> maps[k].id != id
    {
      for k := 0 to |maps|
        invariant maps == old(maps) && forall j :: 0 <= j < k ==> maps[j].id != id
      {
        if maps[k].id == id {
          PutAt(maps, k, maps[k]);
          return k;
        }
      }
      PutAt(maps, |maps|, Blank(id));
      i := |maps|;
      maps := maps + [Blank(id)];
    }

    /** Sets a condition of a listed map; the time of the last change stays when the status does. */
    method SetMapCondition(id: string, kind: ConditionType, status: bool, reason: string, now: int)
      modifies this
      ensures maps == if Has(old(maps), id)
                      then Put(old(maps), WithCondition(Entry(old(maps), id), kind, status, reason, now))
                      else old(maps)
    {
      for i := 0 to |maps|
        invariant maps == old(maps) && forall j :: 0 <= j < i ==> maps[j].id != id
      {
        if maps[i].id != id {
          continue;
        }
        var conds := maps[i].conditions;
        var e := maps[i];
        for j := 0 to |conds|
          invariant maps == old(maps) && conds == e.conditions && forall k :: 0 <= k < j ==> conds[k].kind != kind
        {
          if conds[j].kind == kind {
            SetConditionAt(conds, j, kind, status, reason, now);
            if conds[j].status != status {
              conds := conds[j := Condition(kind, status, reason, now)];
            } else {
              conds := conds[j := conds[j].(reason := reason)];
            }
            PutAt(maps, i, e.(conditions := conds));
            maps := maps[i := e.(conditions := conds)];
            return;
          }
        }
        SetConditionAt(conds, |conds|, kind, status, reason, now);
        PutAt(maps, i, e.(conditions := conds + [Condition(kind, status, reason, now)]));
        maps := maps[i := e.(conditions := conds + [Condition(kind, status, reason, now)])];
        return;
      }
    }
  }

  /** Some map shows the phase. */
  predicate Shows(maps: seq<MapStatus>, phase: MapPhase) {
    exists k :: 0 <= k < |maps| && maps[k].phase == phase
  }

  predicate ShowsUpdate(maps: seq<MapStatus>) {
    Shows(maps, InstallingActive) || Shows(maps, InstallingInactive) || Shows(maps, DrainingActive)
    || Shows(maps, Swapping)
  }

  predicate ShowsStart(maps: seq<MapStatus>) {
    Shows(maps, Pending) || Shows(maps, Provisioning)
  }

  /** The fold with four flags: a failed map counts most, then one being updated, then one being started, and all
      must run for the cluster to. */
  method AggregatePhases(maps: seq<MapStatus>) returns (phase: ClusterPhase)
    ensures phase == Degraded <==> Shows(maps, MapFailed)
    ensures phase == Updating <==> !Shows(maps, MapFailed) && ShowsUpdate(maps)
    ensures phase == Initializing <==> !Shows(maps, MapFailed) && !ShowsUpdate(maps) && ShowsStart(maps)
    ensures phase == ClusterRunning <==> maps != [] && forall k :: 0 <= k < |maps| ==> maps[k].phase == Running
    ensures phase == AggregatePhase(maps)
  {
    AggregateMeans(maps);
    if |maps| == 0 {
      return ClusterPending;
    }
    var anyFailed, anyUpdating, anyPending, allRunning := false, false, false, true;
    for i := 0 to |maps|
      invariant anyFailed <==> exists k :: 0 <= k < i && maps[k].phase == MapFailed
      invariant anyUpdating <==> exists k :: 0 <= k < i && IsUpdating(maps[k].phase)
      invariant anyPending <==> exists k :: 0 <= k < i && IsPending(maps[k].phase)
      invariant allRunning <==> forall k :: 0 <= k < i ==> maps[k].phase == Running
    {
      match maps[i].phase {
        case MapFailed => anyFailed, allRunning := true, false;
        case InstallingActive | InstallingInactive | DrainingActive | Swapping =>
          anyUpdating, allRunning := true, false;
        case Pending | Provisioning => anyPending, allRunning := true, false;
        case Running =>
        case NoPhase => allRunning := false;
      }
    }
    phase := if anyFailed then Degraded
             else if anyUpdating then Updating
             else if anyPending then Initializing
             else if allRunning then ClusterRunning
             else ClusterPending;
  }

  lemma AggregateMeans(maps: seq<MapStatus>)
    ensures var phase := AggregatePhase(maps);
      && (phase == Degraded <==> Shows(maps, MapFailed))
      && (phase == Updating <==> !Shows(maps, MapFailed) && ShowsUpdate(maps))
      && (phase == Initializing <==> !Shows(maps, MapFailed) && !ShowsUpdate(maps) && ShowsStart(maps))
      && (phase == ClusterRunning <==> maps != [] && forall k :: 0 <= k < |maps| ==> maps[k].phase == Running)
  {
  }

  /* ---------- arkcluster_controller.go ---------- */

  lemma {:induction false} CountReadyLast(maps: seq<MapStatus>, m: MapStatus)
    ensures CountReady(maps + [m]) == CountReady(maps) + (if m.phase == Running then 1 else 0)
  {
    if maps == [] {
      assert maps + [m] == [m];
    } else {
      CountReadyLast(maps[1..], m);
      assert (maps + [m])[1..] == maps[1..] + [m];
    }
  }

  /** The entries that read Running, among the first n. */
  function ReadyAmong(maps: seq<MapStatus>, n: nat): (r: set<int>)
    requires n <= |maps|
    ensures forall k :: k in r <==> 0 <= k < n && maps[k].phase == Running
  {
    set k | 0 <= k < n && maps[k].phase == Running
  }

  lemma ReadyAmongOneMore(maps: seq<MapStatus>, n: nat)
    requires n < |maps|
    ensures |ReadyAmong(maps, n + 1)| == |ReadyAmong(maps, n)| + (if maps[n].phase == Running then 1 else 0)
  {
    var r, s := ReadyAmong(maps, n + 1), ReadyAmong(maps, n);
    assert n !in s;
    CountsOneMore(r, s, n, maps[n].phase == Running);
  }

  lemma CountsOneMore(r: set<int>, s: set<int>, n: int, more: bool)
    requires n !in s && forall k :: k in r <==> k in s || (more && k == n)
    ensures |r| == |s| + (if more then 1 else 0)
  {
    var t := if more then s + {n} else s;
    forall k ensures k in r <==> k in t {
    }
    assert r <= t && t <= r;
    assert r == t;
  }

  lemma {:induction false} CountReadyIs(maps: seq<MapStatus>, n: nat)
    requires n <= |maps|
    ensures CountReady(maps[..n]) == |ReadyAmong(maps, n)|
  {
    if n > 0 {
      CountReadyIs(maps, n - 1);
      assert maps[..n] == maps[..n - 1] + [maps[n - 1]];
      CountReadyLast(maps[..n - 1], maps[n - 1]);
      ReadyAmongOneMore(maps, n - 1);
    } else {
      assert ReadyAmong(maps, 0) == {};
    }
  }

  method CountReadyMaps(maps: seq<MapStatus>) returns (n: nat)
    ensures n == |ReadyAmong(maps, |maps|)|
    ensures n == CountReady(maps)
  {
    n := 0;
    for i := 0 to |maps|
      invariant n == CountReady(maps[..i])
    {
      assert maps[..i + 1] == maps[..i] + [maps[i]];
      CountReadyLast(maps[..i], maps[i]);
      if maps[i].phase == Running {
        n := n + 1;
      }
    }
    assert maps[..|maps|] == maps;
    CountReadyIs(maps, |maps|);
  }

  lemma {:induction false} PruneLast(maps: seq<MapStatus>, m: MapStatus, spec: Spec)
    ensures Prune(maps + [m], spec) == Prune(maps, spec) + (if Kept(spec, Slugs.MapSlug(m.id)) then [m] else [])
  {
    hide Kept, Slugs.MapSlug;
    if maps == [] {
      assert maps + [m] == [m];
    } else {
      PruneLast(maps[1..], m, spec);
      assert (maps + [m])[1..] == maps[1..] + [m];
    }
  }

  /** The filter that reuses the backing array: the kept entries move to its front, in order. */
  method PruneInPlace(maps: array<MapStatus>, spec: Spec) returns (n: nat)
    modifies maps
    ensures n <= maps.Length && maps[..n] == Prune(old(maps[..]), spec)
  {
    hide Kept, Slugs.MapSlug;
    ghost var before := maps[..];
    n := 0;
    for i := 0 to maps.Length
      invariant n <= i
      invariant maps[..n] == Prune(before[..i], spec)
      invariant maps[i..] == before[i..]
    {
      assert maps[i] == before[i];
      assert before[..i + 1] == before[..i] + [before[i]];
      PruneLast(before[..i], before[i], spec);
      if Kept(spec, Slugs.MapSlug(maps[i].id)) {
        maps[n] := maps[i];
        n := n + 1;
        assert maps[..n] == maps[..n - 1] + [before[i]];
      }
      assert maps[i + 1..] == before[i + 1..];
    }
    assert before[..maps.Length] == before;
  }

  /** The map is draining, swapping or being installed for an update, and none listed before it is. */
  predicate HoldsBack(maps: seq<MapStatus>, i: nat) {
    && i < |maps| && maps[i].phase in {DrainingActive, Swapping, InstallingInactive}
    && forall k :: 0 <= k < i ==> maps[k].phase !in {DrainingActive, Swapping, InstallingInactive}
  }

  lemma {:induction false} FirstInFlightHoldsBack(maps: seq<MapStatus>)
    ensures forall i: nat :: HoldsBack(maps, i) ==> FirstInFlight(maps) == maps[i].id
    ensures (forall i: nat :: !HoldsBack(maps, i)) ==> FirstInFlight(maps) == ""
  {
    if maps == [] {
    } else if InFlight(maps[0].phase) {
      assert HoldsBack(maps, 0);
    } else {
      FirstInFlightHoldsBack(maps[1..]);
      forall i: nat ensures HoldsBack(maps, i) <==> i > 0 && HoldsBack(maps[1..], i - 1) {
        assert forall k :: 1 <= k < |maps| ==> maps[k] == maps[1..][k - 1];
      }
      forall i: nat ensures HoldsBack(maps[1..], i) <==> HoldsBack(maps, i + 1) {
      }
    }
  }

  /** The mid-flight map that holds the others back: the first in flight, or none. */
  method FindInFlight(maps: seq<MapStatus>) returns (id: string)
    ensures forall i: nat :: HoldsBack(maps, i) ==> id == maps[i].id
    ensures (forall i: nat :: !HoldsBack(maps, i)) ==> id == ""
    ensures id == FirstInFlight(maps)
  {
    FirstInFlightHoldsBack(maps);
    hide HoldsBack;
    for i := 0 to |maps|
      invariant FirstInFlight(maps) == FirstInFlight(maps[i..])
    {
      if InFlight(maps[i].phase) {
        return maps[i].id;
      }
    }
    id := "";
  }

  lemma {:induction false} FirstWithAt(pods: seq<Pod>, slug: string, hash: Option<string>, i: nat)
    requires i <= |pods|
    requires forall k :: 0 <= k < i ==> !(Live(pods[k], slug) && (hash.None? || pods[k].hash == hash.value))
    requires i < |pods| ==> Live(pods[i], slug) && (hash.None? || pods[i].hash == hash.value)
    ensures FirstWith(pods, slug, hash) == if i < |pods| then Some(pods[i]) else None
  {
    if i > 0 {
      FirstWithAt(pods[1..], slug, hash, i - 1);
    }
  }

  /** No pod before the n-th is a server of the map that is not going away, with the hash if one is asked for. */
  predicate NoneBefore(pods: seq<Pod>, n: nat, slug: string, hash: Option<string>) {
    forall k :: 0 <= k < n && k < |pods| ==>
      pods[k].terminating || pods[k].slug != slug || (hash.Some? && pods[k].hash != hash.value)
  }

  /** The i-th pod is the one to take: the first server of the map with the hash that is not going away, or, when
      there is none, the first that is not going away. */
  predicate IsChoice(pods: seq<Pod>, slug: string, hash: string, i: nat) {
    && i < |pods| && !pods[i].terminating && pods[i].slug == slug
    && NoneBefore(pods, if pods[i].hash == hash then i else |pods|, slug, Some(hash))
    && (pods[i].hash != hash ==> NoneBefore(pods, i, slug, None))
  }

  /** First a pod with the wanted hash, else any that is not going away. */
  method FindPod(pods: seq<Pod>, slug: string, hash: string) returns (found: Option<Pod>)
    ensures found.Some? <==> exists i: nat :: IsChoice(pods, slug, hash, i)
    ensures forall i: nat :: IsChoice(pods, slug, hash, i) ==> found == Some(pods[i])
    ensures found.None? <==> forall p :: p in pods ==> p.terminating || p.slug != slug
    ensures found == FindActivePod(pods, slug, hash)
  {
    ActivePodIsChoice(pods, slug, hash);
    hide IsChoice, FirstWith;
    for i := 0 to |pods|
      invariant forall k :: 0 <= k < i ==> !(Live(pods[k], slug) && pods[k].hash == hash)
    {
      if Live(pods[i], slug) && pods[i].hash == hash {
        FirstWithAt(pods, slug, Some(hash), i);
        return Some(pods[i]);
      }
    }
    FirstWithAt(pods, slug, Some(hash), |pods|);
    for i := 0 to |pods|
      invariant forall k :: 0 <= k < i ==> !Live(pods[k], slug)
    {
      if Live(pods[i], slug) {
        FirstWithAt(pods, slug, None, i);
        return Some(pods[i]);
      }
    }
    FirstWithAt(pods, slug, None, |pods|);
    found := None;
  }

  /** The first of the pods that matches, or where they end. */
  lemma {:induction false} FirstMatch(pods: seq<Pod>, slug: string, hash: Option<string>) returns (n: nat)
    ensures n <= |pods| && NoneBefore(pods, n, slug, hash)
    ensures n < |pods| ==> Live(pods[n], slug) && (hash.None? || pods[n].hash == hash.value)
    ensures FirstWith(pods, slug, hash) == if n < |pods| then Some(pods[n]) else None
  {
    n := 0;
    while n < |pods| && !(Live(pods[n], slug) && (hash.None? || pods[n].hash == hash.value))
      invariant n <= |pods| && NoneBefore(pods, n, slug, hash)
    {
      n := n + 1;
    }
    FirstWithAt(pods, slug, hash, n);
  }

  /** findActivePod takes the pod to take, and none exactly when there is none. */
  lemma ActivePodIsChoice(pods: seq<Pod>, slug: string, hash: string)
    ensures var found := FindActivePod(pods, slug, hash);
      && (found.Some? <==> exists i: nat :: IsChoice(pods, slug, hash, i))
      && (forall i: nat :: IsChoice(pods, slug, hash, i) ==> found == Some(pods[i]))
      && (found.None? <==> forall p :: p in pods ==> p.terminating || p.slug != slug)
  {
    hide FirstWith;
    var m := FirstMatch(pods, slug, Some(hash));
    var n := FirstMatch(pods, slug, None);
    assert m < |pods| ==> IsChoice(pods, slug, hash, m);
    assert m == |pods| && n < |pods| ==> IsChoice(pods, slug, hash, n);
    forall i: nat | IsChoice(pods, slug, hash, i) ensures i == if m < |pods| then m else n {
      ChoiceIsFirst(pods, slug, hash, i, m, n);
    }
    assert n == |pods| ==> forall p :: p in pods ==> p.terminating || p.slug != slug;
  }

  lemma ChoiceIsFirst(pods: seq<Pod>, slug: string, hash: string, i: nat, m: nat, n: nat)
    requires IsChoice(pods, slug, hash, i)
    requires m <= |pods| && NoneBefore(pods, m, slug, Some(hash))
    requires m < |pods| ==> Live(pods[m], slug) && pods[m].hash == hash
    requires n <= |pods| && NoneBefore(pods, n, slug, None) && (n < |pods| ==> Live(pods[n], slug))
    ensures i == if m < |pods| then m else n
  {
  }

  /* ---------- internal/reconcile/job.go ---------- */

  /** The loop of InitJobStatus over the Job's conditions. */
  method DecideJob(conditions: seq<JobCondition>) returns (v: Verdict)
    ensures v == JobVerdict(conditions)
  {
    for i := 0 to |conditions|
      invariant JobVerdict(conditions) == JobVerdict(conditions[i..])
    {
      if conditions[i].kind == Complete && conditions[i].status {
        return JobSucceeded;
      }
      if conditions[i].kind == JobFailed && conditions[i].status {
        return JobGaveUp;
      }
    }
    v := JobRunning;
  }

  /** The i-th condition says complete, and none before it says failed. */
  predicate CompleteFirst(conditions: seq<JobCondition>, i: nat) {
    && i < |conditions| && conditions[i] == JobCondition(Complete, true)
    && forall k :: 0 <= k < i ==> conditions[k] != JobCondition(JobFailed, true)
  }

  /** A Job has succeeded when it is complete before it is failed, and runs as long as it is neither. */
  lemma {:induction false} JobVerdictMeans(conditions: seq<JobCondition>)
    ensures JobVerdict(conditions) == JobSucceeded <==> exists i: nat :: CompleteFirst(conditions, i)
    ensures JobVerdict(conditions) == JobRunning <==>
      JobCondition(Complete, true) !in conditions && JobCondition(JobFailed, true) !in conditions
  {
    if conditions != [] {
      var rest := conditions[1..];
      JobVerdictMeans(rest);
      assert conditions == [conditions[0]] + rest;
      if conditions[0] == JobCondition(Complete, true) {
        assert CompleteFirst(conditions, 0);
      } else if conditions[0] != JobCondition(JobFailed, true) {
        if JobVerdict(rest) == JobSucceeded {
          var i: nat :| CompleteFirst(rest, i);
          assert forall k :: 0 <= k < i + 1 ==> conditions[k] == if k == 0 then conditions[0] else rest[k - 1];
          assert CompleteFirst(conditions, i + 1);
        }
        if i: nat :| CompleteFirst(conditions, i) {
          assert forall k :: 0 <= k < i - 1 ==> rest[k] == conditions[k + 1];
          assert CompleteFirst(rest, i - 1);
        }
      }
    }
  }
}
