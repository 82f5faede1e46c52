/** Facts about the live pods of a cluster, and how they fare under each thing that can happen to the pod list. */
module LivePods {
  import opened ArkTypes
  import opened World
  import opened Operator

  /** At most one live pod belongs to the map. */
  ghost predicate Sole(pods: seq<Pod>, slug: string) {
    forall i, j :: 0 <= i < j < |pods| ==> !(Live(pods[i], slug) && Live(pods[j], slug))
  }

  ghost predicate Vacant(pods: seq<Pod>, slug: string) {
    forall p :: p in pods ==> !Live(p, slug)
  }

  ghost predicate OnlyHash(pods: seq<Pod>, slug: string, hash: string) {
    forall p :: p in pods && Live(p, slug) ==> p.hash == hash
  }

  ghost predicate Mounts(pods: seq<Pod>, slug: string, v: Volume) {
    forall p :: p in pods && Live(p, slug) ==> p.volume == v
  }

  /** The live pods of the map are among those still to be deleted. */
  ghost predicate Awaiting(pods: seq<Pod>, slug: string, todo: seq<Pod>) {
    forall p :: p in pods && Live(p, slug) ==> exists q :: q in todo && SameName(p, q)
  }

  /** The live pods of all maps that left spec are among those still to be deleted. */
  ghost predicate Listed(pods: seq<Pod>, spec: Spec, todo: seq<Pod>) {
    forall p :: p in pods && !p.terminating && p.slug != "" && !Kept(spec, p.slug) ==>
      exists q :: q in todo && SameName(p, q)
  }

  /* ---------- pods going away ---------- */

  /** Every live pod of b is one of a's. */
  ghost predicate Thins(a: seq<Pod>, b: seq<Pod>) {
    forall q :: q in b && !q.terminating ==>
      exists p :: p in a && !p.terminating && SameName(p, q) && p.volume == q.volume
  }

  lemma ThinsKeeps(a: seq<Pod>, b: seq<Pod>, slug: string)
    requires Thins(a, b)
    ensures Vacant(a, slug) ==> Vacant(b, slug)
    ensures forall hash :: OnlyHash(a, slug, hash) ==> OnlyHash(b, slug, hash)
    ensures forall v :: Mounts(a, slug, v) ==> Mounts(b, slug, v)
  {
  }

  lemma ThinsKeepsAwaiting(a: seq<Pod>, b: seq<Pod>, slug: string, todo: seq<Pod>)
    requires Thins(a, b) && Awaiting(a, slug, todo)
    ensures Awaiting(b, slug, todo)
  {
    forall q | q in b && Live(q, slug) ensures exists r :: r in todo && SameName(q, r) {
      var p :| p in a && !p.terminating && SameName(p, q) && p.volume == q.volume;
      var r :| r in todo && SameName(p, r);
      assert SameName(q, r);
    }
  }

  lemma ThinsKeepsSole(a: seq<Pod>, b: seq<Pod>, slug: string)
    requires Thins(a, b) && Sole(a, slug) && UniqueNames(b)
    ensures Sole(b, slug)
  {
    forall i, j | 0 <= i < j < |b| ensures !(Live(b[i], slug) && Live(b[j], slug)) {
      if Live(b[i], slug) && Live(b[j], slug) {
        var p :| p in a && !p.terminating && SameName(p, b[i]) && p.volume == b[i].volume;
        var q :| q in a && !q.terminating && SameName(q, b[j]) && q.volume == b[j].volume;
        SoleIsOne(a, slug, p, q);
      }
    }
  }

  lemma SoleIsOne(pods: seq<Pod>, slug: string, p: Pod, q: Pod)
    requires Sole(pods, slug) && p in pods && q in pods && Live(p, slug) && Live(q, slug)
    ensures p == q
  {
    var i :| 0 <= i < |pods| && pods[i] == p;
    var j :| 0 <= j < |pods| && pods[j] == q;
    assert i == j;
  }

  lemma EnvThins(w: World, v: World)
    requires EnvMay(w, v)
    ensures Thins(w.pods, v.pods)
  {
    forall q | q in v.pods && !q.terminating
      ensures exists p :: p in w.pods && !p.terminating && SameName(p, q) && p.volume == q.volume
    {
      var p :| p in w.pods && SamePod(p, q);
      assert !p.terminating;
    }
  }

  lemma DeleteThins(pods: seq<Pod>, slug: string, hash: string)
    ensures Thins(pods, DeletePod(pods, slug, hash))
    ensures OnlyHash(pods, slug, hash) ==> Vacant(DeletePod(pods, slug, hash), slug)
  {
    var b := DeletePod(pods, slug, hash);
    forall q | q in b && !q.terminating
      ensures q in pods && !SameName(q, Pod(slug, hash, Unset, false, false, false))
    {
      var i :| 0 <= i < |b| && b[i] == q;
      assert b[i] == pods[i];
    }
  }

  lemma DeleteKeepsSole(pods: seq<Pod>, slug: string, hash: string, other: string)
    requires Sole(pods, other)
    ensures Sole(DeletePod(pods, slug, hash), other)
  {
  }

  /* ---------- orphans ---------- */

  /** Deleting the first pod of the list leaves the rest of it to do. */
  lemma DeleteKeepsAwaiting(pods: seq<Pod>, slug: string, todo: seq<Pod>)
    requires todo != [] && Awaiting(pods, slug, todo)
    ensures Awaiting(DeletePod(pods, todo[0].slug, todo[0].hash), slug, todo[1..])
    ensures todo[0].slug != slug ==> Awaiting(pods, slug, todo[1..])
  {
    var b := DeletePod(pods, todo[0].slug, todo[0].hash);
    forall p | p in b && Live(p, slug) ensures exists q :: q in todo[1..] && SameName(p, q) {
      var i :| 0 <= i < |b| && b[i] == p;
      assert b[i] == pods[i];
      var q :| q in todo && SameName(p, q);
      assert q != todo[0];
      assert q in todo[1..];
    }
    if todo[0].slug != slug {
      forall p | p in pods && Live(p, slug) ensures exists q :: q in todo[1..] && SameName(p, q) {
        var q :| q in todo && SameName(p, q);
        assert q in todo[1..];
      }
    }
  }

  lemma OrphansAwaiting(pods: seq<Pod>, spec: Spec, slug: string)
    requires slug != "" && !Kept(spec, slug)
    ensures Awaiting(pods, slug, Orphans(pods, spec))
  {
    hide Kept;
    forall p | p in pods && Live(p, slug) ensures exists q :: q in Orphans(pods, spec) && SameName(p, q) {
      assert p in Orphans(pods, spec);
    }
  }

  lemma DeleteKeepsListed(pods: seq<Pod>, spec: Spec, todo: seq<Pod>)
    requires todo != [] && Listed(pods, spec, todo)
    ensures Listed(DeletePod(pods, todo[0].slug, todo[0].hash), spec, todo[1..])
  {
    hide Kept;
    var b := DeletePod(pods, todo[0].slug, todo[0].hash);
    forall p | p in b && !p.terminating && p.slug != "" && !Kept(spec, p.slug)
      ensures exists q :: q in todo[1..] && SameName(p, q)
    {
      var i :| 0 <= i < |b| && b[i] == p;
      assert b[i] == pods[i];
      var q :| q in todo && SameName(p, q);
      assert q != todo[0];
      assert q in todo[1..];
    }
  }

  lemma OrphansListed(pods: seq<Pod>, spec: Spec)
    ensures Listed(pods, spec, Orphans(pods, spec))
  {
    hide Kept;
    forall p | p in pods && !p.terminating && p.slug != "" && !Kept(spec, p.slug)
      ensures exists q :: q in Orphans(pods, spec) && SameName(p, q)
    {
      assert p in Orphans(pods, spec);
    }
  }

  /* ---------- a pod created ---------- */

  lemma CreateKeepsSole(pods: seq<Pod>, p: Pod)
    requires Vacant(pods, p.slug)
    ensures Sole(pods + [p], p.slug)
  {
    forall i | 0 <= i < |pods| ensures !Live(pods[i], p.slug) {
      assert pods[i] in pods;
    }
  }

  lemma CreateMounts(pods: seq<Pod>, p: Pod)
    requires Vacant(pods, p.slug)
    ensures Mounts(pods + [p], p.slug, p.volume)
  {
  }

  /** A pod of another map changes nothing. */
  lemma CreateBeside(pods: seq<Pod>, p: Pod, slug: string)
    requires p.slug != slug
    ensures Sole(pods, slug) ==> Sole(pods + [p], slug)
    ensures forall v :: Mounts(pods, slug, v) ==> Mounts(pods + [p], slug, v)
  {
  }
}
