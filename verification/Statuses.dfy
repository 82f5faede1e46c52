/** internal/reconcile/status.go: the per-map status list of a cluster and the phase rolled up from it. */
module Statuses {
  import opened ArkTypes

  function Blank(id: string): MapStatus {
    MapStatus(id, NoPhase, Unset, Unset, None, "", [])
  }

  /** The entry the controller works on for a map: the first with that ID, else the fresh one it appends. */
  function Entry(maps: seq<MapStatus>, id: string): (e: MapStatus)
    ensures e.id == id
  {
    if maps == [] then Blank(id)
    else if maps[0].id == id then maps[0]
    else Entry(maps[1..], id)
  }

  predicate Has(maps: seq<MapStatus>, id: string) {
    exists i :: 0 <= i < |maps| && maps[i].id == id
  }

  ghost predicate Distinct(maps: seq<MapStatus>) {
    forall i, j :: 0 <= i < j < |maps| ==> maps[i].id != maps[j].id
  }

  /** Overwrites the first entry with e's ID, or appends e. */
  function Put(maps: seq<MapStatus>, e: MapStatus): (r: seq<MapStatus>)
    ensures forall id :: Entry(r, id) == if id == e.id then e else Entry(maps, id)
  {
    if maps == [] then
      assert Entry([e][1..], "") == Blank("");
      [e]
    else if maps[0].id == e.id then
      assert ([e] + maps[1..])[1..] == maps[1..];
      [e] + maps[1..]
    else
      var rest := Put(maps[1..], e);
      assert ([maps[0]] + rest)[1..] == rest;
      [maps[0]] + rest
  }

  lemma {:induction false} PutShape(maps: seq<MapStatus>, e: MapStatus)
    ensures var r := Put(maps, e);
      && |r| == (if Has(maps, e.id) then |maps| else |maps| + 1)
      && (forall i :: 0 <= i < |maps| ==> r[i].id == maps[i].id)
      && (|maps| < |r| ==> r[|maps|] == e)
  {
    if maps != [] && maps[0].id != e.id {
      PutShape(maps[1..], e);
      assert forall i :: 0 <= i < |maps[1..]| ==> maps[1..][i] == maps[i + 1];
      assert Has(maps, e.id) <==> Has(maps[1..], e.id);
    }
  }

  lemma PutKeepsDistinct(maps: seq<MapStatus>, e: MapStatus)
    requires Distinct(maps)
    ensures Distinct(Put(maps, e))
  {
    PutShape(maps, e);
  }

  /* ---------- AggregatePhase ---------- */

  predicate IsUpdating(p: MapPhase) {
    p == InstallingActive || InFlight(p)
  }

  predicate IsPending(p: MapPhase) {
    p == Pending || p == Provisioning
  }

  function AggregatePhase(maps: seq<MapStatus>): ClusterPhase {
    if maps == [] then ClusterPending
    else if exists i :: 0 <= i < |maps| && maps[i].phase == MapFailed then Degraded
    else if exists i :: 0 <= i < |maps| && IsUpdating(maps[i].phase) then Updating
    else if exists i :: 0 <= i < |maps| && IsPending(maps[i].phase) then Initializing
    else if forall i :: 0 <= i < |maps| ==> maps[i].phase == Running then ClusterRunning
    else ClusterPending
  }
}
