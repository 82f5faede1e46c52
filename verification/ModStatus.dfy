/** internal/controller/modupdate_controller.go: which mods are tracked, what is known of them, whom they affect. */
module ModStatus {
  import opened ArkTypes
  import opened Text
  import Operator
  import GraceSafety

  datatype ModInfo = ModInfo(slug: string, latestVersion: string, latestFile: int)

  datatype TrackedMod = TrackedMod(
    id: int,
    slug: string,
    latestVersion: string,
    latestFile: int,
    installedVersion: string,
    installedFile: int,
    affected: seq<string>,
    lastChanged: Option<int>)

  /* ---------- sorting ---------- */

  /** Go's string order: by code point, a prefix first. */
  predicate Before(a: string, b: string) {
    if b == "" then false
    else if a == "" then true
    else a[0] < b[0] || (a[0] == b[0] && Before(a[1..], b[1..]))
  }

  lemma {:induction false} BeforeIsTotal(a: string, b: string)
    ensures Before(a, b) || a == b || Before(b, a)
  {
    if a != "" && b != "" && a[0] == b[0] {
      BeforeIsTotal(a[1..], b[1..]);
      assert a == [a[0]] + a[1..] && b == [b[0]] + b[1..];
    }
  }

  lemma {:induction false} BeforeIsStrict(a: string, b: string)
    ensures !(Before(a, b) && Before(b, a)) && (a == b ==> !Before(a, b))
  {
    if a != "" && b != "" && a[0] == b[0] {
      BeforeIsStrict(a[1..], b[1..]);
    }
  }

  lemma {:induction false} BeforeIsTransitive(a: string, b: string, c: string)
    requires Before(a, b) && Before(b, c)
    ensures Before(a, c)
  {
    if a != "" && a[0] == b[0] == c[0] {
      BeforeIsTransitive(a[1..], b[1..], c[1..]);
    }
  }

  ghost predicate AscendingStrings(s: seq<string>) {
    forall i, j :: 0 <= i < j < |s| ==> !Before(s[j], s[i])
  }

  function InsertString(x: string, s: seq<string>): (r: seq<string>)
    ensures multiset(r) == multiset(s) + multiset{x}
  {
    if s == [] || !Before(s[0], x) then [x] + s
    else
      assert s == [s[0]] + s[1..];
      [s[0]] + InsertString(x, s[1..])
  }

  lemma {:induction false} InsertStringAscending(x: string, s: seq<string>)
    requires AscendingStrings(s)
    ensures AscendingStrings(InsertString(x, s))
  {
    hide Before;
    if s == [] {
    } else if !Before(s[0], x) {
      forall j | 0 <= j < |s| ensures !Before(s[j], x) {
        NotBeforeTrans(s[j], s[0], x);
        assert j > 0 ==> !Before(s[j], s[0]);
        BeforeIsStrict(s[0], s[0]);
      }
    } else {
      var rest := InsertString(x, s[1..]);
      InsertStringAscending(x, s[1..]);
      forall j | 0 <= j < |rest| ensures !Before(rest[j], s[0]) {
        assert rest[j] in multiset(rest);
        BeforeIsStrict(s[0], x);
        if rest[j] != x {
          assert rest[j] in multiset(s[1..]);
        }
      }
    }
  }

  lemma NotBeforeTrans(a: string, b: string, c: string)
    ensures !Before(a, b) && !Before(b, c) ==> !Before(a, c)
  {
    if !Before(a, b) && !Before(b, c) && Before(a, c) {
      BeforeIsTotal(b, c);
      BeforeIsStrict(a, c);
      if b != c {
        BeforeIsTransitive(a, c, b);
      }
    }
  }

  /** sort.Strings. */
  function SortStrings(s: seq<string>): (r: seq<string>)
    ensures multiset(r) == multiset(s)
  {
    if s == [] then []
    else
      assert s == [s[0]] + s[1..];
      InsertString(s[0], SortStrings(s[1..]))
  }

  lemma {:induction false} SortStringsAscending(s: seq<string>)
    ensures AscendingStrings(SortStrings(s))
  {
    if s != [] {
      SortStringsAscending(s[1..]);
      InsertStringAscending(s[0], SortStrings(s[1..]));
    }
  }

  /* ---------- affectedMaps ---------- */

  /** The IDs, in spec order, of the maps whose pods run with the mod. */
  function Affected(spec: Spec, maps: seq<MapSpec>, mod: int): seq<string> {
    if maps == [] then []
    else
      var rest := Affected(spec, maps[..|maps| - 1], mod);
      var last := maps[|maps| - 1];
      if mod in Operator.EffectiveMods(spec, last) then rest + [last.id] else rest
  }

  method AffectedMaps(spec: Spec, mod: int) returns (out: seq<string>)
    ensures out == SortStrings(Affected(spec, spec.maps, mod))
  {
    var inGlobal := false;
    for i := 0 to |spec.mods|
      invariant inGlobal <==> mod in spec.mods[..i]
    {
      assert spec.mods[..i + 1] == spec.mods[..i] + [spec.mods[i]];
      if spec.mods[i] == mod {
        inGlobal := true;
        break;
      }
    }
    assert inGlobal <==> mod in spec.mods by {
      assert spec.mods[..|spec.mods|] == spec.mods;
    }
    out := [];
    for i := 0 to |spec.maps|
      invariant out == Affected(spec, spec.maps[..i], mod)
    {
      var m := spec.maps[i];
      assert spec.maps[..i + 1][..i] == spec.maps[..i];
      if |m.mods| > 0 {
        var found := false;
        for j := 0 to |m.mods|
          invariant !found && mod !in m.mods[..j]
        {
          assert m.mods[..j + 1] == m.mods[..j] + [m.mods[j]];
          if m.mods[j] == mod {
            found := true;
            break;
          }
        }
        assert found <==> mod in m.mods by {
          assert m.mods[..|m.mods|] == m.mods;
        }
        if found {
          out := out + [m.id];
        }
      } else if inGlobal {
        out := out + [m.id];
      }
    }
    assert spec.maps[..|spec.maps|] == spec.maps;
    out := SortStrings(out);
  }

  lemma {:induction false} AffectedMembers(spec: Spec, maps: seq<MapSpec>, mod: int)
    ensures forall id :: id in Affected(spec, maps, mod) <==>
      exists i :: 0 <= i < |maps| && maps[i].id == id && mod in Operator.EffectiveMods(spec, maps[i])
  {
    if maps != [] {
      var n := |maps| - 1;
      var rest := maps[..n];
      AffectedMembers(spec, rest, mod);
      assert forall i :: 0 <= i < n ==> rest[i] == maps[i];
      hide Operator.EffectiveMods;
      forall id ensures id in Affected(spec, maps, mod) <==>
        exists i :: 0 <= i < |maps| && maps[i].id == id && mod in Operator.EffectiveMods(spec, maps[i])
      {
        if id in Affected(spec, rest, mod) {
          var i :| 0 <= i < |rest| && rest[i].id == id && mod in Operator.EffectiveMods(spec, rest[i]);
          assert maps[i] == rest[i];
        }
      }
    }
  }

  lemma {:induction false} AffectedDistinct(spec: Spec, maps: seq<MapSpec>, mod: int)
    requires forall i, j :: 0 <= i < j < |maps| ==> maps[i].id != maps[j].id
    ensures forall id :: multiset(Affected(spec, maps, mod))[id] <= 1
  {
    hide Operator.EffectiveMods;
    if maps != [] {
      var n := |maps| - 1;
      var rest := maps[..n];
      assert forall i :: 0 <= i < n ==> rest[i] == maps[i];
      AffectedDistinct(spec, rest, mod);
      AffectedMembers(spec, rest, mod);
      assert maps[n].id !in Affected(spec, rest, mod);
      assert multiset(Affected(spec, rest, mod))[maps[n].id] == 0;
    }
  }

  /** The map's own mods count if it has any, else the global ones. */
  predicate RunsWith(spec: Spec, m: MapSpec, mod: int) {
    mod in (if m.mods != [] then m.mods else spec.mods)
  }

  /** With distinct map IDs: strictly ascending, and exactly the maps whose effective mod list has the mod. */
  lemma AffectedIsExact(spec: Spec, mod: int)
    requires GraceSafety.DistinctIds(spec)
    ensures var out := SortStrings(Affected(spec, spec.maps, mod));
      && (forall i, j :: 0 <= i < j < |out| ==> Before(out[i], out[j]))
      && (forall id :: id in out <==>
            exists i :: 0 <= i < |spec.maps| && spec.maps[i].id == id && RunsWith(spec, spec.maps[i], mod))
  {
    hide Before;
    var all := Affected(spec, spec.maps, mod);
    var out := SortStrings(all);
    SortStringsAscending(all);
    AffectedMembers(spec, spec.maps, mod);
    AffectedDistinct(spec, spec.maps, mod);
    forall i, j | 0 <= i < j < |out| ensures Before(out[i], out[j]) {
      BeforeIsTotal(out[i], out[j]);
      if out[i] == out[j] {
        TwiceCounts(out, i, j);
      }
    }
    forall id ensures id in out <==> id in all {
      assert id in out <==> id in multiset(out);
      assert id in all <==> id in multiset(all);
    }
  }

  lemma TwiceCounts<T>(s: seq<T>, i: nat, j: nat)
    requires i < j < |s| && s[i] == s[j]
    ensures multiset(s)[s[i]] >= 2
  {
    assert s == s[..j] + [s[j]] + s[j + 1..];
    assert s[..j][i] == s[i];
    assert s[i] in multiset(s[..j]);
  }

  /* ---------- collectModIDs ---------- */

  predicate StrictlyAscending(s: seq<int>) {
    forall i, j :: 0 <= i < j < |s| ==> s[i] < s[j]
  }

  function InsertInt(x: int, s: seq<int>): seq<int> {
    if s == [] || x < s[0] then [x] + s else [s[0]] + InsertInt(x, s[1..])
  }

  lemma {:induction false} InsertIntAscending(x: int, s: seq<int>)
    requires StrictlyAscending(s) && x !in s
    ensures StrictlyAscending(InsertInt(x, s))
    ensures forall y :: y in InsertInt(x, s) <==> y in s || y == x
  {
    if s != [] && s[0] < x {
      var rest := InsertInt(x, s[1..]);
      InsertIntAscending(x, s[1..]);
      assert forall i :: 0 <= i < |rest| ==> rest[i] in rest;
      assert s == [s[0]] + s[1..];
    }
  }

  lemma SomeOrNone(s: set<int>)
    ensures s == {} || exists x :: x in s
  {
    if forall x :: x !in s {
      assert s == {};
    }
  }

  /** The keys of a Go map, taken in any order and sorted. */
  method SortedKeys(ids: set<int>) returns (out: seq<int>)
    ensures StrictlyAscending(out)
    ensures forall id :: id in out <==> id in ids
  {
    out := [];
    var left := ids;
    while left != {}
      invariant left <= ids && StrictlyAscending(out)
      invariant forall id :: id in out <==> id in ids && id !in left
    {
      SomeOrNone(left);
      var id :| id in left;
      InsertIntAscending(id, out);
      out := InsertInt(id, out);
      left := left - {id};
    }
  }

  /** The distinct mod IDs of the global and the per-map lists, ascending; a Go map holds them on the way. */
  method CollectModIDs(spec: Spec) returns (out: seq<int>)
    ensures StrictlyAscending(out)
    ensures forall id :: id in out <==> id in spec.mods || exists i :: 0 <= i < |spec.maps| && id in spec.maps[i].mods
  {
    var ids: set<int> := {};
    for i := 0 to |spec.mods|
      invariant forall id :: id in ids <==> id in spec.mods[..i]
    {
      assert spec.mods[..i + 1] == spec.mods[..i] + [spec.mods[i]];
      ids := ids + {spec.mods[i]};
    }
    assert spec.mods[..|spec.mods|] == spec.mods;
    for i := 0 to |spec.maps|
      invariant forall id :: id in ids <==> id in spec.mods || exists k :: 0 <= k < i && id in spec.maps[k].mods
    {
      var m := spec.maps[i];
      ghost var before := ids;
      for j := 0 to |m.mods|
        invariant forall id :: id in ids <==> id in before || id in m.mods[..j]
      {
        assert m.mods[..j + 1] == m.mods[..j] + [m.mods[j]];
        ids := ids + {m.mods[j]};
      }
      assert m.mods[..|m.mods|] == m.mods;
    }
    out := SortedKeys(ids);
  }

  /** Every mod some pod runs with is tracked. */
  lemma EffectiveModsAreCollected(spec: Spec, i: nat, id: int)
    requires i < |spec.maps| && RunsWith(spec, spec.maps[i], id)
    ensures id in spec.mods || exists i :: 0 <= i < |spec.maps| && id in spec.maps[i].mods
  {
  }

  /* ---------- mergeModStatus ---------- */

  /** What was tracked before, by mod ID; the last entry of an ID counts. */
  function Previous(tracked: seq<TrackedMod>): map<int, TrackedMod> {
    if tracked == [] then map[]
    else Previous(tracked[..|tracked| - 1])[tracked[|tracked| - 1].id := tracked[|tracked| - 1]]
  }

  predicate HasMoved(prev: map<int, TrackedMod>, id: int, info: ModInfo) {
    id in prev && prev[id].latestFile != info.latestFile
  }

  /** What is to be known of one mod: its latest file; what is installed, at first sight the latest; and since when
      it has been moving. */
  function Updated(prev: map<int, TrackedMod>, spec: Spec, id: int, info: ModInfo, now: int): (t: TrackedMod)
    ensures t.id == id
  {
    var anew := id !in prev || prev[id].installedFile == 0;
    TrackedMod(id, info.slug, info.latestVersion, info.latestFile,
      if anew then info.latestVersion else prev[id].installedVersion,
      if anew then info.latestFile else prev[id].installedFile,
      SortStrings(Affected(spec, spec.maps, id)),
      if HasMoved(prev, id, info) then Some(now) else if id in prev then prev[id].lastChanged else None)
  }

  /** The n-th is the last record of the mod, the one that counts. */
  predicate LastOf(tracked: seq<TrackedMod>, n: nat, id: int) {
    n < |tracked| && tracked[n].id == id && forall k :: n < k < |tracked| ==> tracked[k].id != id
  }

  lemma {:induction false} PreviousIsLast(tracked: seq<TrackedMod>, id: int)
    ensures id in Previous(tracked) <==> exists n: nat :: LastOf(tracked, n, id)
    ensures forall n: nat :: LastOf(tracked, n, id) ==> id in Previous(tracked) && Previous(tracked)[id] == tracked[n]
  {
    if tracked != [] {
      var last := |tracked| - 1;
      if tracked[last].id == id {
        assert LastOf(tracked, last, id);
      } else {
        PreviousIsLast(tracked[..last], id);
        forall n: nat ensures LastOf(tracked, n, id) <==> LastOf(tracked[..last], n, id) {
        }
      }
    }
  }

  /** The record says what was fetched. */
  predicate IsFetched(t: TrackedMod, info: ModInfo) {
    t.slug == info.slug && t.latestVersion == info.latestVersion && t.latestFile == info.latestFile
  }

  /** A mod tracked before keeps what is installed of it, unless nothing was: then, as at first sight, the latest is
      taken as installed. Its last change is now exactly when its latest file is another than before. */
  lemma InstalledIsKept(before: seq<TrackedMod>, spec: Spec, infos: map<int, ModInfo>, now: int,
      out: seq<TrackedMod>, t: TrackedMod)
    requires IsMerge(out, Previous(before), spec, infos, now) && t in out
    ensures t.id in infos && IsFetched(t, infos[t.id])
    ensures forall n: nat :: LastOf(before, n, t.id) ==>
      && (before[n].installedFile != 0 ==>
            t.installedFile == before[n].installedFile && t.installedVersion == before[n].installedVersion)
      && (before[n].installedFile == 0 ==>
            t.installedFile == t.latestFile && t.installedVersion == t.latestVersion)
      && t.lastChanged == if before[n].latestFile != t.latestFile then Some(now) else before[n].lastChanged
    ensures (forall n: nat :: !LastOf(before, n, t.id)) ==>
      t.installedFile == t.latestFile && t.installedVersion == t.latestVersion && t.lastChanged == None
  {
    hide LastOf, Previous, SortStrings, Affected;
    PreviousIsLast(before, t.id);
  }

  ghost predicate AscendingIds(ts: seq<TrackedMod>) {
    forall i, j :: 0 <= i < j < |ts| ==> ts[i].id < ts[j].id
  }

  /** The merge as a property: one updated record per fetched mod, in ascending order. */
  ghost predicate IsMerge(out: seq<TrackedMod>, prev: map<int, TrackedMod>, spec: Spec, infos: map<int, ModInfo>,
      now: int)
  {
    && AscendingIds(out)
    && (forall t :: t in out ==> t.id in infos && t == Updated(prev, spec, t.id, infos[t.id], now))
    && (forall id :: id in infos ==> exists t :: t in out && t.id == id)
  }

  function InsertMod(t: TrackedMod, s: seq<TrackedMod>): seq<TrackedMod> {
    if s == [] || t.id < s[0].id then [t] + s else [s[0]] + InsertMod(t, s[1..])
  }

  lemma {:induction false} InsertModAscending(t: TrackedMod, s: seq<TrackedMod>)
    requires AscendingIds(s) && forall u :: u in s ==> u.id != t.id
    ensures AscendingIds(InsertMod(t, s))
    ensures forall u :: u in InsertMod(t, s) <==> u in s || u == t
  {
    if s != [] {
      assert s[0] in s;
      if s[0].id < t.id {
        var rest := InsertMod(t, s[1..]);
        InsertModAscending(t, s[1..]);
        assert forall i :: 0 <= i < |rest| ==> rest[i] in rest;
        assert s == [s[0]] + s[1..];
      }
    }
  }

  /** sort.Slice by ID. */
  function SortMods(s: seq<TrackedMod>): seq<TrackedMod> {
    if s == [] then [] else InsertMod(s[|s| - 1], SortMods(s[..|s| - 1]))
  }

  lemma {:induction false} SortModsAscending(s: seq<TrackedMod>)
    requires forall i, j :: 0 <= i < j < |s| ==> s[i].id != s[j].id
    ensures AscendingIds(SortMods(s))
    ensures forall t :: t in SortMods(s) <==> t in s
  {
    if s != [] {
      var n := |s| - 1;
      SortModsAscending(s[..n]);
      forall u | u in SortMods(s[..n]) ensures u.id != s[n].id {
        assert u in s[..n];
      }
      InsertModAscending(s[n], SortMods(s[..n]));
      assert s == s[..n] + [s[n]];
    }
  }

  /** The map the previous records are looked up in. */
  method IndexPrevious(tracked: seq<TrackedMod>) returns (prev: map<int, TrackedMod>)
    ensures prev == Previous(tracked)
  {
    prev := map[];
    for i := 0 to |tracked|
      invariant prev == Previous(tracked[..i])
    {
      prev := prev[tracked[i].id := tracked[i]];
      assert tracked[..i + 1][..i] == tracked[..i];
    }
    assert tracked[..|tracked|] == tracked;
  }

  /** Each mod of `order` in turn, updated. */
  ghost predicate AllUpdated(out: seq<TrackedMod>, order: seq<int>, n: nat, prev: map<int, TrackedMod>, spec: Spec,
      infos: map<int, ModInfo>, now: int)
  {
    && |out| == n <= |order|
    && forall k :: 0 <= k < n ==> order[k] in infos && out[k] == Updated(prev, spec, order[k], infos[order[k]], now)
  }

  /** `order` is the order in which the Go runtime happens to walk the map of fetched mods. */
  method MergeModStatus(before: seq<TrackedMod>, spec: Spec, infos: map<int, ModInfo>, order: seq<int>, now: int)
    returns (out: seq<TrackedMod>, changed: bool)
    requires forall id :: id in infos <==> id in order
    requires forall i, j :: 0 <= i < j < |order| ==> order[i] != order[j]
    ensures IsMerge(out, Previous(before), spec, infos, now)
    ensures changed <==> exists id :: id in infos && HasMoved(Previous(before), id, infos[id])
  {
    var prev := IndexPrevious(before);
    hide HasMoved, Updated, IsMerge, Previous;
    changed := false;
    var tracked := [];
    for i := 0 to |order|
      invariant AllUpdated(tracked, order, i, prev, spec, infos, now)
      invariant changed <==> exists k :: 0 <= k < i && HasMoved(prev, order[k], infos[order[k]])
    {
      assert order[i] in order;
      var t, moved := MergeOne(prev, spec, order[i], infos[order[i]], now);
      changed := changed || moved;
      tracked := tracked + [t];
    }
    SortedIsMerge(tracked, order, prev, spec, infos, now);
    out := SortMods(tracked);
  }

  lemma SortedIsMerge(tracked: seq<TrackedMod>, order: seq<int>, prev: map<int, TrackedMod>, spec: Spec,
      infos: map<int, ModInfo>, now: int)
    requires forall id :: id in infos <==> id in order
    requires forall i, j :: 0 <= i < j < |order| ==> order[i] != order[j]
    requires AllUpdated(tracked, order, |order|, prev, spec, infos, now)
    ensures IsMerge(SortMods(tracked), prev, spec, infos, now)
  {
    hide SortMods, Updated;
    SortModsAscending(tracked);
    forall t | t in SortMods(tracked) ensures t.id in infos && t == Updated(prev, spec, t.id, infos[t.id], now) {
      var k :| 0 <= k < |tracked| && tracked[k] == t;
      assert order[k] in infos && order[k] == t.id;
    }
    forall id | id in infos ensures exists t :: t in SortMods(tracked) && t.id == id {
      var k :| 0 <= k < |order| && order[k] == id;
      assert tracked[k] in SortMods(tracked);
    }
  }

  /** The body of the loop. */
  method MergeOne(prev: map<int, TrackedMod>, spec: Spec, id: int, info: ModInfo, now: int)
    returns (t: TrackedMod, changed: bool)
    ensures t == Updated(prev, spec, id, info, now)
    ensures changed == HasMoved(prev, id, info)
  {
    var seen := id in prev;
    var affected := AffectedMaps(spec, id);
    t := TrackedMod(id, info.slug, info.latestVersion, info.latestFile,
                    if seen then prev[id].installedVersion else "", if seen then prev[id].installedFile else 0,
                    affected, None);
    if !seen || t.installedFile == 0 {
      t := t.(installedFile := info.latestFile, installedVersion := info.latestVersion);
    }
    changed := seen && prev[id].latestFile != info.latestFile;
    if changed {
      t := t.(lastChanged := Some(now));
    } else if seen && prev[id].lastChanged.Some? {
      t := t.(lastChanged := prev[id].lastChanged);
    }
  }

  /** Whatever order the fetched mods are walked in, the outcome is the same list. */
  lemma {:induction false} MergeIsOrderIndependent(a: seq<TrackedMod>, b: seq<TrackedMod>,
      prev: map<int, TrackedMod>, spec: Spec, infos: map<int, ModInfo>, now: int)
    requires IsMerge(a, prev, spec, infos, now) && IsMerge(b, prev, spec, infos, now)
    ensures a == b
  {
    hide Updated;
    forall t ensures t in a <==> t in b {
      if t in a {
        MergeHas(a, b, prev, spec, infos, now, t);
      } else if t in b {
        MergeHas(b, a, prev, spec, infos, now, t);
      }
    }
    AscendingIdsUnique(a, b);
  }

  lemma MergeHas(a: seq<TrackedMod>, b: seq<TrackedMod>, prev: map<int, TrackedMod>, spec: Spec,
      infos: map<int, ModInfo>, now: int, t: TrackedMod)
    requires IsMerge(a, prev, spec, infos, now) && IsMerge(b, prev, spec, infos, now) && t in a
    ensures t in b
  {
    var u :| u in b && u.id == t.id;
    assert u == t;
  }

  lemma FirstIsMember(s: seq<TrackedMod>)
    requires s != []
    ensures exists t :: t in s
  {
    assert s[0] in s;
  }

  lemma {:induction false} AscendingIdsUnique(a: seq<TrackedMod>, b: seq<TrackedMod>)
    requires AscendingIds(a) && AscendingIds(b) && forall t :: t in a <==> t in b
    ensures a == b
  {
    if a == [] {
      if b != [] {
        FirstIsMember(b);
      }
    } else {
      assert a[0] in a;
      assert b != [];
      assert b[0] in b;
      var i :| 0 <= i < |a| && a[i] == b[0];
      var j :| 0 <= j < |b| && b[j] == a[0];
      assert a[0] == b[0];
      forall t ensures t in a[1..] <==> t in b[1..] {
        assert t in a <==> t == a[0] || t in a[1..];
        assert t in b <==> t == b[0] || t in b[1..];
        assert a[0] !in a[1..] && b[0] !in b[1..];
      }
      AscendingIdsUnique(a[1..], b[1..]);
      assert a == [a[0]] + a[1..] && b == [b[0]] + b[1..];
    }
  }

  /* ---------- hashTracked ---------- */

  function Entry(t: TrackedMod): string {
    Decimal(t.id) + "=" + Decimal(t.latestFile)
  }

  /** The text whose digest is the mods-changed annotation. */
  function TrackedText(ts: seq<TrackedMod>): string {
    if ts == [] then "" else TrackedText(ts[..|ts| - 1]) + Entry(ts[|ts| - 1]) + ";"
  }

  method HashedText(ts: seq<TrackedMod>) returns (s: string)
    ensures s == TrackedText(ts)
  {
    s := "";
    for i := 0 to |ts|
      invariant s == TrackedText(ts[..i])
    {
      s := s + (Decimal(ts[i].id) + "=" + Decimal(ts[i].latestFile) + ";");
      assert ts[..i + 1][..i] == ts[..i];
    }
    assert ts[..|ts|] == ts;
  }

  /** What it looks like. */
  lemma TextOfOne(t: TrackedMod)
    requires t.id == 927090 && t.latestFile == 5201
    ensures TrackedText([t]) == "927090=5201;"
  {
    assert [t][..0] == [];
    assert TrackedText([t]) == "" + Entry(t) + ";";
    DigitsOfExample();
  }

  lemma DigitsOfExample()
    ensures Decimal(927090) == "927090" && Decimal(5201) == "5201"
  {
    assert DecimalNat(5201) == "5201" by {
      assert DecimalNat(52) == "52" && DecimalNat(520) == "520";
    }
    assert DecimalNat(927090) == "927090" by {
      assert DecimalNat(92) == "92" && DecimalNat(927) == "927" && DecimalNat(9270) == "9270";
      assert DecimalNat(92709) == "92709";
    }
  }

  predicate SameFile(t: TrackedMod, u: TrackedMod) {
    t.id == u.id && t.latestFile == u.latestFile
  }

  predicate SameFiles(a: seq<TrackedMod>, b: seq<TrackedMod>) {
    |a| == |b| && forall i :: 0 <= i < |a| ==> SameFile(a[i], b[i])
  }

  lemma EntryTells(t: TrackedMod, u: TrackedMod)
    ensures Entry(t) == Entry(u) <==> SameFile(t, u)
    ensures Free(Entry(t), ';')
  {
    DecimalFree(t.id);
    DecimalFree(t.latestFile);
    DecimalFree(u.id);
    DecimalFree(u.latestFile);
    hide Decimal, Split;
    if Entry(t) == Entry(u) {
      SplitAtSeparator(Decimal(t.id), Decimal(t.latestFile), '=');
      SplitAtSeparator(Decimal(u.id), Decimal(u.latestFile), '=');
      SplitFree(Decimal(t.latestFile), '=');
      SplitFree(Decimal(u.latestFile), '=');
      assert Split(Entry(t), '=')[0] == Decimal(t.id) && Split(Entry(t), '=')[1] == Decimal(t.latestFile);
      assert Split(Entry(u), '=')[0] == Decimal(u.id) && Split(Entry(u), '=')[1] == Decimal(u.latestFile);
      DecimalInjective(t.id, u.id);
      DecimalInjective(t.latestFile, u.latestFile);
    }
  }

  lemma DecimalFree(n: int)
    ensures Free(Decimal(n), '=') && Free(Decimal(n), ';')
  {
    hide Decimal;
    forall c | c in Decimal(n) ensures c != '=' && c != ';' {
      var i :| 0 <= i < |Decimal(n)| && Decimal(n)[i] == c;
    }
  }

  function Entries(ts: seq<TrackedMod>): (r: seq<string>)
    ensures |r| == |ts| && forall i :: 0 <= i < |ts| ==> r[i] == Entry(ts[i])
  {
    if ts == [] then [] else [Entry(ts[0])] + Entries(ts[1..])
  }

  lemma {:induction false} TextAppends(a: seq<TrackedMod>, b: seq<TrackedMod>)
    ensures TrackedText(a + b) == TrackedText(a) + TrackedText(b)
  {
    hide Entry;
    if b == [] {
      assert a + b == a;
    } else {
      var n := |b| - 1;
      TextAppends(a, b[..n]);
      assert (a + b)[..|a + b| - 1] == a + b[..n];
      assert (a + b)[|a + b| - 1] == b[n];
    }
  }

  lemma {:induction false} TextSplits(ts: seq<TrackedMod>)
    ensures Split(TrackedText(ts), ';') == Entries(ts) + [""]
  {
    hide Entry;
    if ts == [] {
      assert Split("", ';') == [""];
    } else {
      var first, rest := ts[..1], ts[1..];
      assert ts == first + rest;
      TextAppends(first, rest);
      assert first[..0] == [];
      assert TrackedText(first) == Entry(ts[0]) + ";";
      EntryTells(ts[0], ts[0]);
      SplitAtSeparator(Entry(ts[0]), TrackedText(rest), ';');
      assert TrackedText(ts) == Entry(ts[0]) + [';'] + TrackedText(rest);
      TextSplits(rest);
      assert Entries(ts) + [""] == [Entry(ts[0])] + (Entries(rest) + [""]);
    }
  }

  /** The annotation's text, and with an injective digest the annotation, tells apart exactly the tracked lists that
      differ in a mod or its latest file: what is installed, affected or how a mod is called does not roll pods. */
  lemma TrackedTextTells(a: seq<TrackedMod>, b: seq<TrackedMod>)
    ensures TrackedText(a) == TrackedText(b) <==> SameFiles(a, b)
  {
    hide Entry, SameFile;
    if TrackedText(a) == TrackedText(b) {
      TextSplits(a);
      TextSplits(b);
      assert Entries(a) == (Entries(a) + [""])[..|a|];
      assert |Entries(a) + [""]| == |a| + 1 && |Entries(b) + [""]| == |b| + 1;
      assert Entries(b) == (Entries(b) + [""])[..|b|];
      forall i | 0 <= i < |a| ensures SameFile(a[i], b[i]) {
        assert Entries(a)[i] == Entries(b)[i];
        EntryTells(a[i], b[i]);
      }
    }
    if SameFiles(a, b) {
      SameFilesSameText(a, b);
    }
  }

  lemma {:induction false} SameFilesSameText(a: seq<TrackedMod>, b: seq<TrackedMod>)
    requires SameFiles(a, b)
    ensures TrackedText(a) == TrackedText(b)
  {
    if a != [] {
      var n := |a| - 1;
      SameFilesSameText(a[..n], b[..n]);
      assert SameFile(a[n], b[n]);
    }
  }
}
