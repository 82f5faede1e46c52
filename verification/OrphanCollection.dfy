/** gcOrphanedMaps in arkcluster_controller.go: what is deleted of maps that left spec, judged by label or by name. */
module OrphanCollection {
  import opened ArkTypes
  import opened Text
  import Slugs

  /* ---------- names ---------- */

  function PvcNameSaves(cluster: string, id: string): string {
    cluster + "-" + Slugs.MapSlug(id) + "-saves"
  }

  function PvcNameServer(cluster: string, id: string, side: Side): string {
    cluster + "-" + Slugs.MapSlug(id) + "-server-" + (if side == SideA then "a" else "b")
  }

  function PvcNameCluster(cluster: string): string {
    cluster + "-cluster"
  }

  function GusName(cluster: string, id: string): string {
    cluster + "-" + Slugs.MapSlug(id) + "-gus"
  }

  function GameName(cluster: string, id: string): string {
    cluster + "-" + Slugs.MapSlug(id) + "-game"
  }

  /* ---------- what goes ---------- */

  /** A pod or service carries the map label of no kept map. */
  predicate Unclaimed(tag: string, keep: set<string>) {
    tag != "" && tag !in keep
  }

  predicate Belongs(name: string, cluster: string, keep: set<string>) {
    exists slug :: slug in keep && HasPrefix(name, cluster + "-" + slug + "-")
  }

  predicate PvcGoes(name: string, cluster: string, keep: set<string>) {
    name != PvcNameCluster(cluster) && !Belongs(name, cluster, keep)
  }

  predicate ConfigMapGoes(name: string, cluster: string, keep: set<string>) {
    !Belongs(name, cluster, keep) && (HasSuffix(name, "-gus") || HasSuffix(name, "-game"))
  }

  function ToSet(keep: seq<string>): set<string> {
    set slug | slug in keep
  }

  /** The slugs of the maps in spec. */
  function KeptSlugs(maps: seq<MapSpec>): set<string> {
    set m | m in maps :: Slugs.MapSlug(m.id)
  }

  /* ---------- the collector ---------- */

  /** What stays of the objects judged by label. */
  function Claimed(objects: map<string, string>, keep: set<string>, failing: set<string>): map<string, string> {
    map name | name in objects && !(Unclaimed(objects[name], keep) && name !in failing) :: objects[name]
  }

  /** The objects of a cluster, by name; pods and services with their map label. */
  datatype Contents = Contents(pods: map<string, string>, services: map<string, string>, pvcs: set<string>,
    configMaps: set<string>)

  datatype Kind = Pods | Services | Pvcs | ConfigMaps

  /** The cluster's objects in its namespace, by name; pods and services with their map label. */
  class Namespace {
    const cluster: string
    var pods: map<string, string>
    var services: map<string, string>
    var pvcs: set<string>
    var configMaps: set<string>

    constructor (cluster: string, pods: map<string, string>, services: map<string, string>, pvcs: set<string>,
      configMaps: set<string>)
      ensures this.cluster == cluster && this.pods == pods && this.services == services
      ensures this.pvcs == pvcs && this.configMaps == configMaps
    {
      this.cluster, this.pods, this.services, this.pvcs, this.configMaps := cluster, pods, services, pvcs, configMaps;
    }

    function Objects(): Contents
      reads this
    {
      Contents(pods, services, pvcs, configMaps)
    }

    /** Tries the kept slugs in whatever order the map yields them. */
    static method BelongsTo(name: string, cluster: string, keep: seq<string>) returns (belongs: bool)
      ensures belongs == Belongs(name, cluster, ToSet(keep))
    {
      belongs := false;
      for i := 0 to |keep|
        invariant !belongs && forall k :: 0 <= k < i ==> !HasPrefix(name, cluster + "-" + keep[k] + "-")
      {
        if HasPrefix(name, cluster + "-" + keep[i] + "-") {
          assert keep[i] in ToSet(keep);
          return true;
        }
      }
    }

    /** Deletes the unclaimed ones among the listed objects of one labelled kind; a deletion that fails is ignored. */
    static method Sweep(objects: map<string, string>, listed: seq<string>, keep: seq<string>, failing: set<string>)
      returns (left: map<string, string>)
      requires forall name :: name in objects <==> name in listed
      ensures left == Claimed(objects, ToSet(keep), failing)
    {
      ghost var kept := ToSet(keep);
      left := objects;
      for i := 0 to |listed|
        invariant left == map name | name in objects
          && !(name in listed[..i] && Unclaimed(objects[name], kept) && name !in failing) :: objects[name]
      {
        var tag := objects[listed[i]];
        if tag != "" && tag !in keep && listed[i] !in failing {
          left := map name | name in left && name != listed[i] :: left[name];
        }
        assert listed[..i + 1] == listed[..i] + [listed[i]];
      }
      assert listed[..|listed|] == listed;
    }

    static method SweepPvcs(pvcs: set<string>, listed: seq<string>, cluster: string, keep: seq<string>,
        failing: set<string>)
      returns (left: set<string>)
      requires forall name :: name in pvcs <==> name in listed
      ensures left == set name | name in pvcs && !(PvcGoes(name, cluster, ToSet(keep)) && name !in failing)
    {
      ghost var kept := ToSet(keep);
      left := pvcs;
      for i := 0 to |listed|
        invariant left == set name | name in pvcs
          && !(name in listed[..i] && PvcGoes(name, cluster, kept) && name !in failing)
      {
        if listed[i] != PvcNameCluster(cluster) {
          var belongs := BelongsTo(listed[i], cluster, keep);
          if !belongs && listed[i] !in failing {
            left := left - {listed[i]};
          }
        }
        assert listed[..i + 1] == listed[..i] + [listed[i]];
      }
      assert listed[..|listed|] == listed;
    }

    static method SweepConfigMaps(configMaps: set<string>, listed: seq<string>, cluster: string, keep: seq<string>,
        failing: set<string>)
      returns (left: set<string>)
      requires forall name :: name in configMaps <==> name in listed
      ensures left == set name | name in configMaps && !(ConfigMapGoes(name, cluster, ToSet(keep)) && name !in failing)
    {
      ghost var kept := ToSet(keep);
      left := configMaps;
      for i := 0 to |listed|
        invariant left == set name | name in configMaps
          && !(name in listed[..i] && ConfigMapGoes(name, cluster, kept) && name !in failing)
      {
        var belongs := BelongsTo(listed[i], cluster, keep);
        if !belongs && (HasSuffix(listed[i], "-gus") || HasSuffix(listed[i], "-game")) && listed[i] !in failing {
          left := left - {listed[i]};
        }
        assert listed[..i + 1] == listed[..i] + [listed[i]];
      }
      assert listed[..|listed|] == listed;
    }

    /** One collection: `lists` are the kinds whose listing succeeds. */
    method Collect(keep: seq<string>, persistOnDelete: bool, lists: set<Kind>, failing: set<string>,
                   podList: seq<string>, serviceList: seq<string>, pvcList: seq<string>, configMapList: seq<string>)
      requires forall name :: name in pods <==> name in podList
      requires forall name :: name in services <==> name in serviceList
      requires forall name :: name in pvcs <==> name in pvcList
      requires forall name :: name in configMaps <==> name in configMapList
      modifies this
      ensures Objects() == Collected(old(Objects()), cluster, ToSet(keep), persistOnDelete, lists, failing)
    {
      if Pods in lists {
        pods := Sweep(pods, podList, keep, failing);
      }
      if Services in lists {
        services := Sweep(services, serviceList, keep, failing);
      }
      if !persistOnDelete && Pvcs in lists {
        pvcs := SweepPvcs(pvcs, pvcList, cluster, keep, failing);
      }
      if ConfigMaps in lists {
        configMaps := SweepConfigMaps(configMaps, configMapList, cluster, keep, failing);
      }
    }

    /** The collection of a pass: the slugs of the maps in spec are kept. */
    method CollectForSpec(maps: seq<MapSpec>, persistOnDelete: bool, lists: set<Kind>, failing: set<string>,
                          podList: seq<string>, serviceList: seq<string>, pvcList: seq<string>,
                            configMapList: seq<string>)
      requires forall name :: name in pods <==> name in podList
      requires forall name :: name in services <==> name in serviceList
      requires forall name :: name in pvcs <==> name in pvcList
      requires forall name :: name in configMaps <==> name in configMapList
      modifies this
      ensures Objects() == Collected(old(Objects()), cluster, KeptSlugs(maps), persistOnDelete, lists, failing)
    {
      hide Slugs.MapSlug, Collected;
      var keep: seq<string> := [];
      for i := 0 to |maps|
        invariant Objects() == old(Objects())
        invariant forall slug :: slug in keep <==> exists k :: 0 <= k < i && slug == Slugs.MapSlug(maps[k].id)
      {
        var slug := Slugs.MapSlug(maps[i].id);
        if slug !in keep {
          keep := keep + [slug];
        }
      }
      assert ToSet(keep) == KeptSlugs(maps);
      Collect(keep, persistOnDelete, lists, failing, podList, serviceList, pvcList, configMapList);
    }
  }

  /** The name is the cluster's, a kept slug and more, joined by dashes. */
  ghost predicate IsOfKept(name: string, cluster: string, keep: set<string>) {
    exists slug, rest :: slug in keep && name == cluster + "-" + slug + "-" + rest
  }

  /** What goes, in terms of names and labels: a labelled object when its label is not a kept slug, a volume claim but
      the shared one when its name is of no kept map, a ConfigMap when besides its name ends like those of a map. */
  lemma GoesMeans(name: string, tag: string, cluster: string, keep: set<string>)
    ensures Unclaimed(tag, keep) <==> tag != "" && tag !in keep
    ensures PvcGoes(name, cluster, keep) <==> name != cluster + "-cluster" && !IsOfKept(name, cluster, keep)
    ensures ConfigMapGoes(name, cluster, keep) <==>
      (exists stem :: name == stem + "-gus" || name == stem + "-game") && !IsOfKept(name, cluster, keep)
  {
    BelongsMeans(name, cluster, keep);
    hide Belongs, IsOfKept;
    AffixesMean(name, "-gus");
    AffixesMean(name, "-game");
    if stem :| name == stem + "-gus" || name == stem + "-game" {
      assert HasSuffix(name, "-gus") || HasSuffix(name, "-game");
    }
  }

  lemma BelongsMeans(name: string, cluster: string, keep: set<string>)
    ensures Belongs(name, cluster, keep) <==> IsOfKept(name, cluster, keep)
  {
    if Belongs(name, cluster, keep) {
      var slug :| slug in keep && HasPrefix(name, cluster + "-" + slug + "-");
      AffixesMean(name, cluster + "-" + slug + "-");
    }
    if IsOfKept(name, cluster, keep) {
      var slug, rest :| slug in keep && name == cluster + "-" + slug + "-" + rest;
      AffixesMean(name, cluster + "-" + slug + "-");
    }
  }

  /* ---------- soundness ---------- */

  /** Nothing of a map in spec goes, and never the shared volume claim, whatever the names of the cluster and the
      other maps. */
  lemma CollectionIsSound(maps: seq<MapSpec>, m: MapSpec, cluster: string)
    requires m in maps
    ensures var keep := KeptSlugs(maps);
      && !Unclaimed(Slugs.MapSlug(m.id), keep)
      && !PvcGoes(PvcNameSaves(cluster, m.id), cluster, keep)
      && (forall side :: !PvcGoes(PvcNameServer(cluster, m.id, side), cluster, keep))
      && !ConfigMapGoes(GusName(cluster, m.id), cluster, keep)
      && !ConfigMapGoes(GameName(cluster, m.id), cluster, keep)
      && !PvcGoes(PvcNameCluster(cluster), cluster, keep)
  {
    hide Slugs.MapSlug;
    var slug := Slugs.MapSlug(m.id);
    assert slug in KeptSlugs(maps);
    var head := cluster + "-" + slug + "-";
    assert PvcNameSaves(cluster, m.id) == head + "saves";
    assert GusName(cluster, m.id) == head + "gus" && GameName(cluster, m.id) == head + "game";
    forall side ensures !PvcGoes(PvcNameServer(cluster, m.id, side), cluster, KeptSlugs(maps)) {
      assert PvcNameServer(cluster, m.id, side) == head + ("server-" + (if side == SideA then "a" else "b"));
    }
  }

  /* ---------- completeness, up to prefixes ---------- */

  /** Some kept slug and a dash begin the text. */
  predicate Shadowed(rest: string, keep: set<string>) {
    exists slug :: slug in keep && HasPrefix(rest, slug + "-")
  }

  lemma {:induction false} BelongsIffShadowed(cluster: string, rest: string, keep: set<string>)
    ensures Belongs(cluster + "-" + rest, cluster, keep) <==> Shadowed(rest, keep)
  {
    var name := cluster + "-" + rest;
    assert name[|cluster| + 1..] == rest;
    forall slug | slug in keep ensures HasPrefix(name, cluster + "-" + slug + "-") <==> HasPrefix(rest, slug + "-") {
      var head := cluster + "-";
      assert cluster + "-" + slug + "-" == head + (slug + "-");
      if HasPrefix(rest, slug + "-") {
        assert rest == (slug + "-") + rest[|slug| + 1..];
        assert name == head + (slug + "-") + rest[|slug| + 1..];
      }
      if HasPrefix(name, head + (slug + "-")) {
        assert rest[..|slug| + 1] == name[|head|..][..|slug| + 1] == slug + "-";
      }
    }
  }

  /** A volume claim of a map stays exactly when some kept slug and a dash begin its name after the cluster's. */
  lemma PvcStaysIffShadowed(cluster: string, id: string, side: Side, keep: set<string>)
    ensures PvcGoes(PvcNameSaves(cluster, id), cluster, keep) <==> !Shadowed(Slugs.MapSlug(id) + "-saves", keep)
    ensures PvcGoes(PvcNameServer(cluster, id, side), cluster, keep)
       <==> !Shadowed(Slugs.MapSlug(id) + "-server-" + (if side == SideA then "a" else "b"), keep)
  {
    hide Slugs.MapSlug, Belongs, Shadowed;
    var slug, letter := Slugs.MapSlug(id), if side == SideA then "a" else "b";
    var saves, server := slug + "-saves", slug + "-server-" + letter;
    assert PvcNameSaves(cluster, id) == cluster + "-" + saves;
    assert PvcNameServer(cluster, id, side) == cluster + "-" + server;
    BelongsIffShadowed(cluster, saves, keep);
    BelongsIffShadowed(cluster, server, keep);
    NotTheShared(cluster, saves);
    NotTheShared(cluster, server);
  }

  lemma NotTheShared(cluster: string, rest: string)
    requires |rest| > 0 && rest[|rest| - 1] != 'r'
    ensures cluster + "-" + rest != PvcNameCluster(cluster)
  {
    var name, shared := cluster + "-" + rest, PvcNameCluster(cluster);
    assert name[|name| - 1] == rest[|rest| - 1];
    assert shared[|shared| - 1] == 'r';
  }

  /** A kept slug stands in the way of cleaning up after a removed one: it is a dash-bounded beginning of it, or it is
      the removed slug and "-server". */
  predicate InTheWay(slug: string, kept: string) {
    HasPrefix(slug + "-", kept + "-") || kept == slug + "-server"
  }

  /** A tail without a dash adds no way to begin a name. */
  lemma ShadowsTail(slug: string, tail: string, kept: string)
    requires Free(tail, '-')
    ensures HasPrefix(slug + "-" + tail, kept + "-") <==> HasPrefix(slug + "-", kept + "-")
  {
    var rest := slug + "-" + tail;
    assert rest[..|slug| + 1] == slug + "-";
    if HasPrefix(rest, kept + "-") {
      assert rest[|kept|] == '-';
      if |kept| > |slug| {
        assert false;
      }
      assert (slug + "-")[..|kept| + 1] == rest[..|kept| + 1];
    }
    if HasPrefix(slug + "-", kept + "-") {
      assert rest[..|kept| + 1] == (slug + "-")[..|kept| + 1];
    }
  }

  lemma ShadowsServer(slug: string, letter: string, kept: string)
    requires letter == "a" || letter == "b"
    ensures HasPrefix(slug + "-server-" + letter, kept + "-") <==> InTheWay(slug, kept)
  {
    var rest := slug + "-server-" + letter;
    assert rest[..|slug| + 1] == slug + "-";
    assert rest[..|slug| + 8] == slug + "-server" + "-";
    if HasPrefix(rest, kept + "-") {
      assert rest[|kept|] == '-';
      if |kept| > |slug| {
        assert rest[|kept|] == ("-server-" + letter)[|kept| - |slug|];
        assert |kept| == |slug| + 7;
        assert kept + "-" == rest[..|slug| + 8];
        assert kept == (kept + "-")[..|kept|] == (slug + "-server" + "-")[..|kept|] == slug + "-server";
      } else {
        assert (slug + "-")[..|kept| + 1] == rest[..|kept| + 1];
      }
    }
    if HasPrefix(slug + "-", kept + "-") {
      assert rest[..|kept| + 1] == (slug + "-")[..|kept| + 1];
    }
  }

  /** All volume claims of a removed map go if and only if no kept slug is in the way: full cleanup wherever no slug
      is a dash-bounded beginning of another, nor another followed by "-server". */
  lemma CleanupIsFullIff(cluster: string, id: string, keep: set<string>)
    ensures (PvcGoes(PvcNameSaves(cluster, id), cluster, keep)
             && forall side :: PvcGoes(PvcNameServer(cluster, id, side), cluster, keep))
       <==> (forall kept :: kept in keep ==> !InTheWay(Slugs.MapSlug(id), kept))
  {
    hide Slugs.MapSlug, PvcGoes, InTheWay, HasPrefix;
    var slug := Slugs.MapSlug(id);
    PvcStaysIffShadowed(cluster, id, SideA, keep);
    PvcStaysIffShadowed(cluster, id, SideB, keep);
    forall kept | kept in keep
      ensures HasPrefix(slug + "-saves", kept + "-") <==> HasPrefix(slug + "-", kept + "-")
      ensures HasPrefix(slug + "-server-" + "a", kept + "-") <==> InTheWay(slug, kept)
      ensures HasPrefix(slug + "-server-" + "b", kept + "-") <==> InTheWay(slug, kept)
      ensures HasPrefix(slug + "-", kept + "-") ==> InTheWay(slug, kept)
    {
      ShadowsTail(slug, "saves", kept);
      assert slug + "-" + "saves" == slug + "-saves";
      ShadowsServer(slug, "a", kept);
      ShadowsServer(slug, "b", kept);
      PrefixIsInTheWay(slug, kept);
    }
  }

  lemma PrefixIsInTheWay(slug: string, kept: string)
    ensures HasPrefix(slug + "-", kept + "-") ==> InTheWay(slug, kept)
  {
  }

  /** A removed map's pods and services go once listed, whatever the other slugs. */
  lemma LabelledGo(objects: map<string, string>, name: string, maps: seq<MapSpec>, id: string)
    requires name in objects && objects[name] == Slugs.MapSlug(id) && Slugs.MapSlug(id) != ""
    ensures name !in Claimed(objects, KeptSlugs(maps), {}) <==> forall m :: m in maps ==>
      Slugs.MapSlug(m.id) != Slugs.MapSlug(id)
  {
    hide Slugs.MapSlug;
  }

  /** The same for the two ConfigMaps of a map. */
  lemma ConfigMapStaysIffShadowed(cluster: string, id: string, keep: set<string>)
    ensures ConfigMapGoes(GusName(cluster, id), cluster, keep) <==> !Shadowed(Slugs.MapSlug(id) + "-gus", keep)
    ensures ConfigMapGoes(GameName(cluster, id), cluster, keep) <==> !Shadowed(Slugs.MapSlug(id) + "-game", keep)
  {
    hide Slugs.MapSlug, Belongs, Shadowed;
    var slug := Slugs.MapSlug(id);
    assert GusName(cluster, id) == cluster + "-" + (slug + "-gus");
    assert GameName(cluster, id) == cluster + "-" + (slug + "-game");
    BelongsIffShadowed(cluster, slug + "-gus", keep);
    BelongsIffShadowed(cluster, slug + "-game", keep);
    assert HasSuffix(GusName(cluster, id), "-gus") && HasSuffix(GameName(cluster, id), "-game");
  }

  /** Both ConfigMaps of a removed map go if and only if no kept slug is a dash-bounded beginning of its slug. */
  lemma ConfigMapsGoIff(cluster: string, id: string, keep: set<string>)
    ensures ConfigMapGoes(GusName(cluster, id), cluster, keep) && ConfigMapGoes(GameName(cluster, id), cluster, keep)
       <==> forall kept :: kept in keep ==> !HasPrefix(Slugs.MapSlug(id) + "-", kept + "-")
  {
    hide Slugs.MapSlug, ConfigMapGoes, HasPrefix;
    var slug := Slugs.MapSlug(id);
    ConfigMapStaysIffShadowed(cluster, id, keep);
    forall kept | kept in keep
      ensures HasPrefix(slug + "-gus", kept + "-") <==> HasPrefix(slug + "-", kept + "-")
      ensures HasPrefix(slug + "-game", kept + "-") <==> HasPrefix(slug + "-", kept + "-")
    {
      ShadowsTail(slug, "gus", kept);
      ShadowsTail(slug, "game", kept);
      assert slug + "-" + "gus" == slug + "-gus" && slug + "-" + "game" == slug + "-game";
    }
  }

  /* ---------- the collection of a pass ---------- */

  /** Whatever of a map in spec was there is there still. */
  ghost predicate SparesMap(before: Contents, after: Contents, cluster: string, m: MapSpec) {
    && (forall name :: name in before.pods && before.pods[name] == Slugs.MapSlug(m.id) ==> name in after.pods)
    && (forall name :: name in before.services && before.services[name] == Slugs.MapSlug(m.id) ==>
      name in after.services)
    && (PvcNameSaves(cluster, m.id) in before.pvcs ==> PvcNameSaves(cluster, m.id) in after.pvcs)
    && (forall side :: PvcNameServer(cluster, m.id, side) in before.pvcs ==>
      PvcNameServer(cluster, m.id, side) in after.pvcs)
    && (GusName(cluster, m.id) in before.configMaps ==> GusName(cluster, m.id) in after.configMaps)
    && (GameName(cluster, m.id) in before.configMaps ==> GameName(cluster, m.id) in after.configMaps)
  }

  /** Nothing of a removed map is left. */
  ghost predicate ForgetsMap(after: Contents, cluster: string, id: string) {
    && (forall name :: name in after.pods ==> after.pods[name] != Slugs.MapSlug(id))
    && (forall name :: name in after.services ==> after.services[name] != Slugs.MapSlug(id))
    && PvcNameSaves(cluster, id) !in after.pvcs
    && (forall side :: PvcNameServer(cluster, id, side) !in after.pvcs)
    && GusName(cluster, id) !in after.configMaps
    && GameName(cluster, id) !in after.configMaps
  }

  /** What a collection makes of the objects. */
  function Collected(before: Contents, cluster: string, keep: set<string>, persistOnDelete: bool, lists: set<Kind>,
      failing: set<string>): Contents
  {
    Contents(
      if Pods in lists then Claimed(before.pods, keep, failing) else before.pods,
      if Services in lists then Claimed(before.services, keep, failing) else before.services,
      if persistOnDelete || Pvcs !in lists then before.pvcs
      else set name | name in before.pvcs && !(PvcGoes(name, cluster, keep) && name !in failing),
      if ConfigMaps !in lists then before.configMaps
      else set name | name in before.configMaps && !(ConfigMapGoes(name, cluster, keep) && name !in failing))
  }

  /** Whatever is listed and whatever deletion fails, a collection for a spec spares every map in it and the shared
      volume claim. */
  lemma CollectionSparesSpec(before: Contents, cluster: string, maps: seq<MapSpec>, persistOnDelete: bool,
      lists: set<Kind>, failing: set<string>, m: MapSpec)
    requires m in maps
    ensures var after := Collected(before, cluster, KeptSlugs(maps), persistOnDelete, lists, failing);
      && SparesMap(before, after, cluster, m)
      && (PvcNameCluster(cluster) in before.pvcs ==> PvcNameCluster(cluster) in after.pvcs)
  {
    CollectionIsSound(maps, m, cluster);
    hide Slugs.MapSlug, PvcGoes, ConfigMapGoes, PvcNameSaves, PvcNameServer, GusName, GameName;
  }

  /** When all listings and deletions succeed and claims need not persist, a map outside spec is forgotten unless its
      slug is kept or a kept slug is in the way. */
  lemma CollectionForgets(before: Contents, cluster: string, maps: seq<MapSpec>, id: string)
    requires Slugs.MapSlug(id) != "" && Slugs.MapSlug(id) !in KeptSlugs(maps)
    requires forall kept :: kept in KeptSlugs(maps) ==> !InTheWay(Slugs.MapSlug(id), kept)
    ensures ForgetsMap(Collected(before, cluster, KeptSlugs(maps), false, {Pods, Services, Pvcs, ConfigMaps}, {}),
      cluster, id)
  {
    var keep := KeptSlugs(maps);
    CleanupIsFullIff(cluster, id, keep);
    forall kept | kept in keep ensures !HasPrefix(Slugs.MapSlug(id) + "-", kept + "-") {
      PrefixIsInTheWay(Slugs.MapSlug(id), kept);
    }
    ConfigMapsGoIff(cluster, id, keep);
    hide Slugs.MapSlug, PvcGoes, ConfigMapGoes, PvcNameSaves, PvcNameServer, GusName, GameName, InTheWay, HasPrefix;
    hide KeptSlugs;
  }
}
