/** Which edits make a pod drift: computePodHash in internal/controller/arkcluster_controller.go told by its inputs, and
    what an edit of one of them does to a healthy map. */
module PodHashes {
  import opened ArkTypes
  import opened World
  import opened Operator
  import opened Text
  import Drift
  import HealthyMaps
  import Runs
  import Slugs
  import Visits

  /** One computation of a pod hash: from what, and whether the revisions could be read. */
  datatype Ask = Ask(w: World, answer: Outcome, spec: Spec, at: nat, volume: Volume)

  predicate AsksOfMap(a: Ask) {
    a.at < |a.spec.maps|
  }

  function Answer(a: Ask): string
    requires AsksOfMap(a)
  {
    ReadHash(a.w, a.answer, a.spec, a.at, a.volume)
  }

  /** The mods the map runs with: its own if it has any, else the global ones. */
  function ModsOf(a: Ask): seq<int>
    requires AsksOfMap(a)
  {
    if a.spec.maps[a.at].mods != [] then a.spec.maps[a.at].mods else a.spec.mods
  }

  /** The revisions of the map's two ConfigMaps, empty ones if they are not there or cannot be read. */
  function IniRevOf(a: Ask): string
    requires AsksOfMap(a)
  {
    if a.answer == Ok && a.spec.maps[a.at].id in a.w.iniRevs then a.w.iniRevs[a.spec.maps[a.at].id] else "|"
  }

  function SecretsRevOf(a: Ask): string {
    if a.answer == Ok then a.w.secretsRev else ""
  }

  const INPUTS := 9

  /** The n-th input is the same for both. */
  predicate Agree(a: Ask, b: Ask, n: nat)
    requires AsksOfMap(a) && AsksOfMap(b)
  {
    match n
    case 0 => a.spec.image == b.spec.image
    case 1 => multiset(ModsOf(a)) == multiset(ModsOf(b))
    case 2 => a.spec.gamePortStart + a.at == b.spec.gamePortStart + b.at
    case 3 => a.spec.rconPortStart + a.at == b.spec.rconPortStart + b.at
    case 4 => SecretsRevOf(a) == SecretsRevOf(b)
    case 5 => IniRevOf(a) == IniRevOf(b)
    case 6 => a.spec.modsChanged == b.spec.modsChanged
    case 7 => a.spec.launchRev == b.spec.launchRev
    case _ => a.volume == b.volume
  }

  ghost predicate AgreeBut(a: Ask, b: Ask, n: nat)
    requires AsksOfMap(a) && AsksOfMap(b)
  {
    forall m: nat :: m < INPUTS && m != n ==> Agree(a, b, m)
  }

  /** Pods are labelled with the hash of hash.go. */
  ghost predicate Labels(w: World, digest: string -> string) {
    forall x :: w.hash(x) == Drift.PodTemplateHash(x, digest)
  }

  function Inputs(a: Ask): Drift.HashInput
    requires AsksOfMap(a)
  {
    Template(a.spec, a.at, a.volume, IniRevOf(a), SecretsRevOf(a))
  }

  /** Which field of the hash input the n-th input goes into. */
  function FieldOf(n: nat): (g: nat)
    ensures n < INPUTS ==> g < 8
  {
    if n <= 5 then n else if n <= 7 then n - 1 else 7
  }

  function Mark(modsChanged: string): string {
    if modsChanged != "" then "|mods=" + modsChanged else ""
  }

  lemma MarksTell(c: string, d: string)
    ensures Mark(c) == Mark(d) <==> c == d
  {
    assert c != "" ==> Mark(c)[6..] == c;
    assert d != "" ==> Mark(d)[6..] == d;
  }

  lemma HalvesTell(a: string, s: string, b: string, t: string)
    requires a == b || s == t
    ensures a + s == b + t <==> a == b && s == t
  {
    if a + s == b + t {
      assert |a| == |b|;
      assert a == (a + s)[..|a|] == (b + t)[..|b|] == b;
      assert s == (a + s)[|a|..] == (b + t)[|b|..] == t;
    }
  }

  lemma RevisionsTell(a: string, b: string, c: string, d: string)
    requires a == b || c == d
    ensures a + (if c != "" then "|mods=" + c else "") == b + (if d != "" then "|mods=" + d else "")
       <==> a == b && c == d
  {
    MarksTell(c, d);
    HalvesTell(a, Mark(c), b, Mark(d));
  }

  lemma VolumesTell(v: Volume, u: Volume)
    requires !v.Other? && !u.Other?
    ensures VolumeName(v) == VolumeName(u) <==> v == u
  {
    assert "server-a"[7] != "server-b"[7];
    assert |"server-a"| == 8 && |"server-b"| == 8;
  }

  /** A field tells its input apart, the other input of the field being the same if it has one. */
  lemma FieldTells(a: Ask, b: Ask, n: nat)
    requires AsksOfMap(a) && AsksOfMap(b) && n < INPUTS
    requires n == 5 || n == 6 ==> Agree(a, b, 11 - n)
    requires n == 8 ==> !a.volume.Other? && !b.volume.Other?
    ensures Drift.SameIn(Inputs(a), Inputs(b), FieldOf(n)) <==> Agree(a, b, n)
  {
    if n == 5 || n == 6 {
      RevisionsTell(IniRevOf(a), IniRevOf(b), a.spec.modsChanged, b.spec.modsChanged);
    } else if n == 8 {
      VolumesTell(a.volume, b.volume);
    }
    hide VolumeName;
  }

  /** A field whose inputs agree agrees. */
  lemma FieldAgrees(a: Ask, b: Ask, g: nat)
    requires AsksOfMap(a) && AsksOfMap(b) && g < 8
    requires forall m: nat :: m < INPUTS && FieldOf(m) == g ==> Agree(a, b, m)
    ensures Drift.SameIn(Inputs(a), Inputs(b), g)
  {
    hide VolumeName;
    assert FieldOf(if g <= 5 then g else g + 1) == g;
    assert g == 5 ==> FieldOf(6) == g;
  }

  /** The fields of the hash input tell the inputs apart, one at a time. */
  lemma FieldsTell(a: Ask, b: Ask, n: nat)
    requires AsksOfMap(a) && AsksOfMap(b) && n < INPUTS && AgreeBut(a, b, n)
    requires n == 8 ==> !a.volume.Other? && !b.volume.Other?
    ensures forall g: nat :: g < 8 && g != FieldOf(n) ==> Drift.SameIn(Inputs(a), Inputs(b), g)
    ensures Drift.SameIn(Inputs(a), Inputs(b), FieldOf(n)) <==> Agree(a, b, n)
  {
    hide Agree, Drift.SameIn, Inputs;
    FieldTells(a, b, n);
    forall g: nat | g < 8 && g != FieldOf(n) ensures Drift.SameIn(Inputs(a), Inputs(b), g) {
      forall m: nat | m < INPUTS && FieldOf(m) == g ensures Agree(a, b, m) {
        assert m != n;
      }
      FieldAgrees(a, b, g);
    }
  }

  lemma AnswerIs(a: Ask, digest: string -> string)
    requires AsksOfMap(a) && Labels(a.w, digest)
    ensures Answer(a) == Drift.PodTemplateHash(Inputs(a), digest)
  {
    hide Drift.PodTemplateHash, Template;
  }

  function VolumeText(v: Volume): string {
    match v
    case ServerA => "server-a"
    case ServerB => "server-b"
    case Unset => ""
    case Other(name) => name
  }

  /** The format string of hash.go. */
  function Layout(image: string, mods: string, gamePort: string, rconPort: string, secrets: string, ini: string,
      launch: string, volume: string): string
  {
    image + "|" + mods + "|" + gamePort + "|" + rconPort + "|" + secrets + "|" + ini + "|" + launch + "|" + volume
  }

  /** The text whose digest a pod is labelled with. */
  lemma HashIsDigestOf(a: Ask, digest: string -> string)
    requires AsksOfMap(a) && Labels(a.w, digest)
    ensures Answer(a) == digest(Layout(
      a.spec.image, digest(Join(Drift.Decimals(Drift.Sorted(ModsOf(a))), ',')),
      Decimal(a.spec.gamePortStart + a.at), Decimal(a.spec.rconPortStart + a.at), SecretsRevOf(a),
      IniRevOf(a) + (if a.spec.modsChanged != "" then "|mods=" + a.spec.modsChanged else ""),
      a.spec.launchRev, VolumeText(a.volume)))
  {
    hide Layout, Answer, Labels, Decimal, Join, Drift.Decimals, Drift.Sorted, Drift.PodTemplateHash, Drift.Preimage;
    AnswerIs(a, digest);
    DigestIs(Inputs(a), digest);
  }

  lemma DigestIs(x: Drift.HashInput, digest: string -> string)
    ensures Drift.PodTemplateHash(x, digest) == digest(Layout(
      x.image, digest(Join(Drift.Decimals(Drift.Sorted(x.mods)), ',')), Decimal(x.gamePort), Decimal(x.rconPort),
      x.secretsRev, x.iniRev, x.launchRev, x.activeVolume))
  {
    hide Layout, Decimal, Join, Drift.Decimals, Drift.Sorted, Drift.Preimage;
    PreimageIs(x, digest(Drift.ModKey(x.mods)));
  }

  lemma PreimageIs(x: Drift.HashInput, modDigest: string)
    ensures Drift.Preimage(x, modDigest)
      == Layout(x.image, modDigest, Decimal(x.gamePort), Decimal(x.rconPort), x.secretsRev, x.iniRev, x.launchRev,
                x.activeVolume)
  {
    hide Decimal, Join;
    var f := Drift.Fields(x, modDigest);
    JoinLast(f[7..]);
    JoinNext(f, 6);
    JoinNext(f, 5);
    JoinNext(f, 4);
    JoinNext(f, 3);
    JoinNext(f, 2);
    JoinNext(f, 1);
    JoinNext(f, 0);
    assert f[0..] == f;
  }

  lemma JoinLast(parts: seq<string>)
    requires |parts| == 1
    ensures Join(parts, '|') == parts[0]
  {
  }

  lemma JoinNext(parts: seq<string>, k: nat)
    requires k + 1 < |parts|
    ensures Join(parts[k..], '|') == parts[k] + "|" + Join(parts[k + 1..], '|')
  {
    assert parts[k..][1..] == parts[k + 1..];
  }

  /** Two computations that agree in every input but one give the same hash if and only if they agree in that one too:
      the image, the mods the map runs with however ordered, either port, the secrets, the map's INI files, the mark of
      the mod controller, the launch settings and the volume. */
  lemma HashTells(a: Ask, b: Ask, digest: string -> string, n: nat)
    requires AsksOfMap(a) && AsksOfMap(b) && n < INPUTS && AgreeBut(a, b, n)
    requires n == 8 ==> !a.volume.Other? && !b.volume.Other?
    requires Labels(a.w, digest) && Labels(b.w, digest) && Drift.Injective(digest)
    ensures Answer(a) == Answer(b) <==> Agree(a, b, n)
  {
    hide *;
    FieldsTell(a, b, n);
    AnswerIs(a, digest);
    AnswerIs(b, digest);
    Drift.HashDetectsSingleEdits(Inputs(a), Inputs(b), digest, FieldOf(n));
  }

  /* ---------- what an edit does ---------- */

  /** What the wanted hash of a map is made of between passes. */
  function AskAt(w: World, i: nat): (a: Ask)
    requires i < |w.cluster.spec.maps|
    ensures AsksOfMap(a)
  {
    Ask(w, Ok, w.cluster.spec, i, HealthyMaps.VolumeAt(w, i))
  }

  /** What it is made of in the pass that is about to look at the map. */
  function AskOf(s: State): (a: Ask)
    requires AtMap(s)
    ensures AsksOfMap(a)
  {
    Ask(s.w, Ok, s.pass.value.cluster.spec, s.pass.value.at, Visits.Settled(s).active)
  }

  /** The live pods of the slug were there before, under the same names. */
  ghost predicate PodsRemain(w: World, v: World, slug: string) {
    forall q :: q in v.pods && Live(q, slug) ==> exists p :: p in w.pods && Live(p, slug) && SameName(p, q)
  }

  /** A map was healthy; the environment has changed at most one input of its pod hash since. The pod found for it has
      drifted if and only if that input has changed, and then, unless another map holds it back, it is sent to be
      rolled. */
  lemma EditsAreRolledOut(w: World, i: nat, s: State, digest: string -> string, n: nat)
    requires i < |w.cluster.spec.maps| && HealthyMaps.IsHealthy(w, i)
    requires Visits.AtVisit(s) && Id(s) == HealthyMaps.IdAt(w, i) && PodsRemain(w, s.w, Slug(s))
    requires Labels(w, digest) && Labels(s.w, digest) && Drift.Injective(digest)
    requires n < INPUTS && AgreeBut(AskAt(w, i), AskOf(s), n)
    requires n == 8 ==> !AskAt(w, i).volume.Other? && !AskOf(s).volume.Other?
    requires exists p :: p in s.w.pods && Live(p, Slug(s))
    ensures Visits.Found(s).Some?
    ensures Visits.Found(s).value.hash != Visits.Wanted(s) <==> !Agree(AskAt(w, i), AskOf(s), n)
    ensures !Agree(AskAt(w, i), AskOf(s), n) && s.pass.value.gate in {"", Id(s)} ==>
      Wf(s) && var t := Run(s, Runs.Oks(4)); t.pass.Some? && t.pass.value.call == RollJob(Visits.Found(s).value)
  {
    HashTells(AskAt(w, i), AskOf(s), digest, n);
    FoundKeepsHash(w, i, s);
    hide Drift.Injective, Labels, AgreeBut, Agree, HealthyMaps.IsHealthy, PodsRemain, Run, Slugs.MapSlug;
    assert Answer(AskOf(s)) == Visits.Wanted(s);
    if Visits.Drifting(s) {
      Visits.Rolls(s);
    }
  }

  lemma FoundKeepsHash(w: World, i: nat, s: State)
    requires i < |w.cluster.spec.maps| && HealthyMaps.IsHealthy(w, i)
    requires AtMap(s) && Id(s) == HealthyMaps.IdAt(w, i) && PodsRemain(w, s.w, Slug(s))
    requires exists p :: p in s.w.pods && Live(p, Slug(s))
    ensures Visits.Found(s).Some? && Visits.Found(s).value.hash == Answer(AskAt(w, i))
  {
    hide Slugs.MapSlug, ReadHash;
    var found := FindActivePod(s.w.pods, Slug(s), Visits.Wanted(s));
    assert found.value in s.w.pods && Live(found.value, Slug(s));
  }
}
