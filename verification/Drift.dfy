/** internal/ark/hash.go and modset.go: the pod-template hash that drift detection compares. */
module Drift {
  import opened Text

  /* ---------- modset.go ---------- */

  predicate Ascending(s: seq<int>) {
    forall i, j :: 0 <= i < j < |s| ==> s[i] <= s[j]
  }

  function Insert(x: int, s: seq<int>): (r: seq<int>)
    ensures multiset(r) == multiset(s) + multiset{x}
  {
    if s == [] || x <= s[0] then [x] + s
    else
      assert s == [s[0]] + s[1..];
      [s[0]] + Insert(x, s[1..])
  }

  lemma {:induction false} InsertBounded(x: int, s: seq<int>, low: int)
    requires low <= x && forall i :: 0 <= i < |s| ==> low <= s[i]
    ensures forall i :: 0 <= i < |Insert(x, s)| ==> low <= Insert(x, s)[i]
  {
    if s != [] && s[0] < x {
      InsertBounded(x, s[1..], low);
    }
  }

  lemma ConsAscending(x: int, s: seq<int>)
    requires Ascending(s) && forall i :: 0 <= i < |s| ==> x <= s[i]
    ensures Ascending([x] + s)
  {
  }

  lemma TailAscends(s: seq<int>)
    requires Ascending(s) && s != []
    ensures Ascending(s[1..]) && forall i :: 0 <= i < |s| ==> s[0] <= s[i]
  {
  }

  lemma {:induction false} InsertAscending(x: int, s: seq<int>)
    requires Ascending(s)
    ensures Ascending(Insert(x, s))
  {
    if s != [] {
      TailAscends(s);
      hide Ascending;
      if s[0] < x {
        InsertAscending(x, s[1..]);
        InsertBounded(x, s[1..], s[0]);
        ConsAscending(s[0], Insert(x, s[1..]));
      } else {
        ConsAscending(x, s);
      }
    }
  }

  /** What sort.Slice with `<` leaves in the copied slice. */
  function Sorted(s: seq<int>): (r: seq<int>)
    ensures Ascending(r)
    ensures multiset(r) == multiset(s)
  {
    if s == [] then []
    else
      assert s == [s[0]] + s[1..];
      InsertAscending(s[0], Sorted(s[1..]));
      Insert(s[0], Sorted(s[1..]))
  }

  function Decimals(s: seq<int>): (r: seq<string>)
    ensures |r| == |s|
    ensures forall i :: 0 <= i < |s| ==> r[i] == Decimal(s[i])
  {
    if s == [] then [] else [Decimal(s[0])] + Decimals(s[1..])
  }

  /** The text whose digest is ModSetHash. */
  function ModKey(mods: seq<int>): string {
    Join(Decimals(Sorted(mods)), ',')
  }

  lemma DecimalsAre(s: seq<int>, parts: seq<string>)
    requires |parts| == |s| && forall k :: 0 <= k < |s| ==> parts[k] == Decimal(s[k])
    ensures parts == Decimals(s)
  {
    hide Decimal;
  }

  /** The copy, the sort and the loop that fills the parts. */
  method ComputeModKey(mods: seq<int>) returns (key: string)
    ensures key == ModKey(mods)
  {
    hide Sorted, Decimal, Decimals, Join;
    var cp := Sorted(mods);
    var parts := new string[|cp|];
    for i := 0 to |cp|
      invariant forall k :: 0 <= k < i ==> parts[k] == Decimal(cp[k])
    {
      parts[i] := Decimal(cp[i]);
    }
    DecimalsAre(cp, parts[..]);
    key := Join(parts[..], ',');
  }

  lemma SameSize(a: seq<int>, b: seq<int>)
    requires multiset(a) == multiset(b)
    ensures |a| == |b|
  {
    assert |a| == |multiset(a)| == |multiset(b)| == |b|;
  }

  lemma TailIsRest(s: seq<int>)
    requires s != []
    ensures multiset(s[1..]) == multiset(s) - multiset{s[0]}
  {
    assert s == [s[0]] + s[1..];
  }

  lemma HeadIsLeast(s: seq<int>, x: int)
    requires Ascending(s) && x in multiset(s)
    ensures s != [] && s[0] <= x
  {
    assert x in s;
  }

  lemma SameHeads(a: seq<int>, b: seq<int>)
    requires Ascending(a) && Ascending(b) && a != [] && b != []
    requires multiset(a) == multiset(b)
    ensures a[0] == b[0]
  {
    hide Ascending;
    assert a[0] in multiset(a) && b[0] in multiset(b);
    HeadIsLeast(a, b[0]);
    HeadIsLeast(b, a[0]);
  }

  lemma {:induction false} AscendingUnique(a: seq<int>, b: seq<int>)
    requires Ascending(a) && Ascending(b)
    requires multiset(a) == multiset(b)
    ensures a == b
  {
    hide Ascending;
    SameSize(a, b);
    if a != [] {
      SameHeads(a, b);
      TailIsRest(a);
      TailIsRest(b);
      TailAscends(a);
      TailAscends(b);
      AscendingUnique(a[1..], b[1..]);
      assert a == [a[0]] + a[1..] && b == [b[0]] + b[1..];
    }
  }

  lemma {:induction false} DecimalsInjective(a: seq<int>, b: seq<int>)
    requires Decimals(a) == Decimals(b)
    ensures a == b
  {
    assert |a| == |b|;
    forall i | 0 <= i < |a| ensures a[i] == b[i] {
      assert Decimals(a)[i] == Decimals(b)[i];
      DecimalInjective(a[i], b[i]);
    }
  }

  lemma JoinedDecimalsInjective(a: seq<int>, b: seq<int>)
    requires Join(Decimals(a), ',') == Join(Decimals(b), ',')
    ensures a == b
  {
    var p, q := Decimals(a), Decimals(b);
    assert p == [] <==> Join(p, ',') == "";
    assert q == [] <==> Join(q, ',') == "";
    if p != [] {
      SplitJoin(p, ',');
      SplitJoin(q, ',');
    }
    DecimalsInjective(a, b);
  }

  /** Two mod lists share a key exactly when they hold the same mods equally often. */
  lemma ModKeyIsCanonical(a: seq<int>, b: seq<int>)
    ensures ModKey(a) == ModKey(b) <==> multiset(a) == multiset(b)
  {
    if multiset(a) == multiset(b) {
      AscendingUnique(Sorted(a), Sorted(b));
    }
    if ModKey(a) == ModKey(b) {
      JoinedDecimalsInjective(Sorted(a), Sorted(b));
    }
  }

  /* ---------- hash.go ---------- */

  datatype HashInput = HashInput(
    image: string,
    mods: seq<int>,
    gamePort: int,
    rconPort: int,
    secretsRev: string,
    iniRev: string,
    launchRev: string,
    activeVolume: string)

  /** The eight fields of the format string, given the digest of the mod list. */
  function Fields(x: HashInput, modDigest: string): seq<string> {
    seq(8, f requires 0 <= f < 8 => FieldText(x, modDigest, f))
  }

  function FieldText(x: HashInput, modDigest: string, f: nat): string {
    match f
    case 0 => x.image
    case 1 => modDigest
    case 2 => Decimal(x.gamePort)
    case 3 => Decimal(x.rconPort)
    case 4 => x.secretsRev
    case 5 => x.iniRev
    case 6 => x.launchRev
    case _ => x.activeVolume
  }

  function Preimage(x: HashInput, modDigest: string): string {
    Join(Fields(x, modDigest), '|')
  }

  function PodTemplateHash(x: HashInput, digest: string -> string): string {
    digest(Preimage(x, digest(ModKey(x.mods))))
  }

  ghost predicate Injective(digest: string -> string) {
    forall s, t :: digest(s) == digest(t) ==> s == t
  }

  /** The inputs mean the same in field f: mod lists count as multisets. */
  predicate SameIn(x: HashInput, y: HashInput, f: nat) {
    match f
    case 0 => x.image == y.image
    case 1 => multiset(x.mods) == multiset(y.mods)
    case 2 => x.gamePort == y.gamePort
    case 3 => x.rconPort == y.rconPort
    case 4 => x.secretsRev == y.secretsRev
    case 5 => x.iniRev == y.iniRev
    case 6 => x.launchRev == y.launchRev
    case _ => x.activeVolume == y.activeVolume
  }

  lemma {:induction false} JoinDeterminesPart(parts: seq<string>, other: seq<string>, k: nat, sep: char)
    requires k < |parts| == |other|
    requires forall i :: 0 <= i < |parts| && i != k ==> parts[i] == other[i]
    requires Join(parts, sep) == Join(other, sep)
    ensures parts == other
  {
    if |parts| == 1 {
    } else if k == 0 {
      var tail := [sep] + Join(parts[1..], sep);
      assert parts[1..] == other[1..];
      assert Join(parts, sep) == parts[0] + tail && Join(other, sep) == other[0] + tail;
      assert |parts[0]| == |other[0]|;
      assert parts[0] == Join(parts, sep)[..|parts[0]|] == other[0];
    } else {
      var head := parts[0] + [sep];
      assert Join(parts, sep)[|head|..] == Join(parts[1..], sep);
      assert Join(other, sep)[|head|..] == Join(other[1..], sep);
      JoinDeterminesPart(parts[1..], other[1..], k - 1, sep);
      assert parts == [parts[0]] + parts[1..] && other == [other[0]] + other[1..];
    }
  }

  lemma FieldsTellApart(x: HashInput, y: HashInput, digest: string -> string, f: nat)
    requires Injective(digest) && f < 8
    ensures FieldText(x, digest(ModKey(x.mods)), f) == FieldText(y, digest(ModKey(y.mods)), f) <==> SameIn(x, y, f)
  {
    if f == 1 {
      ModKeyIsCanonical(x.mods, y.mods);
    } else if f == 2 && Decimal(x.gamePort) == Decimal(y.gamePort) {
      DecimalInjective(x.gamePort, y.gamePort);
    } else if f == 3 && Decimal(x.rconPort) == Decimal(y.rconPort) {
      DecimalInjective(x.rconPort, y.rconPort);
    }
  }

  /** Inputs that agree in every field but f hash alike exactly when they agree in f too: every single
      edit rolls the pod, and reordering a mod list does not. */
  lemma HashDetectsSingleEdits(x: HashInput, y: HashInput, digest: string -> string, f: nat)
    requires Injective(digest) && f < 8
    requires forall g: nat :: g < 8 && g != f ==> SameIn(x, y, g)
    ensures PodTemplateHash(x, digest) == PodTemplateHash(y, digest) <==> SameIn(x, y, f)
  {
    var p, q := Fields(x, digest(ModKey(x.mods))), Fields(y, digest(ModKey(y.mods)));
    forall g: nat | g < 8 ensures p[g] == q[g] <==> SameIn(x, y, g) {
      FieldsTellApart(x, y, digest, g);
    }
    assert p == q <==> p[f] == q[f];
    if PodTemplateHash(x, digest) == PodTemplateHash(y, digest) {
      JoinDeterminesPart(p, q, f, '|');
    }
  }

  /** The two sides of a map never share a hash, whatever the rest of the template. */
  lemma SidesHashApart(x: HashInput, digest: string -> string)
    requires Injective(digest)
    ensures PodTemplateHash(x.(activeVolume := "server-a"), digest)
         != PodTemplateHash(x.(activeVolume := "server-b"), digest)
  {
    var p, q := x.(activeVolume := "server-a"), x.(activeVolume := "server-b");
    assert "server-a"[7] != "server-b"[7];
    assert !SameIn(p, q, 7);
    HashDetectsSingleEdits(p, q, digest, 7);
  }
}
