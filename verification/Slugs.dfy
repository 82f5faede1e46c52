/** internal/ark/slug.go: the Kubernetes-safe name of a map. */
module Slugs {

  const KNOWN_SLUGS: map<string, string> := map[
    "TheIsland_WP" := "island",
    "ScorchedEarth_WP" := "scorched-earth",
    "Aberration_WP" := "aberration",
    "Extinction_WP" := "extinction",
    "TheCenter_WP" := "the-center",
    "Astraeos_WP" := "astraeos",
    "BobsMissions_WP" := "club-ark"
  ]

  predicate IsSlugChar(c: char) {
    'a' <= c <= 'z' || '0' <= c <= '9' || c == '-'
  }

  /** Unicode lower-casing, exact on every character whose lower case is a slug character: the two
      non-ASCII ones are U+0130 and the Kelvin sign. All others end up in a replaced run either way. */
  function LowerChar(c: char): char {
    if 'A' <= c <= 'Z' then ((c as int) + 32) as char
    else if c == '\U{0130}' then 'i'
    else if c == '\U{212A}' then 'k'
    else c
  }

  function ToLower(s: string): (r: string)
    ensures |r| == |s|
    ensures forall i :: 0 <= i < |s| ==> r[i] == LowerChar(s[i])
  {
    if s == "" then "" else [LowerChar(s[0])] + ToLower(s[1..])
  }

  function TrimSuffix(s: string, suffix: string): string {
    if |suffix| <= |s| && s[|s| - |suffix|..] == suffix then s[..|s| - |suffix|] else s
  }

  function UnderscoresToDashes(s: string): (r: string)
    ensures |r| == |s|
    ensures forall i :: 0 <= i < |s| ==> r[i] == if s[i] == '_' then '-' else s[i]
  {
    if s == "" then "" else [if s[0] == '_' then '-' else s[0]] + UnderscoresToDashes(s[1..])
  }

  /** Replaces each maximal run of characters outside [a-z0-9-] by one dash. */
  function CollapseRuns(s: string, inRun: bool): (r: string)
    ensures forall c :: c in r ==> IsSlugChar(c)
  {
    if s == "" then ""
    else if IsSlugChar(s[0]) then [s[0]] + CollapseRuns(s[1..], false)
    else if inRun then CollapseRuns(s[1..], true)
    else "-" + CollapseRuns(s[1..], true)
  }

  function TrimLeftDashes(s: string): (r: string)
    ensures forall c :: c in r ==> c in s
    ensures r != "" ==> r[0] != '-'
  {
    if s != "" && s[0] == '-' then TrimLeftDashes(s[1..]) else s
  }

  function TrimRightDashes(s: string): (r: string)
    ensures forall c :: c in r ==> c in s
    ensures r != "" ==> s != "" && r[0] == s[0]
    ensures r != "" ==> r[|r| - 1] != '-'
  {
    if s != "" && s[|s| - 1] == '-' then TrimRightDashes(s[..|s| - 1]) else s
  }

  function FallbackSlug(id: string): string {
    TrimRightDashes(TrimLeftDashes(
      CollapseRuns(UnderscoresToDashes(TrimSuffix(ToLower(id), "_wp")), false)))
  }

  function MapSlug(id: string): string {
    if id in KNOWN_SLUGS then KNOWN_SLUGS[id] else FallbackSlug(id)
  }

  ghost predicate IsDnsLabel(s: string) {
    && (forall c :: c in s ==> IsSlugChar(c))
    && (s != "" ==> s[0] != '-' && s[|s| - 1] != '-')
  }

  lemma FallbackSlugIsDnsLabel(id: string)
    ensures IsDnsLabel(FallbackSlug(id))
  {
    TrimmedIsDnsLabel(CollapseRuns(UnderscoresToDashes(TrimSuffix(ToLower(id), "_wp")), false));
  }

  lemma TrimmedIsDnsLabel(s: string)
    requires forall c :: c in s ==> IsSlugChar(c)
    ensures IsDnsLabel(TrimRightDashes(TrimLeftDashes(s)))
  {
    hide TrimLeftDashes, TrimRightDashes, IsSlugChar;
  }

  /** Whatever the ID, its slug only holds DNS-1123 characters and neither starts nor ends with a dash. */
  lemma MapSlugIsDnsLabel(id: string)
    ensures IsDnsLabel(MapSlug(id))
  {
    if id in KNOWN_SLUGS {
      assert IsDnsLabel("island") && IsDnsLabel("scorched-earth") && IsDnsLabel("aberration");
      assert IsDnsLabel("extinction") && IsDnsLabel("the-center") && IsDnsLabel("astraeos") && IsDnsLabel("club-ark");
    } else {
      FallbackSlugIsDnsLabel(id);
    }
  }

  lemma FallbacksCollide()
    ensures FallbackSlug("A_B") == FallbackSlug("A-B")
  {
    assert ToLower("A_B") == "a_b" && ToLower("A-B") == "a-b";
    assert TrimSuffix("a_b", "_wp") == "a_b" && TrimSuffix("a-b", "_wp") == "a-b";
    assert UnderscoresToDashes("a_b") == UnderscoresToDashes("a-b");
  }

  lemma ShortIsUnknown(id: string)
    requires |id| == 3
    ensures MapSlug(id) == FallbackSlug(id)
  {
    hide FallbackSlug;
    assert forall k :: k in KNOWN_SLUGS ==> |k| > 3;
  }

  /** Different maps can share a slug: an underscore and a dash come out the same. */
  lemma SlugsCollide()
    ensures MapSlug("A_B") == MapSlug("A-B") && "A_B" != "A-B"
  {
    FallbacksCollide();
    ShortIsUnknown("A_B");
    ShortIsUnknown("A-B");
    hide FallbackSlug, MapSlug;
    assert "A_B"[1] != "A-B"[1];
  }

  /* ---------- which slug an ID has ---------- */

  /** The seven official maps have slugs of their own. */
  lemma OfficialSlugs()
    ensures MapSlug("TheIsland_WP") == "island" && MapSlug("ScorchedEarth_WP") == "scorched-earth"
    ensures MapSlug("Aberration_WP") == "aberration" && MapSlug("Extinction_WP") == "extinction"
    ensures MapSlug("TheCenter_WP") == "the-center" && MapSlug("Astraeos_WP") == "astraeos"
    ensures MapSlug("BobsMissions_WP") == "club-ark"
    ensures forall a, b :: a in KNOWN_SLUGS && b in KNOWN_SLUGS && MapSlug(a) == MapSlug(b) ==> a == b
  {
  }

  predicate IsWordChar(c: char) {
    'A' <= c <= 'Z' || 'a' <= c <= 'z' || '0' <= c <= '9'
  }

  /** Letters, digits, underscores and dashes, with a letter or digit at either end. */
  predicate IsName(s: string) {
    && s != "" && IsWordChar(s[0]) && IsWordChar(s[|s| - 1])
    && forall i :: 0 <= i < |s| ==> IsWordChar(s[i]) || s[i] == '_' || s[i] == '-'
  }

  /** Nothing in s goes into a name, nor lower-cases to what does. */
  predicate IsForeign(s: string) {
    forall i :: 0 <= i < |s| ==>
      !IsWordChar(s[i]) && s[i] != '_' && s[i] != '-' && s[i] != '\U{0130}' && s[i] != '\U{212A}'
  }

  /** The name in lower case, with dashes for underscores. */
  function Kebab(s: string): (r: string)
    ensures |r| == |s|
    ensures forall i :: 0 <= i < |s| ==>
      r[i] == if 'A' <= s[i] <= 'Z' then ((s[i] as int) + 32) as char else if s[i] == '_' then '-' else s[i]
  {
    seq(|s|, i requires 0 <= i < |s| =>
      if 'A' <= s[i] <= 'Z' then ((s[i] as int) + 32) as char else if s[i] == '_' then '-' else s[i])
  }

  lemma {:induction false} CollapseKeeps(s: string, rest: string, inRun: bool)
    requires s != "" && forall i :: 0 <= i < |s| ==> IsSlugChar(s[i])
    ensures CollapseRuns(s + rest, inRun) == s + CollapseRuns(rest, false)
  {
    hide IsSlugChar;
    assert (s + rest)[1..] == s[1..] + rest;
    if |s| > 1 {
      CollapseKeeps(s[1..], rest, false);
      assert s == [s[0]] + s[1..];
    } else {
      assert s[1..] + rest == rest;
    }
  }

  lemma {:induction false} CollapseDrops(s: string, rest: string)
    requires forall i :: 0 <= i < |s| ==> !IsSlugChar(s[i])
    ensures CollapseRuns(s + rest, true) == CollapseRuns(rest, true)
  {
    hide IsSlugChar;
    if s == "" {
      assert s + rest == rest;
    } else {
      assert (s + rest)[1..] == s[1..] + rest;
      CollapseDrops(s[1..], rest);
    }
  }

  /** A foreign run between two slugs becomes one dash. */
  lemma CollapseBetween(s: string, foreign: string, t: string)
    requires s != "" && t != ""
    requires forall i :: 0 <= i < |s| ==> IsSlugChar(s[i])
    requires forall i :: 0 <= i < |t| ==> IsSlugChar(t[i])
    requires forall i :: 0 <= i < |foreign| ==> !IsSlugChar(foreign[i])
    ensures CollapseRuns(s + foreign + t, false) == s + (if foreign == "" then "" else "-") + t
  {
    hide IsSlugChar;
    assert s + foreign + t == s + (foreign + t);
    CollapseKeeps(s, foreign + t, false);
    assert t + "" == t;
    CollapseKeeps(t, "", foreign != "");
    if foreign == "" {
      assert foreign + t == t;
      assert s + "" == s;
    } else {
      assert (foreign + t)[1..] == foreign[1..] + t;
      CollapseDrops(foreign[1..], t);
    }
  }

  lemma NothingTrimmed(s: string)
    requires s != "" && s[0] != '-' && s[|s| - 1] != '-'
    ensures TrimRightDashes(TrimLeftDashes(s)) == s
  {
  }

  lemma KebabIsSlug(s: string)
    requires IsName(s)
    ensures forall i :: 0 <= i < |s| ==> IsSlugChar(Kebab(s)[i])
    ensures Kebab(s)[0] != '-' && Kebab(s)[|s| - 1] != '-'
    ensures UnderscoresToDashes(ToLower(s)) == Kebab(s)
  {
    hide ToLower, UnderscoresToDashes;
  }

  lemma ForeignStays(s: string)
    requires IsForeign(s)
    ensures UnderscoresToDashes(ToLower(s)) == s && forall i :: 0 <= i < |s| ==> !IsSlugChar(s[i])
  {
    hide ToLower, UnderscoresToDashes;
  }

  lemma LowerAppends(s: string, t: string)
    ensures ToLower(s + t) == ToLower(s) + ToLower(t)
    ensures UnderscoresToDashes(s + t) == UnderscoresToDashes(s) + UnderscoresToDashes(t)
  {
    hide ToLower, UnderscoresToDashes;
  }

  lemma SuffixGoes(s: string)
    ensures TrimSuffix(ToLower(s + "_WP"), "_wp") == ToLower(s)
  {
    LowerAppends(s, "_WP");
    hide ToLower;
    assert ToLower("_WP") == "_wp" by {
      assert LowerChar('_') == '_' && LowerChar('W') == 'w' && LowerChar('P') == 'p';
    }
  }

  /** The slug of any other ID that is a name or two names with something foreign in between, before the usual suffix:
      in lower case, with a dash for each underscore and one for the foreign run. */
  lemma CommunitySlug(a: string, foreign: string, b: string)
    requires IsName(a) && IsForeign(foreign) && IsName(b)
    requires a + foreign + b + "_WP" !in KNOWN_SLUGS
    ensures MapSlug(a + foreign + b + "_WP") == Kebab(a) + (if foreign == "" then "" else "-") + Kebab(b)
  {
    hide IsName, IsForeign, Kebab, CollapseRuns, TrimSuffix, ToLower, UnderscoresToDashes, IsSlugChar;
    SuffixGoes(a + foreign + b);
    LowerAppends(a + foreign, b);
    LowerAppends(a, foreign);
    LowerAppends(ToLower(a) + ToLower(foreign), ToLower(b));
    LowerAppends(ToLower(a), ToLower(foreign));
    KebabIsSlug(a);
    KebabIsSlug(b);
    ForeignStays(foreign);
    NamesAreNotEmpty(a, b);
    CollapseBetween(Kebab(a), foreign, Kebab(b));
    NothingTrimmed(Kebab(a) + (if foreign == "" then "" else "-") + Kebab(b));
  }

  lemma NamesAreNotEmpty(a: string, b: string)
    requires IsName(a) && IsName(b)
    ensures a != "" && b != ""
  {
  }
}
