/** ensureGUSDefaults in internal/reconcile/configmap.go: the RCON settings merged into a GameUserSettings.ini. */
module GusIni {
  import opened ArkTypes
  import opened Text

  /* ---------- strings.TrimSpace ---------- */

  /** unicode.IsSpace. */
  predicate IsSpace(c: char) {
    '\t' <= c <= '\r' || c == ' ' || c == '\U{85}' || c == '\U{A0}' || c == '\U{1680}' || '\U{2000}' <= c <= '\U{200A}'
    || c == '\U{2028}' || c == '\U{2029}' || c == '\U{202F}' || c == '\U{205F}' || c == '\U{3000}'
  }

  function TrimLeft(s: string): string {
    if s != "" && IsSpace(s[0]) then TrimLeft(s[1..]) else s
  }

  function TrimRight(s: string): string {
    if s != "" && IsSpace(s[|s| - 1]) then TrimRight(s[..|s| - 1]) else s
  }

  function TrimSpace(s: string): string {
    TrimRight(TrimLeft(s))
  }

  predicate Blank(s: string) {
    forall i :: 0 <= i < |s| ==> IsSpace(s[i])
  }

  /** t has no white space at either end. */
  predicate Trimmed(t: string) {
    t != "" ==> !IsSpace(t[0]) && !IsSpace(t[|t| - 1])
  }

  lemma {:induction false} TrimLeftDrops(a: string, t: string)
    requires Blank(a) && (t != "" ==> !IsSpace(t[0]))
    ensures TrimLeft(a + t) == t
  {
    if a == "" {
      assert a + t == t;
    } else {
      assert (a + t)[1..] == a[1..] + t;
      TrimLeftDrops(a[1..], t);
    }
  }

  lemma {:induction false} TrimRightDrops(t: string, b: string)
    requires Blank(b) && (t != "" ==> !IsSpace(t[|t| - 1]))
    ensures TrimRight(t + b) == t
  {
    if b == "" {
      assert t + b == t;
    } else {
      assert (t + b)[..|t + b| - 1] == t + b[..|b| - 1];
      TrimRightDrops(t, b[..|b| - 1]);
    }
  }

  /** What is left is the text between the white space at its ends. */
  lemma TrimSpaceDrops(a: string, t: string, b: string)
    requires Blank(a) && Trimmed(t) && Blank(b)
    ensures TrimSpace(a + t + b) == t
  {
    hide IsSpace;
    if t == "" {
      assert a + t + b == (a + b) + "";
      TrimLeftDrops(a + b, "");
      TrimRightDrops("", "");
      assert "" + "" == "";
    } else {
      assert a + t + b == a + (t + b);
      TrimLeftDrops(a, t + b);
      TrimRightDrops(t, b);
    }
  }

  /** Every text is white space, a trimmed text and white space. */
  lemma Ends(s: string) returns (a: string, t: string, b: string)
    ensures s == a + t + b && Blank(a) && Trimmed(t) && Blank(b)
  {
    hide IsSpace;
    var i := 0;
    while i < |s| && IsSpace(s[i])
      invariant 0 <= i <= |s| && forall k :: 0 <= k < i ==> IsSpace(s[k])
    {
      i := i + 1;
    }
    var j := |s|;
    while i < j && IsSpace(s[j - 1])
      invariant i <= j <= |s| && forall k :: j <= k < |s| ==> IsSpace(s[k])
    {
      j := j - 1;
    }
    a, t, b := s[..i], s[i..j], s[j..];
  }

  /* ---------- lines and sections ---------- */

  const HEADER := "[ServerSettings]"
  const ENABLED_KEY := "RCONEnabled="
  const PORT_KEY := "RCONPort="

  function EnabledLine(): string {
    ENABLED_KEY + "True"
  }

  function PortLine(port: int): string {
    PORT_KEY + Decimal(port)
  }

  predicate IsHeader(line: string) {
    TrimSpace(line) == HEADER
  }

  predicate IsSection(line: string) {
    HasPrefix(TrimSpace(line), "[") && HasSuffix(TrimSpace(line), "]")
  }

  predicate Sets(line: string, key: string) {
    HasPrefix(TrimSpace(line), key)
  }

  /** A line of a file with CRLF line ends reads like one without. */
  lemma CarriageReturnIsDropped(line: string, key: string)
    ensures TrimSpace(line + "\r") == TrimSpace(line)
    ensures IsHeader(line + "\r") == IsHeader(line) && IsSection(line + "\r") == IsSection(line)
    ensures Sets(line + "\r", key) == Sets(line, key)
  {
    var a, t, b := Ends(line);
    TrimSpaceDrops(a, t, b);
    TrimSpaceDrops(a, t, b + "\r");
    assert line + "\r" == a + t + (b + "\r");
  }

  /** Inside any white space, a header is [ServerSettings], a section line a name in brackets, and a line sets a key
      when it goes on from it. */
  lemma LinesMean(a: string, t: string, b: string, key: string)
    requires Blank(a) && Trimmed(t) && Blank(b)
    ensures IsHeader(a + t + b) <==> t == "[ServerSettings]"
    ensures IsSection(a + t + b) <==> exists name :: t == "[" + name + "]"
    ensures Sets(a + t + b, key) <==> exists value :: t == key + value
  {
    TrimSpaceDrops(a, t, b);
    hide TrimSpace, Blank, Trimmed;
    AffixesMean(t, key);
    if IsSection(a + t + b) {
      assert t[0] == '[' && t[|t| - 1] == ']' && |t| > 1;
      assert t == "[" + t[1..|t| - 1] + "]";
    }
    if name :| t == "[" + name + "]" {
      assert t[0] == '[' && t[|t| - 1..] == "]";
    }
  }

  /** The first header, or the number of lines. */
  function HeaderAt(lines: seq<string>): (h: nat)
    ensures h <= |lines|
    ensures h < |lines| ==> IsHeader(lines[h])
    ensures forall i :: 0 <= i < h ==> !IsHeader(lines[i])
  {
    if lines == [] || IsHeader(lines[0]) then 0 else 1 + HeaderAt(lines[1..])
  }

  /** The lines of the section that starts with `lines`. */
  function Section(lines: seq<string>): (r: seq<string>)
    ensures r <= lines
  {
    if lines == [] || IsSection(lines[0]) then [] else [lines[0]] + Section(lines[1..])
  }

  predicate HasKey(section: seq<string>, key: string) {
    exists i :: 0 <= i < |section| && Sets(section[i], key)
  }

  function Missing(section: seq<string>, port: int): seq<string> {
    (if HasKey(section, ENABLED_KEY) then [] else [EnabledLine()])
    + (if HasKey(section, PORT_KEY) then [] else [PortLine(port)])
  }

  function MergeLines(lines: seq<string>, port: int): seq<string> {
    var h := HeaderAt(lines);
    if h == |lines| then [HEADER, EnabledLine(), PortLine(port), ""] + lines
    else lines[..h + 1] + Missing(Section(lines[h + 1..]), port) + lines[h + 1..]
  }

  /** The text merge as the lines it leaves. */
  function Merged(content: string, port: int): seq<string> {
    if content == "" then [HEADER, EnabledLine(), PortLine(port), ""] else MergeLines(Split(content, '\n'), port)
  }

  function Merge(content: string, port: int): string {
    Join(Merged(content, port), '\n')
  }

  /* ---------- the code ---------- */

  lemma SectionStops(lines: seq<string>, n: nat)
    requires n <= |lines|
    requires forall i :: 0 <= i < n ==> !IsSection(lines[i])
    requires n < |lines| ==> IsSection(lines[n])
    ensures Section(lines) == lines[..n]
  {
    hide IsSection;
    if n > 0 {
      SectionStops(lines[1..], n - 1);
    }
  }

  /** The first loop: where the header is. */
  method FindHeader(lines: seq<string>) returns (start: nat)
    ensures start == HeaderAt(lines)
  {
    hide IsHeader;
    start := 0;
    while start < |lines| && !IsHeader(lines[start])
      invariant start <= |lines| && forall k :: 0 <= k < start ==> !IsHeader(lines[k])
    {
      start := start + 1;
    }
  }

  /** The second loop: what the section that starts with `rest` sets, and where it ends. */
  method ScanSection(rest: seq<string>) returns (hasEnabled: bool, hasPort: bool, end: nat)
    ensures end <= |rest| && Section(rest) == rest[..end]
    ensures (forall k :: 0 <= k < end ==> !IsSection(rest[k])) && (end < |rest| ==> IsSection(rest[end]))
    ensures hasEnabled <==> HasKey(Section(rest), ENABLED_KEY)
    ensures hasPort <==> HasKey(Section(rest), PORT_KEY)
  {
    hide IsSection, Sets;
    hasEnabled, hasPort, end := false, false, 0;
    while end < |rest| && !IsSection(rest[end])
      invariant end <= |rest| && forall k :: 0 <= k < end ==> !IsSection(rest[k])
      invariant hasEnabled <==> HasKey(rest[..end], ENABLED_KEY)
      invariant hasPort <==> HasKey(rest[..end], PORT_KEY)
    {
      HasKeyMore(rest, end, ENABLED_KEY);
      HasKeyMore(rest, end, PORT_KEY);
      if Sets(rest[end], ENABLED_KEY) {
        hasEnabled := true;
      }
      if Sets(rest[end], PORT_KEY) {
        hasPort := true;
      }
      end := end + 1;
    }
    SectionStops(rest, end);
  }

  method EnsureDefaults(content: string, port: int) returns (merged: string)
    ensures merged == Merge(content, port)
  {
    hide IsHeader, HeaderAt, Section, HasKey, Decimal, Join, Split;
    if content == "" {
      merged := "[ServerSettings]\nRCONEnabled=True\nRCONPort=" + Decimal(port) + "\n";
      EmptyText(port);
      return;
    }
    var lines := Split(content, '\n');
    var start := FindHeader(lines);
    if start == |lines| {
      return Join([HEADER, EnabledLine(), PortLine(port), ""] + lines, '\n');
    }
    merged := FillSection(content, lines, start, port);
  }

  /** The rest of the function, with the header found. */
  method FillSection(content: string, lines: seq<string>, start: nat, port: int) returns (merged: string)
    requires lines == Split(content, '\n') && start < |lines|
    ensures merged == Join(lines[..start + 1] + Missing(Section(lines[start + 1..]), port) + lines[start + 1..], '\n')
  {
    hide Section, HasKey, Decimal, Join, Split, Sets;
    var rest := lines[start + 1..];
    var hasEnabled, hasPort, end := ScanSection(rest);
    if hasEnabled && hasPort {
      JoinSplit(content, '\n');
      assert lines[..start + 1] + [] + rest == lines;
      return content;
    }
    var inject := [];
    if !hasEnabled {
      inject := inject + [EnabledLine()];
    }
    if !hasPort {
      inject := inject + [PortLine(port)];
    }
    assert inject == Missing(Section(rest), port);
    var out := lines[..start + 1] + inject;
    out := out + rest[..end];
    out := out + rest[end..];
    hide Missing;
    assert out == lines[..start + 1] + inject + rest;
    merged := Join(out, '\n');
  }

  lemma HasKeyMore(lines: seq<string>, n: nat, key: string)
    requires n < |lines|
    ensures HasKey(lines[..n + 1], key) <==> HasKey(lines[..n], key) || Sets(lines[n], key)
  {
    hide Sets;
    var longer := lines[..n + 1];
    assert forall i :: 0 <= i < n ==> longer[i] == lines[..n][i];
    assert longer[n] == lines[n];
  }

  lemma EmptyText(port: int)
    ensures "[ServerSettings]\nRCONEnabled=True\nRCONPort=" + Decimal(port) + "\n" == Merge("", port)
  {
    hide Decimal;
    var lines := [HEADER, EnabledLine(), PortLine(port), ""];
    assert lines[1..] == [EnabledLine(), PortLine(port), ""] && lines[2..] == [PortLine(port), ""]
      && lines[3..] == [""];
    assert lines[1..][1..] == lines[2..] && lines[2..][1..] == lines[3..];
    assert Join(lines[3..], '\n') == "";
    assert Join(lines[2..], '\n') == PortLine(port) + "\n";
    assert Join(lines[1..], '\n') == EnabledLine() + "\n" + Join(lines[2..], '\n');
    assert Join(lines, '\n') == HEADER + "\n" + Join(lines[1..], '\n');
  }

  /* ---------- the lines it adds ---------- */

  lemma NothingToTrim(s: string)
    requires s != "" && !IsSpace(s[0]) && !IsSpace(s[|s| - 1])
    ensures TrimSpace(s) == s
  {
  }

  lemma HeaderIsHeader()
    ensures IsHeader(HEADER) && Free(HEADER, '\n')
  {
    assert |HEADER| == 16 && HEADER[0] == '[' && HEADER[15] == ']';
    NothingToTrim(HEADER);
  }

  lemma EnabledLineSets()
    ensures Sets(EnabledLine(), ENABLED_KEY) && !IsSection(EnabledLine()) && !IsHeader(EnabledLine())
      && Free(EnabledLine(), '\n')
  {
    var line := EnabledLine();
    assert |line| == 16 && line[0] == 'R' && line[15] == 'e';
    NothingToTrim(line);
  }

  lemma PortLineSets(port: int)
    ensures Sets(PortLine(port), PORT_KEY) && !IsSection(PortLine(port)) && !IsHeader(PortLine(port))
      && Free(PortLine(port), '\n')
  {
    hide Decimal;
    var line, number := PortLine(port), Decimal(port);
    assert line[0] == 'R' && line[|line| - 1] == number[|number| - 1];
    assert IsDigit(number[|number| - 1]) || number[|number| - 1] == '-';
    NothingToTrim(line);
    forall c | c in line ensures c != '\n' {
      var i :| 0 <= i < |line| && line[i] == c;
      assert i >= |PORT_KEY| ==> c == number[i - |PORT_KEY|];
    }
  }

  /* ---------- what the merge establishes ---------- */

  /** The first [ServerSettings] section has both keys. */
  predicate Complete(lines: seq<string>) {
    var h := HeaderAt(lines);
    && h < |lines|
    && HasKey(Section(lines[h + 1..]), ENABLED_KEY)
    && HasKey(Section(lines[h + 1..]), PORT_KEY)
  }

  lemma HeaderStays(lines: seq<string>, more: seq<string>, h: nat)
    requires h < |lines| && HeaderAt(lines) == h
    ensures HeaderAt(lines[..h + 1] + more) == h
  {
    hide IsHeader, HeaderAt;
    var out := lines[..h + 1] + more;
    assert forall i :: 0 <= i <= h ==> out[i] == lines[i];
  }

  lemma SectionCons(line: string, rest: seq<string>)
    requires !IsSection(line)
    ensures Section([line] + rest) == [line] + Section(rest)
  {
    hide IsSection;
    assert ([line] + rest)[1..] == rest;
  }

  lemma {:induction false} SectionPrepends(ins: seq<string>, rest: seq<string>)
    requires forall i :: 0 <= i < |ins| ==> !IsSection(ins[i])
    ensures Section(ins + rest) == ins + Section(rest)
  {
    hide IsSection, Section;
    if ins == [] {
      assert [] + rest == rest;
    } else {
      var tail := ins[1..];
      SectionPrepends(tail, rest);
      SectionCons(ins[0], tail + rest);
      assert ins + rest == [ins[0]] + (tail + rest);
      assert ins + Section(rest) == [ins[0]] + (tail + Section(rest));
    }
  }

  lemma KeyAmong(ins: seq<string>, rest: seq<string>, key: string)
    ensures HasKey(ins + rest, key) <==> HasKey(ins, key) || HasKey(rest, key)
  {
    hide Sets;
    var all := ins + rest;
    if HasKey(ins, key) {
      var i :| 0 <= i < |ins| && Sets(ins[i], key);
      assert all[i] == ins[i];
    }
    if HasKey(rest, key) {
      var i :| 0 <= i < |rest| && Sets(rest[i], key);
      assert all[|ins| + i] == rest[i];
    }
    if HasKey(all, key) {
      var i :| 0 <= i < |all| && Sets(all[i], key);
      assert i < |ins| ==> ins[i] == all[i];
      assert i >= |ins| ==> rest[i - |ins|] == all[i];
    }
  }

  lemma MissingFits(section: seq<string>, port: int)
    ensures var ins := Missing(section, port);
      && (forall i :: 0 <= i < |ins| ==> !IsSection(ins[i]) && Free(ins[i], '\n'))
      && HasKey(ins + section, ENABLED_KEY) && HasKey(ins + section, PORT_KEY)
  {
    EnabledLineSets();
    PortLineSets(port);
    hide Sets, IsSection, Decimal, IsHeader;
    var ins := Missing(section, port);
    KeyAmong(ins, section, ENABLED_KEY);
    KeyAmong(ins, section, PORT_KEY);
    if !HasKey(section, ENABLED_KEY) {
      assert ins[0] == EnabledLine();
    }
    if !HasKey(section, PORT_KEY) {
      assert ins[|ins| - 1] == PortLine(port);
    }
  }

  function Head(port: int): seq<string> {
    [HEADER, EnabledLine(), PortLine(port)]
  }

  lemma HeadedIsComplete(port: int, rest: seq<string>)
    ensures Complete(Head(port) + rest)
  {
    HeaderIsHeader();
    EnabledLineSets();
    PortLineSets(port);
    hide Sets, IsSection, Decimal, IsHeader, Free;
    var lines := Head(port) + rest;
    var ins := [EnabledLine(), PortLine(port)];
    assert lines[1..] == ins + rest;
    SectionPrepends(ins, rest);
    KeyAmong(ins, Section(rest), ENABLED_KEY);
    KeyAmong(ins, Section(rest), PORT_KEY);
    assert ins[0] == EnabledLine() && ins[1] == PortLine(port);
  }

  lemma MergedCases(content: string, port: int)
    ensures var lines := Split(content, '\n');
      var h := HeaderAt(lines);
      && (content == "" ==> Merged(content, port) == Head(port) + [""])
      && (content != "" && h == |lines| ==> Merged(content, port) == Head(port) + ([""] + lines))
      && (content != "" && h < |lines| ==>
            Merged(content, port) == lines[..h + 1] + Missing(Section(lines[h + 1..]), port) + lines[h + 1..])
  {
    hide Split, HeaderAt, Missing, Section, Decimal;
    var lines := Split(content, '\n');
    assert Head(port) + ([""] + lines) == [HEADER, EnabledLine(), PortLine(port), ""] + lines;
    assert Head(port) + [""] == [HEADER, EnabledLine(), PortLine(port), ""];
  }

  /** However broken the input: the first [ServerSettings] section of the output has both RCON keys. */
  lemma MergeEstablishes(content: string, port: int)
    ensures Complete(Merged(content, port))
  {
    hide Split, HeaderAt, Missing, Section, Complete, Merged;
    MergedCases(content, port);
    var lines := Split(content, '\n');
    var h := HeaderAt(lines);
    if content == "" {
      HeadedIsComplete(port, [""]);
    } else if h == |lines| {
      HeadedIsComplete(port, [""] + lines);
    } else {
      FilledIsComplete(lines, h, port);
    }
  }

  lemma FilledIsComplete(lines: seq<string>, h: nat, port: int)
    requires h < |lines| && HeaderAt(lines) == h
    ensures Complete(lines[..h + 1] + Missing(Section(lines[h + 1..]), port) + lines[h + 1..])
  {
    hide Sets, IsSection, Decimal, IsHeader, HeaderAt, Missing, HasKey, Section;
    var rest := lines[h + 1..];
    var ins := Missing(Section(rest), port);
    var out := lines[..h + 1] + (ins + rest);
    HeaderStays(lines, ins + rest, h);
    MissingFits(Section(rest), port);
    SectionPrepends(ins, rest);
    assert out[h + 1..] == ins + rest;
    assert lines[..h + 1] + ins + rest == out;
  }

  /** The output, split into lines, is what the merge made of the input's lines. */
  lemma OutputLines(content: string, port: int)
    ensures Split(Merge(content, port), '\n') == Merged(content, port)
  {
    HeaderIsHeader();
    EnabledLineSets();
    PortLineSets(port);
    hide Sets, IsSection, Decimal, IsHeader, Split, HeaderAt, Missing, HasKey;
    var out := Merged(content, port);
    if content != "" {
      var lines := Split(content, '\n');
      if HeaderAt(lines) < |lines| {
        MissingFits(Section(lines[HeaderAt(lines) + 1..]), port);
      }
    }
    assert out != [];
    forall i | 0 <= i < |out| ensures Free(out[i], '\n') {
    }
    SplitJoin(out, '\n');
  }

  lemma CompleteStays(lines: seq<string>, port: int)
    requires Complete(lines)
    ensures MergeLines(lines, port) == lines
  {
    hide HasKey, HeaderAt, Section, Decimal;
    var h := HeaderAt(lines);
    assert lines[..h + 1] + [] + lines[h + 1..] == lines;
  }

  /** First writer wins: merging once more, with whatever port, changes nothing. */
  lemma MergeIsFixpoint(content: string, p: int, q: int)
    ensures Merge(Merge(content, p), q) == Merge(content, p)
  {
    MergeEstablishes(content, p);
    OutputLines(content, p);
    EmptyIsIncomplete();
    hide Complete, Merged, Split, Join, MergeLines, Decimal;
    var out := Merge(content, p);
    assert out != "";
    CompleteStays(Split(out, '\n'), q);
    MergedIsMergeLines(out, q);
    JoinSplit(out, '\n');
  }

  lemma EmptyIsIncomplete()
    ensures !Complete(Split("", '\n'))
  {
    assert Split("", '\n') == [""];
    assert TrimSpace("") == "";
    assert |HEADER| == 16;
    assert !IsHeader("");
  }

  lemma MergedIsMergeLines(content: string, port: int)
    requires content != ""
    ensures Merged(content, port) == MergeLines(Split(content, '\n'), port)
  {
  }

  /* ---------- what the merge conserves ---------- */

  /** out is lines with ins put in before the k-th. */
  predicate Inserts(lines: seq<string>, k: nat, ins: seq<string>, out: seq<string>) {
    k <= |lines| && out == lines[..k] + ins + lines[k..]
  }

  /** ins are just the settings the section lacks. */
  predicate Supplies(ins: seq<string>, section: seq<string>, port: int) {
    && |ins| == (if HasKey(section, ENABLED_KEY) then 0 else 1) + (if HasKey(section, PORT_KEY) then 0 else 1)
    && (EnabledLine() in ins <==> !HasKey(section, ENABLED_KEY))
    && (PortLine(port) in ins <==> !HasKey(section, PORT_KEY))
    && (forall line :: line in ins ==> line == EnabledLine() || line == PortLine(port))
    && (|ins| == 2 ==> ins[0] == EnabledLine())
  }

  /** out is lines with what the section lacks put in before the k-th. */
  ghost predicate Supplemented(lines: seq<string>, k: nat, section: seq<string>, port: int, out: seq<string>) {
    exists ins :: Inserts(lines, k, ins, out) && Supplies(ins, section, port)
  }

  lemma MissingSupplies(section: seq<string>, port: int)
    ensures Supplies(Missing(section, port), section, port)
  {
    LinesDiffer(port);
    hide HasKey, Decimal;
  }

  /** The input's lines all come out, in order and next to each other but for one place: nothing goes in where both
      keys are set, only missing keys go in right after the header, and where there is no header it goes in first
      with both keys, and a blank line if there was any text. */
  lemma MergeConserves(content: string, port: int)
    ensures var lines, out := Split(content, '\n'), Split(Merge(content, port), '\n');
      var h := HeaderAt(lines);
      if h == |lines| then
        Inserts(lines, 0, Head(port) + (if content == "" then [] else [""]), out)
      else
        Supplemented(lines, h + 1, Section(lines[h + 1..]), port, out)
  {
    hide Split, HeaderAt, Missing, Section, Merged, Supplemented, Inserts, Merge, Head;
    OutputLines(content, port);
    MergedCases(content, port);
    var lines := Split(content, '\n');
    var h := HeaderAt(lines);
    if content == "" {
      EmptyHasNoHeader();
      HeadInserts(port, [], [""]);
    } else if h == |lines| {
      HeadInserts(port, [""], lines);
    } else {
      MissingIsSupplemented(lines, h, port);
    }
  }

  lemma HeadInserts(port: int, blank: seq<string>, lines: seq<string>)
    ensures Inserts(lines, 0, Head(port) + blank, Head(port) + (blank + lines))
    ensures [] + lines == lines
  {
    hide Head;
    assert Head(port) + (blank + lines) == lines[..0] + (Head(port) + blank) + lines[0..];
  }

  lemma MissingIsSupplemented(lines: seq<string>, h: nat, port: int)
    requires h < |lines|
    ensures var section := Section(lines[h + 1..]);
      Supplemented(lines, h + 1, section, port, lines[..h + 1] + Missing(section, port) + lines[h + 1..])
  {
    hide Section, Missing, Supplies;
    var section := Section(lines[h + 1..]);
    MissingSupplies(section, port);
    assert Inserts(lines, h + 1, Missing(section, port), lines[..h + 1] + Missing(section, port) + lines[h + 1..]);
  }

  lemma EmptyHasNoHeader()
    ensures Split("", '\n') == [""] && HeaderAt([""]) == 1
  {
    assert TrimSpace("") == "";
    assert |HEADER| == 16;
    assert HeaderAt([""][1..]) == 0;
  }

  lemma LinesDiffer(port: int)
    ensures EnabledLine() != PortLine(port)
  {
    hide Decimal;
    assert EnabledLine()[4] == 'E' && PortLine(port)[4] == 'P';
  }

  /* ---------- finding a map in spec ---------- */

  predicate FirstAt(maps: seq<MapSpec>, i: int, id: string) {
    0 <= i < |maps| && maps[i].id == id && forall k :: 0 <= k < i ==> maps[k].id != id
  }

  /** findMapIndex: zero when the map is not there. */
  method FindMapIndex(maps: seq<MapSpec>, id: string) returns (index: nat)
    ensures (exists i :: 0 <= i < |maps| && maps[i].id == id) ==> FirstAt(maps, index, id)
    ensures !(exists i :: 0 <= i < |maps| && maps[i].id == id) ==> index == 0
  {
    for i := 0 to |maps|
      invariant forall k :: 0 <= k < i ==> maps[k].id != id
    {
      if maps[i].id == id {
        return i;
      }
    }
    return 0;
  }

  /** findMap. */
  method FindMap(maps: seq<MapSpec>, id: string) returns (found: Option<MapSpec>)
    ensures found.Some? ==> exists i :: FirstAt(maps, i, id) && maps[i] == found.value
    ensures found.None? ==> forall i :: 0 <= i < |maps| ==> maps[i].id != id
  {
    for i := 0 to |maps|
      invariant forall k :: 0 <= k < i ==> maps[k].id != id
    {
      if maps[i].id == id {
        return Some(maps[i]);
      }
    }
    return None;
  }
}
