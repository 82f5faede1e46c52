/** The Go string library calls the operator leans on: Join, Split, FormatInt, TrimSpace, prefixes. */
module Text {

  predicate HasPrefix(s: string, prefix: string) {
    prefix <= s
  }

  predicate HasSuffix(s: string, suffix: string) {
    |suffix| <= |s| && s[|s| - |suffix|..] == suffix
  }

  predicate Free(s: string, c: char) {
    c !in s
  }

  /** strings.Join with a one-character separator. */
  function Join(parts: seq<string>, sep: char): string {
    if parts == [] then ""
    else if |parts| == 1 then parts[0]
    else parts[0] + [sep] + Join(parts[1..], sep)
  }

  /** strings.Split on one character: always at least one part. */
  function Split(s: string, sep: char): (parts: seq<string>)
    ensures parts != []
    ensures forall i :: 0 <= i < |parts| ==> Free(parts[i], sep)
  {
    if s == "" then [""]
    else
      var rest := Split(s[1..], sep);
      if s[0] == sep then [""] + rest
      else [[s[0]] + rest[0]] + rest[1..]
  }

  lemma {:induction false} JoinCons(head: string, rest: seq<string>, sep: char)
    requires rest != []
    ensures Join([head] + rest, sep) == head + [sep] + Join(rest, sep)
  {
    assert ([head] + rest)[1..] == rest;
  }

  /** Joining the parts of a split gives the text back. */
  lemma {:induction false} JoinSplit(s: string, sep: char)
    ensures Join(Split(s, sep), sep) == s
  {
    if s != "" {
      var rest := Split(s[1..], sep);
      JoinSplit(s[1..], sep);
      if s[0] == sep {
        JoinCons("", rest, sep);
      } else if |rest| == 1 {
      } else {
        JoinCons(rest[0], rest[1..], sep);
        JoinCons([s[0]] + rest[0], rest[1..], sep);
        assert rest == [rest[0]] + rest[1..];
      }
    }
  }

  lemma {:induction false} SplitFree(s: string, sep: char)
    requires Free(s, sep)
    ensures Split(s, sep) == [s]
  {
    if s != "" {
      SplitFree(s[1..], sep);
      assert s[0] in s;
      assert [s[0]] + s[1..] == s;
    }
  }

  lemma {:induction false} SplitAtSeparator(head: string, tail: string, sep: char)
    requires Free(head, sep)
    ensures Split(head + [sep] + tail, sep) == [head] + Split(tail, sep)
  {
    var s := head + [sep] + tail;
    if head == "" {
      assert s[1..] == tail;
    } else {
      SplitAtSeparator(head[1..], tail, sep);
      assert s[1..] == head[1..] + [sep] + tail;
      assert s[0] == head[0] && head[0] in head;
      assert [head[0]] + head[1..] == head;
    }
  }

  /** Splitting a join gives the parts back when none of them holds the separator. */
  lemma {:induction false} SplitJoin(parts: seq<string>, sep: char)
    requires parts != []
    requires forall i :: 0 <= i < |parts| ==> Free(parts[i], sep)
    ensures Split(Join(parts, sep), sep) == parts
  {
    if |parts| == 1 {
      SplitFree(parts[0], sep);
    } else {
      SplitAtSeparator(parts[0], Join(parts[1..], sep), sep);
      SplitJoin(parts[1..], sep);
    }
  }

  function DigitChar(d: nat): char
    requires d < 10
  {
    (('0' as int) + d) as char
  }

  predicate IsDigit(c: char) {
    '0' <= c <= '9'
  }

  function DecimalNat(n: nat): (r: string)
    ensures r != ""
    ensures forall i :: 0 <= i < |r| ==> IsDigit(r[i])
  {
    if n < 10 then [DigitChar(n)] else DecimalNat(n / 10) + [DigitChar(n % 10)]
  }

  /** strconv.FormatInt in base 10, also the fmt verb for integers. */
  function Decimal(n: int): (r: string)
    ensures r != ""
    ensures forall i :: 0 <= i < |r| ==> IsDigit(r[i]) || r[i] == '-'
  {
    if n < 0 then "-" + DecimalNat(-n) else DecimalNat(n)
  }

  lemma {:induction false} DecimalNatInjective(m: nat, n: nat)
    requires DecimalNat(m) == DecimalNat(n)
    ensures m == n
  {
    var s, t := DecimalNat(m), DecimalNat(n);
    assert |s| == 1 <==> m < 10;
    assert |t| == 1 <==> n < 10;
    if m < 10 {
      assert s[0] == DigitChar(m) && t[0] == DigitChar(n);
    } else {
      assert s[|s| - 1] == DigitChar(m % 10) && t[|t| - 1] == DigitChar(n % 10);
      assert DecimalNat(m / 10) == s[..|s| - 1] == t[..|t| - 1] == DecimalNat(n / 10);
      DecimalNatInjective(m / 10, n / 10);
    }
  }

  lemma DecimalInjective(m: int, n: int)
    requires Decimal(m) == Decimal(n)
    ensures m == n
  {
    assert m < 0 <==> Decimal(m)[0] == '-';
    assert n < 0 <==> Decimal(n)[0] == '-';
    if m < 0 {
      assert Decimal(m)[1..] == DecimalNat(-m) == Decimal(n)[1..] == DecimalNat(-n);
      DecimalNatInjective(-m, -n);
    } else {
      DecimalNatInjective(m, n);
    }
  }

  /* ---------- what the texts mean ---------- */

  /** The number that digits stand for in base 10. */
  function Value(s: string): int {
    if s == "" then 0 else 10 * Value(s[..|s| - 1]) + (s[|s| - 1] as int - '0' as int)
  }

  lemma {:induction false} DecimalNatIsNumeral(n: nat)
    ensures Value(DecimalNat(n)) == n
    ensures DecimalNat(n)[0] == '0' ==> n == 0
  {
    if n < 10 {
      assert DecimalNat(n)[..0] == "";
    } else {
      DecimalNatIsNumeral(n / 10);
      var r := DecimalNat(n);
      assert r[..|r| - 1] == DecimalNat(n / 10);
    }
  }

  /** An integer comes out as its base-10 digits without leading zeros, after a minus sign if it is negative. */
  lemma DecimalIsNumeral(n: int)
    ensures var digits := if n < 0 then Decimal(n)[1..] else Decimal(n);
      && (n < 0 ==> Decimal(n)[0] == '-')
      && digits != "" && (forall i :: 0 <= i < |digits| ==> IsDigit(digits[i]))
      && Value(digits) == (if n < 0 then -n else n)
      && (digits[0] == '0' ==> n == 0 && |digits| == 1)
  {
    DecimalNatIsNumeral(if n < 0 then -n else n);
    assert n < 0 ==> Decimal(n)[1..] == DecimalNat(-n);
    assert DecimalNat(0) == "0";
  }

  /** A prefix is what something can be put after, a suffix what something can be put before. */
  lemma AffixesMean(s: string, affix: string)
    ensures HasPrefix(s, affix) <==> exists rest :: s == affix + rest
    ensures HasSuffix(s, affix) <==> exists rest :: s == rest + affix
  {
    if HasPrefix(s, affix) {
      assert s == affix + s[|affix|..];
    }
    if HasSuffix(s, affix) {
      assert s == s[..|s| - |affix|] + affix;
    }
  }
}
