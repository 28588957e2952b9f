/**
 * The handful of Python string operations the core relies on, over `string`
 * (a sequence of Unicode scalar values, as Python's `str` is a sequence of
 * code points). Case mapping is modelled for ASCII letters only.
 */
module Text {

  // ---------------------------------------------------------------------
  // Characters
  // ---------------------------------------------------------------------

  predicate IsAsciiUpper(c: char) { 'A' <= c <= 'Z' }
  predicate IsAsciiLower(c: char) { 'a' <= c <= 'z' }
  predicate IsAsciiLetter(c: char) { IsAsciiUpper(c) || IsAsciiLower(c) }
  predicate IsDigit(c: char) { '0' <= c <= '9' }

  /** Python's `str.isspace()`, which is also what `\s` and `str.strip()` use. */
  predicate IsSpace(c: char) {
    || c == ' ' || c == '\t' || c == '\n' || c == '\r'
    || c == '\U{000B}' || c == '\U{000C}'
    || ('\U{001C}' <= c <= '\U{001F}')
    || c == '\U{0085}' || c == '\U{00A0}' || c == '\U{1680}'
    || ('\U{2000}' <= c <= '\U{200A}')
    || c == '\U{2028}' || c == '\U{2029}' || c == '\U{202F}' || c == '\U{205F}' || c == '\U{3000}'
  }

  /** A character of a regular-expression word (`\w`): letter, digit or underscore. */
  predicate IsWordChar(c: char) { IsAsciiLetter(c) || IsDigit(c) || c == '_' }

  function LowerChar(c: char): (r: char)
    ensures !IsAsciiUpper(r)
    ensures IsAsciiLetter(c) <==> IsAsciiLetter(r)
  {
    if IsAsciiUpper(c) then (c as int + 32) as char else c
  }

  function UpperChar(c: char): (r: char)
    ensures !IsAsciiLower(r)
    ensures IsAsciiLetter(c) <==> IsAsciiLetter(r)
  {
    if IsAsciiLower(c) then (c as int - 32) as char else c
  }

  // ---------------------------------------------------------------------
  // Case mapping: `str.lower()`, `str.upper()`, `str.title()`
  // ---------------------------------------------------------------------

  function Lower(s: string): (r: string)
    ensures |r| == |s|
    ensures forall i :: 0 <= i < |s| ==> r[i] == LowerChar(s[i])
  {
    seq(|s|, i requires 0 <= i < |s| => LowerChar(s[i]))
  }

  function Upper(s: string): (r: string)
    ensures |r| == |s|
    ensures forall i :: 0 <= i < |s| ==> r[i] == UpperChar(s[i])
  {
    seq(|s|, i requires 0 <= i < |s| => UpperChar(s[i]))
  }

  /**
   * `str.title()`: a letter that follows a letter is lower-cased, every other
   * letter is upper-cased; other characters are kept.
   */
  function TitleFrom(s: string, afterLetter: bool): string
  {
    if s == [] then []
    else
      var c := if afterLetter then LowerChar(s[0]) else UpperChar(s[0]);
      [c] + TitleFrom(s[1..], IsAsciiLetter(s[0]))
  }

  function Title(s: string): string { TitleFrom(s, false) }

  /** Title-casing keeps the length and capitalises exactly the first letter of each word. */
  lemma {:induction false} TitleShape(s: string, afterLetter: bool)
    ensures |TitleFrom(s, afterLetter)| == |s|
    ensures forall i :: 0 <= i < |s| ==>
      TitleFrom(s, afterLetter)[i] ==
        (if (if i == 0 then afterLetter else IsAsciiLetter(s[i - 1])) then LowerChar(s[i]) else UpperChar(s[i]))
  {
    if s != [] {
      TitleShape(s[1..], IsAsciiLetter(s[0]));
      var c := if afterLetter then LowerChar(s[0]) else UpperChar(s[0]);
      assert TitleFrom(s, afterLetter) == [c] + TitleFrom(s[1..], IsAsciiLetter(s[0]));
      forall i | 1 <= i < |s|
        ensures TitleFrom(s, afterLetter)[i] ==
          (if IsAsciiLetter(s[i - 1]) then LowerChar(s[i]) else UpperChar(s[i]))
      {
        assert TitleFrom(s, afterLetter)[i] == TitleFrom(s[1..], IsAsciiLetter(s[0]))[i - 1];
        assert s[1..][i - 1] == s[i];
        if i >= 2 {
          assert s[1..][i - 2] == s[i - 1];
        }
      }
    }
  }

  // ---------------------------------------------------------------------
  // Prefixes, suffixes, substrings
  // ---------------------------------------------------------------------

  predicate StartsWith(s: string, prefix: string) {
    |prefix| <= |s| && s[..|prefix|] == prefix
  }

  predicate EndsWith(s: string, suffix: string) {
    |suffix| <= |s| && s[|s| - |suffix|..] == suffix
  }

  /** `sub` occurs in `s` starting at index `i`. */
  predicate OccursAt(s: string, sub: string, i: int) {
    0 <= i && i + |sub| <= |s| && s[i..i + |sub|] == sub
  }

  /** Python's `sub in s`. */
  predicate Contains(s: string, sub: string)
    decreases |s|
  {
    StartsWith(s, sub) || (s != [] && Contains(s[1..], sub))
  }

  /** An occurrence at a known index is found by the recursive search. */
  lemma {:induction false} ContainsAt(s: string, sub: string, i: int)
    requires OccursAt(s, sub, i)
    ensures Contains(s, sub)
    decreases i
  {
    if i == 0 {
      assert s[..|sub|] == s[0..|sub|];
    } else {
      assert s[1..][i - 1..i - 1 + |sub|] == s[i..i + |sub|];
      ContainsAt(s[1..], sub, i - 1);
    }
  }

  /** What the recursive search finds is an occurrence at some index. */
  lemma {:induction false} ContainsWitness(s: string, sub: string) returns (i: nat)
    requires Contains(s, sub)
    ensures OccursAt(s, sub, i)
    decreases |s|
  {
    if StartsWith(s, sub) {
      i := 0;
      assert s[0..|sub|] == s[..|sub|];
    } else {
      var j := ContainsWitness(s[1..], sub);
      assert s[j + 1..j + 1 + |sub|] == s[1..][j..j + |sub|];
      i := j + 1;
    }
  }

  /** The recursive search agrees with "occurs at some index", both ways. */
  lemma ContainsIff(s: string, sub: string)
    ensures Contains(s, sub) <==> exists i :: OccursAt(s, sub, i)
  {
    if Contains(s, sub) {
      var i := ContainsWitness(s, sub);
    }
    if exists i :: OccursAt(s, sub, i) {
      var i :| OccursAt(s, sub, i);
      ContainsAt(s, sub, i);
    }
  }

  /** Containment survives putting text on either side. */
  lemma ContainsInContext(a: string, sub: string, b: string)
    ensures Contains(a + sub + b, sub)
  {
    assert (a + sub + b)[|a|..|a| + |sub|] == sub;
    ContainsAt(a + sub + b, sub, |a|);
  }

  // ---------------------------------------------------------------------
  // `str.strip()`
  // ---------------------------------------------------------------------

  function LStrip(s: string): (r: string)
    ensures |r| <= |s| && r == s[|s| - |r|..]
    ensures r == [] || !IsSpace(r[0])
    ensures forall i :: 0 <= i < |s| - |r| ==> IsSpace(s[i])
    decreases |s|
  {
    if s != [] && IsSpace(s[0]) then LStrip(s[1..]) else s
  }

  function RStrip(s: string): (r: string)
    ensures |r| <= |s| && r == s[..|r|]
    ensures r == [] || !IsSpace(r[|r| - 1])
    ensures forall i :: |r| <= i < |s| ==> IsSpace(s[i])
    decreases |s|
  {
    if s != [] && IsSpace(s[|s| - 1]) then RStrip(s[..|s| - 1]) else s
  }

  function Strip(s: string): string { RStrip(LStrip(s)) }

  /** Stripping leaves nothing exactly when every character is whitespace. */
  lemma StripEmptyIff(s: string)
    ensures Strip(s) == [] <==> forall i :: 0 <= i < |s| ==> IsSpace(s[i])
    ensures |Strip(s)| <= |s|
  {
    var l := LStrip(s);
    if Strip(s) == [] {
      assert l == [];
    }
    if forall i :: 0 <= i < |s| ==> IsSpace(s[i]) {
      LStripAllSpace(s);
    }
  }

  lemma {:induction false} LStripAllSpace(s: string)
    requires forall i :: 0 <= i < |s| ==> IsSpace(s[i])
    ensures LStrip(s) == []
  {
    if s != [] {
      assert forall i :: 0 <= i < |s[1..]| ==> s[1..][i] == s[i + 1];
      LStripAllSpace(s[1..]);
    }
  }

  // ---------------------------------------------------------------------
  // `str.replace(pattern, replacement)`: left to right, non-overlapping
  // ---------------------------------------------------------------------

  function ReplaceAll(s: string, pattern: string, replacement: string): string
    decreases |s|
  {
    if |pattern| == 0 then
      // Python inserts the replacement before every character and at the end.
      if s == [] then replacement else replacement + [s[0]] + ReplaceAll(s[1..], pattern, replacement)
    else if StartsWith(s, pattern) then
      replacement + ReplaceAll(s[|pattern|..], pattern, replacement)
    else if s == [] then []
    else [s[0]] + ReplaceAll(s[1..], pattern, replacement)
  }

  /** Replacing a pattern that does not occur changes nothing. */
  lemma {:induction false} ReplaceAbsent(s: string, pattern: string, replacement: string)
    requires !Contains(s, pattern)
    ensures ReplaceAll(s, pattern, replacement) == s
    decreases |s|
  {
    if s != [] {
      ReplaceAbsent(s[1..], pattern, replacement);
    }
  }

  /** Deleting every occurrence never lengthens a string, and shortens it when there is one. */
  lemma {:induction false} DeleteShortens(s: string, pattern: string)
    requires |pattern| > 0
    ensures |ReplaceAll(s, pattern, "")| <= |s|
    ensures Contains(s, pattern) ==> |ReplaceAll(s, pattern, "")| < |s|
    decreases |s|
  {
    if StartsWith(s, pattern) {
      DeleteShortens(s[|pattern|..], pattern);
    } else if s != [] {
      DeleteShortens(s[1..], pattern);
    }
  }

  /** A replacement no longer than the pattern never lengthens the string. */
  lemma {:induction false} ReplaceNotLonger(s: string, pattern: string, replacement: string)
    requires |pattern| > 0 && |replacement| <= |pattern|
    ensures |ReplaceAll(s, pattern, replacement)| <= |s|
    decreases |s|
  {
    if StartsWith(s, pattern) {
      ReplaceNotLonger(s[|pattern|..], pattern, replacement);
    } else if s != [] {
      ReplaceNotLonger(s[1..], pattern, replacement);
    }
  }

  /** An occurrence whose first character is absent from the text before it is the first one replaced. */
  lemma {:induction false} ReplaceAfter(a: string, pattern: string, b: string, replacement: string)
    requires |pattern| > 0 && pattern[0] !in a
    ensures ReplaceAll(a + pattern + b, pattern, replacement) == a + replacement + ReplaceAll(b, pattern, replacement)
    decreases |a|
  {
    var s := a + pattern + b;
    if a == [] {
      assert s == pattern + b;
      assert s[..|pattern|] == pattern;
      assert s[|pattern|..] == b;
    } else {
      assert s[0] == a[0] != pattern[0];
      assert !StartsWith(s, pattern);
      assert s[1..] == a[1..] + pattern + b;
      ReplaceAfter(a[1..], pattern, b, replacement);
    }
  }

  /** Replacing a separator that starts with a character no part holds turns one join into the other. */
  lemma {:induction false} ReplaceJoin(parts: seq<string>, sep: string, replacement: string)
    requires |parts| >= 1 && |sep| > 0
    requires forall i :: 0 <= i < |parts| ==> sep[0] !in parts[i]
    ensures ReplaceAll(Join(parts, sep), sep, replacement) == Join(parts, replacement)
    decreases |parts|
  {
    if |parts| == 1 {
      ContainsChars(parts[0], sep);
      ReplaceAbsent(parts[0], sep, replacement);
    } else {
      ReplaceAfter(parts[0], sep, Join(parts[1..], sep), replacement);
      ReplaceJoin(parts[1..], sep, replacement);
    }
  }

  /** Replacing a one-character pattern keeps the text before its first occurrence. */
  lemma {:induction false} ReplaceCharAfter(a: string, c: char, b: string, replacement: string)
    requires c !in a
    ensures ReplaceAll(a + [c] + b, [c], replacement) == a + replacement + ReplaceAll(b, [c], replacement)
    decreases |a|
  {
    if a == [] {
      assert a + [c] + b == [c] + b;
      assert ([c] + b)[1..] == b;
    } else {
      assert (a + [c] + b)[0] == a[0];
      assert (a + [c] + b)[1..] == a[1..] + [c] + b;
      ReplaceCharAfter(a[1..], c, b, replacement);
    }
  }

  /** A prefix of a contained string is contained too. */
  lemma ContainsPrefixOf(s: string, t: string, p: string)
    requires Contains(s, t) && StartsWith(t, p)
    ensures Contains(s, p)
  {
    var i := ContainsWitness(s, t);
    assert s[i..i + |p|] == s[i..i + |t|][..|p|];
    ContainsAt(s, p, i);
  }

  /** What a string contains, it still contains with text on either side. */
  lemma ContainsWithin(a: string, b: string, c: string, x: string)
    requires Contains(b, x)
    ensures Contains(a + b + c, x)
  {
    var i := ContainsWitness(b, x);
    assert (a + b + c)[|a| + i..|a| + i + |x|] == b[i..i + |x|];
    ContainsAt(a + b + c, x, |a| + i);
  }

  /** Every character of a contained string is a character of the container. */
  lemma ContainsChars(s: string, sub: string)
    ensures Contains(s, sub) ==> forall k :: 0 <= k < |sub| ==> sub[k] in s
  {
    if Contains(s, sub) {
      var i := ContainsWitness(s, sub);
      forall k | 0 <= k < |sub| ensures sub[k] in s {
        assert s[i..i + |sub|][k] == s[i + k];
      }
    }
  }

  /** A contained string of two or more characters shows its first two characters side by side. */
  lemma ContainsPair(s: string, sub: string)
    requires |sub| >= 2
    ensures Contains(s, sub) ==> exists i :: 0 <= i < |s| - 1 && s[i] == sub[0] && s[i + 1] == sub[1]
  {
    if Contains(s, sub) {
      var i := ContainsWitness(s, sub);
      assert s[i..i + |sub|][0] == s[i];
      assert s[i..i + |sub|][1] == s[i + 1];
    }
  }

  // ---------------------------------------------------------------------
  // `sep.join(parts)`
  // ---------------------------------------------------------------------

  function Join(parts: seq<string>, sep: string): string
  {
    if |parts| == 0 then ""
    else if |parts| == 1 then parts[0]
    else parts[0] + sep + Join(parts[1..], sep)
  }

  /** Joining one more part adds the separator and the part at the end. */
  lemma {:induction false} JoinSnoc(parts: seq<string>, x: string, sep: string)
    requires |parts| > 0
    ensures Join(parts + [x], sep) == Join(parts, sep) + sep + x
  {
    if |parts| == 1 {
      assert parts + [x] == [parts[0], x];
    } else {
      assert (parts + [x])[1..] == parts[1..] + [x];
      JoinSnoc(parts[1..], x, sep);
    }
  }

  /** Joining two non-empty lists puts the separator between their joins. */
  lemma {:induction false} JoinAppend(a: seq<string>, b: seq<string>, sep: string)
    requires |a| > 0 && |b| > 0
    ensures Join(a + b, sep) == Join(a, sep) + sep + Join(b, sep)
    decreases |a|
  {
    if |a| == 1 {
      assert a + b == [a[0]] + b;
      assert (a + b)[1..] == b;
    } else {
      assert (a + b)[1..] == a[1..] + b;
      JoinAppend(a[1..], b, sep);
    }
  }

  /** The first part of a join is a prefix of it. */
  lemma {:induction false} JoinStartsWithFirst(parts: seq<string>, sep: string)
    requires |parts| > 0
    ensures StartsWith(Join(parts, sep), parts[0])
  {
    var j := Join(parts, sep);
    if |parts| > 1 {
      assert j == parts[0] + (sep + Join(parts[1..], sep));
    }
    assert j[..|parts[0]|] == parts[0];
  }

  /** The last part of a join is a suffix of it. */
  lemma {:induction false} JoinEndsWithLast(parts: seq<string>, sep: string)
    requires |parts| > 0
    ensures EndsWith(Join(parts, sep), parts[|parts| - 1])
  {
    var n := |parts|;
    if n > 1 {
      var front := parts[..n - 1];
      assert parts == front + [parts[n - 1]];
      JoinSnoc(front, parts[n - 1], sep);
    }
    var j := Join(parts, sep);
    var last := parts[n - 1];
    assert j[|j| - |last|..] == last;
  }

  /** Every part of a join occurs in it. */
  lemma {:induction false} JoinContainsPart(parts: seq<string>, sep: string, k: nat)
    requires k < |parts|
    ensures Contains(Join(parts, sep), parts[k])
  {
    if k == 0 {
      if |parts| == 1 {
        ContainsBefore(parts[0], "");
        assert parts[0] + "" == Join(parts, sep);
      } else {
        ContainsBefore(parts[0], sep + Join(parts[1..], sep));
        assert parts[0] + (sep + Join(parts[1..], sep)) == Join(parts, sep);
      }
    } else {
      JoinContainsPart(parts[1..], sep, k - 1);
      assert Join(parts, sep) == (parts[0] + sep) + Join(parts[1..], sep);
      ContainsAfter(parts[0] + sep, Join(parts[1..], sep), parts[k]);
    }
  }

  /** A string occurs at the start of anything it begins. */
  lemma ContainsBefore(a: string, b: string)
    ensures Contains(a + b, a)
  {
    assert (a + b)[..|a|] == a;
  }

  /** Text put in front keeps an occurrence. */
  lemma {:induction false} ContainsAfter(pre: string, rest: string, sub: string)
    requires Contains(rest, sub)
    ensures Contains(pre + rest, sub)
    decreases |pre|
  {
    if pre != [] {
      assert (pre + rest)[1..] == pre[1..] + rest;
      ContainsAfter(pre[1..], rest, sub);
    } else {
      assert pre + rest == rest;
    }
  }

  // ---------------------------------------------------------------------
  // `str(n)` for a natural number, and its inverse
  // ---------------------------------------------------------------------

  function DigitChar(d: nat): (c: char)
    requires d < 10
    ensures IsDigit(c)
  {
    (d + '0' as int) as char
  }

  function NatToString(n: nat): (r: string)
    ensures |r| >= 1
    ensures forall i :: 0 <= i < |r| ==> IsDigit(r[i])
  {
    if n < 10 then [DigitChar(n)] else NatToString(n / 10) + [DigitChar(n % 10)]
  }

  /** The number a string of decimal digits denotes. */
  function DecimalValue(s: string): nat
    requires forall i :: 0 <= i < |s| ==> IsDigit(s[i])
  {
    if s == [] then 0
    else
      assert IsDigit(s[|s| - 1]);
      10 * DecimalValue(s[..|s| - 1]) + (s[|s| - 1] as int - '0' as int)
  }

  /** Reading back the decimal rendering gives the number; there is no leading zero. */
  lemma {:induction false} NatToStringRoundTrip(n: nat)
    ensures DecimalValue(NatToString(n)) == n
    ensures |NatToString(n)| > 1 ==> NatToString(n)[0] != '0'
  {
    if n >= 10 {
      NatToStringRoundTrip(n / 10);
      var r := NatToString(n);
      assert r[..|r| - 1] == NatToString(n / 10);
    }
  }

  /** Distinct numbers render as distinct strings. */
  lemma NatToStringInjective(m: nat, n: nat)
    requires NatToString(m) == NatToString(n)
    ensures m == n
  {
    NatToStringRoundTrip(m);
    NatToStringRoundTrip(n);
  }

  // ---------------------------------------------------------------------
  // `str.split()` with no argument, and de-duplication
  // ---------------------------------------------------------------------

  /** Length of the run of non-whitespace characters at the start of `s`. */
  function RunLength(s: string): (n: nat)
    ensures n <= |s|
    ensures forall i :: 0 <= i < n ==> !IsSpace(s[i])
    ensures n == |s| || IsSpace(s[n])
  {
    if s == [] || IsSpace(s[0]) then 0 else 1 + RunLength(s[1..])
  }

  /** The maximal runs of non-whitespace characters, in order. */
  function Words(s: string): (ws: seq<string>)
    ensures forall k :: 0 <= k < |ws| ==> |ws[k]| > 0
    ensures forall k, i :: 0 <= k < |ws| && 0 <= i < |ws[k]| ==> !IsSpace(ws[k][i])
    decreases |s|
  {
    if s == [] then []
    else if IsSpace(s[0]) then Words(s[1..])
    else
      var n := RunLength(s);
      [s[..n]] + Words(s[n..])
  }

  /** The elements of `ws` without repetitions, each kept at its first occurrence. */
  function Distinct(ws: seq<string>): (r: seq<string>)
    ensures forall i, j :: 0 <= i < j < |r| ==> r[i] != r[j]
    ensures forall x :: x in r <==> x in ws
  {
    if ws == [] then []
    else
      var rest := Distinct(ws[..|ws| - 1]);
      if ws[|ws| - 1] in rest then rest else rest + [ws[|ws| - 1]]
  }

  // ---------------------------------------------------------------------
  // Concatenation (`"".join` and repeated `+=`)
  // ---------------------------------------------------------------------

  /** The string concatenation of all the parts. */
  function Concat(parts: seq<string>): string {
    if parts == [] then "" else Concat(parts[..|parts| - 1]) + parts[|parts| - 1]
  }

  /** Every part occurs in the concatenation. */
  lemma {:induction false} ConcatContains(parts: seq<string>, k: nat)
    requires k < |parts|
    ensures Contains(Concat(parts), parts[k])
  {
    var n := |parts| - 1;
    if k == n {
      ContainsInContext(Concat(parts[..n]), parts[k], "");
      assert Concat(parts[..n]) + parts[k] + "" == Concat(parts);
    } else {
      assert parts[..n][k] == parts[k];
      ConcatContains(parts[..n], k);
      ContainsWithin("", Concat(parts[..n]), parts[n], parts[k]);
      assert "" + Concat(parts[..n]) + parts[n] == Concat(parts);
    }
  }
}
