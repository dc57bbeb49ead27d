// String operations the advisor relies on: Python's str.lower(), str.strip(),
// the `in` substring test, "\n".join / str.split("\n") and `{x:.1f}` for a
// number of tenths.
module Text {

  /** Python's str.isspace(): exactly the characters str.strip() removes. */
  predicate IsSpace(c: char) {
    || '\U{9}' <= c <= '\U{D}'
    || '\U{1C}' <= c <= '\U{20}'
    || c == '\U{85}' || c == '\U{A0}' || c == '\U{1680}'
    || '\U{2000}' <= c <= '\U{200A}'
    || c == '\U{2028}' || c == '\U{2029}' || c == '\U{202F}' || c == '\U{205F}'
    || c == '\U{3000}'
  }

  predicate AllSpace(s: string) {
    forall i :: 0 <= i < |s| ==> IsSpace(s[i])
  }

  /** Case folding of one character; only ASCII letters are folded. */
  function LowerChar(c: char): char {
    if 'A' <= c <= 'Z' then (c as int + 32) as char else c
  }

  /** str.lower(): the same length, and no capital letter is left. */
  function Lower(s: string): (r: string)
    ensures |r| == |s|
    ensures forall i :: 0 <= i < |r| ==> !('A' <= r[i] <= 'Z')
  {
    seq(|s|, i requires 0 <= i < |s| => LowerChar(s[i]))
  }

  /** Lower-casing twice changes nothing more than lower-casing once. */
  lemma LowerIdempotent(s: string)
    ensures Lower(Lower(s)) == Lower(s)
  {
    assert forall c :: c in Lower(s) ==> !('A' <= c <= 'Z');
    LowerOfLowercase(Lower(s));
  }

  /** Text without capital letters is its own lower case. */
  lemma LowerOfLowercase(s: string)
    requires forall c :: c in s ==> !('A' <= c <= 'Z')
    ensures Lower(s) == s
  {
    assert forall i :: 0 <= i < |s| ==> s[i] in s;
  }

  /** Lower-casing never creates or removes whitespace. */
  lemma LowerKeepsSpace(s: string)
    ensures AllSpace(Lower(s)) <==> AllSpace(s)
  {
    assert forall i :: 0 <= i < |s| ==> Lower(s)[i] == LowerChar(s[i]);
  }

  lemma LowerAppend(a: string, b: string)
    ensures Lower(a + b) == Lower(a) + Lower(b)
  {
    assert forall i :: 0 <= i < |a + b| ==> Lower(a + b)[i] == (Lower(a) + Lower(b))[i];
  }

  // ---------------------------------------------------------------- strip

  /** `r` is what remains of `s` once its leading whitespace is removed. */
  ghost predicate IsLeftTrim(s: string, r: string) {
    && |r| <= |s|
    && r == s[|s| - |r|..]
    && AllSpace(s[..|s| - |r|])
    && (r == [] || !IsSpace(r[0]))
  }

  /** `r` is what remains of `s` once its trailing whitespace is removed. */
  ghost predicate IsRightTrim(s: string, r: string) {
    && |r| <= |s|
    && r == s[..|r|]
    && AllSpace(s[|r|..])
    && (r == [] || !IsSpace(r[|r| - 1]))
  }

  /** str.lstrip() */
  function TrimStart(s: string): (r: string)
    ensures IsLeftTrim(s, r)
    decreases |s|
  {
    if |s| > 0 && IsSpace(s[0]) then
      var r := TrimStart(s[1..]);
      assert s[1..][..|s[1..]| - |r|] == s[1..|s| - |r|];
      r
    else s
  }

  /** str.rstrip() */
  function TrimEnd(s: string): (r: string)
    ensures IsRightTrim(s, r)
    decreases |s|
  {
    if |s| > 0 && IsSpace(s[|s| - 1]) then
      var r := TrimEnd(s[..|s| - 1]);
      assert s[|r|..] == s[..|s| - 1][|r|..] + [s[|s| - 1]];
      r
    else s
  }

  /** `r` is `s` with a whitespace prefix and a whitespace suffix cut off, and
      begins and ends with a non-space: what str.strip() returns. */
  ghost predicate IsStrip(s: string, r: string) {
    && (r == [] || (!IsSpace(r[0]) && !IsSpace(r[|r| - 1])))
    && exists k :: 0 <= k <= |s| - |r| && r == s[k..k + |r|] && AllSpace(s[..k]) && AllSpace(s[k + |r|..])
  }

  /** str.strip() */
  function Strip(s: string): (r: string)
    ensures r == [] || (!IsSpace(r[0]) && !IsSpace(r[|r| - 1]))
    ensures IsStrip(s, r)
  {
    var t := TrimStart(s);
    var r := TrimEnd(t);
    StripSlices(s, t, r);
    r
  }

  lemma StripSlices(s: string, t: string, r: string)
    requires IsLeftTrim(s, t) && IsRightTrim(t, r)
    ensures r == [] || (!IsSpace(r[0]) && !IsSpace(r[|r| - 1]))
    ensures var k := |s| - |t|;
      0 <= k <= |s| - |r| && r == s[k..k + |r|] && AllSpace(s[..k]) && AllSpace(s[k + |r|..])
  {
    var k := |s| - |t|;
    assert r != [] ==> r[0] == t[0];
    assert r == s[k..k + |r|];
    assert s[k + |r|..] == t[|r|..];
  }

  /** strip() only removes characters, so it adds no capital letter. */
  lemma StripKeepsLowercase(s: string)
    requires forall i :: 0 <= i < |s| ==> !('A' <= s[i] <= 'Z')
    ensures forall i :: 0 <= i < |Strip(s)| ==> !('A' <= Strip(s)[i] <= 'Z')
  {
    var t := TrimStart(s);
    forall i | 0 <= i < |t| ensures !('A' <= t[i] <= 'Z') {
      assert t[i] == s[|s| - |t| + i];
    }
    var q := TrimEnd(t);
    forall i | 0 <= i < |q| ensures !('A' <= q[i] <= 'Z') {
      assert q[i] == t[i];
    }
  }

  /** There is only one way to trim a string on the left. */
  lemma LeftTrimUnique(s: string, r1: string, r2: string)
    requires IsLeftTrim(s, r1) && IsLeftTrim(s, r2)
    ensures r1 == r2
  {
    forall p | 0 <= p < |s| - |r1| ensures IsSpace(s[p]) {
      assert s[..|s| - |r1|][p] == s[p];
    }
    forall p | 0 <= p < |s| - |r2| ensures IsSpace(s[p]) {
      assert s[..|s| - |r2|][p] == s[p];
    }
    assert r1 != [] ==> s[|s| - |r1|] == r1[0];
    assert r2 != [] ==> s[|s| - |r2|] == r2[0];
  }

  /** There is only one way to trim a string on the right. */
  lemma RightTrimUnique(s: string, r1: string, r2: string)
    requires IsRightTrim(s, r1) && IsRightTrim(s, r2)
    ensures r1 == r2
  {
    forall p | |r1| <= p < |s| ensures IsSpace(s[p]) {
      assert s[|r1|..][p - |r1|] == s[p];
    }
    forall p | |r2| <= p < |s| ensures IsSpace(s[p]) {
      assert s[|r2|..][p - |r2|] == s[p];
    }
    assert r1 != [] ==> s[|r1| - 1] == r1[|r1| - 1];
    assert r2 != [] ==> s[|r2| - 1] == r2[|r2| - 1];
  }

  /** Leading whitespace is removed whatever follows it. */
  lemma {:induction false} StripStartOfPadding(w: string, y: string)
    requires AllSpace(w)
    ensures TrimStart(w + y) == TrimStart(y)
    decreases |w|
  {
    if w == [] {
      assert w + y == y;
    } else {
      assert (w + y)[0] == w[0];
      assert (w + y)[1..] == w[1..] + y;
      StripStartOfPadding(w[1..], y);
    }
  }

  /** Trailing whitespace is removed whatever precedes it. */
  lemma {:induction false} StripEndOfPadding(y: string, w: string)
    requires AllSpace(w)
    ensures TrimEnd(y + w) == TrimEnd(y)
    decreases |w|
  {
    if w == [] {
      assert y + w == y;
    } else {
      var s := y + w;
      assert s[|s| - 1] == w[|w| - 1];
      assert s[..|s| - 1] == y + w[..|w| - 1];
      StripEndOfPadding(y, w[..|w| - 1]);
    }
  }

  /** Text after a non-blank string survives lstrip() untouched. */
  lemma {:induction false} TrimStartAppend(x: string, w: string)
    requires TrimStart(x) != []
    ensures TrimStart(x + w) == TrimStart(x) + w
    decreases |x|
  {
    assert (x + w)[0] == x[0];
    if IsSpace(x[0]) {
      assert (x + w)[1..] == x[1..] + w;
      TrimStartAppend(x[1..], w);
    }
  }

  /** Blank text strips to nothing. */
  lemma TrimStartBlank(y: string)
    requires AllSpace(y)
    ensures TrimStart(y) == []
  {
    var t := TrimStart(y);
  }

  /** A string that neither starts nor ends with whitespace strips to itself. */
  lemma StripUnpadded(s: string)
    requires s != [] && !IsSpace(s[0]) && !IsSpace(s[|s| - 1])
    ensures Strip(s) == s
  {
    assert TrimStart(s) == s;
  }

  /** Whitespace added around a string does not change what strip() returns. */
  lemma StripIgnoresPadding(w1: string, x: string, w2: string)
    requires AllSpace(w1) && AllSpace(w2)
    ensures Strip(w1 + x + w2) == Strip(x)
  {
    assert w1 + x + w2 == w1 + (x + w2);
    StripStartOfPadding(w1, x + w2);
    if TrimStart(x) == [] {
      BlankAppend(x, w2);
    } else {
      TrimStartAppend(x, w2);
      StripEndOfPadding(TrimStart(x), w2);
    }
  }

  /** Blank text followed by whitespace is still blank. */
  lemma {:induction false} BlankAppend(x: string, w: string)
    requires TrimStart(x) == [] && AllSpace(w)
    ensures TrimStart(x + w) == []
    decreases |x|
  {
    if x == [] {
      assert x + w == w;
      TrimStartBlank(w);
    } else {
      assert (x + w)[0] == x[0];
      assert (x + w)[1..] == x[1..] + w;
      BlankAppend(x[1..], w);
    }
  }

  // ------------------------------------------------------------ substring

  /** `k` occurs in `s` starting at position `i`. */
  predicate OccursAt(s: string, k: string, i: int) {
    0 <= i && i + |k| <= |s| && s[i..i + |k|] == k
  }

  /** Python's `k in s` for two strings. */
  predicate Contains(s: string, k: string) {
    exists i | 0 <= i <= |s| - |k| :: OccursAt(s, k, i)
  }

  /** A part of a keyword is found wherever the keyword is found. */
  lemma ContainsTransitive(s: string, k: string, part: string)
    requires Contains(s, k) && Contains(k, part)
    ensures Contains(s, part)
  {
    var i :| 0 <= i <= |s| - |k| && OccursAt(s, k, i);
    var j :| 0 <= j <= |k| - |part| && OccursAt(k, part, j);
    forall t | 0 <= t < |part| ensures s[i + j + t] == part[t] {
      assert part[t] == k[j + t] == s[i..i + |k|][j + t];
    }
    assert s[i + j..i + j + |part|] == part;
    assert OccursAt(s, part, i + j);
  }

  /** A keyword is not found if one of its characters is missing from the text. */
  lemma AbsentCharacter(s: string, k: string, c: char)
    requires c in k && c !in s
    ensures !Contains(s, k)
  {
    var m :| 0 <= m < |k| && k[m] == c;
    forall i | 0 <= i <= |s| - |k| ensures !OccursAt(s, k, i) {
      assert s[i..i + |k|][m] == s[i + m];
    }
  }

  /** A keyword without the separator character is found in `a + [sep] + b`
      only if it is found in `a` or in `b`. */
  lemma AbsentAcross(a: string, sep: char, b: string, k: string)
    requires sep !in k && !Contains(a, k) && !Contains(b, k)
    ensures !Contains(a + [sep] + b, k)
  {
    var s := a + [sep] + b;
    forall i | 0 <= i <= |s| - |k| ensures !OccursAt(s, k, i) {
      if i + |k| <= |a| {
        assert s[i..i + |k|] == a[i..i + |k|];
        assert !OccursAt(a, k, i);
      } else if i > |a| {
        assert s[i..i + |k|] == b[i - |a| - 1..i - |a| - 1 + |k|];
        assert !OccursAt(b, k, i - |a| - 1);
      } else {
        assert s[i..i + |k|][|a| - i] == sep;
      }
    }
  }

  // -------------------------------------------------------- lines of text

  /** "\n".join(lines) */
  function JoinLines(lines: seq<string>): string
    decreases |lines|
  {
    if |lines| == 0 then ""
    else if |lines| == 1 then lines[0]
    else lines[0] + "\n" + JoinLines(lines[1..])
  }

  /** s.split("\n") */
  function SplitLines(s: string): (r: seq<string>)
    ensures |r| > 0
    decreases |s|
  {
    if |s| == 0 then [""]
    else
      var rest := SplitLines(s[1..]);
      if s[0] == '\n' then [""] + rest
      else [[s[0]] + rest[0]] + rest[1..]
  }

  lemma {:induction false} SplitSingleLine(a: string, b: string)
    requires '\n' !in a
    ensures SplitLines(a + "\n" + b) == [a] + SplitLines(b)
    ensures SplitLines(a) == [a]
    decreases |a|
  {
    if a == [] {
      assert a + "\n" + b == "\n" + b;
      assert ("\n" + b)[1..] == b;
    } else {
      assert (a + "\n" + b)[1..] == a[1..] + "\n" + b;
      assert a[1..] + [] == a[1..];
      SplitSingleLine(a[1..], b);
      assert [a[0]] + a[1..] == a;
    }
  }

  /** Splitting joined lines gives the lines back when none holds a newline. */
  lemma {:induction false} SplitJoinLines(lines: seq<string>)
    requires |lines| > 0
    requires forall m :: 0 <= m < |lines| ==> '\n' !in lines[m]
    ensures SplitLines(JoinLines(lines)) == lines
    decreases |lines|
  {
    if |lines| == 1 {
      SplitSingleLine(lines[0], "");
    } else {
      SplitSingleLine(lines[0], JoinLines(lines[1..]));
      SplitJoinLines(lines[1..]);
    }
  }

  /** The text of joined lines ends as its last line does. */
  lemma {:induction false} JoinLinesLast(lines: seq<string>)
    requires |lines| > 0 && |lines[|lines| - 1]| > 0
    ensures |JoinLines(lines)| > 0
    ensures JoinLines(lines)[|JoinLines(lines)| - 1] == lines[|lines| - 1][|lines[|lines| - 1]| - 1]
    decreases |lines|
  {
    if |lines| > 1 {
      JoinLinesLast(lines[1..]);
    }
  }

  // ------------------------------------------------------------- endings

  predicate EndsWith(s: string, suffix: string) {
    |suffix| <= |s| && s[|s| - |suffix|..] == suffix
  }

  // ------------------------------------------------------------- numbers

  function DigitChar(d: nat): (c: char)
    requires d < 10
    ensures '0' <= c <= '9' && c as int - '0' as int == d
  {
    ('0' as int + d) as char
  }

  /** `int(s)` for a string of decimal digits: the reader `NatToString` is checked against. */
  function DigitsValue(s: string): int {
    if s == [] then 0 else DigitsValue(s[..|s| - 1]) * 10 + (s[|s| - 1] as int - '0' as int)
  }

  /** str(n) for a natural number: decimal digits, no leading zero, that read back as n. */
  function NatToString(n: nat): (r: string)
    ensures |r| > 0 && forall i :: 0 <= i < |r| ==> '0' <= r[i] <= '9'
    ensures |r| > 1 ==> r[0] != '0'
    ensures DigitsValue(r) == n
  {
    if n < 10 then
      assert [DigitChar(n)][..0] == [];
      [DigitChar(n)]
    else
      var r := NatToString(n / 10) + [DigitChar(n % 10)];
      assert r[..|r| - 1] == NatToString(n / 10);
      r
  }

  /** `{x:.1f}` where x is exactly n tenths: digits, a point and one digit, and
      the digits without the point read back as n. */
  function FormatTenths(n: nat): (r: string)
    ensures |r| >= 3 && r[|r| - 2] == '.'
    ensures forall i :: 0 <= i < |r| && i != |r| - 2 ==> '0' <= r[i] <= '9'
    ensures DigitsValue(r[..|r| - 2] + r[|r| - 1..]) == n
    ensures |r| > 3 ==> r[0] != '0'
  {
    var whole := NatToString(n / 10);
    var r := whole + "." + [DigitChar(n % 10)];
    assert r[..|r| - 2] + r[|r| - 1..] == whole + [DigitChar(n % 10)];
    assert (whole + [DigitChar(n % 10)])[..|whole|] == whole;
    r
  }
}
