/**
 * The string primitives the bot's Python code relies on: character classes
 * (`str.isspace`, `str.isdigit`, the `\s`, `\d` and `\w` classes of `re`),
 * `str.lower`, `str.strip`, substring tests (`in`), `int(...)` on a run of
 * digits and the decimal rendering of an `int` inside an f-string.
 */
module Text {

  /** Python's `str.isspace`, which is also the set that `\s` matches in a str pattern. */
  predicate IsSpace(c: char) {
    c == ' ' || '\t' <= c <= '\r' || '\U{1C}' <= c <= '\U{1F}' || c == '\U{85}' || c == '\U{A0}'
    || c == '\U{1680}' || '\U{2000}' <= c <= '\U{200A}' || c == '\U{2028}' || c == '\U{2029}'
    || c == '\U{202F}' || c == '\U{205F}' || c == '\U{3000}'
  }

  predicate IsDigit(c: char) {
    '0' <= c <= '9'
  }

  predicate IsLetter(c: char) {
    'a' <= c <= 'z' || 'A' <= c <= 'Z'
  }

  /** The `\w` class, restricted to ASCII. */
  predicate IsWordChar(c: char) {
    IsLetter(c) || IsDigit(c) || c == '_'
  }

  predicate AllDigits(s: string) {
    forall i :: 0 <= i < |s| ==> IsDigit(s[i])
  }

  /** `str.isdigit()`: true exactly for a non-empty string of digits. */
  predicate IsDigitString(s: string) {
    |s| > 0 && AllDigits(s)
  }

  function LowerChar(c: char): (d: char)
    ensures IsSpace(d) <==> IsSpace(c)
    ensures IsLetter(d) <==> IsLetter(c)
    ensures !('A' <= d <= 'Z')
  {
    if 'A' <= c <= 'Z' then (c as int + 32) as char else c
  }

  /** `str.lower()`, with the case mapping restricted to ASCII letters. */
  function Lower(s: string): (r: string)
    ensures |r| == |s|
    ensures forall i :: 0 <= i < |s| ==> r[i] == LowerChar(s[i])
  {
    seq(|s|, i requires 0 <= i < |s| => LowerChar(s[i]))
  }

  lemma LowerAppend(a: string, b: string)
    ensures Lower(a + b) == Lower(a) + Lower(b)
  {
  }

  /** A string of lower-case ASCII letters is its own lower case. */
  lemma LowerOfLowerCase(s: string)
    requires forall i :: 0 <= i < |s| ==> 'a' <= s[i] <= 'z'
    ensures Lower(s) == s
  {
  }

  lemma LowerIdempotent(s: string)
    ensures Lower(Lower(s)) == Lower(s)
  {
  }

  function Min(a: nat, b: nat): nat {
    if a < b then a else b
  }

  predicate StartsWith(s: string, prefix: string) {
    |prefix| <= |s| && s[..|prefix|] == prefix
  }

  lemma StartsWithAppend(a: string, b: string, prefix: string)
    requires StartsWith(a, prefix)
    ensures StartsWith(a + b, prefix)
  {
    assert (a + b)[..|prefix|] == a[..|prefix|];
  }

  predicate EndsWith(s: string, suffix: string) {
    |suffix| <= |s| && s[|s| - |suffix|..] == suffix
  }

  /** Python's substring test `part in s`. */
  predicate Contains(s: string, part: string)
    decreases |s|
  {
    StartsWith(s, part) || (|s| > 0 && Contains(s[1..], part))
  }

  lemma {:induction false} ContainsInSuffix(s: string, k: nat, part: string)
    requires k <= |s|
    requires Contains(s[k..], part)
    ensures Contains(s, part)
    decreases k
  {
    if k > 0 {
      assert s[k..] == s[1..][k - 1..];
      ContainsInSuffix(s[1..], k - 1, part);
    }
  }

  /** A string contains every piece it is concatenated from. */
  lemma ContainsMiddle(a: string, m: string, c: string)
    ensures Contains(a + m + c, m)
  {
    var s := a + m + c;
    assert s[|a|..][..|m|] == m;
    ContainsInSuffix(s, |a|, m);
  }

  lemma {:induction false} ContainsExtend(s: string, c: string, part: string)
    requires Contains(s, part)
    ensures Contains(s + c, part)
    decreases |s|
  {
    if StartsWith(s, part) {
      assert (s + c)[..|part|] == s[..|part|];
    } else {
      ContainsExtend(s[1..], c, part);
      assert (s + c)[1..] == s[1..] + c;
    }
  }

  /** What a piece contains, the whole contains. */
  lemma ContainsWithin(a: string, m: string, c: string, part: string)
    requires Contains(m, part)
    ensures Contains(a + m + c, part)
  {
    ContainsExtend(m, c, part);
    assert (a + m + c)[|a|..] == m + c;
    ContainsInSuffix(a + m + c, |a|, part);
  }

  /** Whatever contains `front + back` contains `back`. */
  lemma {:induction false} ContainsTail(s: string, front: string, back: string)
    requires Contains(s, front + back)
    ensures Contains(s, back)
    decreases |s|
  {
    if StartsWith(s, front + back) {
      var rest := s[|front|..];
      assert rest[..|back|] == (front + back)[|front|..];
      assert StartsWith(rest, back);
      ContainsInSuffix(s, |front|, back);
    } else {
      ContainsTail(s[1..], front, back);
    }
  }

  /** Each inner part of `a + b + c + d + e` occurs in it, and `e` ends it. */
  lemma ContainsParts(a: string, b: string, c: string, d: string, e: string)
    ensures Contains(a + b + c + d + e, b)
    ensures Contains(a + b + c + d + e, c)
    ensures Contains(a + b + c + d + e, d)
    ensures EndsWith(a + b + c + d + e, e)
  {
    var s := a + b + c + d + e;
    assert s == a + b + (c + d + e);
    ContainsMiddle(a, b, c + d + e);
    assert s == (a + b) + c + (d + e);
    ContainsMiddle(a + b, c, d + e);
    assert s == (a + b + c) + d + e;
    ContainsMiddle(a + b + c, d, e);
    assert s[|s| - |e|..] == e;
  }

  /** Whatever contains `front + back` contains `front`. */
  lemma {:induction false} ContainsHead(s: string, front: string, back: string)
    requires Contains(s, front + back)
    ensures Contains(s, front)
    decreases |s|
  {
    if StartsWith(s, front + back) {
      assert s[..|front|] == (front + back)[..|front|];
    } else {
      ContainsHead(s[1..], front, back);
    }
  }

  /** The end of the run of characters satisfying `P` that starts at `i`. */
  function RunEnd(s: string, i: nat, P: char -> bool): (j: nat)
    requires i <= |s|
    ensures i <= j <= |s|
    ensures forall k :: i <= k < j ==> P(s[k])
    ensures j == |s| || !P(s[j])
    decreases |s| - i
  {
    if i < |s| && P(s[i]) then RunEnd(s, i + 1, P) else i
  }

  /** A run that ends at `j` has its end at `j`. */
  lemma {:induction false} RunEndIs(s: string, i: nat, P: char -> bool, j: nat)
    requires i <= j <= |s|
    requires forall k :: i <= k < j ==> P(s[k])
    requires j == |s| || !P(s[j])
    ensures RunEnd(s, i, P) == j
    decreases j - i
  {
    if i < j {
      RunEndIs(s, i + 1, P, j);
    }
  }

  function StripLeft(s: string): (r: string)
    ensures |r| <= |s| && r == s[|s| - |r|..]
    ensures forall i :: 0 <= i < |s| - |r| ==> IsSpace(s[i])
    ensures r == [] || !IsSpace(r[0])
    decreases |s|
  {
    if |s| > 0 && IsSpace(s[0]) then StripLeft(s[1..]) else s
  }

  function StripRight(s: string): (r: string)
    ensures |r| <= |s| && r == s[..|r|]
    ensures forall i :: |r| <= i < |s| ==> IsSpace(s[i])
    ensures r == [] || !IsSpace(r[|r| - 1])
    decreases |s|
  {
    if |s| > 0 && IsSpace(s[|s| - 1]) then StripRight(s[..|s| - 1]) else s
  }

  /**
   * `str.strip()`: the result is the part of `s` left after removing the
   * whitespace at both ends, so it neither starts nor ends with whitespace.
   */
  function Strip(s: string): (r: string)
    ensures |r| <= |s|
    ensures r == [] || (!IsSpace(r[0]) && !IsSpace(r[|r| - 1]))
    ensures exists k :: StrippedAt(s, k, r)
  {
    var left := StripLeft(s);
    var r := StripRight(left);
    StrippedAtBothEnds(s, |s| - |left|, left, r);
    r
  }

  /** Whitespace stripped from the front and then from the back leaves a slice of `s`. */
  lemma StrippedAtBothEnds(s: string, k: nat, left: string, r: string)
    requires k <= |s| && left == s[k..] && forall i :: 0 <= i < k ==> IsSpace(s[i])
    requires |r| <= |left| && r == left[..|r|] && forall i :: |r| <= i < |left| ==> IsSpace(left[i])
    ensures StrippedAt(s, k, r)
  {
    forall i | k + |r| <= i < |s|
      ensures IsSpace(s[i])
    {
      assert s[i] == left[i - k];
    }
  }

  /**
   * `r` is what is left of `s` after removing its first `k` characters and
   * every character after `k + |r|`, all of them whitespace.
   */
  predicate StrippedAt(s: string, k: nat, r: string) {
    && k + |r| <= |s| && r == s[k..k + |r|]
    && (forall i :: 0 <= i < k ==> IsSpace(s[i]))
    && (forall i :: k + |r| <= i < |s| ==> IsSpace(s[i]))
  }

  /** The non-whitespace characters of `s`, in order: the text a reader sees. */
  function NonSpace(s: string): (r: string)
    ensures |r| <= |s|
    ensures forall i :: 0 <= i < |r| ==> !IsSpace(r[i])
    decreases |s|
  {
    if s == [] then []
    else if IsSpace(s[0]) then NonSpace(s[1..])
    else [s[0]] + NonSpace(s[1..])
  }

  lemma {:induction false} NonSpaceAppend(a: string, b: string)
    ensures NonSpace(a + b) == NonSpace(a) + NonSpace(b)
    decreases |a|
  {
    if a == [] {
      assert a + b == b;
    } else {
      assert (a + b)[0] == a[0] && (a + b)[1..] == a[1..] + b;
      NonSpaceAppend(a[1..], b);
    }
  }

  lemma {:induction false} NonSpaceOfSpaces(s: string)
    requires forall i :: 0 <= i < |s| ==> IsSpace(s[i])
    ensures NonSpace(s) == []
    decreases |s|
  {
    if s != [] {
      assert forall i :: 0 <= i < |s[1..]| ==> s[1..][i] == s[i + 1];
      NonSpaceOfSpaces(s[1..]);
    }
  }

  /** Cutting a text keeps a prefix of what a reader sees. */
  lemma NonSpaceOfPrefix(s: string, n: nat)
    requires n <= |s|
    ensures StartsWith(NonSpace(s), NonSpace(s[..n]))
  {
    assert s == s[..n] + s[n..];
    NonSpaceAppend(s[..n], s[n..]);
  }

  /** `strip()` removes whitespace only: the text a reader sees is unchanged. */
  lemma NonSpaceOfStrip(s: string)
    ensures NonSpace(Strip(s)) == NonSpace(s)
  {
    NonSpaceOfStripLeft(s);
    NonSpaceOfStripRight(StripLeft(s));
  }

  lemma {:induction false} NonSpaceOfStripLeft(s: string)
    ensures NonSpace(StripLeft(s)) == NonSpace(s)
    decreases |s|
  {
    if |s| > 0 && IsSpace(s[0]) {
      NonSpaceOfStripLeft(s[1..]);
    }
  }

  lemma NonSpaceOfStripRight(s: string)
    ensures NonSpace(StripRight(s)) == NonSpace(s)
  {
    var r := StripRight(s);
    var back := s[|r|..];
    assert s == r + back;
    assert forall i :: 0 <= i < |back| ==> back[i] == s[|r| + i];
    NonSpaceAppend(r, back);
    NonSpaceOfSpaces(back);
  }

  /** A string with no whitespace at either end is its own `strip()`. */
  lemma StripUnchanged(s: string)
    requires s == [] || (!IsSpace(s[0]) && !IsSpace(s[|s| - 1]))
    ensures Strip(s) == s
  {
  }

  function DigitChar(d: nat): (c: char)
    requires d < 10
    ensures IsDigit(c)
  {
    ('0' as int + d) as char
  }

  function DigitValue(c: char): (d: nat)
    requires IsDigit(c)
    ensures d < 10 && DigitChar(d) == c
  {
    c as int - '0' as int
  }

  /** The decimal text of `n`, as `f"{n}"` renders a non-negative `int`. */
  function Dec(n: nat): (r: string)
    ensures IsDigitString(r)
    ensures n == 0 ==> r == "0"
    ensures n > 0 ==> r[0] != '0'
    decreases n
  {
    if n < 10 then [DigitChar(n)] else Dec(n / 10) + [DigitChar(n % 10)]
  }

  /** `int(s)` on a string of ASCII digits. */
  function ParseDec(s: string): nat
    requires AllDigits(s)
    decreases |s|
  {
    if s == [] then 0 else 10 * ParseDec(s[..|s| - 1]) + DigitValue(s[|s| - 1])
  }

  /** `int(f"{n}") == n`. */
  lemma {:induction false} ParseDecOfDec(n: nat)
    ensures ParseDec(Dec(n)) == n
    decreases n
  {
    if n >= 10 {
      var r := Dec(n);
      assert r[..|r| - 1] == Dec(n / 10);
      ParseDecOfDec(n / 10);
    }
  }
}
