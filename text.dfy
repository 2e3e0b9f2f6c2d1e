/** String operations the pages and the backend rely on: JavaScript's
    white-space class (used by String.prototype.trim and by `\s`/`\S` in a
    regular expression), substring and prefix tests, ASCII lower-casing,
    the unanchored email pattern `\S+@\S+\.\S+`, and parseInt without a
    radix, as the pages apply it to query parameters and option values. */
module Text {
  import opened Base

  /** JavaScript's WhiteSpace and LineTerminator characters: what trim()
      removes and what `\s` matches. */
  predicate IsSpace(c: char)
  {
    || c == ' ' || c == '\t' || c == '\n' || c == '\r'
    || c == '\U{000B}' || c == '\U{000C}' || c == '\U{00A0}' || c == '\U{1680}'
    || ('\U{2000}' <= c <= '\U{200A}')
    || c == '\U{2028}' || c == '\U{2029}' || c == '\U{202F}' || c == '\U{205F}'
    || c == '\U{3000}' || c == '\U{FEFF}'
  }

  predicate AllSpace(s: string)
  {
    forall i :: 0 <= i < |s| ==> IsSpace(s[i])
  }

  /** s with its leading white space removed. */
  function TrimStart(s: string): (r: string)
    ensures |r| <= |s| && r == s[|s| - |r|..]
    ensures AllSpace(s[..|s| - |r|])
    ensures r == [] || !IsSpace(r[0])
  {
    if s == [] || !IsSpace(s[0]) then s
    else
      var r := TrimStart(s[1..]);
      assert s[|s| - |r|..] == s[1..][|s| - 1 - |r|..];
      r
  }

  /** s with its trailing white space removed. */
  function TrimEnd(s: string): (r: string)
    ensures |r| <= |s| && r == s[..|r|]
    ensures AllSpace(s[|r|..])
    ensures r == [] || !IsSpace(r[|r| - 1])
  {
    if s == [] || !IsSpace(s[|s| - 1]) then s
    else
      var r := TrimEnd(s[..|s| - 1]);
      r
  }

  /** String.prototype.trim. */
  function Trim(s: string): string
  {
    TrimEnd(TrimStart(s))
  }

  /** `!s.trim()`: a string is blank when trimming leaves nothing, which is
      exactly when every character is white space. */
  predicate IsBlank(s: string)
  {
    s == [] || (IsSpace(s[0]) && IsBlank(s[1..]))
  }

  /** Blank means that trim() leaves nothing, and also that every character
      is white space. */
  lemma {:induction false} BlankIffTrimEmpty(s: string)
    ensures IsBlank(s) <==> Trim(s) == ""
    ensures IsBlank(s) <==> AllSpace(s)
  {
    var t := TrimStart(s);
    if Trim(s) == "" {
      assert t[0..] == t;
      assert t == [];
      assert s[..|s|] == s;
    }
    if s != [] {
      BlankIffTrimEmpty(s[1..]);
      if IsSpace(s[0]) {
        assert TrimStart(s) == TrimStart(s[1..]);
      }
    }
  }

  /** `s.includes(t)`, and SQL's `LIKE '%t%'` without wildcards in t. */
  predicate Contains(s: string, t: string)
  {
    exists i | 0 <= i <= |s| :: OccursAt(s, t, i)
  }

  /** t occurs in s starting at position i. */
  predicate OccursAt(s: string, t: string, i: int)
  {
    0 <= i <= |s| - |t| && s[i..i + |t|] == t
  }

  lemma ContainsEmpty(s: string)
    ensures Contains(s, "")
  {
    ContainsSlice(s, 0, 0);
    assert s[0..0] == "";
  }

  lemma ContainsItself(s: string)
    ensures Contains(s, s)
  {
    ContainsSlice(s, 0, |s|);
    assert s[0..|s|] == s;
  }

  /** A string contains any of its slices. */
  lemma ContainsSlice(s: string, i: int, j: int)
    requires 0 <= i <= j <= |s|
    ensures Contains(s, s[i..j])
  {
    assert OccursAt(s, s[i..j], i);
  }

  /** `s.startsWith(p)`. */
  predicate StartsWith(s: string, p: string)
  {
    |p| <= |s| && s[..|p|] == p
  }

  /** toLowerCase on one character, for the ASCII letters only: the fold of
      other letters is not part of this model. */
  function LowerChar(c: char): (r: char)
    ensures 'A' <= c <= 'Z' ==> 'a' <= r <= 'z'
    ensures !('A' <= c <= 'Z') ==> r == c
  {
    if 'A' <= c <= 'Z' then (c as int + 32) as char else c
  }

  function Lower(s: string): (r: string)
    ensures |r| == |s|
    ensures forall i :: 0 <= i < |s| ==> r[i] == LowerChar(s[i])
  {
    seq(|s|, i requires 0 <= i < |s| => LowerChar(s[i]))
  }

  /** Lower-casing is idempotent. */
  lemma LowerIdempotent(s: string)
    ensures Lower(Lower(s)) == Lower(s)
  {
    assert forall i :: 0 <= i < |s| ==> Lower(Lower(s))[i] == Lower(s)[i];
  }

  /** Case-insensitive substring test: SQL `ilike '%t%'`, or JavaScript's
      `s.toLowerCase().includes(t.toLowerCase())`. */
  predicate ContainsIgnoringCase(s: string, t: string)
  {
    Contains(Lower(s), Lower(t))
  }

  /** s[lo..hi] has no white space: a run that `\S+` can match. */
  predicate NonSpaceRun(s: string, lo: int, hi: int)
    requires 0 <= lo <= hi <= |s|
  {
    forall k :: lo <= k < hi ==> !IsSpace(s[k])
  }

  /** `\S+@\S+\.\S+` matches s[i..e] with its '@' at b and its '.' at c. */
  predicate EmailMatchAt(s: string, i: int, b: int, c: int, e: int)
  {
    && 0 <= i < b && b + 1 < c && c + 1 < e <= |s|
    && NonSpaceRun(s, i, b) && s[b] == '@'
    && NonSpaceRun(s, b + 1, c) && s[c] == '.'
    && NonSpaceRun(s, c + 1, e)
  }

  /** The meaning of `/\S+@\S+\.\S+/.test(s)`: the pattern has no anchors,
      so some substring of s must match it. */
  ghost predicate EmailRegexMatches(s: string)
  {
    exists i, b, c, e :: EmailMatchAt(s, i, b, c, e)
  }

  /** The '@' at b and the '.' at c, with a non-space character before the
      '@', only non-space characters between the two, and a non-space
      character after the '.': the shortest match the pattern allows. */
  predicate EmailShapeAt(s: string, b: int, c: int)
  {
    && 0 < b && b + 1 < c < |s| - 1
    && !IsSpace(s[b - 1]) && s[b] == '@'
    && NonSpaceRun(s, b + 1, c) && s[c] == '.'
    && !IsSpace(s[c + 1])
  }

  /** The check as computed: some '@' and '.' placed as EmailShapeAt says. */
  predicate EmailPatternTest(s: string)
  {
    exists b, c | 0 < b < |s| && b + 1 < c < |s| - 1 :: EmailShapeAt(s, b, c)
  }

  /** A shortest match is a match. */
  lemma EmailShapeIsMatch(s: string, b: int, c: int)
    requires EmailShapeAt(s, b, c)
    ensures EmailMatchAt(s, b - 1, b, c, c + 2)
  {
  }

  /** Any match contains a shortest match around the same '@' and '.'. */
  lemma EmailMatchHasShape(s: string, i: int, b: int, c: int, e: int)
    requires EmailMatchAt(s, i, b, c, e)
    ensures EmailShapeAt(s, b, c)
  {
    assert !IsSpace(s[b - 1]);
    assert !IsSpace(s[c + 1]);
  }

  /** The computed check is exactly the regular expression's meaning. */
  lemma EmailPatternTestIff(s: string)
    ensures EmailPatternTest(s) <==> EmailRegexMatches(s)
  {
    if EmailPatternTest(s) {
      var b, c :| 0 < b < |s| && b + 1 < c < |s| - 1 && EmailShapeAt(s, b, c);
      EmailShapeIsMatch(s, b, c);
    }
    if EmailRegexMatches(s) {
      var i, b, c, e :| EmailMatchAt(s, i, b, c, e);
      EmailMatchHasShape(s, i, b, c, e);
    }
  }

  /** The examples the email check is meant to accept and reject. */
  lemma EmailPatternExamples()
    ensures EmailPatternTest("a@b.co")
    ensures !EmailPatternTest("a@b")
    ensures !EmailPatternTest("a.com")
    ensures !EmailPatternTest("")
    ensures !EmailPatternTest("a @b.co")
  {
    var s := "a@b.co";
    assert NonSpaceRun(s, 2, 3);
    assert EmailShapeAt(s, 1, 3);
    var t := "a.com";
    assert forall b :: 0 < b < |t| ==> t[b] != '@';
    var u := "a @b.co";
    assert forall b :: 0 < b < |u| && u[b] == '@' ==> b == 2;
    assert IsSpace(u[1]);
  }

  predicate IsDigit(c: char)
  {
    '0' <= c <= '9'
  }

  /** A digit of radix 10, or of radix 16 with its letters in either case. */
  predicate IsDigitIn(radix: nat, c: char)
  {
    IsDigit(c) || (radix == 16 && ('a' <= c <= 'f' || 'A' <= c <= 'F'))
  }

  function DigitValue(radix: nat, c: char): (d: nat)
    requires IsDigitIn(radix, c)
    ensures IsDigit(c) ==> d == c as int - '0' as int
    ensures d < (if radix == 16 then 16 else 10)
  {
    if IsDigit(c) then c as int - '0' as int
    else if 'a' <= c <= 'f' then c as int - 'a' as int + 10
    else c as int - 'A' as int + 10
  }

  /** Value of a string of digits of the radix, most significant first. */
  function DigitsValue(radix: nat, s: string): nat
    requires forall i :: 0 <= i < |s| ==> IsDigitIn(radix, s[i])
  {
    if s == [] then 0 else DigitsValue(radix, s[..|s| - 1]) * radix + DigitValue(radix, s[|s| - 1])
  }

  /** Length of the longest prefix of s made of digits of the radix. */
  function DigitPrefixLength(radix: nat, s: string): (k: nat)
    ensures k <= |s|
    ensures forall i :: 0 <= i < k ==> IsDigitIn(radix, s[i])
    ensures k < |s| ==> !IsDigitIn(radix, s[k])
  {
    if s == [] || !IsDigitIn(radix, s[0]) then 0 else 1 + DigitPrefixLength(radix, s[1..])
  }

  /** Without a radix argument, parseInt reads "0x" or "0X" as radix 16. */
  predicate HexPrefixed(u: string)
  {
    |u| >= 2 && u[0] == '0' && (u[1] == 'x' || u[1] == 'X')
  }

  function RadixOf(u: string): nat
  {
    if HexPrefixed(u) then 16 else 10
  }

  function DigitsOf(u: string): string
  {
    if HexPrefixed(u) then u[2..] else u
  }

  /** parseInt(s) without a radix: leading white space skipped, an optional
      sign, then "0x" or "0X" and the longest run of hexadecimal digits, or
      else the longest run of decimal digits; None stands for NaN, which is
      what an empty run gives. */
  function ParseInt(s: string): (r: Option<int>)
    ensures r.None? <==>
      var u := SignFree(TrimStart(s));
      DigitPrefixLength(RadixOf(u), DigitsOf(u)) == 0
  {
    var t := TrimStart(s);
    var negative := |t| > 0 && t[0] == '-';
    var u := SignFree(t);
    var radix := RadixOf(u);
    var w := DigitsOf(u);
    var k := DigitPrefixLength(radix, w);
    if k == 0 then None
    else
      var v: int := DigitsValue(radix, w[..k]);
      Some(if negative then -v else v)
  }

  function SignFree(t: string): string
  {
    if |t| > 0 && (t[0] == '-' || t[0] == '+') then t[1..] else t
  }

  /** String(n) for a natural number: its decimal digits, no leading zero. */
  function DecimalString(n: nat): (s: string)
    ensures |s| > 0
    ensures forall i :: 0 <= i < |s| ==> IsDigit(s[i])
  {
    (if n < 10 then "" else DecimalString(n / 10)) + [('0' as int + n % 10) as char]
  }

  lemma {:induction false} DigitsValueOfDecimal(n: nat)
    ensures DigitsValue(10, DecimalString(n)) == n
  {
    var s := DecimalString(n);
    var last := ('0' as int + n % 10) as char;
    assert s[|s| - 1] == last;
    if n < 10 {
      assert s[..|s| - 1] == "";
    } else {
      assert s[..|s| - 1] == DecimalString(n / 10);
      DigitsValueOfDecimal(n / 10);
    }
  }

  lemma DigitNotSpace(c: char)
    requires IsDigit(c)
    ensures !IsSpace(c)
  {
  }

  /** Rendering an id into an option's value and parsing it back returns the
      id: `parseInt(String(n)) == n`. */
  lemma ParseIntOfDecimal(n: nat)
    ensures ParseInt(DecimalString(n)) == Some(n)
  {
    var s := DecimalString(n);
    assert IsDigit(s[0]);
    DigitNotSpace(s[0]);
    assert TrimStart(s) == s;
    assert SignFree(s) == s;
    assert !HexPrefixed(s) by {
      if |s| >= 2 {
        assert IsDigit(s[1]);
      }
    }
    DigitPrefixAll(s);
    assert s[..|s|] == s;
    DigitsValueOfDecimal(n);
  }

  /** Without a radix, "0x1A" reads as hexadecimal 26. */
  lemma ParseIntHexExample()
    ensures ParseInt("0x1A") == Some(26)
  {
    var s := "0x1A";
    assert TrimStart(s) == s;
    assert SignFree(s) == s;
    assert HexPrefixed(s);
    assert DigitsOf(s) == "1A";
    assert DigitPrefixLength(16, "") == 0;
    assert DigitPrefixLength(16, "A") == 1 by { assert "A"[1..] == ""; }
    assert DigitPrefixLength(16, "1A") == 2 by { assert "1A"[1..] == "A"; }
    assert "1A"[..2] == "1A";
    assert DigitsValue(16, "1") == 1 by { assert "1"[..0] == ""; }
    assert DigitsValue(16, "1A") == 26 by { assert "1A"[..1] == "1"; }
  }

  /** A bare "0x" has no digit after the prefix, so it is NaN, not 0. */
  lemma ParseIntBarePrefixExample()
    ensures ParseInt("0x") == None
  {
    var s := "0x";
    assert TrimStart(s) == s;
    assert SignFree(s) == s;
    assert DigitsOf(s) == "";
  }

  /** Whatever follows the digits is ignored. */
  lemma ParseIntTrailingExample()
    ensures ParseInt("7px") == Some(7)
  {
    var s := "7px";
    assert TrimStart(s) == "7px";
    assert SignFree("7px") == "7px";
    assert !HexPrefixed("7px");
    assert DigitPrefixLength(10, "px") == 0;
    assert DigitPrefixLength(10, "7px") == 1 by { assert "7px"[1..] == "px"; }
    assert "7px"[..1] == "7";
    assert DigitsValue(10, "7") == 7 by { assert "7"[..0] == ""; }
  }

  lemma {:induction false} DigitPrefixAll(s: string)
    requires forall i :: 0 <= i < |s| ==> IsDigit(s[i])
    ensures DigitPrefixLength(10, s) == |s|
  {
    if s != [] {
      DigitPrefixAll(s[1..]);
    }
  }
}
