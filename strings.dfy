/**
 * String operations used by both the Flask routes and the Next.js mock:
 * prefix, suffix and substring tests, `'; '.join`, the last segment of a
 * `/`-separated path, and decimal digits (rendering and reading back).
 */
module Strings {

  /** Python `str.startswith`, JavaScript `startsWith`. */
  predicate StartsWith(s: string, prefix: string)
  {
    |prefix| <= |s| && s[..|prefix|] == prefix
  }

  /** Python `str.endswith`, JavaScript `endsWith`. */
  predicate EndsWith(s: string, suffix: string)
  {
    |suffix| <= |s| && s[|s| - |suffix|..] == suffix
  }

  /** JavaScript `includes`, Python `in` on strings: `sub` occurs somewhere in `s`. */
  predicate Contains(s: string, sub: string)
    decreases |s|
  {
    StartsWith(s, sub) || (|s| > 0 && Contains(s[1..], sub))
  }

  /** An occurrence at any position makes `Contains` true. */
  lemma {:induction false} ContainsAt(s: string, sub: string, i: nat)
    requires i + |sub| <= |s| && s[i..i + |sub|] == sub
    ensures Contains(s, sub)
  {
    if i > 0 {
      assert s[1..][i - 1..i - 1 + |sub|] == s[i..i + |sub|];
      ContainsAt(s[1..], sub, i - 1);
    } else {
      assert s[..|sub|] == sub;
    }
  }

  /** If `s` ends with both `a` and the shorter `b`, then `a` itself ends with `b`. */
  lemma SuffixOfSuffix(s: string, a: string, b: string)
    requires EndsWith(s, a) && EndsWith(s, b) && |b| <= |a|
    ensures EndsWith(a, b)
  {
    assert a[|a| - |b|..] == s[|s| - |b|..];
  }

  /** Python `sep.join(parts)`. */
  function Join(parts: seq<string>, sep: string): (r: string)
    ensures |parts| == 1 ==> r == parts[0]
    ensures |parts| >= 2 ==> r == parts[0] + sep + Join(parts[1..], sep)
    ensures (exists k :: 0 <= k < |parts| && parts[k] != []) ==> r != []
  {
    if |parts| == 0 then ""
    else if |parts| == 1 then parts[0]
    else
      var rest := Join(parts[1..], sep);
      assert (exists k :: 0 <= k < |parts| && parts[k] != []) && parts[0] == [] ==>
        exists k :: 0 <= k < |parts[1..]| && parts[1..][k] != [] by {
        if parts[0] == [] && exists k :: 0 <= k < |parts| && parts[k] != [] {
          var k :| 0 <= k < |parts| && parts[k] != [];
          assert parts[1..][k - 1] == parts[k];
        }
      }
      parts[0] + sep + rest
  }

  /** The text after the last `/` (JavaScript `path.split("/").pop()`). */
  function LastSegment(path: string): (seg: string)
    ensures EndsWith(path, seg)
    ensures '/' !in seg
    ensures |seg| < |path| ==> path[|path| - |seg| - 1] == '/'
  {
    if path == [] then []
    else if path[|path| - 1] == '/' then []
    else
      var seg := LastSegment(path[..|path| - 1]);
      assert path[..|path| - 1][|path| - 1 - |seg|..] == path[|path| - 1 - |seg|..|path| - 1];
      seg + [path[|path| - 1]]
  }

  /** The characters of `s` before its first space: the field `s.split(" ")` gives first. */
  function TakeUntilSpace(s: string): (r: string)
    ensures StartsWith(s, r)
    ensures ' ' !in r
    ensures |r| < |s| ==> s[|r|] == ' '
  {
    if s == [] || s[0] == ' ' then [] else [s[0]] + TakeUntilSpace(s[1..])
  }

  /** Python `s.split(" ")`: the fields between single spaces, empty ones included. */
  function SplitSpace(s: string): (r: seq<string>)
    ensures |r| >= 1 && r[0] == TakeUntilSpace(s)
    decreases |s|
  {
    var w := TakeUntilSpace(s);
    if |w| == |s| then [w] else [w] + SplitSpace(s[|w| + 1..])
  }

  /** A string that is `w` itself, or `w` followed by a space, has `w` as its first field. */
  lemma {:induction false} TakeUntilSpaceWord(s: string, w: string)
    requires ' ' !in w
    requires s == w || StartsWith(s, w + " ")
    ensures TakeUntilSpace(s) == w
  {
    if w != [] {
      assert s[0] == w[0];
      assert s[1..] == w[1..] || StartsWith(s[1..], w[1..] + " ") by {
        if s != w {
          assert s[1..][..|w[1..] + " "|] == s[..|w + " "|][1..];
        }
      }
      TakeUntilSpaceWord(s[1..], w[1..]);
    } else if s != w {
      assert s[0] == ' ';
    }
  }

  /** The second field of a string that starts with "Team " is what follows up to the next space. */
  lemma TeamSecondField(team: string)
    requires StartsWith(team, "Team ")
    ensures |SplitSpace(team)| >= 2 && SplitSpace(team)[1] == TakeUntilSpace(team[5..])
  {
    TakeUntilSpaceWord(team, "Team");
    assert team[|"Team"| + 1..] == team[5..];
  }

  /** A string that starts with `prefix` contains it. */
  lemma StartsWithContains(s: string, prefix: string)
    requires StartsWith(s, prefix)
    ensures Contains(s, prefix)
  {
  }

  // Decimal digits

  predicate IsDigit(c: char)
  {
    '0' <= c <= '9'
  }

  predicate AllDigits(s: string)
  {
    forall i :: 0 <= i < |s| ==> IsDigit(s[i])
  }

  function DigitValue(c: char): (d: nat)
    requires IsDigit(c)
    ensures d < 10
  {
    c as int - '0' as int
  }

  function DigitChar(d: nat): (c: char)
    requires d < 10
    ensures IsDigit(c) && DigitValue(c) == d
  {
    ('0' as int + d) as char
  }

  /** The number a string of decimal digits denotes (an empty string denotes 0). */
  function NatValue(s: string): nat
    requires AllDigits(s)
  {
    if s == [] then 0 else NatValue(s[..|s| - 1]) * 10 + DigitValue(s[|s| - 1])
  }

  /** The shortest decimal rendering of `n`, as Python's `str` and an f-string give it. */
  function ShowNat(n: nat): (s: string)
    ensures |s| > 0 && AllDigits(s)
    ensures n > 0 ==> s[0] != '0'
  {
    if n < 10 then [DigitChar(n)] else ShowNat(n / 10) + [DigitChar(n % 10)]
  }

  /** Python `str(i)` for an integer. */
  function ShowInt(i: int): (s: string)
    ensures |s| > 0
    ensures i >= 0 ==> AllDigits(s)
    ensures i < 0 ==> s[0] == '-' && AllDigits(s[1..])
  {
    if i < 0 then "-" + ShowNat(-i) else ShowNat(i)
  }

  /** Reading back a rendered number gives the number. */
  lemma {:induction false} NatValueShowNat(n: nat)
    ensures NatValue(ShowNat(n)) == n
  {
    if n >= 10 {
      var s := ShowNat(n);
      assert s[..|s| - 1] == ShowNat(n / 10);
      NatValueShowNat(n / 10);
    }
  }

}
