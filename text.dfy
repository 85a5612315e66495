/**
 * The JavaScript string operations the components rely on:
 * `toLowerCase`, `includes`, `replace(/,/g, '')`, `trim` and a
 * character-by-character lexicographic comparison standing in for `localeCompare`.
 */
module Text {

  /** `toLowerCase` on one character (ASCII letters only). */
  function LowerChar(c: char): (d: char)
    ensures 'A' <= c <= 'Z' ==> d as int == c as int + 32
    ensures !('A' <= c <= 'Z') ==> d == c
    ensures !('A' <= d <= 'Z')
  {
    if 'A' <= c <= 'Z' then (c as int + 32) as char else c
  }

  function Lower(s: string): (t: string)
  {
    if s == [] then [] else [LowerChar(s[0])] + Lower(s[1..])
  }

  lemma {:induction false} LowerAt(s: string, i: int)
    requires 0 <= i < |s|
    ensures |Lower(s)| == |s| && Lower(s)[i] == LowerChar(s[i])
  {
    LowerLength(s);
    if i > 0 {
      LowerAt(s[1..], i - 1);
    }
  }

  lemma {:induction false} LowerLength(s: string)
    ensures |Lower(s)| == |s|
  {
    if s != [] {
      LowerLength(s[1..]);
    }
  }

  /** Lowercasing twice is lowercasing once. */
  lemma {:induction false} LowerIdempotent(s: string)
    ensures Lower(Lower(s)) == Lower(s)
  {
    if s != [] {
      LowerIdempotent(s[1..]);
      assert Lower(s)[1..] == Lower(s[1..]);
    }
  }

  /** A character that no character of `s` lowercases to is absent from `Lower(s)`. */
  lemma {:induction false} LowerOmits(s: string, c: char)
    requires forall i :: 0 <= i < |s| ==> LowerChar(s[i]) != c
    ensures c !in Lower(s)
  {
    if s != [] {
      LowerOmits(s[1..], c);
    }
  }

  /** `s.includes(sub)`: `sub` occurs in `s` at some offset. */
  predicate Contains(s: string, sub: string)
  {
    exists i | 0 <= i <= |s| - |sub| :: OccursAt(s, sub, i)
  }

  /** `sub` occurs in `s` starting at index `i`. */
  predicate OccursAt(s: string, sub: string, i: int)
  {
    0 <= i <= |s| - |sub| && s[i..i + |sub|] == sub
  }

  lemma ContainsEmpty(s: string)
    ensures Contains(s, "")
  {
    assert OccursAt(s, "", 0);
  }

  /** `sub` occurs in any string built around it. */
  lemma ContainsMiddle(a: string, sub: string, b: string)
    ensures Contains(a + sub + b, sub)
  {
    var s := a + sub + b;
    assert s[|a|..|a| + |sub|] == sub;
    assert OccursAt(s, sub, |a|);
  }

  /** An occurrence survives appending more text. */
  lemma ContainsExtend(s: string, sub: string, b: string)
    requires Contains(s, sub)
    ensures Contains(s + b, sub)
  {
    var i :| 0 <= i <= |s| - |sub| && OccursAt(s, sub, i);
    assert (s + b)[i..i + |sub|] == s[i..i + |sub|];
    assert OccursAt(s + b, sub, i);
  }

  /** `s.replace(/,/g, '')`. */
  function StripCommas(s: string): (t: string)
    ensures ',' !in t
    ensures |t| <= |s|
    ensures forall c :: c != ',' && c in s ==> c in t
  {
    if s == [] then []
    else if s[0] == ',' then StripCommas(s[1..])
    else [s[0]] + StripCommas(s[1..])
  }

  /** Exactly the commas are deleted: every other character keeps its count. */
  lemma {:induction false} StripCommasCount(s: string)
    ensures multiset(StripCommas(s)) == multiset(s)[',' := 0]
  {
    if s != [] {
      StripCommasCount(s[1..]);
      assert s == [s[0]] + s[1..];
    }
  }

  /** Deleting commas works piece by piece, so it keeps the order of what is left. */
  lemma {:induction false} StripCommasAppend(a: string, b: string)
    ensures StripCommas(a + b) == StripCommas(a) + StripCommas(b)
  {
    if a == [] {
      assert a + b == b;
    } else {
      assert (a + b)[0] == a[0];
      assert (a + b)[1..] == a[1..] + b;
      StripCommasAppend(a[1..], b);
    }
  }

  /** A string without commas is left as it is. */
  lemma {:induction false} StripCommasKeepsCommaFree(s: string)
    requires ',' !in s
    ensures StripCommas(s) == s
  {
    if s != [] {
      StripCommasKeepsCommaFree(s[1..]);
    }
  }

  /** The characters `String.prototype.trim` removes. */
  predicate IsWhiteSpace(c: char)
  {
    c == ' ' || c == '\t' || c == '\n' || c == '\r' || c == '\U{000B}' || c == '\U{000C}'
    || c == '\U{00A0}' || c == '\U{1680}' || ('\U{2000}' <= c <= '\U{200A}')
    || c == '\U{2028}' || c == '\U{2029}' || c == '\U{202F}' || c == '\U{205F}'
    || c == '\U{3000}' || c == '\U{FEFF}'
  }

  function TrimStart(s: string): string
  {
    if s != [] && IsWhiteSpace(s[0]) then TrimStart(s[1..]) else s
  }

  function TrimEnd(s: string): string
  {
    if s != [] && IsWhiteSpace(s[|s| - 1]) then TrimEnd(s[..|s| - 1]) else s
  }

  /** `s.trim()`. */
  function Trim(s: string): string
  {
    TrimEnd(TrimStart(s))
  }

  /** `!s.trim()` holds exactly when every character of `s` is white space. */
  lemma {:induction false} TrimEmptyIffBlank(s: string)
    ensures Trim(s) == [] <==> forall i :: 0 <= i < |s| ==> IsWhiteSpace(s[i])
  {
    if s != [] && IsWhiteSpace(s[0]) {
      TrimEmptyIffBlank(s[1..]);
      assert forall i :: 1 <= i < |s| ==> s[i] == s[1..][i - 1];
    } else if s != [] {
      TrimEndKeepsNonBlank(s);
    }
  }

  lemma {:induction false} TrimEndKeepsNonBlank(s: string)
    requires s != [] && !IsWhiteSpace(s[0])
    ensures TrimEnd(s) != []
  {
    if IsWhiteSpace(s[|s| - 1]) {
      TrimEndKeepsNonBlank(s[..|s| - 1]);
    }
  }

  /** Lexicographic comparison by character (Unicode scalar value): negative, zero or positive. */
  function LexCompare(x: string, y: string): (r: int)
    ensures -1 <= r <= 1
  {
    if x == [] && y == [] then 0
    else if x == [] then -1
    else if y == [] then 1
    else if x[0] < y[0] then -1
    else if x[0] > y[0] then 1
    else LexCompare(x[1..], y[1..])
  }

  lemma {:induction false} LexCompareZeroIffEqual(x: string, y: string)
    ensures LexCompare(x, y) == 0 <==> x == y
  {
    if x != [] && y != [] && x[0] == y[0] {
      LexCompareZeroIffEqual(x[1..], y[1..]);
      if x[1..] == y[1..] {
        assert x == [x[0]] + x[1..];
        assert y == [y[0]] + y[1..];
      }
    }
  }

  lemma {:induction false} LexCompareAntisymmetric(x: string, y: string)
    ensures LexCompare(y, x) == -LexCompare(x, y)
  {
    if x != [] && y != [] && x[0] == y[0] {
      LexCompareAntisymmetric(x[1..], y[1..]);
    }
  }

  lemma {:induction false} LexCompareTransitive(x: string, y: string, z: string)
    requires LexCompare(x, y) <= 0 && LexCompare(y, z) <= 0
    ensures LexCompare(x, z) <= 0
  {
    if x != [] && y != [] && z != [] && x[0] == y[0] && y[0] == z[0] {
      LexCompareTransitive(x[1..], y[1..], z[1..]);
    }
  }
}
