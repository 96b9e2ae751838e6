/**
 * String operations of the .NET base library that the symbol code relies on:
 * case folding, case-sensitive and case-insensitive `IndexOf`, `TrimStart`,
 * `Trim` and `string.Join`. Culture-specific folding is replaced by one fixed
 * fold, `Lower`, used for every case-insensitive comparison.
 */
module Text {

  /** The fixed case fold: ASCII upper-case letters to lower case. */
  function LowerChar(c: char): char {
    if 'A' <= c <= 'Z' then (c as int + 32) as char else c
  }

  /** `ToLower()`: the fold applied to every character. */
  function Lower(s: string): (r: string)
    ensures |r| == |s|
    ensures forall i :: 0 <= i < |s| ==> r[i] == LowerChar(s[i])
  {
    if s == [] then [] else [LowerChar(s[0])] + Lower(s[1..])
  }

  lemma {:induction false} LowerAppend(a: string, b: string)
    ensures Lower(a + b) == Lower(a) + Lower(b)
    decreases |a|
  {
    if a == [] {
      assert a + b == b;
    } else {
      assert (a + b)[0] == a[0];
      assert (a + b)[1..] == a[1..] + b;
      LowerAppend(a[1..], b);
      var head := [LowerChar(a[0])];
      assert Lower(a + b) == head + (Lower(a[1..]) + Lower(b));
      assert head + (Lower(a[1..]) + Lower(b)) == (head + Lower(a[1..])) + Lower(b);
    }
  }

  lemma LowerIdempotent(s: string)
    ensures Lower(Lower(s)) == Lower(s)
  {
    assert forall i :: 0 <= i < |s| ==> Lower(Lower(s))[i] == Lower(s)[i];
  }

  /**
   * `string.Compare(a, b, CurrentCultureIgnoreCase) == 0`, which is also what
   * `Equals(..., OrdinalIgnoreCase)` and `PSEquals` decide in this model.
   */
  predicate EqualsIgnoreCase(a: string, b: string) {
    Lower(a) == Lower(b)
  }

  /** Case-insensitive equality is an equivalence relation. */
  lemma EqualsIgnoreCaseIsEquivalence(a: string, b: string, c: string)
    ensures EqualsIgnoreCase(a, a)
    ensures EqualsIgnoreCase(a, b) <==> EqualsIgnoreCase(b, a)
    ensures EqualsIgnoreCase(a, b) && EqualsIgnoreCase(b, c) ==> EqualsIgnoreCase(a, c)
  {
  }

  /** Changing the case of either side does not change the outcome. */
  lemma EqualsIgnoreCaseIgnoresCase(a: string, b: string)
    ensures EqualsIgnoreCase(Lower(a), b) <==> EqualsIgnoreCase(a, b)
    ensures EqualsIgnoreCase(a, Lower(b)) <==> EqualsIgnoreCase(a, b)
  {
    LowerIdempotent(a);
    LowerIdempotent(b);
  }

  /** `sub` occurs in `s` starting at index `k`. */
  predicate OccursAt(s: string, sub: string, k: int) {
    0 <= k && k + |sub| <= |s| && s[k..k + |sub|] == sub
  }

  /** `k` is the first index at which `sub` occurs in `s`. */
  predicate FirstOccurrence(s: string, sub: string, k: int) {
    OccursAt(s, sub, k) && forall j {:trigger OccursAt(s, sub, j)} :: 0 <= j < k ==> !OccursAt(s, sub, j)
  }

  /** `sub` occurs nowhere in `s`. */
  predicate Absent(s: string, sub: string) {
    forall j {:trigger OccursAt(s, sub, j)} :: 0 <= j <= |s| ==> !OccursAt(s, sub, j)
  }

  /** The first occurrence of `sub` in `s` at or after index `k`, or -1. */
  function IndexFrom(s: string, sub: string, k: nat): (r: int)
    ensures r == -1 || (k <= r && OccursAt(s, sub, r))
    ensures forall j {:trigger OccursAt(s, sub, j)} :: k <= j && (r == -1 || j < r) ==> !OccursAt(s, sub, j)
    decreases |s| - k
  {
    if k + |sub| > |s| then -1
    else if s[k..k + |sub|] == sub then k
    else IndexFrom(s, sub, k + 1)
  }

  /**
   * `s.IndexOf(sub)` and `s.IndexOf(sub, StringComparison.CurrentCulture)`,
   * both culture-sensitive in .NET, taken character by character: the index
   * of the first occurrence of `sub` in `s`, or -1 when it does not occur.
   */
  function IndexOf(s: string, sub: string): (r: int)
    ensures r == -1 ==> Absent(s, sub)
    ensures r != -1 ==> FirstOccurrence(s, sub, r)
  {
    IndexFrom(s, sub, 0)
  }

  /** The empty string occurs at index 0, as in .NET. */
  lemma IndexOfEmpty(s: string)
    ensures IndexOf(s, "") == 0
  {
    assert OccursAt(s, "", 0);
  }

  /** A first occurrence fixes the result of `IndexOf`. */
  lemma IndexOfFirstOccurrence(s: string, sub: string, k: int)
    requires FirstOccurrence(s, sub, k)
    ensures IndexOf(s, sub) == k
  {
    var r := IndexOf(s, sub);
    if r != k {
      assert r == -1 || r < k || OccursAt(s, sub, r);
    }
  }

  /**
   * `s.IndexOf(sub, StringComparison.CurrentCultureIgnoreCase)`: the first index
   * at which `sub` occurs in `s` once both are folded.
   */
  function IndexOfIgnoreCase(s: string, sub: string): (r: int)
    ensures r == -1 ==> Absent(Lower(s), Lower(sub))
    ensures r != -1 ==> FirstOccurrence(Lower(s), Lower(sub), r)
  {
    IndexOf(Lower(s), Lower(sub))
  }

  /**
   * A case-sensitive match is a case-insensitive match, but the case-insensitive
   * search may find an earlier, differently cased occurrence.
   */
  lemma {:induction false} IndexOfIgnoreCaseNoLater(s: string, sub: string)
    requires IndexOf(s, sub) >= 0
    ensures 0 <= IndexOfIgnoreCase(s, sub) <= IndexOf(s, sub)
  {
    var k := IndexOf(s, sub);
    assert s[k..k + |sub|] == sub;
    assert Lower(s)[k..k + |sub|] == Lower(sub) by {
      assert s == s[..k] + sub + s[k + |sub|..];
      LowerAppend(s[..k] + sub, s[k + |sub|..]);
      LowerAppend(s[..k], sub);
    }
    assert OccursAt(Lower(s), Lower(sub), k);
  }

  /** `Char.IsWhiteSpace`: the Unicode white-space characters .NET recognises. */
  predicate IsWhiteSpace(c: char) {
    var u := c as int;
    u == 0x20 || 0x09 <= u <= 0x0D || u == 0x85 || u == 0xA0 || u == 0x1680
    || 0x2000 <= u <= 0x200A || u == 0x2028 || u == 0x2029 || u == 0x202F
    || u == 0x205F || u == 0x3000
  }

  /**
   * `s.Length - s.TrimStart().Length`: how many white-space characters `s` starts with.
   */
  function LeadingWhiteSpace(s: string): (k: nat)
    ensures k <= |s|
    ensures forall i :: 0 <= i < k ==> IsWhiteSpace(s[i])
    ensures k == |s| || !IsWhiteSpace(s[k])
  {
    if s == [] || !IsWhiteSpace(s[0]) then 0 else 1 + LeadingWhiteSpace(s[1..])
  }

  /** `s.TrimStart()`: `s` without the white space it starts with. */
  function TrimStart(s: string): (r: string)
    ensures |r| <= |s| && r == s[|s| - |r|..]
    ensures forall i :: 0 <= i < |s| - |r| ==> IsWhiteSpace(s[i])
    ensures r == [] || !IsWhiteSpace(r[0])
  {
    s[LeadingWhiteSpace(s)..]
  }

  /** `s.TrimStart(c)`: `s` without the copies of `c` it starts with. */
  function TrimStartChar(s: string, c: char): (r: string)
    ensures |r| <= |s| && r == s[|s| - |r|..]
    ensures forall i :: 0 <= i < |s| - |r| ==> s[i] == c
    ensures r == [] || r[0] != c
  {
    if s != [] && s[0] == c then TrimStartChar(s[1..], c) else s
  }

  predicate IsBrace(c: char) {
    c == '{' || c == '}'
  }

  /** How many braces `s` starts with. */
  function LeadingBraces(s: string): (k: nat)
    ensures k <= |s|
    ensures forall i :: 0 <= i < k ==> IsBrace(s[i])
    ensures k == |s| || !IsBrace(s[k])
  {
    if s == [] || !IsBrace(s[0]) then 0 else 1 + LeadingBraces(s[1..])
  }

  /** Where the braces that end `s[lo..hi]` begin. */
  function TrailingBracesFrom(s: string, lo: nat, hi: nat): (j: nat)
    requires lo <= hi <= |s|
    ensures lo <= j <= hi
    ensures forall k :: j <= k < hi ==> IsBrace(s[k])
    ensures j == lo || !IsBrace(s[j - 1])
    decreases hi
  {
    if hi > lo && IsBrace(s[hi - 1]) then TrailingBracesFrom(s, lo, hi - 1) else hi
  }

  /**
   * `s.Trim('{', '}')`: `s` without the braces it starts and ends with; what is
   * left is the slice of `s` between its leading and its trailing braces, and it
   * neither starts nor ends with a brace.
   */
  function TrimBraces(s: string): (r: string)
    ensures var i := LeadingBraces(s);
            i + |r| <= |s| && r == s[i..i + |r|]
            && (forall k :: i + |r| <= k < |s| ==> IsBrace(s[k]))
    ensures r == [] || (!IsBrace(r[0]) && !IsBrace(r[|r| - 1]))
  {
    var i := LeadingBraces(s);
    var j := TrailingBracesFrom(s, i, |s|);
    assert j > i ==> !IsBrace(s[i]);
    s[i..j]
  }

  /** A string that neither starts nor ends with a brace is its own `Trim('{', '}')`. */
  lemma TrimBracesOfUnbraced(s: string)
    requires s == [] || (!IsBrace(s[0]) && !IsBrace(s[|s| - 1]))
    ensures TrimBraces(s) == s
  {
    assert s[0..|s|] == s;
  }

  /** Braces around a string that neither starts nor ends with a brace are trimmed away. */
  lemma TrimBracesOfBraced(s: string)
    requires s == [] || (!IsBrace(s[0]) && !IsBrace(s[|s| - 1]))
    ensures TrimBraces("{" + s + "}") == s
  {
    var braced := "{" + s + "}";
    if s == [] {
      assert LeadingBraces(braced) == 2;
    } else {
      assert LeadingBraces(braced) == 1 by {
        assert LeadingBraces(braced[1..]) == 0;
      }
      assert TrailingBracesFrom(braced, 1, |braced|) == 1 + |s| by {
        assert TrailingBracesFrom(braced, 1, |braced| - 1) == |braced| - 1;
      }
      assert braced[1..1 + |s|] == s;
    }
  }

  /** `string.Join(separator, parts)`: the parts in order, with the separator between neighbours. */
  function Join(separator: string, parts: seq<string>): (r: string)
    ensures parts == [] ==> r == ""
    ensures |parts| == 1 ==> r == parts[0]
    ensures |parts| == 2 ==> r == parts[0] + separator + parts[1]
  {
    if parts == [] then "" else if |parts| == 1 then parts[0]
    else parts[0] + separator + Join(separator, parts[1..])
  }

  /** Joining one more part appends the separator and that part. */
  lemma {:induction false} JoinAppend(separator: string, parts: seq<string>, last: string)
    requires parts != []
    ensures Join(separator, parts + [last]) == Join(separator, parts) + separator + last
    decreases |parts|
  {
    var all := parts + [last];
    if |parts| == 1 {
      assert all[1..] == [last];
    } else {
      assert all[1..] == parts[1..] + [last];
      JoinAppend(separator, parts[1..], last);
      assert Join(separator, all) == parts[0] + separator + (Join(separator, parts[1..]) + separator + last);
    }
  }
}
