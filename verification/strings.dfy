/**
 * Python string operations used across the model: substring search, `str.split(sep)`
 * (left to right, non-overlapping), `sep.join(parts)` and `str.lower()` on ASCII letters.
 */
module Strings {
  import opened Wrappers

  /** `pat` occurs in `s` starting at index `i`. */
  predicate MatchAt(s: string, pat: string, i: nat)
  {
    i + |pat| <= |s| && s[i..i + |pat|] == pat
  }

  /** `pat in s` */
  predicate Contains(s: string, pat: string)
  {
    exists i: nat | i <= |s| :: MatchAt(s, pat, i)
  }

  /** The character `c` appears nowhere in `s`. */
  predicate Lacks(s: string, c: char)
  {
    forall i :: 0 <= i < |s| ==> s[i] != c
  }

  /** `s.find(pat, i)`, the first occurrence of `pat` at or after `i`. */
  function FindFrom(s: string, pat: string, i: nat): (r: Option<nat>)
    decreases |s| - i
    ensures r.Some? ==> i <= r.value && MatchAt(s, pat, r.value)
    ensures r.Some? ==> forall j: nat :: i <= j < r.value ==> !MatchAt(s, pat, j)
    ensures r.None? ==> forall j: nat :: i <= j ==> !MatchAt(s, pat, j)
  {
    if i + |pat| > |s| then None
    else if s[i..i + |pat|] == pat then Some(i)
    else FindFrom(s, pat, i + 1)
  }

  /** The first occurrence of `pat` in `s`. */
  function Find(s: string, pat: string): (r: Option<nat>)
    ensures r.Some? ==> MatchAt(s, pat, r.value) && forall j: nat :: j < r.value ==> !MatchAt(s, pat, j)
    ensures r.None? <==> !Contains(s, pat)
  {
    FindFrom(s, pat, 0)
  }

  /** `s.split(sep)`: the pieces between the non-overlapping occurrences of `sep`, left to right. */
  function Split(s: string, sep: string): (parts: seq<string>)
    requires |sep| > 0
    decreases |s|
    ensures |parts| >= 1
    ensures forall k :: 0 <= k < |parts| ==> !Contains(parts[k], sep)
  {
    match Find(s, sep)
    case None => [s]
    case Some(i) =>
      PrefixBeforeFirstMatch(s, sep, i);
      [s[..i]] + Split(s[i + |sep|..], sep)
  }

  /** `sep.join(parts)` */
  function Join(parts: seq<string>, sep: string): (s: string)
    requires |parts| >= 1
  {
    if |parts| == 1 then parts[0] else parts[0] + sep + Join(parts[1..], sep)
  }

  /** Nothing before the first occurrence of `sep` contains `sep`. */
  lemma PrefixBeforeFirstMatch(s: string, sep: string, i: nat)
    requires |sep| > 0 && MatchAt(s, sep, i)
    requires forall j: nat :: j < i ==> !MatchAt(s, sep, j)
    ensures !Contains(s[..i], sep)
  {
    forall j: nat | j + |sep| <= i
      ensures !MatchAt(s[..i], sep, j)
    {
      assert s[..i][j..j + |sep|] == s[j..j + |sep|];
      assert !MatchAt(s, sep, j);
    }
  }

  /** Splitting and joining again with the same separator gives back the original string. */
  lemma {:induction false} JoinSplit(s: string, sep: string)
    requires |sep| > 0
    ensures Join(Split(s, sep), sep) == s
    decreases |s|
  {
    if Find(s, sep).Some? {
      var i := SplitStep(s, sep);
      var rest := s[i + |sep|..];
      JoinSplit(rest, sep);
      JoinCons(s[..i], Split(rest, sep), sep);
      Rejoin(s, i, |sep|);
    }
  }

  /** At the first occurrence of `sep`, the split is the text before it, then the split of the rest. */
  lemma SplitStep(s: string, sep: string) returns (i: nat)
    requires |sep| > 0 && Find(s, sep).Some?
    ensures i == Find(s, sep).value && i + |sep| <= |s| && s[i..i + |sep|] == sep
    ensures Split(s, sep) == [s[..i]] + Split(s[i + |sep|..], sep)
  {
    i := Find(s, sep).value;
  }

  /** Joining a part in front of others puts one separator between it and their join. */
  lemma JoinCons(x: string, parts: seq<string>, sep: string)
    requires |parts| >= 1
    ensures Join([x] + parts, sep) == x + sep + Join(parts, sep)
  {
    assert ([x] + parts)[1..] == parts;
  }

  /** A sequence is its three consecutive pieces put back together. */
  lemma Rejoin<T>(s: seq<T>, i: nat, n: nat)
    requires i + n <= |s|
    ensures s[..i] + s[i..i + n] + s[i + n..] == s
  {
  }

  /** A character missing from two strings is missing from their concatenation. */
  lemma LacksConcat(x: string, y: string, c: char)
    requires Lacks(x, c) && Lacks(y, c)
    ensures Lacks(x + y, c)
  {
    forall i | 0 <= i < |x + y|
      ensures (x + y)[i] != c
    {
      if i >= |x| {
        assert (x + y)[i] == y[i - |x|];
      }
    }
  }

  /** A string without some character of `sep` has no occurrence of `sep` and splits into itself. */
  lemma SplitWithout(s: string, sep: string, c: char)
    requires |sep| > 0 && c in sep && Lacks(s, c)
    ensures !Contains(s, sep)
    ensures Split(s, sep) == [s]
  {
    var q :| 0 <= q < |sep| && sep[q] == c;
    forall i: nat | i + |sep| <= |s|
      ensures !MatchAt(s, sep, i)
    {
      assert s[i..i + |sep|][q] == s[i + q];
    }
  }

  /**
   * `pat` does not occur in `x + y` when `x` lacks `pat[p]` and `y` lacks a later `pat[q]`:
   * the `p`-th character of a match cannot lie in `x`, so its `q`-th would lie in `y`.
   */
  lemma NoMatchAcross(x: string, y: string, pat: string, p: nat, q: nat)
    requires p < q < |pat| && Lacks(x, pat[p]) && Lacks(y, pat[q])
    ensures !Contains(x + y, pat)
  {
    var s := x + y;
    forall i: nat | i + |pat| <= |s|
      ensures !MatchAt(s, pat, i)
    {
      assert s[i..i + |pat|][p] == s[i + p];
      assert s[i..i + |pat|][q] == s[i + q];
      if i + p < |x| {
        assert s[i + p] == x[i + p];
      } else {
        assert s[i + q] == y[i + q - |x|];
      }
    }
  }

  /**
   * When `c == sep[f]` occurs neither in `x` nor in `sep[..f]`, the first occurrence of `sep`
   * in `x + sep + y` is the one right after `x`.
   */
  lemma FindAfter(x: string, sep: string, y: string, f: nat)
    requires f < |sep| && Lacks(x, sep[f]) && Lacks(sep[..f], sep[f])
    ensures Find(x + sep + y, sep) == Some(|x|)
  {
    var s := x + sep + y;
    assert s[|x|..|x| + |sep|] == sep;
    assert MatchAt(s, sep, |x|);
    forall j: nat | j < |x| && j + |sep| <= |s|
      ensures !MatchAt(s, sep, j)
    {
      assert s[j..j + |sep|][f] == s[j + f];
      if j + f < |x| {
        assert s[j + f] == x[j + f];
      } else {
        var k := j + f - |x|;
        assert s[j + f] == sep[k];
        assert sep[..f][k] == sep[k];
      }
    }
    match Find(s, sep)
    case None =>
    case Some(i) =>
      assert !(i > |x|);
  }

  /** The split of `x + sep + y` under the conditions of `FindAfter`: `x` first, then the split of `y`. */
  lemma SplitAfter(x: string, sep: string, y: string, f: nat)
    requires f < |sep| && Lacks(x, sep[f]) && Lacks(sep[..f], sep[f])
    ensures Split(x + sep + y, sep) == [x] + Split(y, sep)
  {
    var s := x + sep + y;
    FindAfter(x, sep, y, f);
    assert s[..|x|] == x;
    assert s[|x| + |sep|..] == y;
  }

  /**
   * Joining parts that lack `sep[f]` (a character `sep[..f]` lacks too) and splitting again
   * gives the parts back.
   */
  lemma {:induction false} SplitJoin(parts: seq<string>, sep: string, f: nat)
    requires |parts| >= 1 && f < |sep| && Lacks(sep[..f], sep[f])
    requires forall k :: 0 <= k < |parts| ==> Lacks(parts[k], sep[f])
    ensures Split(Join(parts, sep), sep) == parts
  {
    if |parts| == 1 {
      SplitWithout(parts[0], sep, sep[f]);
    } else {
      SplitJoin(parts[1..], sep, f);
      SplitAfter(parts[0], sep, Join(parts[1..], sep), f);
    }
  }

  predicate IsUpper(c: char) { 'A' <= c <= 'Z' }

  function LowerChar(c: char): (r: char)
    ensures !IsUpper(r)
    ensures !IsUpper(c) ==> r == c
  {
    if IsUpper(c) then (c as int - 'A' as int + 'a' as int) as char else c
  }

  /** `s.lower()` restricted to ASCII letters. */
  function Lower(s: string): (r: string)
    ensures |r| == |s|
    ensures forall i :: 0 <= i < |s| ==> r[i] == LowerChar(s[i])
  {
    seq(|s|, i requires 0 <= i < |s| => LowerChar(s[i]))
  }

  /** Lower-casing leaves a string without upper-case letters unchanged. */
  lemma LowerOfLower(s: string)
    requires forall i :: 0 <= i < |s| ==> !IsUpper(s[i])
    ensures Lower(s) == s
  {
  }

  /** Decimal digits only, at least one. */
  predicate IsDigits(s: string)
  {
    |s| > 0 && forall i :: 0 <= i < |s| ==> '0' <= s[i] <= '9'
  }

  function DigitsValue(s: string): nat
    requires forall i :: 0 <= i < |s| ==> '0' <= s[i] <= '9'
    decreases |s|
  {
    if |s| == 0 then 0 else 10 * DigitsValue(s[..|s| - 1]) + (s[|s| - 1] as int - '0' as int)
  }

  /** `int(s)` on a string of decimal digits; any other string is a `ValueError`. */
  function ParseInt(s: string): (r: Result<nat>)
    ensures r.Ok? <==> IsDigits(s)
    ensures r.Err? ==> r.error.ValueError?
  {
    if IsDigits(s) then Ok(DigitsValue(s)) else Err(ValueError("invalid literal for int()"))
  }

  /** `str(n)` for a natural number. */
  function NatToString(n: nat): (s: string)
    decreases n
    ensures IsDigits(s)
  {
    var d := ['0' + (n % 10) as char];
    if n < 10 then d else NatToString(n / 10) + d
  }

  /** Printing then parsing a natural number gives it back. */
  lemma {:induction false} ParseNatToString(n: nat)
    ensures ParseInt(NatToString(n)) == Ok(n)
    decreases n
  {
    var s := NatToString(n);
    var d := ['0' + (n % 10) as char];
    assert d[0] as int - '0' as int == n % 10;
    if n < 10 {
      assert s == d && s[..|s| - 1] == [];
      assert DigitsValue(s) == 10 * DigitsValue([]) + (d[0] as int - '0' as int);
    } else {
      ParseNatToString(n / 10);
      assert s == NatToString(n / 10) + d;
      assert s[..|s| - 1] == NatToString(n / 10);
    }
  }
}
