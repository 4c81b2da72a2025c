/**
 * The string extension methods that UriUtility relies on (TrimStart, TrimEnd, EnsureEndsWith,
 * InvariantStartsWith, ToLower, IndexOf), modelled as ordinal operations on ASCII case.
 */
module StringExtensions {

  /** ASCII lower-casing of one character. */
  function LowerChar(c: char): char
  {
    if 'A' <= c <= 'Z' then (c as int + 32) as char else c
  }

  predicate IsLower(s: string)
  {
    forall i :: 0 <= i < |s| ==> LowerChar(s[i]) == s[i]
  }

  /** string.ToLower, on ASCII letters. */
  function ToLower(s: string): (r: string)
    ensures |r| == |s|
    ensures forall i :: 0 <= i < |s| ==> r[i] == LowerChar(s[i])
    ensures IsLower(r)
  {
    seq(|s|, i requires 0 <= i < |s| => LowerChar(s[i]))
  }

  /** InvariantStartsWith: a case-insensitive prefix test. */
  predicate InvariantStartsWith(s: string, value: string)
  {
    |value| <= |s| && forall i :: 0 <= i < |value| ==> LowerChar(s[i]) == LowerChar(value[i])
  }

  /** The prefix test agrees with comparing lower-case forms. */
  lemma InvariantStartsWithLower(s: string, value: string)
    ensures InvariantStartsWith(s, value) <==> |value| <= |s| && ToLower(s[..|value|]) == ToLower(value)
  {
    if |value| <= |s| && ToLower(s[..|value|]) == ToLower(value) {
      forall i | 0 <= i < |value| ensures LowerChar(s[i]) == LowerChar(value[i]) {
        assert ToLower(s[..|value|])[i] == LowerChar(s[..|value|][i]);
      }
    }
  }

  predicate EndsWithChar(s: string, c: char)
  {
    s != [] && s[|s| - 1] == c
  }

  /** r is s without its maximal run of leading c's. */
  predicate IsTrimmedStart(s: string, c: char, r: string)
  {
    && |r| <= |s|
    && r == s[|s| - |r|..]
    && (forall i :: 0 <= i < |s| - |r| ==> s[i] == c)
    && (r == [] || r[0] != c)
  }

  /** r is s without its maximal run of trailing c's. */
  predicate IsTrimmedEnd(s: string, c: char, r: string)
  {
    && |r| <= |s|
    && r == s[..|r|]
    && (forall i :: |r| <= i < |s| ==> s[i] == c)
    && !EndsWithChar(r, c)
  }

  /** string.TrimStart(c) */
  function TrimStart(s: string, c: char): (r: string)
    ensures IsTrimmedStart(s, c, r)
  {
    if s != [] && s[0] == c then TrimStart(s[1..], c) else s
  }

  /** string.TrimEnd(c) */
  function TrimEnd(s: string, c: char): (r: string)
    ensures IsTrimmedEnd(s, c, r)
  {
    if EndsWithChar(s, c) then TrimEnd(s[..|s| - 1], c) else s
  }

  /** Trimming leading c's commutes with appending a different character. */
  lemma {:induction false} TrimStartAppend(s: string, c: char, d: char)
    requires c != d
    ensures TrimStart(s + [d], c) == TrimStart(s, c) + [d]
  {
    if s != [] && s[0] == c {
      assert (s + [d])[1..] == s[1..] + [d];
      TrimStartAppend(s[1..], c, d);
    }
  }

  /** EnsureEndsWith(c): appends c unless s already ends with it. */
  function EnsureEndsWith(s: string, c: char): (r: string)
    ensures EndsWithChar(r, c)
    ensures EndsWithChar(s, c) ==> r == s
    ensures !EndsWithChar(s, c) ==> r == s + [c]
  {
    if EndsWithChar(s, c) then s else s + [c]
  }

  /** string.IndexOf(c): the first index of c, or -1. */
  function IndexOfChar(s: string, c: char): (i: int)
    ensures -1 <= i < |s|
    ensures i == -1 <==> c !in s
    ensures 0 <= i ==> s[i] == c && c !in s[..i]
  {
    if s == [] then -1
    else if s[0] == c then 0
    else
      var j := IndexOfChar(s[1..], c);
      assert s == [s[0]] + s[1..];
      if j == -1 then -1
      else
        assert s[..j + 1] == [s[0]] + s[1..][..j];
        j + 1
  }

  predicate OccursAt(s: string, sub: string, i: int)
  {
    0 <= i && i + |sub| <= |s| && s[i..i + |sub|] == sub
  }

  lemma OccursAtTail(s: string, sub: string, k: nat)
    requires s != []
    ensures OccursAt(s, sub, k + 1) <==> OccursAt(s[1..], sub, k)
  {
    if k + 1 + |sub| <= |s| {
      assert s[1..][k..k + |sub|] == s[k + 1..k + 1 + |sub|];
    }
  }

  /** string.IndexOf(sub, StringComparison.Ordinal): the first index where sub occurs, or -1. */
  function IndexOf(s: string, sub: string): (i: int)
    ensures -1 <= i <= |s|
    ensures i == -1 ==> forall k :: !OccursAt(s, sub, k)
    ensures 0 <= i ==> OccursAt(s, sub, i) && forall k :: 0 <= k < i ==> !OccursAt(s, sub, k)
    decreases |s|
  {
    if |s| < |sub| then -1
    else if s[..|sub|] == sub then 0
    else
      var j := IndexOf(s[1..], sub);
      assert !OccursAt(s, sub, 0);
      if j == -1 then
        assert forall k :: !OccursAt(s, sub, k) by {
          forall k ensures !OccursAt(s, sub, k) {
            if k >= 1 { OccursAtTail(s, sub, k - 1); }
          }
        }
        -1
      else
        OccursAtTail(s, sub, j);
        assert forall k :: 0 <= k < j + 1 ==> !OccursAt(s, sub, k) by {
          forall k | 0 <= k < j + 1 ensures !OccursAt(s, sub, k) {
            if k >= 1 { OccursAtTail(s, sub, k - 1); }
          }
        }
        j + 1
  }
}
