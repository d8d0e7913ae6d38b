/**
 * The few java.lang.String operations the plugin relies on, over `seq<char>`.
 * Case mapping is ASCII-only (the locale-dependent part of Java's
 * toLowerCase/equalsIgnoreCase is not modelled).
 */
module Text {
  import opened Wrappers

  /** String.trim() strips every character whose code is at most U+0020. */
  predicate IsTrimmable(c: char) {
    c <= ' '
  }

  function TrimStart(s: string): (r: string)
    ensures |r| <= |s| && r == s[|s| - |r|..]
    ensures r == [] || !IsTrimmable(r[0])
    ensures forall i :: 0 <= i < |s| - |r| ==> IsTrimmable(s[i])
  {
    if s == [] || !IsTrimmable(s[0]) then s else TrimStart(s[1..])
  }

  function TrimEnd(s: string): (r: string)
    ensures |r| <= |s| && r == s[..|r|]
    ensures r == [] || !IsTrimmable(r[|r| - 1])
    ensures forall i :: |r| <= i < |s| ==> IsTrimmable(s[i])
  {
    if s == [] || !IsTrimmable(s[|s| - 1]) then s else TrimEnd(s[..|s| - 1])
  }

  /** String.trim(): the longest slice of `s` that neither starts nor ends with a trimmable character. */
  function Trim(s: string): (r: string)
  {
    TrimEnd(TrimStart(s))
  }

  /** `s[i..j]` is what remains of `s` once only trimmable characters are cut from either end. */
  ghost predicate CutTrimmable(s: string, i: int, j: int) {
    && 0 <= i <= j <= |s|
    && (forall k :: 0 <= k < i ==> IsTrimmable(s[k]))
    && (forall k :: j <= k < |s| ==> IsTrimmable(s[k]))
  }

  /** Trim returns a slice of its input, with only trimmable characters cut on either side. */
  lemma TrimIsSlice(s: string)
    ensures exists i, j :: CutTrimmable(s, i, j) && Trim(s) == s[i..j]
  {
    var t := TrimStart(s);
    var i := |s| - |t|;
    var j := |TrimEnd(t)|;
    CutStart(s, t);
    CutEnd(t, TrimEnd(t));
    CutCompose(s, i, t, j);
    assert Trim(s) == s[i..i + j];
    assert CutTrimmable(s, i, i + j) && Trim(s) == s[i..i + j];
  }

  lemma CutStart(s: string, t: string)
    requires t == TrimStart(s)
    ensures CutTrimmable(s, |s| - |t|, |s|) && t == s[|s| - |t|..]
  {
  }

  lemma CutEnd(t: string, r: string)
    requires r == TrimEnd(t)
    ensures CutTrimmable(t, 0, |r|) && r == t[..|r|]
  {
  }

  lemma CutCompose(s: string, i: int, t: string, j: int)
    requires CutTrimmable(s, i, |s|) && t == s[i..] && CutTrimmable(t, 0, j)
    ensures CutTrimmable(s, i, i + j) && t[..j] == s[i..i + j]
  {
    forall k | i + j <= k < |s|
      ensures IsTrimmable(s[k])
    {
      assert s[k] == t[k - i];
    }
  }

  lemma TrimBounds(s: string)
    ensures |Trim(s)| <= |s|
    ensures Trim(s) == [] || (!IsTrimmable(Trim(s)[0]) && !IsTrimmable(Trim(s)[|Trim(s)| - 1]))
  {
    var t := TrimStart(s);
    var r := TrimEnd(t);
    if r != [] {
      assert r[0] == t[0];
    }
  }

  /** A string that neither starts nor ends with a trimmable character is its own trim. */
  lemma TrimNoop(s: string)
    requires s == [] || (!IsTrimmable(s[0]) && !IsTrimmable(s[|s| - 1]))
    ensures Trim(s) == s
  {
  }

  lemma {:induction false} TrimIdempotent(s: string)
    ensures Trim(Trim(s)) == Trim(s)
  {
    TrimBounds(s);
    TrimNoop(Trim(s));
  }

  function LowerChar(c: char): char {
    if 'A' <= c <= 'Z' then (c as int - 'A' as int + 'a' as int) as char else c
  }

  function UpperChar(c: char): char {
    if 'a' <= c <= 'z' then (c as int - 'a' as int + 'A' as int) as char else c
  }

  function Lower(s: string): (r: string)
    ensures |r| == |s| && forall i :: 0 <= i < |s| ==> r[i] == LowerChar(s[i])
  {
    seq(|s|, i requires 0 <= i < |s| => LowerChar(s[i]))
  }

  /** Lower-casing works character by character, so equal prefixes stay equal. */
  lemma LowerPrefix(a: string, b: string, n: nat)
    requires n <= |a| && n <= |b| && a[..n] == b[..n]
    ensures Lower(a)[..n] == Lower(b)[..n]
  {
    assert forall j :: 0 <= j < n ==> Lower(a)[j] == LowerChar(a[j]) == LowerChar(b[j]) == Lower(b)[j];
  }

  /** Lower-casing twice is lower-casing once. */
  lemma LowerIdempotent(s: string)
    ensures Lower(Lower(s)) == Lower(s)
  {
    assert forall i :: 0 <= i < |s| ==> Lower(Lower(s))[i] == LowerChar(LowerChar(s[i])) == LowerChar(s[i]);
  }

  /** String.equalsIgnoreCase, ASCII case folding. */
  predicate EqualsIgnoreCase(a: string, b: string) {
    Lower(a) == Lower(b)
  }

  predicate StartsWith(s: string, prefix: string) {
    |prefix| <= |s| && s[..|prefix|] == prefix
  }

  predicate EndsWith(s: string, suffix: string) {
    |suffix| <= |s| && s[|s| - |suffix|..] == suffix
  }

  /** String.indexOf(char) from position `from`: the first occurrence at or after it. */
  function IndexOfFrom(s: string, c: char, from: nat): (r: Option<nat>)
    requires from <= |s|
    ensures r.Some? ==> (from <= r.value < |s| && s[r.value] == c
                         && forall k :: from <= k < r.value ==> s[k] != c)
    ensures r.None? ==> forall k :: from <= k < |s| ==> s[k] != c
    decreases |s| - from
  {
    if from == |s| then None
    else if s[from] == c then Some(from)
    else IndexOfFrom(s, c, from + 1)
  }

  /** String.indexOf(char): the first occurrence, None for Java's -1. */
  function IndexOf(s: string, c: char): (r: Option<nat>)
    ensures r.Some? ==> r.value < |s| && s[r.value] == c && c !in s[..r.value]
    ensures r.None? ==> c !in s
  {
    IndexOfFrom(s, c, 0)
  }

  /** String.lastIndexOf(char) among the first `upto` characters. */
  function LastIndexOfUpto(s: string, c: char, upto: nat): (r: Option<nat>)
    requires upto <= |s|
    ensures r.Some? ==> (r.value < upto && s[r.value] == c
                         && forall k :: r.value < k < upto ==> s[k] != c)
    ensures r.None? ==> forall k :: 0 <= k < upto ==> s[k] != c
  {
    if upto == 0 then None
    else if s[upto - 1] == c then Some(upto - 1)
    else LastIndexOfUpto(s, c, upto - 1)
  }

  /** String.lastIndexOf(char): the last occurrence, None for Java's -1. */
  function LastIndexOf(s: string, c: char): (r: Option<nat>)
    ensures r.Some? ==> r.value < |s| && s[r.value] == c && c !in s[r.value + 1..]
    ensures r.None? ==> c !in s
  {
    LastIndexOfUpto(s, c, |s|)
  }

  /** A position holding the character with none of it after is what lastIndexOf returns. */
  lemma LastIndexOfUnique(s: string, c: char, k: nat)
    requires k < |s| && s[k] == c && c !in s[k + 1..]
    ensures LastIndexOf(s, c) == Some(k)
  {
    assert s[k] in s;
  }

  predicate OccursAt(s: string, t: string, k: nat) {
    k + |t| <= |s| && s[k..k + |t|] == t
  }

  /** String.indexOf(String, from): the first occurrence of `t` at or after `from`. */
  function FindFrom(s: string, t: string, from: nat): (r: Option<nat>)
    ensures r.Some? ==> (from <= r.value && OccursAt(s, t, r.value)
                         && forall k :: from <= k < r.value ==> !OccursAt(s, t, k))
    ensures r.None? ==> forall k :: from <= k ==> !OccursAt(s, t, k)
    decreases |s| + 1 - from
  {
    if from + |t| > |s| then None
    else if s[from..from + |t|] == t then Some(from)
    else FindFrom(s, t, from + 1)
  }

  /** String.contains. */
  predicate Contains(s: string, t: string) {
    FindFrom(s, t, 0).Some?
  }

  lemma ContainsIff(s: string, t: string)
    ensures Contains(s, t) <==> exists k: nat :: OccursAt(s, t, k)
  {
    if Contains(s, t) {
      assert OccursAt(s, t, FindFrom(s, t, 0).value);
    }
  }

  /**
   * String.replace(target, "") for a non-empty target: every occurrence found
   * in one left-to-right scan is removed, and scanning resumes after it.
   */
  function RemoveAll(s: string, t: string): (r: string)
    requires |t| > 0
    ensures |r| <= |s|
    decreases |s|
  {
    match FindFrom(s, t, 0)
    case None => s
    case Some(k) => s[..k] + RemoveAll(s[k + |t|..], t)
  }

  lemma RemoveAllAbsent(s: string, t: string)
    requires |t| > 0 && !Contains(s, t)
    ensures RemoveAll(s, t) == s
  {
  }

  /** String.join(sep, parts). */
  function Join(sep: string, parts: seq<string>): (r: string)
    decreases |parts|
  {
    if |parts| == 0 then ""
    else if |parts| == 1 then parts[0]
    else Join(sep, parts[..|parts| - 1]) + sep + parts[|parts| - 1]
  }
}
