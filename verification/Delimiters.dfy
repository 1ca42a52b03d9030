/** Splitting and joining byte strings on a delimiter, and why the two
    delimiters of the wire format can be layered. */
module Delimiters {
  import opened Basics

  const PARAM_DELIM: Bytes := [0xef, 0xbf, 0xbf]
  const MESSAGE_DELIM: Bytes := [0xef, 0xbf, 0xbe]

  predicate MatchAt(s: Bytes, d: Bytes, i: int) {
    0 <= i && i + |d| <= |s| && s[i..i + |d|] == d
  }

  ghost predicate Contains(s: Bytes, d: Bytes) {
    exists i :: MatchAt(s, d, i)
  }

  /** Neither delimiter occurs in the text. */
  ghost predicate Clean(s: Bytes) {
    !Contains(s, PARAM_DELIM) && !Contains(s, MESSAGE_DELIM)
  }

  /** The leftmost occurrence of d in s at or after i. */
  function IndexFrom(s: Bytes, d: Bytes, i: nat): (r: Option<nat>)
    requires i <= |s|
    ensures r.Some? ==> i <= r.value && MatchAt(s, d, r.value) && forall j :: i <= j < r.value ==> !MatchAt(s, d, j)
    ensures r.None? ==> forall j :: i <= j ==> !MatchAt(s, d, j)
    decreases |s| - i
  {
    if MatchAt(s, d, i) then Some(i)
    else if i == |s| then None
    else IndexFrom(s, d, i + 1)
  }

  /** Cuts s at every leftmost, non-overlapping occurrence of d. */
  function Split(s: Bytes, d: Bytes): (parts: seq<Bytes>)
    requires |d| > 0
    ensures |parts| >= 1
    decreases |s|
  {
    match IndexFrom(s, d, 0)
    case None => [s]
    case Some(i) => [s[..i]] + Split(s[i + |d|..], d)
  }

  function Join(parts: seq<Bytes>, d: Bytes): Bytes {
    if |parts| == 0 then []
    else if |parts| == 1 then parts[0]
    else parts[0] + d + Join(parts[1..], d)
  }

  /** No proper prefix of d is also a suffix of d. */
  ghost predicate Unbordered(d: Bytes) {
    forall k :: 0 < k < |d| ==> d[..k] != d[|d| - k..]
  }

  /** An occurrence of e cannot share bytes with an occurrence of d. */
  ghost predicate NeverOverlap(d: Bytes, e: Bytes) {
    && |d| == |e| && d != e
    && (forall k :: 0 < k < |d| ==> d[..k] != e[|e| - k..])
    && (forall k :: 0 < k < |d| ==> e[..k] != d[|d| - k..])
  }

  /** The two concrete delimiters satisfy what the layering rests on. */
  lemma DelimitersAreSeparable()
    ensures Unbordered(PARAM_DELIM) && Unbordered(MESSAGE_DELIM)
    ensures NeverOverlap(PARAM_DELIM, MESSAGE_DELIM)
  {
    assert PARAM_DELIM[0] == MESSAGE_DELIM[0] == 0xef && PARAM_DELIM[2] == 0xbf && MESSAGE_DELIM[2] == 0xbe;
    forall d, e, k | d in {PARAM_DELIM, MESSAGE_DELIM} && e in {PARAM_DELIM, MESSAGE_DELIM} && 0 < k < 3
      ensures d[..k] != e[|e| - k..]
    {
      assert d[..k][0] == 0xef;
      assert e[|e| - k..][0] == e[3 - k] != 0xef;
    }
  }

  lemma SliceOfSlice(s: Bytes, lo: nat, hi: nat, a: nat, b: nat)
    requires lo <= hi <= |s| && a <= b <= hi - lo
    ensures s[lo..hi][a..b] == s[lo + a..lo + b]
  {
    forall k | 0 <= k < b - a ensures s[lo..hi][a..b][k] == s[lo + a..lo + b][k] {
      assert s[lo..hi][a..b][k] == s[lo..hi][a + k];
    }
  }

  lemma SliceKeepsAbsence(s: Bytes, d: Bytes, lo: nat, hi: nat)
    requires lo <= hi <= |s| && !Contains(s, d)
    ensures !Contains(s[lo..hi], d)
  {
    forall i | MatchAt(s[lo..hi], d, i) ensures MatchAt(s, d, lo + i) {
      SliceOfSlice(s, lo, hi, i, i + |d|);
    }
  }

  lemma SliceLeft(p: Bytes, t: Bytes, a: nat, b: nat)
    requires a <= b <= |p|
    ensures (p + t)[a..b] == p[a..b]
  {
  }

  lemma SliceRight(p: Bytes, t: Bytes, a: nat, b: nat)
    requires |p| <= a <= b <= |p| + |t|
    ensures (p + t)[a..b] == t[a - |p|..b - |p|]
  {
  }

  /** Where an occurrence of e can lie in p + d + rest. */
  lemma MatchInGlue(p: Bytes, d: Bytes, rest: Bytes, e: Bytes, i: nat)
    requires |d| == |e| > 0 && MatchAt(p + d + rest, e, i)
    ensures
      || MatchAt(p, e, i)
      || (|p| - |e| < i < |p| && d[..i + |e| - |p|] == e[|p| - i..])
      || (i == |p| && e == d)
      || (|p| < i < |p| + |d| && e[..|p| + |d| - i] == d[i - |p|..])
      || (|p| + |d| <= i && MatchAt(rest, e, i - |p| - |d|))
  {
    var s, m, n := p + d + rest, |p|, |d|;
    assert s == p + (d + rest);
    if i + n <= m {
      SliceLeft(p, d + rest, i, i + n);
    } else if i < m {
      SliceLeft(p, d + rest, i, m);
      assert s[i..i + n][m - i..] == s[m..i + n];
      SliceRight(p, d + rest, m, i + n);
      SliceLeft(d, rest, 0, i + n - m);
      assert d[0..i + n - m] == d[..i + n - m];
    } else if i < m + n {
      assert s[i..i + n][..m + n - i] == s[i..m + n];
      SliceRight(p, d + rest, i, m + n);
      SliceLeft(d, rest, i - m, n);
      assert d[i - m..n] == d[i - m..];
    } else {
      SliceRight(p + d, rest, i, i + n);
    }
  }

  lemma NoEarlierMatch(p: Bytes, d: Bytes, rest: Bytes, i: nat)
    requires |d| > 0 && Unbordered(d) && !Contains(p, d) && i < |p|
    ensures !MatchAt(p + d + rest, d, i)
  {
    if MatchAt(p + d + rest, d, i) {
      MatchInGlue(p, d, rest, d, i);
    }
  }

  lemma LeftmostMatch(s: Bytes, d: Bytes, m: nat)
    requires MatchAt(s, d, m) && forall i :: 0 <= i < m ==> !MatchAt(s, d, i)
    ensures IndexFrom(s, d, 0) == Some(m)
  {
  }

  /** A delimiter written after a text free of it is found exactly there. */
  lemma FirstDelimiter(p: Bytes, d: Bytes, rest: Bytes)
    requires |d| > 0 && Unbordered(d) && !Contains(p, d)
    ensures IndexFrom(p + d + rest, d, 0) == Some(|p|)
  {
    var s := p + d + rest;
    assert s[|p|..|p| + |d|] == d;
    forall i | 0 <= i < |p| ensures !MatchAt(p + d + rest, d, i) {
      NoEarlierMatch(p, d, rest, i);
    }
    LeftmostMatch(p + d + rest, d, |p|);
  }

  lemma {:induction false} SplitOfJoin(parts: seq<Bytes>, d: Bytes)
    requires |d| > 0 && Unbordered(d)
    requires |parts| >= 1 && forall p :: p in parts ==> !Contains(p, d)
    ensures Split(Join(parts, d), d) == parts
  {
    if |parts| == 1 {
      assert parts[0] in parts;
    } else {
      var rest := Join(parts[1..], d);
      assert parts[0] in parts;
      FirstDelimiter(parts[0], d, rest);
      assert (parts[0] + d + rest)[..|parts[0]|] == parts[0];
      assert (parts[0] + d + rest)[|parts[0]| + |d|..] == rest;
      SplitOfJoin(parts[1..], d);
    }
  }

  lemma NothingBefore(s: Bytes, d: Bytes, i: nat)
    requires |d| > 0 && IndexFrom(s, d, 0) == Some(i)
    ensures !Contains(s[..i], d)
  {
    assert s[0..i] == s[..i];
    forall j | MatchAt(s[..i], d, j) ensures MatchAt(s, d, j) && j < i {
      SliceOfSlice(s, 0, i, j, j + |d|);
    }
  }

  lemma AroundMatch(s: Bytes, d: Bytes, i: nat)
    requires MatchAt(s, d, i)
    ensures s == s[..i] + d + s[i + |d|..]
  {
  }

  /** Splitting loses nothing, and no part contains the delimiter. */
  lemma {:induction false} JoinOfSplit(s: Bytes, d: Bytes)
    requires |d| > 0
    ensures Join(Split(s, d), d) == s
    ensures forall p :: p in Split(s, d) ==> !Contains(p, d)
    decreases |s|
  {
    match IndexFrom(s, d, 0)
    case None =>
    case Some(i) =>
      NothingBefore(s, d, i);
      AroundMatch(s, d, i);
      JoinOfSplit(s[i + |d|..], d);
      assert Split(s, d) == [s[..i]] + Split(s[i + |d|..], d);
      assert Split(s, d)[1..] == Split(s[i + |d|..], d);
  }

  /** Nor does splitting put anything into a part that the text did not contain. */
  lemma {:induction false} SplitKeepsAbsence(s: Bytes, d: Bytes, e: Bytes)
    requires |d| > 0 && !Contains(s, e)
    ensures forall p :: p in Split(s, d) ==> !Contains(p, e)
    decreases |s|
  {
    match IndexFrom(s, d, 0)
    case None =>
    case Some(i) =>
      SliceKeepsAbsence(s, e, 0, i);
      assert s[0..i] == s[..i];
      SliceKeepsAbsence(s, e, i + |d|, |s|);
      assert s[i + |d|..|s|] == s[i + |d|..];
      SplitKeepsAbsence(s[i + |d|..], d, e);
      assert Split(s, d) == [s[..i]] + Split(s[i + |d|..], d);
  }

  lemma {:induction false} JoinAppend(a: seq<Bytes>, b: seq<Bytes>, d: Bytes)
    requires |a| >= 1 && |b| >= 1
    ensures Join(a + b, d) == Join(a, d) + d + Join(b, d)
  {
    if |a| == 1 {
      assert (a + b)[1..] == b;
    } else {
      assert (a + b)[1..] == a[1..] + b;
      JoinAppend(a[1..], b, d);
    }
  }

  /** Gluing two texts with a delimiter creates no occurrence of the other one. */
  lemma GlueKeepsAbsence(p: Bytes, d: Bytes, rest: Bytes, e: Bytes)
    requires |e| > 0 && NeverOverlap(d, e) && !Contains(p, e) && !Contains(rest, e)
    ensures !Contains(p + d + rest, e)
  {
    forall i ensures !MatchAt(p + d + rest, e, i) {
      if MatchAt(p + d + rest, e, i) {
        MatchInGlue(p, d, rest, e, i);
      }
    }
  }

  /** A message printed from clean parts cannot be cut by the message delimiter. */
  lemma {:induction false} JoinKeepsAbsence(parts: seq<Bytes>, d: Bytes, e: Bytes)
    requires NeverOverlap(d, e) && |e| > 0 && forall p :: p in parts ==> !Contains(p, e)
    ensures !Contains(Join(parts, d), e)
  {
    if |parts| == 1 {
      assert parts[0] in parts;
    } else if |parts| > 1 {
      assert parts[0] in parts;
      JoinKeepsAbsence(parts[1..], d, e);
      GlueKeepsAbsence(parts[0], d, Join(parts[1..], d), e);
    }
  }
}
