/** Finding, counting and replacing a needle, as the standard string operations do. */
module Substrings {
  import opened Wrappers

  /** The needle agrees with the text from its j-th character on, when laid at position i. */
  predicate AgreesFrom(s: string, needle: string, i: nat, j: nat)
    requires i + |needle| <= |s| && j <= |needle|
    decreases |needle| - j
  {
    j == |needle| || (s[i + j] == needle[j] && AgreesFrom(s, needle, i, j + 1))
  }

  predicate MatchAt(s: string, needle: string, i: nat) {
    i + |needle| <= |s| && AgreesFrom(s, needle, i, 0)
  }

  lemma {:induction false} AgreesIsSlice(s: string, needle: string, i: nat, j: nat)
    requires i + |needle| <= |s| && j <= |needle|
    ensures AgreesFrom(s, needle, i, j) <==> s[i + j..i + |needle|] == needle[j..]
    decreases |needle| - j
  {
    if j < |needle| {
      AgreesIsSlice(s, needle, i, j + 1);
      assert s[i + j..i + |needle|] == [s[i + j]] + s[i + j + 1..i + |needle|];
      assert needle[j..] == [needle[j]] + needle[j + 1..];
    }
  }

  /** A match is a place where the needle is cut out of the text. */
  lemma MatchIsSlice(s: string, needle: string, i: nat)
    ensures MatchAt(s, needle, i) <==> i + |needle| <= |s| && s[i..i + |needle|] == needle
  {
    if i + |needle| <= |s| {
      AgreesIsSlice(s, needle, i, 0);
      assert needle[0..] == needle;
    }
  }

  /** The first match at or after position k. */
  function FindFrom(s: string, needle: string, k: nat): (r: Option<nat>)
    requires k <= |s|
    ensures r.None? ==> forall i :: k <= i ==> !MatchAt(s, needle, i)
    ensures r.Some? ==> k <= r.value && MatchAt(s, needle, r.value) && forall i :: k <= i < r.value ==> !MatchAt(s, needle, i)
    decreases |s| - k
  {
    if MatchAt(s, needle, k) then Some(k)
    else if k == |s| then None
    else FindFrom(s, needle, k + 1)
  }

  predicate Contains(s: string, needle: string) {
    FindFrom(s, needle, 0).Some?
  }

  /** Non-overlapping matches: each search starts behind the match before. */
  function Count(s: string, needle: string): nat
    requires needle != []
  {
    match FindFrom(s, needle, 0)
    case None => 0
    case Some(i) => 1 + Count(s[i + |needle|..], needle)
  }

  function Occurrences(s: string, needle: string): nat {
    if needle == [] then 0 else Count(s, needle)
  }

  function ReplaceFirst(s: string, needle: string, replacement: string): string {
    match FindFrom(s, needle, 0)
    case None => s
    case Some(i) => s[..i] + replacement + s[i + |needle|..]
  }

  lemma MatchInSuffix(s: string, needle: string, k: nat, i: nat)
    requires k <= |s|
    ensures MatchAt(s[k..], needle, i) <==> MatchAt(s, needle, k + i)
  {
    MatchIsSlice(s[k..], needle, i);
    MatchIsSlice(s, needle, k + i);
    if k + i + |needle| <= |s| {
      assert s[k..][i..i + |needle|] == s[k + i..k + i + |needle|];
    }
  }

  lemma FindInSuffix(s: string, needle: string, k: nat)
    requires k <= |s|
    ensures var whole := FindFrom(s, needle, k);
            FindFrom(s[k..], needle, 0) == if whole.Some? then Some(whole.value - k) else None
  {
    var part, whole := FindFrom(s[k..], needle, 0), FindFrom(s, needle, k);
    if whole.Some? {
      MatchInSuffix(s, needle, k, whole.value - k);
      assert part.Some? && part.value <= whole.value - k;
    }
    if part.Some? {
      MatchInSuffix(s, needle, k, part.value);
      assert whole.Some? && whole.value - k <= part.value;
    }
  }

  method CountOccurrences(haystack: string, needle: string) returns (count: nat)
    ensures count == Occurrences(haystack, needle)
  {
    if needle == [] {
      return 0;
    }
    count := 0;
    var rest := haystack;
    var found := FindFrom(rest, needle, 0);
    while found.Some?
      invariant found == FindFrom(rest, needle, 0)
      invariant Occurrences(haystack, needle) == count + Count(rest, needle)
      decreases |rest|
    {
      count := count + 1;
      rest := rest[found.value + |needle|..];
      found := FindFrom(rest, needle, 0);
    }
  }

  // ----- Needles that cannot overlap themselves -----

  /** No proper end of the needle is also its start. */
  predicate BorderFree(needle: string) {
    forall d :: 0 < d < |needle| ==> needle[d..] != needle[..|needle| - d]
  }

  lemma OverlapIsBorder(s: string, needle: string, i: nat, d: nat)
    requires MatchAt(s, needle, i) && MatchAt(s, needle, i + d) && d <= |needle|
    ensures needle[d..] == needle[..|needle| - d]
  {
    MatchIsSlice(s, needle, i);
    MatchIsSlice(s, needle, i + d);
    var common := s[i + d..i + |needle|];
    assert needle[d..] == s[i..i + |needle|][d..] == common;
    assert needle[..|needle| - d] == s[i + d..i + d + |needle|][..|needle| - d] == common;
  }

  lemma MatchesApart(s: string, needle: string, i: nat, j: nat)
    requires BorderFree(needle) && MatchAt(s, needle, i) && MatchAt(s, needle, j) && i < j
    ensures i + |needle| <= j
  {
    if j < i + |needle| {
      OverlapIsBorder(s, needle, i, j - i);
    }
  }

  function Positions(s: string, needle: string, k: nat): set<nat> {
    set i: nat | k <= i <= |s| && MatchAt(s, needle, i)
  }

  lemma PositionsFromMatch(s: string, needle: string, k: nat, i: nat)
    requires needle != [] && BorderFree(needle) && k <= i && MatchAt(s, needle, i)
    requires forall j :: k <= j < i ==> !MatchAt(s, needle, j)
    ensures Positions(s, needle, k) == {i} + Positions(s, needle, i + |needle|)
  {
    forall j | j in Positions(s, needle, k) && j != i ensures j in Positions(s, needle, i + |needle|) {
      MatchesApart(s, needle, i, j);
    }
  }

  lemma CountUnfolds(t: string, needle: string, found: Option<nat>, rest: string)
    requires needle != [] && found == FindFrom(t, needle, 0)
    requires found.Some? ==> rest == t[found.value + |needle|..]
    ensures Count(t, needle) == if found.None? then 0 else 1 + Count(rest, needle)
  {
  }

  lemma PositionsUnfold(s: string, needle: string, k: nat)
    requires needle != [] && BorderFree(needle) && k <= |s|
    ensures var found := FindFrom(s, needle, k);
            if found.None? then Positions(s, needle, k) == {}
            else
              && found.value !in Positions(s, needle, found.value + |needle|)
              && Positions(s, needle, k) == {found.value} + Positions(s, needle, found.value + |needle|)
  {
    if FindFrom(s, needle, k).Some? {
      PositionsFromMatch(s, needle, k, FindFrom(s, needle, k).value);
    }
  }

  lemma SuffixOfSuffix(s: string, k: nat, i: nat)
    requires k + i <= |s|
    ensures s[k..][i..] == s[k + i..]
  {
  }

  /** The same count by positions in the whole text. */
  function CountFrom(s: string, needle: string, k: nat): nat
    requires needle != [] && k <= |s|
    decreases |s| - k
  {
    match FindFrom(s, needle, k)
    case None => 0
    case Some(i) => 1 + CountFrom(s, needle, i + |needle|)
  }

  lemma CountStep(s: string, needle: string, k: nat, t: string, found: Option<nat>, rest: string)
    requires needle != [] && k <= |s| && t == s[k..] && found == FindFrom(s, needle, k)
    requires found.Some? ==> rest == s[found.value + |needle|..]
    ensures Count(t, needle) == if found.None? then 0 else 1 + Count(rest, needle)
  {
    FindInSuffix(s, needle, k);
    if found.Some? {
      SuffixOfSuffix(s, k, found.value - k + |needle|);
      CountUnfolds(t, needle, Some(found.value - k), rest);
    } else {
      CountUnfolds(t, needle, None, rest);
    }
  }

  lemma {:induction false} CountIsCountFrom(s: string, needle: string, k: nat, t: string)
    requires needle != [] && k <= |s| && t == s[k..]
    ensures Count(t, needle) == CountFrom(s, needle, k)
    decreases |s| - k
  {
    var found := FindFrom(s, needle, k);
    if found.Some? {
      var rest := s[found.value + |needle|..];
      CountStep(s, needle, k, t, found, rest);
      CountIsCountFrom(s, needle, found.value + |needle|, rest);
    } else {
      CountStep(s, needle, k, t, found, []);
    }
  }

  /** For a needle that cannot overlap itself, counting without overlaps counts every position at
      which it matches. */
  lemma {:induction false} CountFromIsPositions(s: string, needle: string, k: nat)
    requires needle != [] && BorderFree(needle) && k <= |s|
    ensures CountFrom(s, needle, k) == |Positions(s, needle, k)|
    decreases |s| - k
  {
    PositionsUnfold(s, needle, k);
    match FindFrom(s, needle, k)
    case None =>
    case Some(i) => CountFromIsPositions(s, needle, i + |needle|);
  }

  lemma CountIsPositions(s: string, needle: string)
    requires needle != [] && BorderFree(needle)
    ensures Occurrences(s, needle) == |Positions(s, needle, 0)|
  {
    CountIsCountFrom(s, needle, 0, s);
    CountFromIsPositions(s, needle, 0);
  }

  /** Counted once means matching at one place and no other; counted never means matching nowhere. */
  lemma CountedOnce(s: string, needle: string)
    requires needle != [] && BorderFree(needle)
    ensures Occurrences(s, needle) == 1 <==> exists i: nat :: OnlyMatch(s, needle, i)
    ensures Occurrences(s, needle) == 0 <==> forall i: nat :: !MatchAt(s, needle, i)
  {
    CountIsPositions(s, needle);
    var all := Positions(s, needle, 0);
    forall i: nat | MatchAt(s, needle, i) ensures i in all {
    }
    if Occurrences(s, needle) == 1 {
      var i := FindFrom(s, needle, 0).value;
      assert i in all && all == {i} + (all - {i});
      assert OnlyMatch(s, needle, i);
    }
    if i: nat :| OnlyMatch(s, needle, i) {
      assert all == {i};
    }
    if Occurrences(s, needle) == 0 {
      assert all == {};
    }
    if forall i: nat :: !MatchAt(s, needle, i) {
      assert all == {};
    }
  }

  ghost predicate OnlyMatch(s: string, needle: string, i: nat) {
    MatchAt(s, needle, i) && forall j: nat :: MatchAt(s, needle, j) ==> j == i
  }
}
