/** Text as Unicode scalar values, measured in the bytes of its UTF-8 form. */
module Text {
  import opened Wrappers

  function Utf8Len(c: char): (n: nat)
    ensures 1 <= n <= 4
  {
    if c as int < 0x80 then 1 else if c as int < 0x800 then 2 else if c as int < 0x1_0000 then 3 else 4
  }

  /** The bytes of the first k characters. */
  function BytesUpTo(s: string, k: nat): nat
    requires k <= |s|
  {
    if k == 0 then 0 else BytesUpTo(s, k - 1) + Utf8Len(s[k - 1])
  }

  function ByteLen(s: string): nat {
    BytesUpTo(s, |s|)
  }

  lemma {:induction false} SamePrefixSameBytes(s: string, t: string, k: nat)
    requires k <= |s| && k <= |t| && s[..k] == t[..k]
    ensures BytesUpTo(s, k) == BytesUpTo(t, k)
  {
    if k > 0 {
      assert s[k - 1] == s[..k][k - 1] && t[k - 1] == t[..k][k - 1];
      assert s[..k - 1] == s[..k][..k - 1] && t[..k - 1] == t[..k][..k - 1];
      SamePrefixSameBytes(s, t, k - 1);
    }
  }

  lemma {:induction false} BytesPastPrefix(s: string, t: string, k: nat)
    requires k <= |t|
    ensures BytesUpTo(s + t, |s| + k) == ByteLen(s) + BytesUpTo(t, k)
  {
    if k == 0 {
      assert (s + t)[..|s|] == s[..|s|];
      SamePrefixSameBytes(s + t, s, |s|);
    } else {
      BytesPastPrefix(s, t, k - 1);
      assert (s + t)[|s| + k - 1] == t[k - 1];
    }
  }

  lemma ByteLenConcat(s: string, t: string)
    ensures ByteLen(s + t) == ByteLen(s) + ByteLen(t)
  {
    BytesPastPrefix(s, t, |t|);
  }

  lemma {:induction false} BytesGrow(s: string, j: nat, k: nat)
    requires j <= k <= |s|
    ensures BytesUpTo(s, k) >= BytesUpTo(s, j) + (k - j)
  {
    if j < k {
      BytesGrow(s, j, k - 1);
    }
  }

  lemma ByteLenPositive(s: string)
    ensures |s| <= ByteLen(s)
  {
    BytesGrow(s, 0, |s|);
  }

  lemma PrefixBytes(s: string, k: nat)
    requires k <= |s|
    ensures ByteLen(s[..k]) == BytesUpTo(s, k)
  {
    assert s[..k][..k] == s[..k];
    SamePrefixSameBytes(s, s[..k], k);
  }

  /** Reads characters from the k-th on until n more bytes are used up. */
  function Scan(s: string, k: nat, n: nat): (r: Option<nat>)
    requires k <= |s|
    ensures r.Some? ==> k <= r.value <= |s|
    decreases |s| - k
  {
    if n == 0 then Some(k)
    else if k == |s| || Utf8Len(s[k]) > n then None
    else Scan(s, k + 1, n - Utf8Len(s[k]))
  }

  /** How many characters make up the first n bytes; None when byte n is inside a character or past
      the end, where slicing at n would fail. */
  function CharsAt(s: string, n: nat): (r: Option<nat>)
    ensures r.Some? ==> r.value <= |s|
  {
    Scan(s, 0, n)
  }

  lemma {:induction false} ScanCounts(s: string, k: nat, n: nat)
    requires k <= |s|
    ensures Scan(s, k, n).Some? ==> BytesUpTo(s, Scan(s, k, n).value) == BytesUpTo(s, k) + n
    decreases |s| - k
  {
    if n > 0 && k < |s| && Utf8Len(s[k]) <= n {
      ScanCounts(s, k + 1, n - Utf8Len(s[k]));
    }
  }

  lemma {:induction false} ScanFinds(s: string, k: nat, j: nat)
    requires k <= j <= |s|
    ensures BytesUpTo(s, k) <= BytesUpTo(s, j)
    ensures Scan(s, k, BytesUpTo(s, j) - BytesUpTo(s, k)) == Some(j)
    decreases j - k
  {
    if k < j {
      BytesGrow(s, k + 1, j);
      ScanFinds(s, k + 1, j);
    }
  }

  /** Byte n is a boundary exactly when some prefix has n bytes, and the prefix is then the one counted. */
  lemma BoundaryExactly(s: string, n: nat)
    ensures CharsAt(s, n).Some? ==> ByteLen(s[..CharsAt(s, n).value]) == n
    ensures forall k :: 0 <= k <= |s| && ByteLen(s[..k]) == n ==> CharsAt(s, n) == Some(k)
  {
    ScanCounts(s, 0, n);
    if CharsAt(s, n).Some? {
      PrefixBytes(s, CharsAt(s, n).value);
    }
    forall k | 0 <= k <= |s| && ByteLen(s[..k]) == n ensures CharsAt(s, n) == Some(k) {
      PrefixBytes(s, k);
      ScanFinds(s, 0, k);
    }
  }

  lemma BoundaryAfterPrefix(s: string, t: string)
    ensures CharsAt(s + t, ByteLen(s)) == Some(|s|)
  {
    assert (s + t)[..|s|] == s;
    BoundaryExactly(s + t, ByteLen(s));
  }

  /** The text without the given start, if it starts so. */
  function StripPrefix(s: string, prefix: string): (r: Option<string>)
    ensures r.Some? <==> prefix <= s
    ensures r.Some? ==> s == prefix + r.value
  {
    if prefix <= s then Some(s[|prefix|..]) else None
  }

  /** The position of the first occurrence from the k-th character on. */
  function FindFrom(s: string, c: char, k: nat): (r: Option<nat>)
    requires k <= |s|
    ensures r.None? ==> forall i :: k <= i < |s| ==> s[i] != c
    ensures r.Some? ==> k <= r.value < |s| && s[r.value] == c && forall i :: k <= i < r.value ==> s[i] != c
    decreases |s| - k
  {
    if k == |s| then None else if s[k] == c then Some(k) else FindFrom(s, c, k + 1)
  }

  datatype Split = Split(before: string, after: string)

  /** The text around the first occurrence. */
  function SplitOnce(s: string, c: char): (r: Option<Split>)
    ensures r.None? <==> c !in s
    ensures r.Some? ==> s == r.value.before + [c] + r.value.after && c !in r.value.before
  {
    match FindFrom(s, c, 0)
    case None => None
    case Some(k) => Some(Split(s[..k], s[k + 1..]))
  }

  lemma SplitOfParts(before: string, c: char, after: string)
    requires c !in before
    ensures SplitOnce(before + [c] + after, c) == Some(Split(before, after))
  {
    var s := before + [c] + after;
    assert s[|before|] == c;
    assert forall i :: 0 <= i < |before| ==> s[i] == before[i];
    assert FindFrom(s, c, 0) == Some(|before|);
    assert s[..|before|] == before && s[|before| + 1..] == after;
  }

  // ----- Order -----

  /** Lexicographic by code point, which is also the order of the UTF-8 bytes. */
  predicate LessEq(s: string, t: string) {
    s == [] || (t != [] && (s[0] < t[0] || (s[0] == t[0] && LessEq(s[1..], t[1..]))))
  }

  lemma {:induction false} LessEqReflexive(s: string)
    ensures LessEq(s, s)
  {
    if s != [] {
      LessEqReflexive(s[1..]);
    }
  }

  lemma {:induction false} LessEqTotal(s: string, t: string)
    ensures LessEq(s, t) || LessEq(t, s)
  {
    if s != [] && t != [] && s[0] == t[0] {
      LessEqTotal(s[1..], t[1..]);
    }
  }

  lemma {:induction false} LessEqTransitive(s: string, t: string, u: string)
    requires LessEq(s, t) && LessEq(t, u)
    ensures LessEq(s, u)
  {
    if s != [] && s[0] == t[0] && t[0] == u[0] {
      LessEqTransitive(s[1..], t[1..], u[1..]);
    }
  }

  lemma {:induction false} LessEqAntisymmetric(s: string, t: string)
    requires LessEq(s, t) && LessEq(t, s)
    ensures s == t
  {
    if s != [] {
      LessEqAntisymmetric(s[1..], t[1..]);
      assert s == [s[0]] + s[1..] && t == [t[0]] + t[1..];
    }
  }
}
