/** Python's open-ended slice `s[start:]`, the only list operation the
    history code relies on besides `append`. */
module PySlice {

  function Min(a: int, b: int): int
  {
    if a <= b then a else b
  }

  /** `r` is the tail of `s` of length `|r|`. */
  ghost predicate IsSuffix<T>(r: seq<T>, s: seq<T>)
  {
    |r| <= |s| && forall i, j :: 0 <= i < |r| && j == |s| - |r| + i ==> r[i] == s[j]
  }

  /** Python's normalisation of a slice start against a length `n`: a
      negative start counts from the end, and the result is clamped to
      `0..n`. */
  function SliceStart(n: nat, start: int): (i: nat)
    ensures i <= n
    ensures start >= 0 ==> i == Min(start, n)
    ensures start < 0 ==> n - i == Min(-start, n)
  {
    if start < 0 then
      (if n + start < 0 then 0 else n + start)
    else if start > n then n
    else start
  }

  /** `s[start:]` with Python semantics: never fails, whatever `start` is. */
  function SliceFrom<T>(s: seq<T>, start: int): (r: seq<T>)
    ensures IsSuffix(r, s)
    ensures start < 0 ==> |r| == Min(-start, |s|)
    ensures start >= 0 ==> |r| == |s| - Min(start, |s|)
  {
    s[SliceStart(|s|, start)..]
  }

  /** A suffix is determined by its length. */
  lemma SuffixUnique<T>(r1: seq<T>, r2: seq<T>, s: seq<T>)
    requires IsSuffix(r1, s) && IsSuffix(r2, s)
    requires |r1| == |r2|
    ensures r1 == r2
  {
    forall i | 0 <= i < |r1| ensures r1[i] == r2[i] {
      assert r1[i] == s[|s| - |r1| + i];
    }
  }

  /** `s[-k:]` for a positive `k` is the last `k` elements, or the whole
      list when it has no more than `k`. */
  lemma NegativeSliceIsTail<T>(s: seq<T>, k: int)
    requires k > 0
    ensures k <= |s| ==> SliceFrom(s, -k) == s[|s| - k..]
    ensures k >= |s| ==> SliceFrom(s, -k) == s
  {
  }
}
