/**
 * Python's list slicing `s[a:b]` with step 1, as the list endpoint uses it.
 * Slicing never raises: both bounds are first adjusted against the list's
 * length (a negative bound counts from the end, then every bound is clamped
 * into 0..len), and an end before the start gives the empty list.
 */
module Slicing {

  function Min(a: int, b: int): int { if a <= b then a else b }

  function Max(a: int, b: int): int { if a >= b then a else b }

  /** One slice bound after Python's adjustment against a sequence of length n. */
  function AjustarIndice(i: int, n: nat): (j: nat)
    ensures j <= n
    ensures 0 <= i <= n ==> j == i
    ensures i > n ==> j == n
    ensures i < 0 && i + n >= 0 ==> j == i + n
    ensures i + n < 0 ==> j == 0
  {
    if i < 0 then (if i + n < 0 then 0 else i + n)
    else if i >= n then n
    else i
  }

  /** `s[a:b]` in Python: never longer than s, and never longer than a non-negative end. */
  function PySlice<T>(s: seq<T>, a: int, b: int): (r: seq<T>)
    ensures |r| <= |s|
    ensures b >= 0 ==> |r| <= b
  {
    var lo := AjustarIndice(a, |s|);
    var hi := AjustarIndice(b, |s|);
    if hi <= lo then [] else s[lo..hi]
  }

  /**
   * For non-negative bounds the adjustment is only clamping of the end: the
   * slice is empty when the start is at or beyond min(b, |s|), and otherwise
   * the run s[a..min(b, |s|)].
   */
  lemma PySliceNoNegativo<T>(s: seq<T>, a: int, b: int)
    requires a >= 0 && b >= 0
    ensures PySlice(s, a, b) ==
      (if a >= Min(b, |s|) then [] else s[a..Min(b, |s|)])
  {
  }

  /**
   * The slice of non-negative bounds holds max(0, min(b, |s|) - a) elements,
   * and its k-th element is s[a + k]: it is a contiguous run of s, in order.
   */
  lemma PySliceContiguo<T>(s: seq<T>, a: int, b: int)
    requires a >= 0 && b >= 0
    ensures |PySlice(s, a, b)| == Max(0, Min(b, |s|) - a)
    ensures |PySlice(s, a, b)| <= b
    ensures a >= b || a >= |s| ==> PySlice(s, a, b) == []
    ensures forall k :: 0 <= k < |PySlice(s, a, b)| ==> PySlice(s, a, b)[k] == s[a + k]
  {
    PySliceNoNegativo(s, a, b);
  }

  /**
   * Whatever the bounds, the result is s[lo..hi] for some 0 <= lo <= hi <= |s|:
   * out-of-range bounds never fail, they only shorten the run.
   */
  lemma PySliceSiempreRebanada<T>(s: seq<T>, a: int, b: int)
    ensures exists lo, hi :: 0 <= lo <= hi <= |s| && PySlice(s, a, b) == s[lo..hi]
  {
    var lo := AjustarIndice(a, |s|);
    var hi := AjustarIndice(b, |s|);
    if hi <= lo {
      assert PySlice(s, a, b) == s[lo..lo];
    } else {
      assert PySlice(s, a, b) == s[lo..hi];
    }
  }

  /**
   * The end bound is an index, not a page size: the slices [a:b] and [b:c]
   * of consecutive non-negative bounds a <= b <= c join to the slice [a:c].
   */
  lemma PySliceConcatena<T>(s: seq<T>, a: int, b: int, c: int)
    requires 0 <= a <= b <= c
    ensures PySlice(s, a, b) + PySlice(s, b, c) == PySlice(s, a, c)
  {
    PySliceNoNegativo(s, a, b);
    PySliceNoNegativo(s, b, c);
    PySliceNoNegativo(s, a, c);
    var n := |s|;
    if a < Min(b, n) && b < Min(c, n) {
      assert s[a..b] + s[b..Min(c, n)] == s[a..Min(c, n)];
    }
  }

  /**
   * A negative start counts from the end of the list: it selects what the
   * start a + |s| selects, or the start 0 once a + |s| is itself negative.
   */
  lemma PySliceInicioNegativo<T>(s: seq<T>, a: int, b: int)
    requires a < 0
    ensures PySlice(s, a, b) == PySlice(s, Max(0, a + |s|), b)
  {
  }

  /**
   * A negative end counts from the end of the list: it selects what the
   * end b + |s| selects, or the end 0 once b + |s| is itself negative.
   */
  lemma PySliceFinNegativo<T>(s: seq<T>, a: int, b: int)
    requires b < 0
    ensures PySlice(s, a, b) == PySlice(s, a, Max(0, b + |s|))
  {
  }
}
