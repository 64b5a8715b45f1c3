/** The three operations of Go's `strings` package that the address derivation
    uses: `Index`, `Contains` and `Replace(s, old, new, 1)`, over `seq<char>`. */
module Strings {
  import opened Wrappers

  /** `pat` occurs in `s` starting at index `i`. */
  predicate OccursAt(s: string, pat: string, i: int) {
    0 <= i && i + |pat| <= |s| && s[i..i + |pat|] == pat
  }

  /** `strings.Contains`: `pat` occurs somewhere in `s`. */
  predicate Contains(s: string, pat: string): (b: bool)
    ensures b <==> exists i :: OccursAt(s, pat, i)
    ensures b ==> |pat| <= |s|
    ensures |pat| == 0 ==> b
  {
    assert |pat| == 0 ==> OccursAt(s, pat, 0);
    exists i | 0 <= i <= |s| - |pat| :: OccursAt(s, pat, i)
  }

  /** First occurrence of `pat` in `s` at or after `from`. */
  function FirstIndexFrom(s: string, pat: string, from: nat): (r: Option<nat>)
    decreases |s| - from
    ensures r.Some? ==> from <= r.value && OccursAt(s, pat, r.value)
    ensures r.Some? ==> forall j :: from <= j < r.value ==> !OccursAt(s, pat, j)
    ensures r.None? ==> forall j :: from <= j ==> !OccursAt(s, pat, j)
  {
    if from + |pat| > |s| then None
    else if s[from..from + |pat|] == pat then Some(from)
    else FirstIndexFrom(s, pat, from + 1)
  }

  /** Index of the first occurrence of `pat` in `s`, if any. */
  function FirstIndexOf(s: string, pat: string): (r: Option<nat>)
    ensures r.Some? <==> Contains(s, pat)
    ensures r.Some? ==> OccursAt(s, pat, r.value)
    ensures r.Some? ==> forall j :: 0 <= j < r.value ==> !OccursAt(s, pat, j)
  {
    FirstIndexFrom(s, pat, 0)
  }

  /** `strings.Index`: the first index of `pat` in `s`, or -1 when absent,
      by a left-to-right scan. */
  method Index(s: string, pat: string) returns (i: int)
    ensures i == -1 <==> !Contains(s, pat)
    ensures i != -1 ==> 0 <= i && FirstIndexOf(s, pat) == Some(i)
  {
    var k := 0;
    while k + |pat| <= |s|
      invariant 0 <= k
      invariant forall j :: 0 <= j < k ==> !OccursAt(s, pat, j)
      decreases |s| - k
    {
      if s[k..k + |pat|] == pat {
        FirstIndexUnique(s, pat, k);
        return k;
      }
      k := k + 1;
    }
    return -1;
  }

  /** `strings.Replace(s, pat, rep, 1)`: the first occurrence of `pat` is
      replaced by `rep`; a string without `pat` is returned unchanged. An
      empty `pat` matches at index 0, so `rep` is prepended, as in Go. */
  function ReplaceFirst(s: string, pat: string, rep: string): (r: string)
    ensures !Contains(s, pat) ==> r == s
    ensures Contains(s, pat) ==> |r| == |s| - |pat| + |rep|
    ensures Contains(s, pat) ==>
      var i := FirstIndexOf(s, pat).value;
      r[..i] == s[..i] && OccursAt(r, rep, i) && r[i + |rep|..] == s[i + |pat|..]
  {
    match FirstIndexOf(s, pat)
    case None => s
    case Some(i) => s[..i] + rep + s[i + |pat|..]
  }

  /** `pat` cannot overlap a shifted copy of itself: no proper suffix of `pat`
      is also a prefix of it. */
  predicate Unbordered(pat: string) {
    forall k | 0 < k < |pat| :: pat[k..] != pat[..|pat| - k]
  }

  /** An occurrence with no earlier occurrence is the first one. */
  lemma FirstIndexUnique(s: string, pat: string, i: nat)
    requires OccursAt(s, pat, i)
    requires forall j :: 0 <= j < i ==> !OccursAt(s, pat, j)
    ensures FirstIndexOf(s, pat) == Some(i)
  {
    assert Contains(s, pat);
  }

  /** An occurrence of `pat` that starts inside `p` in the string `p + pat + q`
      either lies wholly in `p` or overlaps the appended copy of `pat`; for an
      unbordered pattern the second is impossible. */
  lemma {:induction false} FirstIndexAfterClearPrefix(p: string, pat: string, q: string)
    requires Unbordered(pat)
    requires !Contains(p, pat)
    ensures FirstIndexOf(p + pat + q, pat) == Some(|p|)
  {
    var s := p + pat + q;
    assert s[|p|..|p| + |pat|] == pat;
    forall j | 0 <= j < |p|
      ensures !OccursAt(s, pat, j)
    {
      if j + |pat| <= |p| {
        assert s[j..j + |pat|] == p[j..j + |pat|];
        assert !OccursAt(p, pat, j);
      } else {
        var k := |p| - j;
        assert pat[k..] != pat[..|pat| - k];
        var t :| 0 <= t < |pat| - k && pat[k..][t] != pat[..|pat| - k][t];
        assert s[j + k + t] == pat[t];
        assert s[j..j + |pat|][k + t] != pat[k + t];
      }
    }
    FirstIndexUnique(s, pat, |p|);
  }

  /** Replacing in `p + pat + q`, where `pat` does not start anywhere inside
      `p`, touches exactly the occurrence that follows `p`. */
  lemma ReplaceFirstSplit(p: string, pat: string, q: string, rep: string)
    requires forall j :: 0 <= j < |p| ==> !OccursAt(p + pat + q, pat, j)
    ensures ReplaceFirst(p + pat + q, pat, rep) == p + rep + q
  {
    var s := p + pat + q;
    assert s[|p|..|p| + |pat|] == pat;
    FirstIndexUnique(s, pat, |p|);
    assert s[..|p|] == p;
    assert s[|p| + |pat|..] == q;
  }

  /** Conversely, whenever `pat` occurs, the input splits as `p + pat + q`
      with no earlier occurrence, and the result is `p + rep + q`. */
  lemma ReplaceFirstHasSplit(s: string, pat: string, rep: string)
    requires Contains(s, pat)
    ensures exists p, q ::
      && s == p + pat + q
      && (forall j :: 0 <= j < |p| ==> !OccursAt(s, pat, j))
      && ReplaceFirst(s, pat, rep) == p + rep + q
  {
    var i := FirstIndexOf(s, pat).value;
    var p, q := s[..i], s[i + |pat|..];
    assert s == p + pat + q by {
      assert s[i..i + |pat|] == pat;
      assert s == s[..i] + s[i..i + |pat|] + s[i + |pat|..];
    }
  }
}
