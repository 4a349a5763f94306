/** strings.Index and strings.Contains, on byte strings. */
module GoStrings {

  /** `pat` occurs in `s` starting at byte offset `i`. */
  predicate OccursAt(s: string, pat: string, i: int) {
    0 <= i && i + |pat| <= |s| && s[i..i + |pat|] == pat
  }

  /** The first occurrence of `pat` at or after offset `from`, or -1. */
  function IndexFrom(s: string, pat: string, from: nat): (r: int)
    ensures r == -1 || (from <= r && OccursAt(s, pat, r))
    ensures r == -1 ==> forall j :: from <= j ==> !OccursAt(s, pat, j)
    ensures r >= 0 ==> forall j :: from <= j < r ==> !OccursAt(s, pat, j)
    decreases |s| - from
  {
    if from + |pat| > |s| then -1
    else if s[from..from + |pat|] == pat then from
    else IndexFrom(s, pat, from + 1)
  }

  /** strings.Index: the offset of the first occurrence of `pat` in `s`, or -1. */
  function Index(s: string, pat: string): (r: int)
    ensures r == -1 <==> forall j :: !OccursAt(s, pat, j)
    ensures r >= 0 ==> OccursAt(s, pat, r) && forall j :: 0 <= j < r ==> !OccursAt(s, pat, j)
    ensures -1 <= r <= |s|
  {
    IndexFrom(s, pat, 0)
  }

  /** strings.Contains */
  function Contains(s: string, sub: string): (r: bool)
    ensures r <==> exists j :: OccursAt(s, sub, j)
  {
    Index(s, sub) >= 0
  }

  /**
   * When `p` holds no occurrence of `pat` and its last byte is not in `pat`,
   * the first occurrence in `p + x` is the one `x` starts with.
   */
  lemma IndexAfter(p: string, x: string, pat: string)
    requires |p| > 0 && p[|p| - 1] !in pat && !Contains(p, pat)
    requires |pat| <= |x| && x[..|pat|] == pat
    ensures Index(p + x, pat) == |p|
  {
    var s := p + x;
    assert s[|p|..|p| + |pat|] == x[..|pat|];
    assert OccursAt(s, pat, |p|);
    forall j | 0 <= j < |p|
      ensures !OccursAt(s, pat, j)
    {
      if j + |pat| <= |p| {
        assert s[j..j + |pat|] == p[j..j + |pat|];
        assert !OccursAt(p, pat, j);
      } else if j + |pat| <= |s| {
        assert s[j..j + |pat|][|p| - 1 - j] == p[|p| - 1];
      }
    }
  }

  /**
   * Two strings free of `pat` stay free of it when joined, provided a byte
   * next to the seam is not in `pat`.
   */
  lemma ContainsNeither(a: string, b: string, pat: string)
    requires !Contains(a, pat) && !Contains(b, pat)
    requires (|a| > 0 && a[|a| - 1] !in pat) || (|b| > 0 && b[0] !in pat)
    ensures !Contains(a + b, pat)
  {
    var s := a + b;
    forall j | 0 <= j && j + |pat| <= |s|
      ensures !OccursAt(s, pat, j)
    {
      if j + |pat| <= |a| {
        assert s[j..j + |pat|] == a[j..j + |pat|];
        assert !OccursAt(a, pat, j);
      } else if j >= |a| {
        assert s[j..j + |pat|] == b[j - |a|..j - |a| + |pat|];
        assert !OccursAt(b, pat, j - |a|);
      } else if |a| > 0 && a[|a| - 1] !in pat {
        assert s[j..j + |pat|][|a| - 1 - j] == a[|a| - 1];
      } else {
        assert s[j..j + |pat|][|a| - j] == b[0];
      }
    }
  }
}
