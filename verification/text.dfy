/** The Python string operations the button router relies on:
    `str.startswith`, `in` on strings, and `str.replace(p, "")`. */
module Text {

  /** `p` occurs in `s` starting at index `i`. */
  predicate OccursAt(s: string, p: string, i: int) {
    0 <= i && i + |p| <= |s| && s[i..i + |p|] == p
  }

  /** Python's `p in s`. */
  predicate Contains(s: string, p: string) {
    exists i :: 0 <= i <= |s| && OccursAt(s, p, i)
  }

  /** Python's `s.startswith(p)`. */
  predicate StartsWith(s: string, p: string) {
    |p| <= |s| && s[..|p|] == p
  }

  /** Python's `s.replace(p, "")` for a non-empty `p`: the string is scanned
      from the left and every non-overlapping occurrence of `p` is dropped,
      not just a leading one. */
  function RemoveAll(s: string, p: string): (r: string)
    requires |p| > 0
    ensures |r| <= |s|
    ensures StartsWith(s, p) ==> |r| <= |s| - |p|
    decreases |s|
  {
    if StartsWith(s, p) then RemoveAll(s[|p|..], p)
    else if |s| == 0 then ""
    else [s[0]] + RemoveAll(s[1..], p)
  }

  /** `p` occurs in `s` exactly when it is a prefix of `s` or occurs in its tail. */
  lemma ContainsStep(s: string, p: string)
    requires |p| > 0
    ensures Contains(s, p) <==> StartsWith(s, p) || (|s| > 0 && Contains(s[1..], p))
  {
    if Contains(s, p) {
      var i :| 0 <= i <= |s| && OccursAt(s, p, i);
      if i == 0 {
        assert StartsWith(s, p);
      } else {
        assert s[1..][i - 1..i - 1 + |p|] == s[i..i + |p|];
        assert OccursAt(s[1..], p, i - 1);
      }
    }
    if StartsWith(s, p) {
      assert OccursAt(s, p, 0);
    }
    if |s| > 0 && Contains(s[1..], p) {
      var j :| 0 <= j <= |s[1..]| && OccursAt(s[1..], p, j);
      assert 0 <= j && j + |p| <= |s| - 1;
      assert s[j + 1..j + 1 + |p|] == s[1..][j..j + |p|];
      assert OccursAt(s, p, j + 1);
    }
  }

  /** Removing every occurrence of `p` leaves `s` as it was exactly when `p`
      does not occur in `s`. */
  lemma {:induction false} RemoveAllFixedIff(s: string, p: string)
    requires |p| > 0
    ensures RemoveAll(s, p) == s <==> !Contains(s, p)
    decreases |s|
  {
    ContainsStep(s, p);
    if StartsWith(s, p) {
      assert |RemoveAll(s, p)| < |s|;
    } else if |s| == 0 {
    } else {
      RemoveAllFixedIff(s[1..], p);
      assert s == [s[0]] + s[1..];
    }
  }

  /** Stripping `p` from `p + x` recovers `x` exactly when `x` itself does not
      contain `p`; otherwise the occurrences inside `x` are lost too. */
  lemma StripPrefixRoundTrip(p: string, x: string)
    requires |p| > 0
    ensures RemoveAll(p + x, p) == x <==> !Contains(x, p)
  {
    assert StartsWith(p + x, p);
    assert (p + x)[|p|..] == x;
    RemoveAllFixedIff(x, p);
  }
}
