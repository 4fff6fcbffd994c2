/** The two functions of Go's `strings` package the filter uses. */
module GoStrings {

  /** strings.HasPrefix: `prefix` is the first |prefix| characters of `s`. */
  predicate HasPrefix(s: string, prefix: string) {
    |prefix| <= |s| && s[..|prefix|] == prefix
  }

  /** strings.Contains: `sub` is a prefix of some suffix of `s`
      (so the empty string is contained in every string). */
  predicate Contains(s: string, sub: string)
    decreases |s|
  {
    HasPrefix(s, sub) || (|s| > 0 && Contains(s[1..], sub))
  }

  /** `sub` occurs in `s` starting at offset `k`. */
  ghost predicate OccursAt(s: string, sub: string, k: int) {
    0 <= k <= |s| - |sub| && s[k..k + |sub|] == sub
  }

  /** HasPrefix agrees with "s is prefix followed by something". */
  lemma HasPrefixIff(s: string, prefix: string)
    ensures HasPrefix(s, prefix) <==> exists rest :: s == prefix + rest
  {
    if HasPrefix(s, prefix) {
      assert s == prefix + s[|prefix|..];
    }
  }

  /** Contains agrees with "sub occurs at some offset of s". */
  lemma {:induction false} ContainsIff(s: string, sub: string)
    ensures Contains(s, sub) <==> exists k :: OccursAt(s, sub, k)
    decreases |s|
  {
    if |s| > 0 {
      ContainsIff(s[1..], sub);
      if Contains(s[1..], sub) {
        var k :| OccursAt(s[1..], sub, k);
        assert s[k + 1..k + 1 + |sub|] == sub;
        assert OccursAt(s, sub, k + 1);
      }
      if exists k :: OccursAt(s, sub, k) {
        var k :| OccursAt(s, sub, k);
        if k > 0 {
          assert s[1..][k - 1..k - 1 + |sub|] == sub;
          assert OccursAt(s[1..], sub, k - 1);
        } else {
          assert HasPrefix(s, sub);
        }
      } else {
        assert HasPrefix(s, sub) ==> OccursAt(s, sub, 0);
      }
    } else {
      assert HasPrefix(s, sub) ==> OccursAt(s, sub, 0);
      if exists k :: OccursAt(s, sub, k) {
        var k :| OccursAt(s, sub, k);
        assert HasPrefix(s, sub);
      }
    }
  }
}
