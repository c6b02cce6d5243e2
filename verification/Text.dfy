/** strings.HasPrefix and strings.Contains. */
module Text {

  predicate StartsWith(s: string, part: string) {
    |part| <= |s| && s[..|part|] == part
  }

  predicate Contains(s: string, part: string) {
    StartsWith(s, part) || (s != "" && Contains(s[1..], part))
  }

  /** Contains finds the part at any position. */
  lemma {:induction false} ContainsMeans(s: string, part: string)
    ensures Contains(s, part) <==> exists i {:trigger s[i..]} :: 0 <= i <= |s| && StartsWith(s[i..], part)
  {
    assert s[0..] == s;
    if s != "" {
      ContainsMeans(s[1..], part);
      if i :| 0 <= i <= |s| && StartsWith(s[i..], part) {
        if i > 0 { assert s[1..][i - 1..] == s[i..]; }
      }
      if i :| 0 <= i <= |s[1..]| && StartsWith(s[1..][i..], part) {
        assert s[1..][i..] == s[i + 1..];
      }
    } else if i :| 0 <= i <= |s| && StartsWith(s[i..], part) {
      assert s[i..] == s;
    }
  }

  /** A character that differs rules the part out at the start. */
  lemma Differs(s: string, part: string, j: nat)
    requires j < |part| && (j < |s| ==> s[j] != part[j])
    ensures !StartsWith(s, part)
  {
    if |part| <= |s| { assert s[..|part|][j] == s[j]; }
  }
}
