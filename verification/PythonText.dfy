/** Python's order on strings: by code point, a prefix first. */
module PythonText {
  predicate TextLess(s: string, t: string)
    decreases |s|
  {
    t != [] && (s == [] || s[0] < t[0] || (s[0] == t[0] && TextLess(s[1..], t[1..])))
  }

  lemma {:induction false} TextOrder(s: string, t: string)
    ensures !(TextLess(s, t) && TextLess(t, s))
    ensures TextLess(s, t) || TextLess(t, s) || s == t
    ensures TextLess(s, t) ==> s != t
    decreases |s|
  {
    if s != [] && t != [] {
      TextOrder(s[1..], t[1..]);
      assert s == [s[0]] + s[1..] && t == [t[0]] + t[1..];
    }
  }

  lemma {:induction false} TextNotLess(s: string, t: string, u: string)
    requires !TextLess(s, t) && !TextLess(t, u)
    ensures !TextLess(s, u)
    decreases |s|
  {
    if s != [] && t != [] && u != [] && s[0] == t[0] == u[0] { TextNotLess(s[1..], t[1..], u[1..]); }
  }

  /** The strings agree up to a place where the first ends or has the smaller character. */
  ghost predicate FirstDifferenceIsLess(s: string, t: string) {
    exists k: nat :: k <= |s| && k < |t| && s[..k] == t[..k] && (k == |s| || s[k] < t[k])
  }

  lemma {:induction false} TextLessIff(s: string, t: string)
    ensures TextLess(s, t) <==> FirstDifferenceIsLess(s, t)
    decreases |s|
  {
    if t != [] && (s == [] || s[0] < t[0]) {
      assert s[..0] == t[..0];
    } else if s != [] && t != [] && s[0] == t[0] {
      TextLessIff(s[1..], t[1..]);
      if FirstDifferenceIsLess(s[1..], t[1..]) {
        var k: nat :| k <= |s| - 1 && k < |t| - 1 && s[1..][..k] == t[1..][..k] && (k == |s| - 1 || s[1..][k] < t[1..][k]);
        assert s[..k + 1] == [s[0]] + s[1..][..k] && t[..k + 1] == [t[0]] + t[1..][..k];
        assert k + 1 == |s| || s[k + 1] < t[k + 1];
      }
      if FirstDifferenceIsLess(s, t) {
        var k: nat :| k <= |s| && k < |t| && s[..k] == t[..k] && (k == |s| || s[k] < t[k]);
        assert k > 0;
        assert s[1..][..k - 1] == s[..k][1..] && t[1..][..k - 1] == t[..k][1..];
        assert k - 1 == |s| - 1 || s[1..][k - 1] < t[1..][k - 1];
      }
    }
  }
}
