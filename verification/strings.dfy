/** String helpers: splitting an entity reference at its first dot, and Python's substring test. */
module Strings {
  import opened Wrappers

  /** The position of the first `c` in `s`, if any. */
  function FirstIndexOf(s: string, c: char): (r: Option<nat>)
    ensures r.None? <==> c !in s
    ensures r.Some? ==> r.value < |s| && s[r.value] == c && c !in s[..r.value]
  {
    if |s| == 0 then None
    else if s[0] == c then Some(0)
    else
      match FirstIndexOf(s[1..], c)
      case None => None
      case Some(i) =>
        assert s[1..][..i] == s[1..i + 1];
        Some(i + 1)
  }

  /** Splits `s` around its first `c`: the part before it and the part after it. */
  function SplitAtFirst(s: string, c: char): (r: Option<(string, string)>)
    ensures r.Some? <==> c in s
    ensures r.Some? ==> s == r.value.0 + [c] + r.value.1 && c !in r.value.0
  {
    match FirstIndexOf(s, c)
    case None => None
    case Some(i) =>
      assert s == s[..i] + [c] + s[i + 1..];
      Some((s[..i], s[i + 1..]))
  }

  /** Splitting a joined string gives back its parts when the separator does not occur in the first. */
  lemma {:induction false} SplitJoin(prefix: string, c: char, rest: string)
    requires c !in prefix
    ensures SplitAtFirst(prefix + [c] + rest, c) == Some((prefix, rest))
  {
    var s := prefix + [c] + rest;
    assert s[|prefix|] == c;
    var r := SplitAtFirst(s, c);
    var (a, b) := r.value;
    assert |a| == |prefix|;
    assert a == s[..|a|] == prefix;
    assert b == s[|a| + 1..] == rest;
  }

  /** Python's `t in s` for two strings: `t` occurs somewhere in `s`. */
  predicate IsSubstring(t: string, s: string)
    ensures IsSubstring(t, s) <==> exists i :: 0 <= i <= |s| && t <= s[i..]
    decreases |s|
  {
    if t <= s then
      assert t <= s[0..];
      true
    else if |s| == 0 then
      false
    else
      var r := IsSubstring(t, s[1..]);
      assert s[0..] == s;
      assert forall i :: 1 <= i <= |s| ==> s[1..][i - 1..] == s[i..];
      assert r ==> exists i :: 0 <= i <= |s| && t <= s[i..] by {
        if r {
          var j :| 0 <= j <= |s| - 1 && t <= s[1..][j..];
          assert t <= s[j + 1..];
        }
      }
      r
  }
}
