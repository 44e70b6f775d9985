/** Python values as the workflow's nodes see them: strings and dictionaries
    keyed by strings, plus the substring test `sub in s` on strings. */
module Values {

  datatype Option<+T> = None | Some(value: T)

  /** A value held in a node's state or update: a `str` or a `dict`
      whose keys are strings. */
  datatype Value = Str(s: string) | Dict(entries: map<string, Value>)

  /** Python's `sub in s` for two strings: `sub` occurs somewhere in `s`
      as a contiguous run of characters. */
  function Contains(s: string, sub: string): bool
    decreases |s|
  {
    sub <= s || (|s| > 0 && Contains(s[1..], sub))
  }

  /** Anything a string ends with occurs in it. */
  lemma {:induction false} ContainsSuffix(p: string, sub: string)
    ensures Contains(p + sub, sub)
    decreases |p|
  {
    if p == [] {
      assert p + sub == sub;
    } else {
      ContainsSuffix(p[1..], sub);
      assert (p + sub)[1..] == p[1..] + sub;
    }
  }

  /** A string occurs in `s` exactly when it occurs at some position of `s`. */
  lemma {:induction false} ContainsAt(s: string, sub: string)
    ensures Contains(s, sub) <==> exists i :: 0 <= i <= |s| && sub <= s[i..]
    decreases |s|
  {
    if sub <= s {
      assert s[0..] == s;
    }
    if |s| > 0 {
      ContainsAt(s[1..], sub);
      if Contains(s[1..], sub) {
        var i :| 0 <= i <= |s[1..]| && sub <= s[1..][i..];
        assert s[1..][i..] == s[i + 1..];
      }
      if exists i :: 0 <= i <= |s| && sub <= s[i..] {
        var i :| 0 <= i <= |s| && sub <= s[i..];
        if i > 0 {
          assert s[1..][i - 1..] == s[i..];
        }
      }
    } else {
      if exists i :: 0 <= i <= |s| && sub <= s[i..] {
        var i :| 0 <= i <= |s| && sub <= s[i..];
        assert i == 0;
      }
    }
  }
}
