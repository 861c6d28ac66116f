/** The two string operations the client uses on URLs: Python's `rstrip(c)` and `lstrip(c)` for one character. */
module Text {

  /** `s.rstrip(c)`: `s` without its trailing run of `c`. */
  function StripTrailing(s: string, c: char): string {
    if s != [] && s[|s| - 1] == c then StripTrailing(s[..|s| - 1], c) else s
  }

  /** `s.lstrip(c)`: `s` without its leading run of `c`. */
  function StripLeading(s: string, c: char): string {
    if s != [] && s[0] == c then StripLeading(s[1..], c) else s
  }

  /** rstrip leaves the longest prefix of `s` that does not end in `c`, the rest of `s` being all `c`. */
  lemma {:induction false} StripTrailingShape(s: string, c: char)
    ensures var r := StripTrailing(s, c);
      && |r| <= |s| && r == s[..|r|]
      && (forall i | |r| <= i < |s| :: s[i] == c)
      && (r == [] || r[|r| - 1] != c)
  {
    if s != [] && s[|s| - 1] == c {
      var t := s[..|s| - 1];
      StripTrailingShape(t, c);
      var r := StripTrailing(t, c);
      assert r == s[..|r|] by {
        assert t[..|r|] == s[..|r|];
      }
    }
  }

  /** lstrip leaves the longest suffix of `s` that does not start with `c`, the rest of `s` being all `c`. */
  lemma {:induction false} StripLeadingShape(s: string, c: char)
    ensures var r := StripLeading(s, c);
      && |r| <= |s| && r == s[|s| - |r|..]
      && (forall i | 0 <= i < |s| - |r| :: s[i] == c)
      && (r == [] || r[0] != c)
  {
    if s != [] && s[0] == c {
      var t := s[1..];
      StripLeadingShape(t, c);
      var r := StripLeading(t, c);
      assert r == s[|s| - |r|..] by {
        assert t[|t| - |r|..] == s[|s| - |r|..];
      }
      forall i | 0 <= i < |s| - |r| ensures s[i] == c {
        if i > 0 {
          assert s[i] == t[i - 1];
        }
      }
    }
  }

  /** The three properties of StripTrailingShape determine the result of rstrip. */
  lemma StripTrailingUnique(s: string, c: char, r: string)
    requires |r| <= |s| && r == s[..|r|]
    requires forall i | |r| <= i < |s| :: s[i] == c
    requires r == [] || r[|r| - 1] != c
    ensures r == StripTrailing(s, c)
  {
  }

  /** The three properties of StripLeadingShape determine the result of lstrip. */
  lemma StripLeadingUnique(s: string, c: char, r: string)
    requires |r| <= |s| && r == s[|s| - |r|..]
    requires forall i | 0 <= i < |s| - |r| :: s[i] == c
    requires r == [] || r[0] != c
    ensures r == StripLeading(s, c)
  {
  }

  /** One more leading `c` does not change what lstrip leaves. */
  lemma StripLeadingOneMore(s: string, c: char)
    ensures StripLeading([c] + s, c) == StripLeading(s, c)
  {
  }
}
