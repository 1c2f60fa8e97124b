/** The string operations the program takes from Go's `strings`, `bytes` and
    `path/filepath` packages, defined here with the properties the rest of the
    model relies on. */
module Text {

  /** `strings.HasPrefix` / `bytes.HasPrefix`. */
  predicate HasPrefix(s: string, p: string) {
    |p| <= |s| && s[..|p|] == p
  }

  /** `strings.HasSuffix`. */
  predicate HasSuffix(s: string, p: string) {
    |p| <= |s| && s[|s| - |p|..] == p
  }

  /** `strings.TrimSuffix`: drops `p` from the end of `s` when it is there. */
  function TrimSuffix(s: string, p: string): (r: string)
    ensures HasSuffix(s, p) ==> r + p == s
    ensures !HasSuffix(s, p) ==> r == s
  {
    if HasSuffix(s, p) then s[..|s| - |p|] else s
  }

  /** Unicode's White_Space property, which Go's `unicode.IsSpace` (and so
      `bytes.TrimSpace`) uses. */
  predicate IsSpace(c: char) {
    || ('\t' <= c <= '\r') || c == ' ' || c == '\U{85}' || c == '\U{A0}'
    || c == '\U{1680}' || ('\U{2000}' <= c <= '\U{200A}')
    || c == '\U{2028}' || c == '\U{2029}' || c == '\U{202F}' || c == '\U{205F}'
    || c == '\U{3000}'
  }

  predicate AllSpace(s: string) {
    forall i :: 0 <= i < |s| ==> IsSpace(s[i])
  }

  /** `s` without its leading white space. */
  function TrimLeft(s: string): string {
    if s != [] && IsSpace(s[0]) then TrimLeft(s[1..]) else s
  }

  /** `TrimLeft` keeps a suffix of its input, drops only white space, and
      leaves no white space at the front. */
  lemma {:induction false} TrimLeftIsSuffix(s: string)
    ensures var r := TrimLeft(s);
      && |r| <= |s| && r == s[|s| - |r|..]
      && AllSpace(s[..|s| - |r|])
      && (r == [] || !IsSpace(r[0]))
  {
    if s != [] && IsSpace(s[0]) {
      TrimLeftIsSuffix(s[1..]);
      var r := TrimLeft(s);
      assert s[1..][|s| - 1 - |r|..] == s[|s| - |r|..];
      var dropped := s[..|s| - |r|];
      forall k | 0 <= k < |dropped| ensures IsSpace(dropped[k]) {
        if k > 0 { assert dropped[k] == s[1..][..|s| - 1 - |r|][k - 1]; }
      }
    }
  }

  /** `s` without its trailing white space. */
  function TrimRight(s: string): string {
    if s != [] && IsSpace(s[|s| - 1]) then TrimRight(s[..|s| - 1]) else s
  }

  /** `TrimRight` keeps a prefix of its input, drops only white space, and
      leaves no white space at the end. */
  lemma {:induction false} TrimRightIsPrefix(s: string)
    ensures var r := TrimRight(s);
      && |r| <= |s| && r == s[..|r|]
      && AllSpace(s[|r|..])
      && (r == [] || !IsSpace(r[|r| - 1]))
  {
    if s != [] && IsSpace(s[|s| - 1]) {
      TrimRightIsPrefix(s[..|s| - 1]);
      var r := TrimRight(s);
      assert s[..|s| - 1][..|r|] == s[..|r|];
      forall k | 0 <= k < |s| - |r| ensures IsSpace(s[|r|..][k]) {
        if k < |s| - 1 - |r| { assert s[|r|..][k] == s[..|s| - 1][|r|..][k]; }
      }
    }
  }

  /** `bytes.TrimSpace`. */
  function TrimSpace(s: string): string {
    TrimRight(TrimLeft(s))
  }

  /** `t` is what lies between white space at the left (`s[..i]`) and at the
      right (`s[j..]`) of `s`. */
  predicate PaddedAt(s: string, t: string, i: int, j: int) {
    0 <= i <= j <= |s| && s[i..j] == t && AllSpace(s[..i]) && AllSpace(s[j..])
  }

  /** White space around a word that does not itself begin or end with white
      space is exactly what `TrimSpace` removes: it yields `t` if and only if
      the input is `t` padded with white space on either side. */
  lemma TrimSpaceIsUnpadding(s: string, t: string)
    requires t == [] || (!IsSpace(t[0]) && !IsSpace(t[|t| - 1]))
    ensures TrimSpace(s) == t <==> exists i, j :: PaddedAt(s, t, i, j)
  {
    if TrimSpace(s) == t {
      TrimSpacePads(s);
    }
    if exists i, j :: PaddedAt(s, t, i, j) {
      var i, j :| PaddedAt(s, t, i, j);
      UnpaddingTrims(s, t, i, j);
    }
  }

  /** Helper: `TrimSpace(s)` is `s` with white space removed on both sides. */
  lemma TrimSpacePads(s: string)
    ensures PaddedAt(s, TrimSpace(s), |s| - |TrimLeft(s)|, |s| - |TrimLeft(s)| + |TrimSpace(s)|)
  {
    var l := TrimLeft(s);
    var i := |s| - |l|;
    var t := TrimRight(l);
    TrimLeftIsSuffix(s);
    TrimRightIsPrefix(l);
    assert s[i..i + |t|] == l[..|t|];
    assert s[i + |t|..] == l[|t|..];
  }

  /** Helper: a word padded with white space trims back to the word. */
  lemma UnpaddingTrims(s: string, t: string, i: int, j: int)
    requires t == [] || (!IsSpace(t[0]) && !IsSpace(t[|t| - 1]))
    requires PaddedAt(s, t, i, j)
    ensures TrimSpace(s) == t
  {
    if t == [] {
      assert s[i..] == s[j..];
      assert AllSpace(s[..|s|]) by {
        forall k | 0 <= k < |s| ensures IsSpace(s[k]) {
          if k < i { assert s[k] == s[..i][k]; } else { assert s[k] == s[i..][k - i]; }
        }
      }
      TrimLeftOfPadded(s, |s|);
    } else {
      assert s[i] == t[0];
      TrimLeftOfPadded(s, i);
      assert s[i..][..j - i] == t;
      assert s[i..][j - i..] == s[j..];
      TrimRightOfPadded(s[i..], j - i);
    }
  }

  /** Helper: removing an all-white-space prefix `s[..i]` that is followed by
      a non-space, or by nothing, leaves `s[i..]`. */
  lemma {:induction false} TrimLeftOfPadded(s: string, i: int)
    requires 0 <= i <= |s| && AllSpace(s[..i])
    requires i < |s| ==> !IsSpace(s[i])
    ensures TrimLeft(s) == s[i..]
  {
    if i > 0 {
      assert IsSpace(s[..i][0]);
      var s' := s[1..];
      assert AllSpace(s'[..i - 1]) by {
        forall k | 0 <= k < i - 1 ensures IsSpace(s'[k]) {
          assert s'[k] == s[..i][k + 1];
        }
      }
      assert i - 1 < |s'| ==> s'[i - 1] == s[i];
      TrimLeftOfPadded(s', i - 1);
      assert s'[i - 1..] == s[i..];
    }
  }

  /** Helper: removing an all-white-space suffix `s[j..]` that follows a
      non-space leaves `s[..j]`. */
  lemma {:induction false} TrimRightOfPadded(s: string, j: int)
    requires 0 < j <= |s| && AllSpace(s[j..]) && !IsSpace(s[j - 1])
    ensures TrimRight(s) == s[..j]
  {
    if j < |s| {
      assert IsSpace(s[j..][|s| - 1 - j]);
      var s' := s[..|s| - 1];
      assert AllSpace(s'[j..]) by {
        forall k | 0 <= k < |s'| - j ensures IsSpace(s'[j..][k]) {
          assert s'[j..][k] == s[j..][k];
        }
      }
      TrimRightOfPadded(s', j);
      assert s'[..j] == s[..j];
    }
  }

  /** `filepath.ToSlash` on Windows: every backslash becomes a slash. */
  function ToSlash(s: string): (r: string)
    ensures |r| == |s|
    ensures forall i :: 0 <= i < |s| ==> r[i] == if s[i] == '\\' then '/' else s[i]
    ensures '\\' !in r
  {
    if s == [] then [] else [if s[0] == '\\' then '/' else s[0]] + ToSlash(s[1..])
  }

  /** `filepath.FromSlash` on Windows, the reverse rewrite. */
  function FromSlash(s: string): (r: string)
    ensures |r| == |s|
    ensures forall i :: 0 <= i < |s| ==> r[i] == if s[i] == '/' then '\\' else s[i]
    ensures '/' !in r
  {
    if s == [] then [] else [if s[0] == '/' then '\\' else s[0]] + FromSlash(s[1..])
  }

  /** A path written with backslashes only survives the trip to slashes and back. */
  lemma FromSlashUndoesToSlash(s: string)
    requires '/' !in s
    ensures FromSlash(ToSlash(s)) == s
  {
    var r := FromSlash(ToSlash(s));
    forall i | 0 <= i < |s| ensures r[i] == s[i] {
      assert s[i] != '/';
    }
  }
}
