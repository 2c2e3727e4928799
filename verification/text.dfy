/** `String.prototype.trim` over a fixed set of white-space characters. */
module Text {

  /** The characters `trim` removes: white space (tab, vertical tab, form
      feed, space, no-break space, the byte-order mark and the other space
      separators) and line terminators (line feed, carriage return, line
      separator, paragraph separator). */
  predicate IsWhitespace(c: char)
  {
    || c == '\t' || c == '\U{B}' || c == '\U{C}' || c == ' ' || c == '\U{A0}' || c == '\U{FEFF}'
    || c == '\U{1680}' || ('\U{2000}' <= c <= '\U{200A}') || c == '\U{202F}' || c == '\U{205F}' || c == '\U{3000}'
    || c == '\n' || c == '\r' || c == '\U{2028}' || c == '\U{2029}'
  }

  predicate AllWhitespace(s: string)
  {
    forall i :: 0 <= i < |s| ==> IsWhitespace(s[i])
  }

  /** True of a string with no white space at either end. */
  predicate Trimmed(s: string)
  {
    s == [] || (!IsWhitespace(s[0]) && !IsWhitespace(s[|s| - 1]))
  }

  /** Drops leading white space: the result is a suffix, everything dropped
      is white space, and the result does not start with white space. */
  function TrimStart(s: string): (r: string)
    ensures |r| <= |s| && r == s[|s| - |r|..]
    ensures AllWhitespace(s[..|s| - |r|])
    ensures r == [] || !IsWhitespace(r[0])
  {
    if |s| > 0 && IsWhitespace(s[0]) then
      var r := TrimStart(s[1..]);
      DropLeading(s, r);
      r
    else
      s
  }

  lemma DropLeading(s: string, r: string)
    requires |s| > 0 && IsWhitespace(s[0])
    requires |r| <= |s| - 1 && r == s[1..][|s| - 1 - |r|..]
    requires AllWhitespace(s[1..][..|s| - 1 - |r|])
    ensures r == s[|s| - |r|..] && AllWhitespace(s[..|s| - |r|])
  {
    var k := |s| - |r|;
    assert s[1..][k - 1..] == s[k..];
    forall i | 0 <= i < k
      ensures IsWhitespace(s[..k][i])
    {
      if i > 0 {
        assert s[..k][i] == s[1..][..k - 1][i - 1];
      }
    }
  }

  /** Drops trailing white space: the result is a prefix, everything dropped
      is white space, and the result does not end with white space. */
  function TrimEnd(s: string): (r: string)
    ensures |r| <= |s| && r == s[..|r|]
    ensures AllWhitespace(s[|r|..])
    ensures r == [] || !IsWhitespace(r[|r| - 1])
  {
    if |s| > 0 && IsWhitespace(s[|s| - 1]) then
      var r := TrimEnd(s[..|s| - 1]);
      assert s[|r|..] == s[..|s| - 1][|r|..] + [s[|s| - 1]];
      r
    else
      s
  }

  /** `s.trim()`: the result has no white space at either end, and it is
      empty exactly when `s` is white space only. */
  function Trim(s: string): (r: string)
    ensures Trimmed(r)
    ensures r == [] <==> AllWhitespace(s)
  {
    var head := TrimStart(s);
    var r := TrimEnd(head);
    assert r == [] ==> AllWhitespace(s) by {
      if r == [] {
        assert AllWhitespace(head);
        assert s == s[..|s| - |head|] + head;
      }
    }
    assert r != [] ==> !IsWhitespace(r[0]);
    r
  }

  lemma {:induction false} TrimStartSkipsWhitespace(pre: string, s: string)
    requires AllWhitespace(pre)
    ensures TrimStart(pre + s) == TrimStart(s)
    decreases |pre|
  {
    if |pre| > 0 {
      assert (pre + s)[1..] == pre[1..] + s;
      TrimStartSkipsWhitespace(pre[1..], s);
    } else {
      assert pre + s == s;
    }
  }

  lemma {:induction false} TrimEndSkipsWhitespace(s: string, post: string)
    requires AllWhitespace(post)
    ensures TrimEnd(s + post) == TrimEnd(s)
    decreases |post|
  {
    if |post| > 0 {
      assert (s + post)[..|s + post| - 1] == s + post[..|post| - 1];
      TrimEndSkipsWhitespace(s, post[..|post| - 1]);
    } else {
      assert s + post == s;
    }
  }

  /** Trimming recovers a trimmed string from any white-space padding. */
  lemma TrimPadded(pre: string, t: string, post: string)
    requires AllWhitespace(pre) && AllWhitespace(post) && Trimmed(t)
    ensures Trim(pre + t + post) == t
  {
    assert pre + t + post == pre + (t + post);
    TrimStartSkipsWhitespace(pre, t + post);
    if t == [] {
      assert TrimStart(t + post) == [];
    } else {
      assert TrimStart(t + post) == t + post;
    }
    TrimEndSkipsWhitespace(t, post);
  }

  /** A trimmed string is its own trim. */
  lemma TrimOfTrimmed(t: string)
    requires Trimmed(t)
    ensures Trim(t) == t
  {
    assert TrimStart(t) == t;
  }

  /** Trimming twice is trimming once. */
  lemma TrimIdempotent(s: string)
    ensures Trim(Trim(s)) == Trim(s)
  {
    TrimOfTrimmed(Trim(s));
  }
}
