/**
 * The pieces of JavaScript string behaviour the validation rules rely on:
 * `String.prototype.trim` and the ASCII digit class `\d` of regular
 * expressions without the `u` flag.
 */
module JsString {

  /** ECMAScript WhiteSpace and LineTerminator code points, the set that
      `trim` removes: TAB, LF, VT, FF, CR, SPACE, NBSP, the other Zs space
      separators, LS, PS and the byte order mark. */
  predicate IsWhitespace(c: char)
  {
    || c == '\t' || c == '\n' || c == '\U{B}' || c == '\U{C}' || c == '\r'
    || c == ' ' || c == '\U{A0}' || c == '\U{1680}'
    || ('\U{2000}' <= c <= '\U{200A}')
    || c == '\U{2028}' || c == '\U{2029}' || c == '\U{202F}' || c == '\U{205F}'
    || c == '\U{3000}' || c == '\U{FEFF}'
  }

  predicate AllWhitespace(s: string)
  {
    forall i :: 0 <= i < |s| ==> IsWhitespace(s[i])
  }

  /** `s` without its leading whitespace. */
  function TrimStart(s: string): (r: string)
    ensures |r| <= |s| && r == s[|s| - |r|..]
    ensures AllWhitespace(s[..|s| - |r|])
    ensures r == [] || !IsWhitespace(r[0])
  {
    if s != [] && IsWhitespace(s[0]) then
      var r := TrimStart(s[1..]);
      assert s[..|s| - |r|] == [s[0]] + s[1..][..|s| - 1 - |r|];
      r
    else s
  }

  /** `s` without its trailing whitespace. */
  function TrimEnd(s: string): (r: string)
    ensures |r| <= |s| && r == s[..|r|]
    ensures AllWhitespace(s[|r|..])
    ensures r == [] || !IsWhitespace(r[|r| - 1])
  {
    if s != [] && IsWhitespace(s[|s| - 1]) then
      var r := TrimEnd(s[..|s| - 1]);
      assert s[|r|..] == s[..|s| - 1][|r|..] + [s[|s| - 1]];
      r
    else s
  }

  /** `r` is `s` with `lead` whitespace characters before it and only
      whitespace after it. */
  predicate Surrounds(s: string, lead: nat, r: string)
  {
    && lead + |r| <= |s|
    && AllWhitespace(s[..lead])
    && r == s[lead..lead + |r|]
    && AllWhitespace(s[lead + |r|..])
  }

  /** `String.prototype.trim`: `s` is the result surrounded by whitespace,
      and the result neither starts nor ends with whitespace. */
  function Trim(s: string): (r: string)
    ensures exists lead: nat :: Surrounds(s, lead, r)
    ensures r == [] || (!IsWhitespace(r[0]) && !IsWhitespace(r[|r| - 1]))
  {
    var t := TrimStart(s);
    var r := TrimEnd(t);
    assert r == [] || (!IsWhitespace(r[0]) && !IsWhitespace(r[|r| - 1])) by {
      if r != [] { assert r[0] == t[0]; }
    }
    SurroundsBySteps(s, t, r);
    r
  }

  /** Stripping a whitespace prefix and then a whitespace suffix leaves a
      string that the stripped parts surround. */
  lemma SurroundsBySteps(s: string, t: string, r: string)
    requires |t| <= |s| && t == s[|s| - |t|..] && AllWhitespace(s[..|s| - |t|])
    requires |r| <= |t| && r == t[..|r|] && AllWhitespace(t[|r|..])
    ensures Surrounds(s, |s| - |t|, r)
  {
    var lead := |s| - |t|;
    assert s[lead..lead + |r|] == r;
    assert s[lead + |r|..] == t[|r|..];
  }

  /** Trimming a string that has no surrounding whitespace returns it unchanged,
      so trimming twice is trimming once. */
  lemma {:induction false} TrimIdempotent(s: string)
    ensures Trim(Trim(s)) == Trim(s)
  {
    var r := Trim(s);
    assert TrimStart(r) == r;
    assert TrimEnd(r) == r;
  }

  /** A string that neither starts nor ends with whitespace. */
  predicate Unpadded(u: string)
  {
    u == [] || (!IsWhitespace(u[0]) && !IsWhitespace(u[|u| - 1]))
  }

  lemma {:induction false} TrimStartPadded(a: string, t: string)
    requires AllWhitespace(a)
    requires t == [] || !IsWhitespace(t[0])
    ensures TrimStart(a + t) == t
    decreases |a|
  {
    if a == [] {
      assert a + t == t;
    } else {
      assert (a + t)[1..] == a[1..] + t;
      TrimStartPadded(a[1..], t);
    }
  }

  lemma {:induction false} TrimEndPadded(t: string, b: string)
    requires AllWhitespace(b)
    requires t == [] || !IsWhitespace(t[|t| - 1])
    ensures TrimEnd(t + b) == t
    decreases |b|
  {
    if b == [] {
      assert t + b == t;
    } else {
      assert (t + b)[..|t + b| - 1] == t + b[..|b| - 1];
      TrimEndPadded(t, b[..|b| - 1]);
    }
  }

  /** A string without surrounding whitespace is its own trim. */
  lemma TrimUnpadded(u: string)
    requires Unpadded(u)
    ensures Trim(u) == u
  {
    assert TrimStart(u) == u;
    assert TrimEnd(u) == u;
  }

  /** `trim` removes exactly the surrounding whitespace: padding a string
      that neither starts nor ends with whitespace and trimming it gives the
      string back. */
  lemma TrimPadded(a: string, u: string, b: string)
    requires AllWhitespace(a) && AllWhitespace(b) && Unpadded(u)
    ensures Trim(a + u + b) == u
  {
    if u == [] {
      assert a + u + b == a + b;
      assert AllWhitespace(a + b);
      assert TrimStart(a + b) == [];
    } else {
      assert a + u + b == a + (u + b);
      TrimStartPadded(a, u + b);
      TrimEndPadded(u, b);
    }
  }

  /** The class `\d`: the ten ASCII digits. */
  predicate IsAsciiDigit(c: char)
  {
    '0' <= c <= '9'
  }
}
