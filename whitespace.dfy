/**
  Removing leading and trailing whitespace, for a given set of whitespace
  characters: `str.strip()` on the server and `String.prototype.trim` on the
  client are both `Strip` with their own set.
*/
module Whitespace {
  import opened Chars

  /** Drops the leading characters of s that are in ws. */
  function TrimStart(s: string, ws: set<char>): (r: string)
    ensures |r| <= |s| && r == s[|s| - |r|..]
    ensures AllIn(s[..|s| - |r|], ws)
    ensures r != [] ==> r[0] !in ws
  {
    if s != [] && s[0] in ws then TrimStart(s[1..], ws) else s
  }

  /** Drops the trailing characters of s that are in ws. */
  function TrimEnd(s: string, ws: set<char>): (r: string)
    ensures |r| <= |s| && r == s[..|r|]
    ensures AllIn(s[|r|..], ws)
    ensures r != [] ==> r[|r| - 1] !in ws
  {
    if s != [] && s[|s| - 1] in ws then TrimEnd(s[..|s| - 1], ws) else s
  }

  /** Drops the leading and the trailing characters of s that are in ws. */
  function Strip(s: string, ws: set<char>): (r: string)
    ensures |r| <= |s|
    ensures r != [] ==> r[0] !in ws && r[|r| - 1] !in ws
  {
    TrimEnd(TrimStart(s, ws), ws)
  }

  lemma {:induction false} TrimStartPadded(p: string, t: string, ws: set<char>)
    requires AllIn(p, ws)
    requires t != [] ==> t[0] !in ws
    ensures TrimStart(p + t, ws) == t
  {
    if p != [] {
      assert (p + t)[0] == p[0];
      assert (p + t)[1..] == p[1..] + t;
      TrimStartPadded(p[1..], t, ws);
    }
  }

  lemma {:induction false} TrimEndPadded(t: string, q: string, ws: set<char>)
    requires AllIn(q, ws)
    requires t != [] ==> t[|t| - 1] !in ws
    ensures TrimEnd(t + q, ws) == t
  {
    if q == [] {
      assert t + q == t;
    } else {
      var s := t + q;
      assert s[|s| - 1] == q[|q| - 1];
      assert s[..|s| - 1] == t + q[..|q| - 1];
      TrimEndPadded(t, q[..|q| - 1], ws);
    }
  }

  /** Stripping recovers the core of any padded string whose ends are not whitespace. */
  lemma StripPadded(p: string, m: string, q: string, ws: set<char>)
    requires AllIn(p, ws) && AllIn(q, ws)
    requires m != [] ==> m[0] !in ws && m[|m| - 1] !in ws
    ensures Strip(p + m + q, ws) == m
  {
    if m == [] {
      assert p + m + q == p + q;
      AllInConcat(p, q, ws);
    } else {
      assert p + m + q == p + (m + q);
      TrimStartPadded(p, m + q, ws);
      TrimEndPadded(m, q, ws);
    }
  }

  /** A string strips to nothing exactly when it is all whitespace. */
  lemma StripOfWhitespace(s: string, ws: set<char>)
    ensures Strip(s, ws) == [] <==> AllIn(s, ws)
  {
    var t := TrimStart(s, ws);
    var r := TrimEnd(t, ws);
    assert s == s[..|s| - |t|] + t;
    if r == [] {
      assert t == t[|r|..];
      AllInConcat(s[..|s| - |t|], t, ws);
    }
    assert t != [] ==> t[0] == s[|s| - |t|];
  }

  /** Every string is its stripped core with whitespace on either side. */
  lemma StripSplits(s: string, ws: set<char>) returns (p: string, q: string)
    ensures s == p + Strip(s, ws) + q
    ensures AllIn(p, ws) && AllIn(q, ws)
  {
    var t := TrimStart(s, ws);
    p := TrimStartSplits(s, ws);
    q := TrimEndSplits(t, ws);
    Regroup(p, TrimEnd(t, ws), q);
  }

  lemma TrimStartSplits(s: string, ws: set<char>) returns (p: string)
    ensures s == p + TrimStart(s, ws) && AllIn(p, ws)
  {
    var t := TrimStart(s, ws);
    var k := |s| - |t|;
    p := s[..k];
    assert s == s[..k] + s[k..];
  }

  lemma TrimEndSplits(s: string, ws: set<char>) returns (q: string)
    ensures s == TrimEnd(s, ws) + q && AllIn(q, ws)
  {
    var r := TrimEnd(s, ws);
    q := s[|r|..];
    assert s == s[..|r|] + s[|r|..];
  }

  /** Whitespace added on either side never changes the stripped result. */
  lemma StripIgnoresPadding(p: string, s: string, q: string, ws: set<char>)
    requires AllIn(p, ws) && AllIn(q, ws)
    ensures Strip(p + s + q, ws) == Strip(s, ws)
  {
    var p', q' := StripSplits(s, ws);
    AllInConcat(p, p', ws);
    AllInConcat(q', q, ws);
    Repad(p, p', Strip(s, ws), q', q);
    StripPadded(p + p', Strip(s, ws), q' + q, ws);
  }

  /** Moving the inner padding of a padded string out to the outer padding. */
  lemma Repad(p: string, p': string, m: string, q': string, q: string)
    ensures p + (p' + m + q') + q == (p + p') + m + (q' + q)
  {
    Regroup(p', m, q');
    Regroup(p, p' + (m + q'), q);
    Regroup(p, p', m + q');
    Regroup(p + p', m, q');
    Regroup((p + p') + m, q', q);
  }

  /** A text that neither starts nor ends with whitespace strips to itself. */
  lemma StripUnpadded(m: string, ws: set<char>)
    requires m != [] ==> m[0] !in ws && m[|m| - 1] !in ws
    ensures Strip(m, ws) == m
  {
    if m != [] {
      assert TrimStart(m, ws) == m;
      assert TrimEnd(m, ws) == m;
    }
  }

  lemma StripIdempotent(s: string, ws: set<char>)
    ensures Strip(Strip(s, ws), ws) == Strip(s, ws)
  {
    StripUnpadded(Strip(s, ws), ws);
  }
}
