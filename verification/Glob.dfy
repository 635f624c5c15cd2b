/** Whitelist patterns: the matcher of the store package against the declarative meaning
    of a pattern. */
module Glob {
  import opened Text

  /** The part of the subject that one byte of the pattern stands for. */
  predicate Piece(c: char, part: string) {
    if c == '*' then true
    else if c == '?' then |part| == 1
    else part == [c]
  }

  ghost predicate Splits(p: string, s: string, parts: seq<string>) {
    && |parts| == |p|
    && Flatten(parts) == s
    && forall i :: 0 <= i < |p| ==> Piece(p[i], parts[i])
  }

  /** A pattern denotes a string when the string splits into one part for each byte of the
      pattern: itself for a literal, any byte for `?`, any run for `*`. */
  ghost predicate Denotes(p: string, s: string) {
    exists parts :: Splits(p, s, parts)
  }

  /** The same by recursion over both strings. */
  predicate Matches(p: string, s: string)
    decreases |p| + |s|
  {
    if p == "" then s == ""
    else if p[0] == '*' then Matches(p[1..], s) || (s != "" && Matches(p, s[1..]))
    else s != "" && (p[0] == '?' || p[0] == s[0]) && Matches(p[1..], s[1..])
  }

  lemma {:induction false} MatchesSplits(p: string, s: string) returns (parts: seq<string>)
    requires Matches(p, s)
    ensures Splits(p, s, parts)
    decreases |p| + |s|
  {
    if p == "" {
      parts := [];
    } else if p[0] == '*' && !Matches(p[1..], s) {
      var rest := MatchesSplits(p, s[1..]);
      parts := [[s[0]] + rest[0]] + rest[1..];
      assert parts[1..] == rest[1..];
      assert [s[0]] + (rest[0] + Flatten(rest[1..])) == s;
    } else {
      var first := if p[0] == '*' then "" else [s[0]];
      var rest := MatchesSplits(p[1..], s[|first|..]);
      parts := [first] + rest;
      assert parts[1..] == rest;
      assert first + s[|first|..] == s;
    }
  }

  lemma {:induction false} SplitsMatches(p: string, s: string, parts: seq<string>)
    requires Splits(p, s, parts)
    ensures Matches(p, s)
    decreases |p| + |s|
  {
    if p != "" {
      var first, rest := parts[0], Flatten(parts[1..]);
      assert s == first + rest;
      if p[0] == '*' && first != "" {
        var shorter := [first[1..]] + parts[1..];
        assert shorter[1..] == parts[1..];
        assert s[1..] == first[1..] + rest;
        SplitsMatches(p, s[1..], shorter);
      } else {
        assert s[|first|..] == rest;
        SplitsMatches(p[1..], s[|first|..], parts[1..]);
      }
    }
  }

  lemma MatchesDenotes(p: string, s: string)
    ensures Matches(p, s) <==> Denotes(p, s)
  {
    if Matches(p, s) {
      var parts := MatchesSplits(p, s);
    }
    if Denotes(p, s) {
      var parts :| Splits(p, s, parts);
      SplitsMatches(p, s, parts);
    }
  }

  /** strings.TrimLeft(p, "*"). */
  function TrimStars(p: string): (t: string)
    ensures |t| <= |p|
    ensures p != "" && p[0] == '*' ==> |t| < |p|
  {
    if p != "" && p[0] == '*' then TrimStars(p[1..]) else p
  }

  lemma {:induction false} StarTail(p: string, s: string)
    requires p != "" && p[0] == '*'
    ensures Matches(p, s) <==> exists i :: 0 <= i <= |s| && Matches(p[1..], s[i..])
    decreases |s|
  {
    assert s[0..] == s;
    if s != "" {
      StarTail(p, s[1..]);
      forall i | 0 <= i <= |s[1..]| ensures s[1..][i..] == s[i + 1..] {}
      if i :| 0 <= i <= |s[1..]| && Matches(p[1..], s[1..][i..]) {
        assert Matches(p[1..], s[i + 1..]);
      }
      if i :| 0 <= i <= |s| && Matches(p[1..], s[i..]) {
        if i > 0 {
          assert s[1..][i - 1..] == s[i..];
        }
      }
    }
  }

  lemma {:induction false} TrimmedTail(p: string, s: string)
    requires p != "" && p[0] == '*'
    ensures Matches(p, s) <==> exists i :: 0 <= i <= |s| && Matches(TrimStars(p), s[i..])
    decreases |p|
  {
    StarTail(p, s);
    var q := p[1..];
    if q != "" && q[0] == '*' {
      forall i | 0 <= i <= |s|
        ensures Matches(q, s[i..]) <==> exists j :: i <= j <= |s| && Matches(TrimStars(q), s[j..])
      {
        TrimmedTail(q, s[i..]);
        forall j | 0 <= j <= |s[i..]| ensures s[i..][j..] == s[i + j..] {}
        if j :| 0 <= j <= |s[i..]| && Matches(TrimStars(q), s[i..][j..]) {
          assert Matches(TrimStars(q), s[i + j..]);
        }
        if j :| i <= j <= |s| && Matches(TrimStars(q), s[j..]) {
          assert s[i..][j - i..] == s[j..];
        }
      }
      if j :| 0 <= j <= |s| && Matches(TrimStars(q), s[j..]) {
        assert Matches(q, s[j..]);
      }
    }
  }

  /** A run of stars means the same as one star, wherever it stands. */
  lemma {:induction false} StarsCollapse(a: string, b: string, s: string)
    ensures Denotes(a + "**" + b, s) <==> Denotes(a + "*" + b, s)
  {
    StarsCollapseIn(a, b, s);
    MatchesDenotes(a + "**" + b, s);
    MatchesDenotes(a + "*" + b, s);
  }

  lemma {:induction false} StarsCollapseIn(a: string, b: string, s: string)
    ensures Matches(a + "**" + b, s) <==> Matches(a + "*" + b, s)
    decreases |a| + |s|
  {
    var p, q := a + "**" + b, a + "*" + b;
    if a == "" {
      assert p[1..] == q && q[1..] == b;
      if s != "" { StarsCollapseIn(a, b, s[1..]); }
    } else {
      assert p[1..] == a[1..] + "**" + b && q[1..] == a[1..] + "*" + b;
      if a[0] == '*' {
        StarsCollapseIn(a[1..], b, s);
        if s != "" { StarsCollapseIn(a, b, s[1..]); }
      } else if s != "" {
        StarsCollapseIn(a[1..], b, s[1..]);
      }
    }
  }

  // ----- Patterns without wildcards -----

  predicate Literal(p: string) { '*' !in p && '?' !in p }

  lemma {:induction false} LiteralMatches(p: string, q: string, s: string)
    requires Literal(p)
    ensures Matches(p + q, s) <==> p <= s && Matches(q, s[|p|..])
    decreases |p|
  {
    if p == "" {
      assert p + q == q && s[0..] == s;
    } else {
      assert (p + q)[1..] == p[1..] + q;
      assert p[0] in p && forall c :: c in p[1..] ==> c in p;
      if s != "" {
        LiteralMatches(p[1..], q, s[1..]);
        assert p <= s <==> p[0] == s[0] && p[1..] <= s[1..];
        assert p[1..] <= s[1..] ==> s[1..][|p| - 1..] == s[|p|..];
      }
    }
  }

  lemma {:induction false} StarMatches(s: string)
    ensures Matches("*", s) && (Matches("", s) <==> s == "")
  {
    if s != "" { StarMatches(s[1..]); } else { assert "*"[1..] == ""; }
  }

  lemma QuestionMatches(s: string)
    ensures Matches("?", s) <==> |s| == 1
  {
    assert "?"[1..] == "";
    if s != "" { assert s[1..] == "" <==> |s| == 1; }
  }

  /** A pattern without wildcards denotes itself; with a star at its end, what starts with it; with a
      question mark at its end, what has one more byte. */
  lemma LiteralDenotes(p: string, s: string)
    requires Literal(p)
    ensures Denotes(p, s) <==> p == s
    ensures Denotes(p + "*", s) <==> p <= s
    ensures Denotes(p + "?", s) <==> p <= s && |s| == |p| + 1
  {
    hide Denotes, Matches;
    MatchesDenotes(p, s);
    MatchesDenotes(p + "*", s);
    MatchesDenotes(p + "?", s);
    LiteralMatches(p, "", s);
    LiteralMatches(p, "*", s);
    LiteralMatches(p, "?", s);
    assert p + "" == p;
    if p <= s {
      QuestionMatches(s[|p|..]);
      StarMatches(s[|p|..]);
      assert s == p + s[|p|..];
    }
  }

  /** globMatchImpl: a loop over both strings, with a recursive call for every suffix
      after a star. */
  method GlobMatch(pattern: string, subject: string) returns (matched: bool)
    ensures matched <==> Denotes(pattern, subject)
    decreases |pattern|
  {
    MatchesDenotes(pattern, subject);
    var p, s := pattern, subject;
    while |p| > 0
      invariant |p| <= |pattern|
      invariant Matches(p, s) <==> Matches(pattern, subject)
    {
      match p[0] {
        case '*' =>
          TrimmedTail(p, s);
          p := TrimStars(p);
          if p == "" {
            assert Matches(p, s[|s|..]);
            return true;
          }
          for i := 0 to |s| + 1
            invariant forall j :: 0 <= j < i ==> !Matches(p, s[j..])
          {
            var here := GlobMatch(p, s[i..]);
            MatchesDenotes(p, s[i..]);
            if here {
              return true;
            }
          }
          return false;
        case '?' =>
          if s == "" {
            return false;
          }
          p, s := p[1..], s[1..];
        case _ =>
          if s == "" || p[0] != s[0] {
            return false;
          }
          p, s := p[1..], s[1..];
      }
    }
    return s == "";
  }
}
