/** The agent's privacy guard: redaction of token-looking runs and the split of an
    environment into names, fingerprints and allowlisted values. */
module Sanitize {
  import opened Text

  // ----- Token runs -----

  predicate IsUpper(c: char) { 'A' <= c <= 'Z' }

  predicate IsLower(c: char) { 'a' <= c <= 'z' }

  /** The character class of the high-entropy pattern. */
  predicate IsToken(c: char) {
    IsUpper(c) || IsLower(c) || IsDigit(c) || c == '+' || c == '/' || c == '_' || c == '-'
  }

  const MIN_RUN: nat := 24

  /** The length of the longest prefix of token characters. */
  function RunLength(s: string): (n: nat)
    ensures n <= |s|
    ensures forall i :: 0 <= i < n ==> IsToken(s[i])
    ensures n < |s| ==> !IsToken(s[n])
  {
    if s == "" || !IsToken(s[0]) then 0 else 1 + RunLength(s[1..])
  }

  /** The greedy `={0,2}` after a run. */
  function Padding(s: string): (n: nat)
    ensures n <= |s| && n <= 2
    ensures forall i :: 0 <= i < n ==> s[i] == '='
  {
    if |s| >= 2 && s[0] == '=' && s[1] == '=' then 2
    else if |s| >= 1 && s[0] == '=' then 1
    else 0
  }

  /** The first match of the pattern in a string that starts with a long run. */
  function Match(s: string): (m: string)
    requires RunLength(s) >= MIN_RUN
    ensures MIN_RUN <= |m| <= |s| && m == s[..|m|]
  {
    var r := RunLength(s);
    s[..r + Padding(s[r..])]
  }

  function Count(s: string, p: char -> bool): nat {
    if s == "" then 0 else (if p(s[0]) then 1 else 0) + Count(s[1..], p)
  }

  /** At least two digits, some letter, and no path separator. */
  predicate LooksRandom(s: string) {
    && '/' !in s && '.' !in s
    && Count(s, IsDigit) >= 2
    && (exists i :: 0 <= i < |s| && (IsUpper(s[i]) || IsLower(s[i])))
  }

  lemma {:induction false} CountAppend(a: string, b: string, p: char -> bool)
    ensures Count(a + b, p) == Count(a, p) + Count(b, p)
  {
    if a == "" {
      assert a + b == b;
    } else {
      assert (a + b)[1..] == a[1..] + b;
      CountAppend(a[1..], b, p);
    }
  }

  lemma {:induction false} CountPositive(s: string, p: char -> bool)
    ensures Count(s, p) > 0 <==> exists i :: 0 <= i < |s| && p(s[i])
  {
    if s != "" {
      CountPositive(s[1..], p);
      if i :| 0 <= i < |s[1..]| && p(s[1..][i]) { assert p(s[i + 1]); }
      if i :| 0 <= i < |s| && p(s[i]) {
        if i > 0 { assert p(s[1..][i - 1]); }
      }
    }
  }

  method LooksRandomCheck(s: string) returns (random: bool)
    ensures random <==> LooksRandom(s)
  {
    if exists i :: 0 <= i < |s| && s[i] in "/." {
      return false;
    }
    var upper, lower, digit := 0, 0, 0;
    for i := 0 to |s|
      invariant upper == Count(s[..i], IsUpper)
      invariant lower == Count(s[..i], IsLower)
      invariant digit == Count(s[..i], IsDigit)
    {
      var r := s[i];
      assert s[..i + 1] == s[..i] + [r];
      CountAppend(s[..i], [r], IsUpper);
      CountAppend(s[..i], [r], IsLower);
      CountAppend(s[..i], [r], IsDigit);
      if IsUpper(r) {
        upper := upper + 1;
      } else if IsLower(r) {
        lower := lower + 1;
      } else if IsDigit(r) {
        digit := digit + 1;
      }
    }
    assert s[..|s|] == s;
    CountPositive(s, IsUpper);
    CountPositive(s, IsLower);
    var classes := 0;
    if upper > 0 { classes := classes + 1; }
    if lower > 0 { classes := classes + 1; }
    if digit > 0 { classes := classes + 1; }
    assert LooksRandom(s) ==> upper > 0 || lower > 0;
    return classes >= 2 && digit >= 2;
  }

  // ----- Scrubbing -----

  predicate IsHex8(h: string) {
    |h| == 8 && forall i :: 0 <= i < 8 ==> IsDigit(h[i]) || 'a' <= h[i] <= 'f'
  }

  /** `hex` stands for `Fingerprint(m)[7:15]`: eight hexadecimal digits of a hash. */
  ghost predicate IsFingerprint(hex: string -> string) {
    forall m :: IsHex8(hex(m))
  }

  function Redaction(hex: string -> string, m: string): string {
    "<" + ("redacted" + (":" + (hex(m) + ">")))
  }

  function Replaced(hex: string -> string, m: string): string {
    if LooksRandom(m) then Redaction(hex, m) else m
  }

  function Scrub(hex: string -> string, s: string): string
    decreases |s|
  {
    var r := RunLength(s);
    if s == "" then ""
    else if r == 0 then [s[0]] + Scrub(hex, s[1..])
    else if r < MIN_RUN then s[..r] + Scrub(hex, s[r..])
    else Replaced(hex, Match(s)) + Scrub(hex, s[|Match(s)|..])
  }

  /** s[i..j] is a run of token characters that cannot be extended. */
  ghost predicate MaximalRun(s: string, i: nat, j: nat) {
    && i < j <= |s|
    && (forall k :: i <= k < j ==> IsToken(s[k]))
    && (i > 0 ==> !IsToken(s[i - 1]))
    && (j < |s| ==> !IsToken(s[j]))
  }

  /** No long maximal run looks random. */
  ghost predicate NoLeak(s: string) {
    forall i: nat, j: nat :: MaximalRun(s, i, j) && j - i >= MIN_RUN ==> !LooksRandom(s[i..j])
  }

  /** NoLeak by scanning. */
  predicate Clean(s: string)
    decreases |s|
  {
    var r := RunLength(s);
    if s == "" then true
    else if r == 0 then Clean(s[1..])
    else (r < MIN_RUN || !LooksRandom(s[..r])) && Clean(s[r..])
  }

  lemma {:induction false} RunLengthIs(w: string, u: string)
    requires forall i :: 0 <= i < |w| ==> IsToken(w[i])
    requires u == "" || !IsToken(u[0])
    ensures RunLength(w + u) == |w|
  {
    if w != "" {
      assert (w + u)[1..] == w[1..] + u;
      RunLengthIs(w[1..], u);
    } else {
      assert w + u == u;
    }
  }

  lemma {:induction false} CleanNoLeak(s: string)
    requires Clean(s)
    ensures NoLeak(s)
    decreases |s|
  {
    hide LooksRandom, IsToken;
    if s != "" {
      var r := RunLength(s);
      var k := if r == 0 then 1 else r;
      CleanNoLeak(s[k..]);
      forall i: nat, j: nat | MaximalRun(s, i, j) && j - i >= MIN_RUN
        ensures !LooksRandom(s[i..j])
      {
        assert i > 0 ==> !IsToken(s[i - 1]);
        assert IsToken(s[i]) && IsToken(s[j - 1]);
        assert r < |s| ==> !IsToken(s[r]);
        if i >= k {
          assert MaximalRun(s[k..], i - k, j - k);
          assert s[k..][i - k..j - k] == s[i..j];
        } else {
          assert i == 0 && j == r;
        }
      }
    }
  }

  /** A run followed by something that ends it is scanned as one run. */
  lemma CleanRun(w: string, u: string)
    requires w != "" && forall i :: 0 <= i < |w| ==> IsToken(w[i])
    requires u == "" || !IsToken(u[0])
    ensures Clean(w + u) <==> (|w| < MIN_RUN || !LooksRandom(w)) && Clean(u)
  {
    RunLengthIs(w, u);
    DropFirst(w, u);
  }

  lemma CleanSkip(c: char, u: string)
    requires !IsToken(c)
    ensures Clean([c] + u) <==> Clean(u)
  {
    assert ([c] + u)[1..] == u;
  }

  lemma CleanRedaction(hex: string -> string, m: string, u: string)
    requires IsFingerprint(hex) && Clean(u)
    ensures Clean(Redaction(hex, m) + u)
  {
    hide LooksRandom, Clean;
    assert IsHex8(hex(m));
    var h := hex(m);
    var t1 := ">" + u;
    var t2 := ":" + (h + t1);
    CleanSkip('>', u);
    CleanRun(h, t1);
    CleanSkip(':', h + t1);
    CleanRun("redacted", t2);
    CleanSkip('<', "redacted" + t2);
    Assoc("<", "redacted" + (":" + (h + ">")), u);
    Assoc("redacted", ":" + (h + ">"), u);
    Assoc(":", h + ">", u);
    Assoc(h, ">", u);
  }

  /** The digits, letters and separators of a match are those of its run. */
  lemma PaddingNeutral(w: string, e: string)
    requires forall i :: 0 <= i < |e| ==> e[i] == '='
    requires |e| <= 2
    ensures LooksRandom(w + e) <==> LooksRandom(w)
  {
    CountAppend(w, e, IsDigit);
    assert Count(e, IsDigit) == 0 by {
      CountPositive(e, IsDigit);
    }
    forall i | 0 <= i < |w + e| && (w + e)[i] != '=' ensures i < |w| && w[i] == (w + e)[i] {}
    forall c | c != '=' ensures c in w + e <==> c in w {}
    if i :| 0 <= i < |w| && (IsUpper(w[i]) || IsLower(w[i])) {
      assert (w + e)[i] == w[i];
    }
  }

  lemma {:induction false} CleanPadding(e: string, u: string)
    requires forall i :: 0 <= i < |e| ==> e[i] == '='
    ensures Clean(e + u) <==> Clean(u)
  {
    if e == "" {
      assert e + u == u;
    } else {
      CleanSkip('=', e[1..] + u);
      assert e + u == ['='] + (e[1..] + u);
      CleanPadding(e[1..], u);
    }
  }

  lemma {:induction false} ScrubStart(hex: string -> string, s: string)
    requires s == "" || !IsToken(s[0])
    ensures Scrub(hex, s) == "" || !IsToken(Scrub(hex, s)[0])
  {
  }

  lemma {:induction false} ScrubClean(hex: string -> string, s: string)
    requires IsFingerprint(hex)
    ensures Clean(Scrub(hex, s))
    decreases |s|
  {
    var r := RunLength(s);
    if s == "" {
    } else if r == 0 {
      ScrubClean(hex, s[1..]);
      CleanSkip(s[0], Scrub(hex, s[1..]));
    } else if r < MIN_RUN {
      ScrubClean(hex, s[r..]);
      ScrubStart(hex, s[r..]);
      CleanRun(s[..r], Scrub(hex, s[r..]));
    } else {
      var m := Match(s);
      var w, e, u := s[..r], s[r..][..Padding(s[r..])], Scrub(hex, s[|m|..]);
      assert m == w + e;
      ScrubClean(hex, s[|m|..]);
      if LooksRandom(m) {
        CleanRedaction(hex, m, u);
      } else {
        PaddingNeutral(w, e);
        CleanPadding(e, u);
        if e == "" {
          ScrubStart(hex, s[|m|..]);
        }
        assert e + u == "" || !IsToken((e + u)[0]);
        CleanRun(w, e + u);
        Assoc(w, e, u);
      }
    }
  }

  lemma {:induction false} CleanFixed(hex: string -> string, s: string)
    requires Clean(s)
    ensures Scrub(hex, s) == s
    decreases |s|
  {
    hide LooksRandom, IsToken;
    var r := RunLength(s);
    if s == "" {
    } else if r == 0 {
      CleanFixed(hex, s[1..]);
    } else if r < MIN_RUN {
      CleanFixed(hex, s[r..]);
    } else {
      var m := Match(s);
      var w, e := s[..r], s[r..][..Padding(s[r..])];
      assert m == w + e;
      PaddingNeutral(w, e);
      assert s[r..] == e + s[|m|..];
      CleanPadding(e, s[|m|..]);
      CleanFixed(hex, s[|m|..]);
    }
  }

  /** What leaves the host has no long run that looks random, and scrubbing it again
      changes nothing. */
  lemma ScrubSafe(hex: string -> string, s: string)
    requires IsFingerprint(hex)
    ensures NoLeak(Scrub(hex, s))
    ensures Scrub(hex, Scrub(hex, s)) == Scrub(hex, s)
  {
    ScrubClean(hex, s);
    CleanNoLeak(Scrub(hex, s));
    CleanFixed(hex, Scrub(hex, s));
  }

  // ----- What scrubbing keeps -----

  datatype Segment = Kept(text: string) | Hidden(text: string)

  function Segments(s: string): seq<Segment>
    decreases |s|
  {
    var r := RunLength(s);
    if s == "" then []
    else if r == 0 then [Kept([s[0]])] + Segments(s[1..])
    else if r < MIN_RUN then [Kept(s[..r])] + Segments(s[r..])
    else
      var m := Match(s);
      [if LooksRandom(m) then Hidden(m) else Kept(m)] + Segments(s[|m|..])
  }

  function Original(segs: seq<Segment>): string {
    if segs == [] then "" else segs[0].text + Original(segs[1..])
  }

  function Rendered(hex: string -> string, segs: seq<Segment>): string {
    if segs == [] then ""
    else RenderedOne(hex, segs[0]) + Rendered(hex, segs[1..])
  }

  ghost predicate HiddenRun(s: string, offset: nat, n: nat, text: string) {
    && n >= MIN_RUN && n <= |text| <= n + 2
    && MaximalRun(s, offset, offset + n)
    && offset + |text| <= |s| && s[offset..offset + |text|] == text
    && LooksRandom(s[offset..offset + n])
    && forall i :: n <= i < |text| ==> text[i] == '='
  }

  /** A hidden segment starts with a long maximal run of the string, looks random, and has
      at most two `=` after the run. */
  ghost predicate HiddenAt(s: string, offset: nat, text: string) {
    exists n: nat :: HiddenRun(s, offset, n, text)
  }

  ghost predicate OnlyRuns(s: string, segs: seq<Segment>) {
    forall k :: 0 <= k < |segs| && segs[k].Hidden? ==> HiddenAt(s, |Original(segs[..k])|, segs[k].text)
  }

  lemma HiddenShift(s: string, k: nat, offset: nat, text: string)
    requires 0 < k <= |s| && HiddenAt(s[k..], offset, text)
    requires offset == 0 ==> !IsToken(s[k - 1])
    ensures HiddenAt(s, k + offset, text)
  {
    var n: nat :| HiddenRun(s[k..], offset, n, text);
    hide LooksRandom, IsToken;
    assert s[k..][offset..offset + |text|] == s[k + offset..k + offset + |text|];
    assert s[k..][offset..offset + n] == s[k + offset..k + offset + n];
    assert offset > 0 ==> s[k..][offset - 1] == s[k + offset - 1];
    assert offset + n < |s[k..]| ==> s[k..][offset + n] == s[k + offset + n];
    forall i | k + offset <= i < k + offset + n ensures IsToken(s[i]) { assert s[i] == s[k..][i - k]; }
    assert HiddenRun(s, k + offset, n, text);
  }

  lemma OriginalSnoc(first: Segment, segs: seq<Segment>, k: nat)
    requires k <= |segs|
    ensures Original(([first] + segs)[..k + 1]) == first.text + Original(segs[..k])
  {
    assert ([first] + segs)[..k + 1][1..] == segs[..k];
  }

  lemma StartsWithToken(s: string, offset: nat, text: string)
    requires HiddenAt(s, offset, text)
    ensures offset < |s| && IsToken(s[offset])
  {
  }

  lemma OnlyRunsCons(s: string, first: Segment, segs: seq<Segment>)
    requires 0 < |first.text| <= |s|
    requires first.Hidden? ==> HiddenAt(s, 0, first.text)
    requires OnlyRuns(s[|first.text|..], segs)
    requires |first.text| == |s| || !IsToken(s[|first.text|]) || !IsToken(s[|first.text| - 1])
    ensures OnlyRuns(s, [first] + segs)
  {
    var all, n := [first] + segs, |first.text|;
    forall k | 0 <= k < |all| && all[k].Hidden?
      ensures HiddenAt(s, |Original(all[..k])|, all[k].text)
    {
      if k > 0 {
        OriginalSnoc(first, segs, k - 1);
        var offset := |Original(segs[..k - 1])|;
        assert HiddenAt(s[n..], offset, segs[k - 1].text);
        StartsWithToken(s[n..], offset, segs[k - 1].text);
        HiddenShift(s, n, offset, segs[k - 1].text);
      } else {
        assert all[..0] == [];
      }
    }
  }

  lemma FirstHidden(s: string)
    requires RunLength(s) >= MIN_RUN && LooksRandom(Match(s))
    ensures HiddenAt(s, 0, Match(s))
  {
    var m, r := Match(s), RunLength(s);
    var w, e := s[..r], s[r..][..Padding(s[r..])];
    assert m == w + e;
    PaddingNeutral(w, e);
    assert MaximalRun(s, 0, r);
    assert s[0..r] == w && s[0..|m|] == m;
    forall i | r <= i < |m| ensures m[i] == '=' { assert m[i] == e[i - r]; }
    assert HiddenRun(s, 0, r, m);
  }

  function RenderedOne(hex: string -> string, seg: Segment): string {
    if seg.Kept? then seg.text else Redaction(hex, seg.text)
  }

  lemma ScrubStep(hex: string -> string, s: string) returns (first: Segment)
    requires s != ""
    ensures 0 < |first.text| <= |s| && first.text == s[..|first.text|]
    ensures Segments(s) == [first] + Segments(s[|first.text|..])
    ensures Scrub(hex, s) == RenderedOne(hex, first) + Scrub(hex, s[|first.text|..])
    ensures first.Hidden? ==> HiddenAt(s, 0, first.text)
    ensures |first.text| == |s| || !IsToken(s[|first.text|]) || !IsToken(s[|first.text| - 1])
  {
    hide LooksRandom, IsToken, HiddenAt, Redaction;
    var r := RunLength(s);
    if r == 0 {
      first := Kept([s[0]]);
    } else if r < MIN_RUN {
      first := Kept(s[..r]);
    } else {
      var m := Match(s);
      first := if LooksRandom(m) then Hidden(m) else Kept(m);
      if first.Hidden? { FirstHidden(s); }
      assert !IsToken('=') by { EqualsNoToken(); }
      if |m| > r { assert s[|m| - 1] == s[r..][|m| - 1 - r]; }
    }
  }

  lemma EqualsNoToken()
    ensures !IsToken('=')
  {
  }

  lemma Unfold(hex: string -> string, first: Segment, rest: seq<Segment>)
    ensures Original([first] + rest) == first.text + Original(rest)
    ensures Rendered(hex, [first] + rest) == RenderedOne(hex, first) + Rendered(hex, rest)
  {
    DropFirst([first], rest);
  }

  lemma {:induction false} SegmentsOnlyRuns(hex: string -> string, s: string)
    ensures OnlyRuns(s, Segments(s))
    decreases |s|
  {
    if s != "" {
      var first := ScrubStep(hex, s);
      hide LooksRandom, IsToken, OnlyRuns, HiddenAt, Redaction, Scrub, Segments;
      SegmentsOnlyRuns(hex, s[|first.text|..]);
      OnlyRunsCons(s, first, Segments(s[|first.text|..]));
    }
  }

  lemma {:induction false} SegmentsOriginal(hex: string -> string, s: string)
    ensures Original(Segments(s)) == s
    decreases |s|
  {
    if s != "" {
      var first := ScrubStep(hex, s);
      hide LooksRandom, IsToken, HiddenAt, RenderedOne, Scrub, Segments;
      SegmentsOriginal(hex, s[|first.text|..]);
      Unfold(hex, first, Segments(s[|first.text|..]));
    }
  }

  lemma {:induction false} SegmentsRendered(hex: string -> string, s: string)
    ensures Rendered(hex, Segments(s)) == Scrub(hex, s)
    decreases |s|
  {
    if s != "" {
      var first := ScrubStep(hex, s);
      hide LooksRandom, IsToken, HiddenAt, RenderedOne, Scrub, Segments;
      SegmentsRendered(hex, s[|first.text|..]);
      Unfold(hex, first, Segments(s[|first.text|..]));
    }
  }

  /** Scrubbing cuts the string into segments, keeps them in order, and replaces only
      long maximal runs that look random (with their padding). */
  lemma ScrubKeeps(hex: string -> string, s: string)
    ensures Original(Segments(s)) == s
    ensures Rendered(hex, Segments(s)) == Scrub(hex, s)
    ensures OnlyRuns(s, Segments(s))
  {
    hide *;
    SegmentsOriginal(hex, s);
    SegmentsRendered(hex, s);
    SegmentsOnlyRuns(hex, s);
  }

  // ----- Environment variables -----

  function ToUpper(s: string): string {
    seq(|s|, i requires 0 <= i < |s| => if IsLower(s[i]) then (s[i] as int - 32) as char else s[i])
  }

  predicate Contains(s: string, t: string) {
    exists i :: 0 <= i <= |s| && t <= s[i..]
  }

  predicate IsSecretKey(key: string) {
    exists w :: w in ["KEY", "TOKEN", "SECRET", "PASS", "CRED", "AUTH", "PWD", "PRIVATE", "CERT", "SIGNATURE", "ACCESS"]
      && Contains(ToUpper(key), w)
  }

  predicate Allowlisted(key: string) {
    key in ["DB_TYPE", "N8N_PORT", "N8N_PROTOCOL", "N8N_HOST", "WEBHOOK_URL", "EXECUTIONS_MODE",
            "QUEUE_BULL_REDIS_HOST", "DB_POSTGRESDB_HOST", "NODE_ENV"]
  }

  function Truncate(s: string, n: nat): string { if |s| <= n then s else s[..n] }

  /** strings.Cut(kv, "="). */
  function Cut(kv: string): Option<(string, string)> {
    if kv == "" then None
    else if kv[0] == '=' then Some(("", kv[1..]))
    else
      var (k, v) :- Cut(kv[1..]);
      Some(([kv[0]] + k, v))
  }

  datatype Env = Env(names: seq<string>, secrets: map<string, string>, plain: map<string, string>)

  function Classified(fp: string -> string, e: Env, kv: string): Env {
    match Cut(kv)
    case None => e
    case Some((k, v)) =>
      if k == "" then e
      else
        var named := e.(names := e.names + [k]);
        if IsSecretKey(k) then named.(secrets := e.secrets[k := fp(v)])
        else if Allowlisted(k) then named.(plain := e.plain[k := Truncate(v, 120)])
        else named
  }

  function SplitAll(fp: string -> string, e: Env, env: seq<string>): Env
    decreases env
  {
    if env == [] then e else SplitAll(fp, Classified(fp, e, env[0]), env[1..])
  }

  method SplitEnv(fp: string -> string, env: seq<string>) returns (out: Env)
    ensures out == SplitAll(fp, Env([], map[], map[]), env)
  {
    var names: seq<string>, secrets: map<string, string>, plain: map<string, string> := [], map[], map[];
    for i := 0 to |env|
      invariant SplitAll(fp, Env(names, secrets, plain), env[i..]) == SplitAll(fp, Env([], map[], map[]), env)
    {
      assert env[i..][0] == env[i] && env[i..][1..] == env[i + 1..];
      match Cut(env[i]) {
        case None =>
        case Some((k, v)) =>
          if k != "" {
            names := names + [k];
            if IsSecretKey(k) {
              secrets := secrets[k := fp(v)];
            } else if Allowlisted(k) {
              plain := plain[k := Truncate(v, 120)];
            }
          }
      }
    }
    assert env[|env|..] == [];
    out := Env(names, secrets, plain);
  }

  /** Two variables that an observer outside the host must not tell apart: the same name,
      and equal fingerprints (secret), equal truncations (allowlisted), or any values. */
  predicate Alike(fp: string -> string, a: string, b: string) {
    match (Cut(a), Cut(b))
    case (None, None) => true
    case (Some((k, v)), Some((k', v'))) =>
      k == k' &&
      if IsSecretKey(k) then fp(v) == fp(v')
      else Allowlisted(k) ==> Truncate(v, 120) == Truncate(v', 120)
    case _ => false
  }

  /** The value of a secret reaches the output only through its fingerprint, and the value of
      a variable that is neither secret nor allowlisted does not reach it at all. */
  lemma {:induction false} SecretsStayHome(fp: string -> string, e: Env, a: seq<string>, b: seq<string>)
    requires |a| == |b| && forall i :: 0 <= i < |a| ==> Alike(fp, a[i], b[i])
    ensures SplitAll(fp, e, a) == SplitAll(fp, e, b)
    decreases a
  {
    if a != [] {
      assert Alike(fp, a[0], b[0]);
      forall i | 0 <= i < |a[1..]| ensures Alike(fp, a[1..][i], b[1..][i]) {
        assert Alike(fp, a[i + 1], b[i + 1]);
      }
      SecretsStayHome(fp, Classified(fp, e, a[0]), a[1..], b[1..]);
    }
  }
}
