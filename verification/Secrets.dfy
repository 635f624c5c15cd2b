/** What the privacy guard lets through, stated without its own functions: planted secrets,
    unchanged strings, and the three kinds of environment variables. */
module Secrets {
  import opened Text
  import opened Sanitize

  // ----- Redaction -----

  predicate AllToken(w: string) { forall i :: 0 <= i < |w| ==> IsToken(w[i]) }

  /** Nothing that a run of token characters or its padding could take in. */
  predicate StartsApart(b: string) { b == "" || (!IsToken(b[0]) && b[0] != '=') }

  predicate EndsApart(a: string) { a == "" || !IsToken(a[|a| - 1]) }

  lemma {:induction false} RunWithin(a: string, x: string)
    requires EndsApart(a)
    ensures RunLength(a + x) == if a == "" then RunLength(x) else RunLength(a)
    ensures a != "" ==> RunLength(a) < |a|
  {
    hide IsToken;
    if a == "" {
      assert a + x == x;
    } else {
      assert (a + x)[1..] == a[1..] + x;
      if |a| > 1 { RunWithin(a[1..], x); }
    }
  }

  lemma PaddingWithin(a: string, x: string)
    requires x == "" || x[0] != '='
    ensures Padding(a + x) == Padding(a)
  {
  }

  /** The length of the first segment of a string, and what scrubbing makes of it. */
  function StepLength(s: string): (k: nat)
    requires s != ""
    ensures 0 < k <= |s|
  {
    var r := RunLength(s);
    if r == 0 then 1 else if r < MIN_RUN then r else |Match(s)|
  }

  function Piece(hex: string -> string, s: string): string
    requires s != ""
  {
    if RunLength(s) < MIN_RUN then s[..StepLength(s)] else Replaced(hex, Match(s))
  }

  lemma ScrubUnfolds(hex: string -> string, s: string)
    requires s != ""
    ensures Scrub(hex, s) == Piece(hex, s) + Scrub(hex, s[StepLength(s)..])
  {
    hide IsToken, Replaced;
  }

  lemma SameStep(hex: string -> string, a: string, x: string)
    requires a != "" && EndsApart(a) && (x == "" || x[0] != '=')
    ensures StepLength(a + x) == StepLength(a) && Piece(hex, a + x) == Piece(hex, a)
  {
    RunWithin(a, x);
    var r := RunLength(a);
    hide IsToken, Replaced, RunLength;
    if r >= MIN_RUN {
      assert (a + x)[r..] == a[r..] + x;
      PaddingWithin(a[r..], x);
      assert Match(a + x) == Match(a);
    }
    assert (a + x)[..StepLength(a)] == a[..StepLength(a)];
  }

  lemma NothingToScrub(hex: string -> string)
    ensures Scrub(hex, "") == ""
  {
  }

  /** Scrubbing treats the two sides of a boundary between runs alone. */
  lemma {:induction false} ScrubSplit(hex: string -> string, a: string, x: string)
    requires EndsApart(a) && (x == "" || x[0] != '=')
    ensures Scrub(hex, a + x) == Scrub(hex, a) + Scrub(hex, x)
    decreases |a|
  {
    hide IsToken, Piece, Scrub;
    if a == "" {
      assert a + x == x;
      NothingToScrub(hex);
    } else {
      SameStep(hex, a, x);
      ScrubUnfolds(hex, a);
      ScrubUnfolds(hex, a + x);
      var k := StepLength(a);
      hide StepLength;
      assert (a + x)[k..] == a[k..] + x;
      ScrubSplit(hex, a[k..], x);
      Assoc(Piece(hex, a), Scrub(hex, a[k..]), Scrub(hex, x));
    }
  }

  /** The padding of a token: at most two equals signs, and no more of them than are there. */
  predicate Pads(e: string, b: string) {
    || (e == "" && StartsApart(b))
    || (e == "=" && (b == "" || b[0] != '='))
    || e == "=="
  }

  lemma PadsAll(e: string, b: string)
    requires Pads(e, b)
    ensures Padding(e + b) == |e| && (e + b == "" || !IsToken((e + b)[0])) && AllOf(e, '=')
  {
    EqualsNoToken();
  }

  predicate AllOf(s: string, c: char) { forall i :: 0 <= i < |s| ==> s[i] == c }

  lemma MatchIs(w: string, e: string, b: string)
    requires |w| >= 24 && AllToken(w) && Pads(e, b)
    ensures RunLength((w + e) + b) == |w| && Match((w + e) + b) == w + e
  {
    Assoc(w, e, b);
    PadsAll(e, b);
    RunLengthIs(w, e + b);
    DropFirst(w, e + b);
    hide IsToken, RunLength, Padding, Pads;
  }

  lemma RedactionIs(hex: string -> string, m: string)
    ensures Redaction(hex, m) == "<redacted:" + hex(m) + ">"
  {
    assert "<" + ("redacted" + ":") == "<redacted:";
  }

  lemma ScrubToken(hex: string -> string, w: string, e: string, b: string)
    requires |w| >= 24 && AllToken(w) && LooksRandom(w) && Pads(e, b)
    ensures Scrub(hex, (w + e) + b) == "<redacted:" + hex(w + e) + ">" + Scrub(hex, b)
  {
    MatchIs(w, e, b);
    PadsAll(e, b);
    PaddingNeutral(w, e);
    RedactionIs(hex, w + e);
    var s := (w + e) + b;
    ScrubUnfolds(hex, s);
    DropFirst(w + e, b);
    assert StepLength(s) == |w + e| && Piece(hex, s) == Redaction(hex, w + e);
    hide *;
  }

  /** A random-looking token of at least 24 characters, wherever it stands, is replaced with its
      padding by eight digits of its fingerprint between fixed marks, and the text on both sides is
      scrubbed as if it stood alone. */
  lemma PlantedSecret(hex: string -> string, a: string, w: string, e: string, b: string)
    requires EndsApart(a) && |w| >= 24 && AllToken(w) && LooksRandom(w) && Pads(e, b)
    ensures Scrub(hex, a + ((w + e) + b)) == Scrub(hex, a) + ("<redacted:" + hex(w + e) + ">" + Scrub(hex, b))
  {
    var s := (w + e) + b;
    assert s[0] == w[0] && IsToken(w[0]);
    EqualsNoToken();
    ScrubSplit(hex, a, s);
    ScrubToken(hex, w, e, b);
  }

  /** Two strings whose segments agree, but for hidden texts of equal fingerprints. */
  predicate SameButHidden(hex: string -> string, a: seq<Segment>, b: seq<Segment>) {
    |a| == |b| && forall k :: 0 <= k < |a| ==> SameOrHidden(hex, a[k], b[k])
  }

  predicate SameOrHidden(hex: string -> string, a: Segment, b: Segment) {
    a == b || (a.Hidden? && b.Hidden? && hex(a.text) == hex(b.text))
  }

  lemma {:induction false} SameRendering(hex: string -> string, a: seq<Segment>, b: seq<Segment>)
    requires SameButHidden(hex, a, b)
    ensures Rendered(hex, a) == Rendered(hex, b)
  {
    if a != [] {
      assert SameOrHidden(hex, a[0], b[0]);
      forall k | 0 <= k < |a[1..]| ensures SameOrHidden(hex, a[1..][k], b[1..][k]) {
        assert SameOrHidden(hex, a[k + 1], b[k + 1]);
      }
      SameRendering(hex, a[1..], b[1..]);
    }
  }

  /** A hidden text reaches the output only through its fingerprint, between fixed marks. */
  lemma HiddenStaysHome(hex: string -> string, s: string, t: string)
    requires SameButHidden(hex, Segments(s), Segments(t))
    ensures Scrub(hex, s) == Scrub(hex, t)
    ensures forall seg: Segment :: seg.Hidden? ==> RenderedOne(hex, seg) == "<redacted:" + hex(seg.text) + ">"
  {
    forall seg: Segment | seg.Hidden? ensures RenderedOne(hex, seg) == "<redacted:" + hex(seg.text) + ">" {
      RedactionIs(hex, seg.text);
    }
    hide Redaction, RenderedOne, Segments, Rendered, Scrub, SameButHidden;
    SegmentsRendered(hex, s);
    SegmentsRendered(hex, t);
    SameRendering(hex, Segments(s), Segments(t));
  }

  lemma {:induction false} NoLeakClean(s: string)
    requires NoLeak(s)
    ensures Clean(s)
    decreases |s|
  {
    hide LooksRandom, IsToken;
    if s != "" {
      var r := RunLength(s);
      var k := if r == 0 then 1 else r;
      assert r > 0 ==> MaximalRun(s, 0, r) && s[0..r] == s[..r];
      forall i: nat, j: nat | MaximalRun(s[k..], i, j) && j - i >= MIN_RUN
        ensures !LooksRandom(s[k..][i..j])
      {
        assert IsToken(s[k..][i]);
        assert i == 0 ==> k < |s| && !IsToken(s[k - 1]);
        assert forall n :: k + i <= n < k + j ==> s[n] == s[k..][n - k];
        assert i > 0 ==> s[k..][i - 1] == s[k + i - 1];
        assert j < |s[k..]| ==> s[k..][j] == s[k + j];
        assert MaximalRun(s, k + i, k + j);
        assert s[k..][i..j] == s[k + i..k + j];
      }
      NoLeakClean(s[k..]);
    }
  }

  /** Scrubbing leaves a string alone exactly when it has no long random-looking run. */
  lemma UnchangedExactly(hex: string -> string, s: string)
    requires IsFingerprint(hex)
    ensures Scrub(hex, s) == s <==> NoLeak(s)
  {
    hide Scrub, Clean, NoLeak;
    ScrubClean(hex, s);
    if Scrub(hex, s) == s { CleanNoLeak(s); }
    if NoLeak(s) {
      NoLeakClean(s);
      CleanFixed(hex, s);
    }
  }

  lemma ShortUnchanged(hex: string -> string, s: string)
    requires |s| < 24
    ensures Scrub(hex, s) == s
  {
    NoLeakClean(s);
    CleanFixed(hex, s);
  }

  lemma TwoDigits(s: string, i: nat, j: nat)
    requires i < j < |s| && IsDigit(s[i]) && IsDigit(s[j])
    ensures Count(s, IsDigit) >= 2
  {
    assert s == s[..j] + s[j..];
    CountAppend(s[..j], s[j..], IsDigit);
    CountPositive(s[..j], IsDigit);
    CountPositive(s[j..], IsDigit);
    assert IsDigit(s[..j][i]) && IsDigit(s[j..][0]);
  }

  lemma {:induction false} SomeDigit(s: string) returns (i: nat)
    requires Count(s, IsDigit) >= 1
    ensures i < |s| && IsDigit(s[i])
    ensures Count(s[i + 1..], IsDigit) == Count(s, IsDigit) - 1
  {
    if IsDigit(s[0]) {
      i := 0;
    } else {
      var j := SomeDigit(s[1..]);
      i := j + 1;
      assert s[1..][j + 1..] == s[i + 1..];
    }
  }

  /** A text looks random if and only if it has two digits and an ASCII letter, and neither a slash
      nor a dot. */
  lemma RandomExactly(s: string)
    ensures LooksRandom(s) <==>
      && '/' !in s && '.' !in s
      && (exists i, j :: 0 <= i < j < |s| && IsDigit(s[i]) && IsDigit(s[j]))
      && (exists i :: 0 <= i < |s| && ('a' <= s[i] <= 'z' || 'A' <= s[i] <= 'Z'))
  {
    if i, j :| 0 <= i < j < |s| && IsDigit(s[i]) && IsDigit(s[j]) { TwoDigits(s, i, j); }
    if Count(s, IsDigit) >= 2 {
      var i := SomeDigit(s);
      var k := SomeDigit(s[i + 1..]);
      assert IsDigit(s[i + 1 + k]);
    }
    hide Count, IsDigit;
    if i :| 0 <= i < |s| && (IsUpper(s[i]) || IsLower(s[i])) {
      assert 'a' <= s[i] <= 'z' || 'A' <= s[i] <= 'Z';
    }
    if i :| 0 <= i < |s| && ('a' <= s[i] <= 'z' || 'A' <= s[i] <= 'Z') {
      assert IsUpper(s[i]) || IsLower(s[i]);
    }
  }

  lemma CapitalsAndDigits()
    ensures var w := "AKIA1234567890ABCDEF5678";
      && |w| == 24 && IsUpper(w[0]) && IsDigit(w[4]) && IsDigit(w[5])
      && forall i :: 0 <= i < |w| ==> IsUpper(w[i]) || IsDigit(w[i])
  {
  }

  lemma RandomLetters(w: string, i: nat, j: nat)
    requires forall n :: 0 <= n < |w| ==> IsUpper(w[n]) || IsDigit(w[n])
    requires i < j < |w| && IsDigit(w[i]) && IsDigit(w[j]) && IsUpper(w[0])
    ensures AllToken(w) && LooksRandom(w)
  {
    TwoDigits(w, i, j);
    hide Count;
    forall c | c in w ensures c != '/' && c != '.' {}
  }

  lemma TestedToken()
    ensures var w := "AKIA1234567890ABCDEF5678"; AllToken(w) && LooksRandom(w)
  {
    hide *;
    CapitalsAndDigits();
    RandomLetters("AKIA1234567890ABCDEF5678", 4, 5);
  }

  lemma TestedPrefix(hex: string -> string)
    ensures Scrub(hex, "node /app/run.js --token ") == "node /app/run.js --token "
  {
    hide IsToken, Scrub;
    SpaceNoToken();
    ShortUnchanged(hex, "node ");
    ShortUnchanged(hex, "/app/run.js --token ");
    ScrubSplit(hex, "node ", "/app/run.js --token ");
    assert "node " + "/app/run.js --token " == "node /app/run.js --token ";
  }

  /** A token among text that scrubbing leaves alone. */
  lemma PlantedAmong(hex: string -> string, a: string, w: string, b: string)
    requires EndsApart(a) && |w| >= 24 && AllToken(w) && LooksRandom(w) && StartsApart(b)
    requires Scrub(hex, a) == a && Scrub(hex, b) == b
    ensures Scrub(hex, a + (w + b)) == a + ("<redacted:" + hex(w) + ">" + b)
  {
    hide Scrub, LooksRandom, AllToken, EndsApart;
    assert w + "" == w;
    PlantedSecret(hex, a, w, "", b);
  }

  lemma TestedEdges()
    ensures EndsApart("node /app/run.js --token ") && StartsApart(" --path /etc/config")
    ensures |" --path /etc/config"| < 24 && |"AKIA1234567890ABCDEF5678"| == 24
  {
  }

  /** The command line that the tests of the repository name. */
  lemma TestedCommand(hex: string -> string)
    ensures var token := "AKIA1234567890ABCDEF5678";
      Scrub(hex, "node /app/run.js --token " + (token + " --path /etc/config"))
      == "node /app/run.js --token " + ("<redacted:" + hex(token) + ">" + " --path /etc/config")
  {
    hide *;
    TestedToken();
    TestedPrefix(hex);
    TestedEdges();
    ShortUnchanged(hex, " --path /etc/config");
    PlantedAmong(hex, "node /app/run.js --token ", "AKIA1234567890ABCDEF5678", " --path /etc/config");
  }

  lemma SpaceNoToken()
    ensures !IsToken(' ')
  {
  }

  // ----- Environment variables -----

  /** The name ends at the first equals sign; without one there is no variable. */
  lemma {:induction false} CutExactly(k: string, v: string)
    requires '=' !in k
    ensures Cut(k + ("=" + v)) == Some((k, v)) && Cut(k) == None
  {
    if k == "" {
      assert "" + ("=" + v) == "=" + v && ("=" + v)[1..] == v;
    } else {
      assert (k + ("=" + v))[1..] == k[1..] + ("=" + v);
      CutExactly(k[1..], v);
      assert [k[0]] + k[1..] == k;
    }
  }

  /** A variable as it stands in an environment. */
  function Variable(k: string, v: string): string { k + ("=" + v) }

  predicate ProperName(k: string) { k != "" && '=' !in k }

  ghost predicate Describes(env: seq<string>, names: seq<string>, values: seq<string>) {
    && |env| == |names| == |values|
    && forall i :: 0 <= i < |env| ==> ProperName(names[i]) && env[i] == Variable(names[i], values[i])
  }

  /** The value that the last variable of that name has. */
  function LastValue(names: seq<string>, values: seq<string>, k: string): string
    requires |names| == |values| && k in names
  {
    var n := |names| - 1;
    if names[n] == k then values[n]
    else
      assert names == names[..n] + [names[n]];
      LastValue(names[..n], values[..n], k)
  }

  ghost predicate SecretsOut(fp: string -> string, names: seq<string>, values: seq<string>, out: map<string, string>)
    requires |names| == |values|
  {
    && (forall k :: k in out <==> k in names && IsSecretKey(k))
    && (forall k :: k in names && IsSecretKey(k) ==> out[k] == fp(LastValue(names, values, k)))
  }

  ghost predicate PlainOut(names: seq<string>, values: seq<string>, out: map<string, string>)
    requires |names| == |values|
  {
    && (forall k :: k in out <==> k in names && !IsSecretKey(k) && Allowlisted(k))
    && (forall k :: k in names && !IsSecretKey(k) && Allowlisted(k) ==> IsCut(LastValue(names, values, k), 120, out[k]))
  }

  ghost predicate SortedOut(fp: string -> string, names: seq<string>, values: seq<string>, out: Env)
    requires |names| == |values|
  {
    out.names == names && SecretsOut(fp, names, values, out.secrets) && PlainOut(names, values, out.plain)
  }

  /** The first `n` characters of a text, or all of it. */
  predicate IsCut(v: string, n: nat, cut: string) {
    cut <= v && |cut| == if |v| <= n then |v| else n
  }

  lemma {:induction false} SplitAllSnoc(fp: string -> string, e: Env, env: seq<string>, kv: string)
    ensures SplitAll(fp, e, env + [kv]) == Classified(fp, SplitAll(fp, e, env), kv)
    decreases env
  {
    hide Classified;
    if env == [] {
      assert (env + [kv])[1..] == [] && (env + [kv])[0] == kv;
    } else {
      assert (env + [kv])[1..] == env[1..] + [kv];
      SplitAllSnoc(fp, Classified(fp, e, env[0]), env[1..], kv);
    }
  }

  lemma LastValueSnoc(names: seq<string>, values: seq<string>, name: string, value: string, k: string)
    requires |names| == |values| && (k in names || k == name)
    ensures LastValue(names + [name], values + [value], k) ==
      if k == name then value else LastValue(names, values, k)
  {
    assert (names + [name])[..|names|] == names && (values + [value])[..|values|] == values;
  }

  lemma TruncateCuts(v: string)
    ensures IsCut(v, 120, Truncate(v, 120))
  {
  }

  lemma MoreNames(names: seq<string>, values: seq<string>, k: string, v: string)
    requires |names| == |values|
    ensures forall k1 :: k1 in names + [k] <==> k1 in names || k1 == k
    ensures forall k1 :: k1 in names || k1 == k ==>
      LastValue(names + [k], values + [v], k1) == if k1 == k then v else LastValue(names, values, k1)
  {
    hide LastValue;
    forall k1 ensures k1 in names + [k] <==> k1 in names || k1 == k {}
    forall k1 | k1 in names || k1 == k {
      LastValueSnoc(names, values, k, v, k1);
    }
  }

  lemma SecretsOne(fp: string -> string, names: seq<string>, values: seq<string>, out: map<string, string>, k: string,
                   v: string)
    requires |names| == |values| && SecretsOut(fp, names, values, out)
    ensures SecretsOut(fp, names + [k], values + [v], if IsSecretKey(k) then out[k := fp(v)] else out)
  {
    MoreNames(names, values, k, v);
    hide IsSecretKey, LastValue;
  }

  lemma PlainOne(names: seq<string>, values: seq<string>, out: map<string, string>, k: string, v: string)
    requires |names| == |values| && PlainOut(names, values, out)
    ensures PlainOut(names + [k], values + [v],
                     if !IsSecretKey(k) && Allowlisted(k) then out[k := Truncate(v, 120)] else out)
  {
    MoreNames(names, values, k, v);
    TruncateCuts(v);
    hide IsSecretKey, Allowlisted, LastValue, IsCut, Truncate;
  }

  lemma ClassifiedOne(fp: string -> string, names: seq<string>, values: seq<string>, out: Env, k: string, v: string)
    requires |names| == |values| && SortedOut(fp, names, values, out) && ProperName(k)
    ensures SortedOut(fp, names + [k], values + [v], Classified(fp, out, Variable(k, v)))
  {
    CutExactly(k, v);
    SecretsOne(fp, names, values, out.secrets, k, v);
    PlainOne(names, values, out.plain, k, v);
    hide Cut, IsSecretKey, Allowlisted, Truncate, SecretsOut, PlainOut;
  }

  /** Every variable is named, in order; exactly the secret ones leave a fingerprint, exactly the
      other allowlisted ones their first 120 characters, each of the last value; the rest leaves
      nothing. */
  lemma {:induction false} EnvironmentExactly(fp: string -> string, env: seq<string>, names: seq<string>,
                                              values: seq<string>)
    requires Describes(env, names, values)
    ensures SortedOut(fp, names, values, SplitAll(fp, Env([], map[], map[]), env))
  {
    if env != [] {
      var n := |env| - 1;
      assert env == env[..n] + [env[n]] && names == names[..n] + [names[n]] && values == values[..n] + [values[n]];
      hide SplitAll, Classified, SortedOut;
      EnvironmentExactly(fp, env[..n], names[..n], values[..n]);
      SplitAllSnoc(fp, Env([], map[], map[]), env[..n], env[n]);
      ClassifiedOne(fp, names[..n], values[..n], SplitAll(fp, Env([], map[], map[]), env[..n]), names[n], values[n]);
    }
  }

  /** The same letters in either case, in ASCII. */
  predicate SameLetters(u: string, w: string) {
    |u| == |w| && forall i :: 0 <= i < |u| ==> u[i] == w[i] || (IsUpper(w[i]) && u[i] as int == w[i] as int + 32)
  }

  /** A name that contains one of the words, in any case, is secret, whatever stands around it. */
  lemma SecretWord(a: string, u: string, b: string, w: string)
    requires w in ["KEY", "TOKEN", "SECRET", "PASS", "CRED", "AUTH", "PWD", "PRIVATE", "CERT", "SIGNATURE", "ACCESS"]
    requires SameLetters(u, w)
    ensures IsSecretKey(a + (u + b))
  {
    var name := ToUpper(a + (u + b));
    AllUpper(w);
    assert name[|a|..][..|u|] == w;
    assert w <= name[|a|..];
    assert Contains(name, w);
  }

  lemma AllUpper(w: string)
    requires w in ["KEY", "TOKEN", "SECRET", "PASS", "CRED", "AUTH", "PWD", "PRIVATE", "CERT", "SIGNATURE", "ACCESS"]
    ensures forall i :: 0 <= i < |w| ==> IsUpper(w[i])
  {
  }

  /** The secrets that the tests of the repository name. */
  lemma TestedNames()
    ensures IsSecretKey("N8N_ENCRYPTION_KEY") && IsSecretKey("DB_POSTGRESDB_PASSWORD") && IsSecretKey("OPENAI_API_KEY")
    ensures Allowlisted("DB_TYPE") && Allowlisted("NODE_ENV") && Allowlisted("WEBHOOK_URL")
  {
    hide IsSecretKey;
    SecretWord("N8N_ENCRYPTION_", "KEY", "", "KEY");
    SecretWord("DB_POSTGRESDB_", "PASS", "WORD", "PASS");
    SecretWord("OPENAI_API_", "KEY", "", "KEY");
    assert "N8N_ENCRYPTION_" + ("KEY" + "") == "N8N_ENCRYPTION_KEY";
    assert "DB_POSTGRESDB_" + ("PASS" + "WORD") == "DB_POSTGRESDB_PASSWORD";
    assert "OPENAI_API_" + ("KEY" + "") == "OPENAI_API_KEY";
  }
}
