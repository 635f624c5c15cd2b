/** What the version parser reads: printed lists of numbers come back as those numbers. */
module VersionTexts {
  import opened Text
  import opened Versions

  // ----- Numbers -----

  const TWO_63 := 0x8000_0000_0000_0000
  const TWO_64 := 0x1_0000_0000_0000_0000

  /** Wrapping only depends on the remainder modulo 2^64. */
  lemma WrapCongruent(a: int, b: int, k: int)
    requires a == b + k * TWO_64
    ensures Wrap64(a) == Wrap64(b)
  {
  }

  lemma WrapShifts(n: int) returns (k: int)
    ensures Wrap64(n) == n - k * TWO_64
  {
    k := (n + TWO_63) / TWO_64;
  }

  lemma WrapStep(n: int, d: int)
    ensures Wrap64(Wrap64(n) * 10 + d) == Wrap64(n * 10 + d)
  {
    var k := WrapShifts(n);
    WrapCongruent(Wrap64(n) * 10 + d, n * 10 + d, -10 * k);
  }

  lemma {:induction false} LeadingDec(n: nat, t: string)
    ensures LeadingNumber(Dec(n) + t, 0) == LeadingNumber(t, Wrap64(n))
  {
    hide Wrap64;
    if n < 10 {
      assert (Dec(n) + t)[1..] == t;
    } else {
      var u := [Digit(n % 10)] + t;
      assert Dec(n) + t == Dec(n / 10) + u;
      LeadingDec(n / 10, u);
      assert u[1..] == t;
      WrapStep(n / 10, n % 10);
    }
  }

  // ----- Fields -----

  predicate NoSeparator(w: string) { forall i :: 0 <= i < |w| ==> !IsSeparator(w[i]) }

  predicate FieldEnds(u: string) { u == "" || IsSeparator(u[0]) }

  lemma {:induction false} FieldLengthIs(w: string, u: string)
    requires NoSeparator(w) && FieldEnds(u)
    ensures FieldLength(w + u) == |w|
  {
    if w == "" {
      assert w + u == u;
    } else {
      assert (w + u)[1..] == w[1..] + u;
      FieldLengthIs(w[1..], u);
    }
  }

  lemma FieldsCons(w: string, u: string)
    requires w != "" && NoSeparator(w) && FieldEnds(u)
    ensures Fields(w + u) == [w] + Fields(u)
  {
    FieldLengthIs(w, u);
    DropFirst(w, u);
  }

  lemma NumbersCons(w: string, rest: seq<string>)
    ensures Numbers([w] + rest) == [LeadingNumber(w, 0)] + Numbers(rest)
  {
    DropFirst([w], rest);
  }

  lemma DecNoSeparator(n: nat)
    ensures NoSeparator(Dec(n)) && Dec(n) != "" && IsDigit(Dec(n)[0])
  {
    DecIsDigits(n);
  }

  // ----- Printed versions -----

  /** Decimal numbers with dots between them. */
  function Printed(ns: seq<nat>): string
    requires ns != []
  {
    if |ns| == 1 then Dec(ns[0]) else Dec(ns[0]) + ("." + Printed(ns[1..]))
  }

  function Wrapped(ns: seq<nat>): seq<int> {
    seq(|ns|, i requires 0 <= i < |ns| => Wrap64(ns[i]))
  }

  /** One field: a number, then letters that the parser ignores. */
  lemma OneField(n: nat, tail: string, u: string)
    requires NoSeparator(tail) && !StartsWithDigit(tail) && FieldEnds(u)
    ensures Numbers(Fields(Dec(n) + (tail + u))) == [Wrap64(n)] + Numbers(Fields(u))
  {
    hide Wrap64;
    var w := Dec(n) + tail;
    DecNoSeparator(n);
    Assoc(Dec(n), tail, u);
    FieldsCons(w, u);
    NumbersCons(w, Fields(u));
    LeadingDec(n, tail);
  }

  lemma {:induction false} PrintedFields(ns: seq<nat>, tail: string, u: string)
    requires ns != [] && NoSeparator(tail) && !StartsWithDigit(tail) && FieldEnds(u)
    ensures Numbers(Fields(Printed(ns) + (tail + u))) == Wrapped(ns) + Numbers(Fields(u))
  {
    hide Wrap64, Numbers, Fields;
    if |ns| == 1 {
      OneField(ns[0], tail, u);
      assert Wrapped(ns) == [Wrap64(ns[0])];
    } else {
      var rest := Printed(ns[1..]) + (tail + u);
      PrintedFields(ns[1..], tail, u);
      assert Printed(ns) + (tail + u) == Dec(ns[0]) + ("" + ("." + rest));
      OneField(ns[0], "", "." + rest);
      SkipSeparator('.', rest);
      assert Wrapped(ns) == [Wrap64(ns[0])] + Wrapped(ns[1..]);
      Assoc([Wrap64(ns[0])], Wrapped(ns[1..]), Numbers(Fields(u)));
    }
  }

  lemma SkipSeparator(c: char, rest: string)
    requires IsSeparator(c)
    ensures Fields([c] + rest) == Fields(rest)
  {
    assert ([c] + rest)[1..] == rest;
  }

  // ----- Spaces and the letter v -----

  predicate AllSpace(s: string) { forall i :: 0 <= i < |s| ==> IsSpace(s[i]) }

  lemma {:induction false} TrimmedBetween(lead: string, s: string, trail: string)
    requires AllSpace(lead) && AllSpace(trail)
    requires s != "" && !IsSpace(s[0]) && !IsSpace(s[|s| - 1])
    ensures TrimSpace(lead + (s + trail)) == s
    decreases |lead| + |trail|
  {
    hide IsSpace;
    var all := lead + (s + trail);
    if lead != "" {
      assert all[1..] == lead[1..] + (s + trail);
      TrimmedBetween(lead[1..], s, trail);
    } else if trail != "" {
      assert all == s + trail && all[..|all| - 1] == "" + (s + trail[..|trail| - 1]);
      TrimmedBetween("", s, trail[..|trail| - 1]);
    } else {
      assert all == s;
    }
  }

  lemma {:induction false} PrintedStarts(ns: seq<nat>)
    requires ns != []
    ensures Printed(ns) != "" && IsDigit(Printed(ns)[0]) && IsDigit(Printed(ns)[|Printed(ns)| - 1])
  {
    DecIsDigits(ns[0]);
    if |ns| > 1 { PrintedStarts(ns[1..]); }
  }

  /** What may follow the numbers: letters in the last field, then further fields. */
  predicate Suffix(tail: string, u: string) {
    && NoSeparator(tail) && !StartsWithDigit(tail) && FieldEnds(u)
    && (tail + u != "" ==> !IsSpace((tail + u)[|tail + u| - 1]))
  }

  /** Spaces around a version, a leading v and letters after its last number do not matter: the
      parser reads the printed numbers modulo 2^64, then whatever fields follow. */
  lemma ParsedPrinted(lead: string, v: string, ns: seq<nat>, tail: string, u: string, trail: string)
    requires AllSpace(lead) && AllSpace(trail) && v in {"", "v"} && ns != [] && Suffix(tail, u)
    ensures Parsed(lead + ((v + (Printed(ns) + (tail + u))) + trail)) == Wrapped(ns) + Numbers(Fields(u))
  {
    hide Numbers, Fields, Printed, Wrapped, TrimSpace;
    var body := Printed(ns) + (tail + u);
    PrintedStarts(ns);
    assert body[|body| - 1] == if tail + u == "" then Printed(ns)[|Printed(ns)| - 1] else (tail + u)[|tail + u| - 1];
    assert (v + body)[|v + body| - 1] == body[|body| - 1];
    TrimmedBetween(lead, v + body, trail);
    assert TrimV(v + body) == body by { assert v == "" ==> v + body == body; }
    PrintedFields(ns, tail, u);
  }

  lemma ParsedBare(ns: seq<nat>, u: string)
    requires ns != [] && Suffix("", u)
    ensures Parsed(Printed(ns) + u) == Wrapped(ns) + Numbers(Fields(u))
  {
    hide Printed, Parsed, Wrapped, Numbers, Fields, Suffix;
    ParsedPrinted("", "", ns, "", u, "");
    assert "" + (("" + (Printed(ns) + ("" + u))) + "") == Printed(ns) + u;
  }

  lemma PlainParsed(ns: seq<nat>)
    requires ns != []
    ensures Parsed(Printed(ns)) == Wrapped(ns)
  {
    hide Printed, Parsed, Wrap64;
    ParsedBare(ns, "");
    NothingToRead();
    assert Printed(ns) + "" == Printed(ns) && Wrapped(ns) + [] == Wrapped(ns);
  }

  lemma WrapFits(n: nat)
    ensures Wrap64(n) == n <==> n < TWO_63
  {
  }

  /** A printed version is read back exactly when its numbers fit into a 64-bit int. */
  lemma PrintedExactly(ns: seq<nat>)
    requires ns != []
    ensures Parsed(Printed(ns)) == ns <==> forall i :: 0 <= i < |ns| ==> ns[i] < TWO_63
  {
    hide Printed, Parsed, Wrap64;
    PlainParsed(ns);
    forall i | 0 <= i < |ns| ensures Wrapped(ns)[i] == ns[i] <==> ns[i] < TWO_63 { WrapFits(ns[i]); }
    if Wrapped(ns) == ns {
      forall i | 0 <= i < |ns| ensures ns[i] < TWO_63 { assert Wrapped(ns)[i] == ns[i]; }
    }
  }

  /** Printed versions compare by the first number that differs, missing ones being 0. */
  lemma PrintedOrder(a: seq<nat>, b: seq<nat>)
    requires a != [] && b != []
    requires (forall i :: 0 <= i < |a| ==> a[i] < TWO_63) && (forall i :: 0 <= i < |b| ==> b[i] < TWO_63)
    ensures Less(Parsed(Printed(a)), Parsed(Printed(b))) <==> Less(a, b)
    ensures Equal(Parsed(Printed(a)), Parsed(Printed(b))) <==> Equal(a, b)
  {
    PrintedExactly(a);
    PrintedExactly(b);
  }

  /** A pre-release counts as the release itself. */
  lemma PreReleaseIsRelease(ns: seq<nat>, word: string)
    requires ns != [] && word != "" && NoSeparator(word) && !StartsWithDigit(word) && !IsSpace(word[|word| - 1])
    ensures Equal(Parsed(Printed(ns) + ("-" + word)), Parsed(Printed(ns)))
  {
    var u := "-" + word;
    assert u[|u| - 1] == word[|word| - 1] && "" + u == u;
    OneWord(word);
    hide Printed, Parsed, IsSpace, Fields, Numbers, Wrapped;
    ParsedBare(ns, u);
    PlainParsed(ns);
    assert Parsed(Printed(ns) + u) == Wrapped(ns) + [0];
  }

  lemma PrintedSuffix(c: char, ms: seq<nat>)
    requires ms != [] && IsSeparator(c)
    ensures Suffix("", [c] + Printed(ms))
  {
    var u := [c] + Printed(ms);
    PrintedStarts(ms);
    hide Printed;
    assert "" + u == u && u[|u| - 1] == Printed(ms)[|Printed(ms)| - 1];
  }

  /** Dots, hyphens and plus signs separate fields alike. */
  lemma SeparatorsAlike(ns: seq<nat>, c: char, ms: seq<nat>)
    requires ns != [] && ms != [] && (c == '.' || c == '-' || c == '+')
    ensures Parsed(Printed(ns) + ([c] + Printed(ms))) == Wrapped(ns) + Wrapped(ms)
  {
    PrintedSuffix(c, ms);
    SkipSeparator(c, Printed(ms));
    PrintedFields(ms, "", "");
    NothingToRead();
    hide Printed, Parsed, Fields, Numbers, Wrapped, IsDigit, Suffix, IsSeparator;
    assert Printed(ms) + ("" + "") == Printed(ms);
    assert Wrapped(ms) + [] == Wrapped(ms);
    ParsedBare(ns, [c] + Printed(ms));
  }

  lemma CommonSpaces()
    ensures AllSpace(" \t\n\r")
  {
  }

  lemma OneWord(word: string)
    requires word != "" && NoSeparator(word) && !StartsWithDigit(word)
    ensures Numbers(Fields("-" + word)) == [0]
  {
    SkipSeparator('-', word);
    FieldsCons(word, "");
    assert word + "" == word;
    NumbersCons(word, []);
  }

  lemma PrintedThree(a: nat, b: nat, c: nat)
    ensures Printed([a, b, c]) == Dec(a) + ("." + (Dec(b) + ("." + Dec(c))))
  {
    hide Dec;
    assert [a, b, c][1..] == [b, c] && [b, c][1..] == [c];
    assert Printed([c]) == Dec(c);
    assert Printed([b, c]) == Dec(b) + ("." + Printed([c]));
  }

  lemma DecSmall()
    ensures Dec(0) == "0" && Dec(1) == "1" && Dec(2) == "2" && Dec(10) == "10" && Dec(30) == "30"
    ensures Dec(40) == "40"
  {
    assert Dec(10) == Dec(1) + [Digit(0)] && Dec(30) == Dec(3) + [Digit(0)] && Dec(40) == Dec(4) + [Digit(0)];
  }

  lemma SomePrinted()
    ensures Printed([1, 2, 0]) == "1.2.0" && Printed([1, 10, 0]) == "1.10.0" && Printed([1, 30, 0]) == "1.30.0"
    ensures Printed([1, 40, 0]) == "1.40.0"
    ensures Printed([1, 0, 0]) == "1.0.0" && Printed([1, 0]) == "1.0"
  {
    DecSmall();
    PrintedThree(1, 2, 0);
    PrintedThree(1, 10, 0);
    PrintedThree(1, 30, 0);
    PrintedThree(1, 40, 0);
    PrintedThree(1, 0, 0);
    hide Dec;
    assert [1, 0][1..] == [0];
    assert Printed([0]) == "0";
    assert Printed([1, 0]) == "1" + ("." + Printed([0]));
  }

  lemma LeadingV(ns: seq<nat>)
    requires ns != []
    ensures Parsed("v" + Printed(ns)) == Parsed(Printed(ns))
  {
    hide Printed, Parsed, Wrapped, Numbers;
    PlainParsed(ns);
    ParsedPrinted("", "v", ns, "", "", "");
    assert "" + (("v" + (Printed(ns) + ("" + ""))) + "") == "v" + Printed(ns);
    assert Numbers(Fields("")) == [] by { NothingToRead(); }
    assert Wrapped(ns) + [] == Wrapped(ns);
  }

  lemma NothingToRead()
    ensures Numbers(Fields("")) == []
  {
  }

  /** The cases that the tests of the repository name. */
  lemma TestedVersions()
    ensures Less(Parsed("1.2.0"), Parsed("1.10.0"))
    ensures Equal(Parsed("v1.0"), Parsed("1.0.0"))
    ensures Equal(Parsed("1.30.0-rc1"), Parsed("1.30.0"))
  {
    SomePrinted();
    assert Suffix("", "-rc1") && !StartsWithDigit("rc1");
    assert "1.30.0" + ("-" + "rc1") == "1.30.0-rc1" && "v" + "1.0" == "v1.0";
    assert LessAt([1, 2, 0], [1, 10, 0], 1);
    hide Printed, Parsed, IsSpace, NoSeparator;
    PrintedOrder([1, 2, 0], [1, 10, 0]);
    PrintedOrder([1, 0], [1, 0, 0]);
    LeadingV([1, 0]);
    assert NoSeparator("rc1") && !IsSpace('1') by { PlainWord(); }
    PreReleaseIsRelease([1, 30, 0], "rc1");
  }

  lemma PlainWord()
    ensures NoSeparator("rc1") && !IsSpace('1')
  {
  }
}
