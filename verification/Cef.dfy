/** CEF records: the multi-pass escapers against their one-pass meaning, and the recovery
    of the fields of a record. */
module Cef {
  import opened Text
  import opened Model

  /** strings.ReplaceAll for a one-character `old`. */
  function ReplaceAll(s: string, old_: char, new_: string): string {
    if s == "" then "" else (if s[0] == old_ then new_ else [s[0]]) + ReplaceAll(s[1..], old_, new_)
  }

  function EscapeHeader(s: string): string {
    ReplaceAll(ReplaceAll(s, '\\', "\\\\"), '|', "\\|")
  }

  function EscapeExt(s: string): string {
    ReplaceAll(ReplaceAll(ReplaceAll(s, '\\', "\\\\"), '=', "\\="), '\n', " ")
  }

  // ----- One pass -----

  function MapChars(f: char -> string, s: string): string {
    if s == "" then "" else f(s[0]) + MapChars(f, s[1..])
  }

  function HeaderChar(c: char): string {
    if c == '\\' then "\\\\" else if c == '|' then "\\|" else [c]
  }

  function ExtChar(c: char): string {
    if c == '\\' then "\\\\" else if c == '=' then "\\=" else if c == '\n' then " " else [c]
  }

  lemma {:induction false} ReplaceAppend(a: string, b: string, old_: char, new_: string)
    ensures ReplaceAll(a + b, old_, new_) == ReplaceAll(a, old_, new_) + ReplaceAll(b, old_, new_)
  {
    if a == "" {
      assert a + b == b;
    } else {
      assert (a + b)[1..] == a[1..] + b;
      ReplaceAppend(a[1..], b, old_, new_);
    }
  }

  lemma ReplaceTwo(x: char, y: char, old_: char, new_: string)
    ensures ReplaceAll([x], old_, new_) == if x == old_ then new_ else [x]
    ensures ReplaceAll([x, y], old_, new_) == (if x == old_ then new_ else [x]) + (if y == old_ then new_ else [y])
  {
    assert [x][1..] == "" && [x, y][1..] == [y] && [y][1..] == "";
  }

  /** The order of the passes is right: no pass touches what an earlier pass wrote. */
  lemma {:induction false} HeaderOnePass(s: string)
    ensures EscapeHeader(s) == MapChars(HeaderChar, s)
  {
    if s != "" {
      HeaderOnePass(s[1..]);
      var first := if s[0] == '\\' then "\\\\" else [s[0]];
      ReplaceAppend(first, ReplaceAll(s[1..], '\\', "\\\\"), '|', "\\|");
      ReplaceTwo(s[0], s[0], '|', "\\|");
    }
  }

  lemma {:induction false} ExtOnePass(s: string)
    ensures EscapeExt(s) == MapChars(ExtChar, s)
  {
    if s != "" {
      ExtOnePass(s[1..]);
      var rest := ReplaceAll(s[1..], '\\', "\\\\");
      var first := if s[0] == '\\' then "\\\\" else [s[0]];
      ReplaceAppend(first, rest, '=', "\\=");
      ReplaceTwo(s[0], s[0], '=', "\\=");
      var second := ReplaceAll(first, '=', "\\=");
      ReplaceAppend(second, ReplaceAll(rest, '=', "\\="), '\n', " ");
      ReplaceTwo(s[0], s[0], '\n', " ");
      ReplaceTwo('\\', '=', '\n', " ");
    }
  }

  // ----- Unescaping -----

  /** A backslash stands for the character after it. */
  function Unescape(s: string): string {
    if s == "" then ""
    else if s[0] == '\\' && |s| > 1 then [s[1]] + Unescape(s[2..])
    else [s[0]] + Unescape(s[1..])
  }

  function NewlinesAsSpaces(s: string): string {
    seq(|s|, i requires 0 <= i < |s| => if s[i] == '\n' then ' ' else s[i])
  }

  lemma {:induction false} UnescapeHeader(s: string)
    ensures Unescape(EscapeHeader(s)) == s
  {
    HeaderOnePass(s);
    if s != "" {
      UnescapeHeader(s[1..]);
      HeaderOnePass(s[1..]);
      UnescapeStep(HeaderChar(s[0]), MapChars(HeaderChar, s[1..]));
    }
  }

  /** Unescaping an extension value gives the text back, with newlines turned to spaces. */
  lemma {:induction false} UnescapeExt(s: string)
    ensures Unescape(EscapeExt(s)) == NewlinesAsSpaces(s)
  {
    hide EscapeExt;
    ExtOnePass(s);
    if s != "" {
      UnescapeExt(s[1..]);
      ExtOnePass(s[1..]);
      UnescapeStep(ExtChar(s[0]), MapChars(ExtChar, s[1..]));
      assert NewlinesAsSpaces(s) == [if s[0] == '\n' then ' ' else s[0]] + NewlinesAsSpaces(s[1..]);
    }
  }

  lemma UnescapeStep(first: string, rest: string)
    requires (|first| == 2 && first[0] == '\\') || (|first| == 1 && first[0] != '\\')
    ensures Unescape(first + rest) == [first[|first| - 1]] + Unescape(rest)
  {
    DropFirst(first, rest);
  }

  // ----- Splitting a record -----

  /** The text up to the first unescaped pipe, and what follows that pipe. */
  function TakeField(s: string): (string, Option<string>) {
    if s == "" then ("", None)
    else if s[0] == '|' then ("", Some(s[1..]))
    else if s[0] == '\\' && |s| > 1 then
      var (field, rest) := TakeField(s[2..]);
      (s[..2] + field, rest)
    else
      var (field, rest) := TakeField(s[1..]);
      ([s[0]] + field, rest)
  }

  function SplitFields(s: string, pipes: nat): seq<string>
    decreases pipes
  {
    if pipes == 0 then [s]
    else
      match TakeField(s)
      case (field, None) => [field]
      case (field, Some(rest)) => [field] + SplitFields(rest, pipes - 1)
  }

  /** No unescaped pipe, and no backslash left open at the end. */
  predicate Sealed(s: string) {
    if s == "" then true
    else if s[0] == '|' then false
    else if s[0] == '\\' then |s| > 1 && Sealed(s[2..])
    else Sealed(s[1..])
  }

  /** A field is read back exactly when it is sealed. */
  lemma {:induction false} FieldExactly(f: string, t: string)
    ensures Sealed(f) ==> TakeField(f + ("|" + t)) == (f, Some(t))
    ensures !Sealed(f) ==> TakeField(f + ("|" + t)).0 != f
    decreases |f|
  {
    var s := f + ("|" + t);
    if f == "" {
      assert s == "|" + t;
      assert s[1..] == t;
    } else if f[0] == '|' {
    } else if f[0] == '\\' {
      if |f| == 1 {
        assert s[..2] == "\\|";
      } else {
        assert s[2..] == f[2..] + ("|" + t);
        assert s[..2] == f[..2];
        FieldExactly(f[2..], t);
        var (field, rest) := TakeField(s[2..]);
        assert f == f[..2] + f[2..];
        assert (s[..2] + field)[2..] == field;
      }
    } else {
      assert s[1..] == f[1..] + ("|" + t);
      FieldExactly(f[1..], t);
      var (field, rest) := TakeField(s[1..]);
      assert f == [f[0]] + f[1..];
      assert ([s[0]] + field)[1..] == field;
    }
  }

  lemma {:induction false} EscapedSealed(s: string)
    ensures Sealed(EscapeHeader(s))
  {
    HeaderOnePass(s);
    if s != "" {
      EscapedSealed(s[1..]);
      HeaderOnePass(s[1..]);
      DropFirst(HeaderChar(s[0]), MapChars(HeaderChar, s[1..]));
    }
  }

  lemma {:induction false} PlainSealed(s: string)
    requires forall i :: 0 <= i < |s| ==> s[i] != '|' && s[i] != '\\'
    ensures Sealed(s)
  {
    if s != "" { PlainSealed(s[1..]); }
  }

  const PRODUCT := "AutoGov"
  const VERSION := "0.1.0"

  /** A severity missing from the table prints as 0. */
  function SeverityNumber(s: Severity): nat {
    match s
    case Info => 1
    case Low => 3
    case Medium => 5
    case High => 8
    case Critical => 10
    case UnlistedSeverity(_) => 0
  }

  /** The extension of a record; `score` is the text that `%.0f` prints. */
  function Extension(f: Finding, score: string, explanation: string): string {
    "cs1=" + (f.instanceId + (" cs1Label=InstanceID cs2=" + (f.hostId + (" cs2Label=HostID cn1="
    + (score + (" cn1Label=RiskScore msg=" + EscapeExt(explanation)))))))
  }

  function RecordFields(f: Finding, score: string, explanation: string): seq<string> {
    ["CEF:0", PRODUCT, "ControlPlane", VERSION, f.source, EscapeHeader(f.title), Dec(SeverityNumber(f.severity)),
     Extension(f, score, explanation)]
  }

  /** FormatCEF. */
  function FormatCEF(f: Finding, score: string, explanation: string): string {
    Fixed(Variable(f.source, EscapeHeader(f.title), Dec(SeverityNumber(f.severity)), Extension(f, score, explanation)))
  }

  function Fixed(rest: string): string {
    "CEF:0" + ("|" + (PRODUCT + ("|" + ("ControlPlane" + ("|" + (VERSION + ("|" + rest)))))))
  }

  function Variable(source: string, title: string, number: string, ext: string): string {
    source + ("|" + (title + ("|" + (number + ("|" + ext)))))
  }

  lemma TakeSealed(f: string, t: string, pipes: nat)
    requires Sealed(f) && pipes > 0
    ensures SplitFields(f + ("|" + t), pipes) == [f] + SplitFields(t, pipes - 1)
  {
    FieldExactly(f, t);
  }

  lemma SplitFixed(rest: string)
    ensures SplitFields(Fixed(rest), 7) == ["CEF:0", PRODUCT, "ControlPlane", VERSION] + SplitFields(rest, 3)
  {
    hide SplitFields, Sealed;
    PlainSealed("CEF:0");
    PlainSealed(PRODUCT);
    PlainSealed("ControlPlane");
    PlainSealed(VERSION);
    var t3 := VERSION + ("|" + rest);
    var t2 := "ControlPlane" + ("|" + t3);
    TakeSealed("CEF:0", PRODUCT + ("|" + t2), 7);
    TakeSealed(PRODUCT, t2, 6);
    TakeSealed("ControlPlane", t3, 5);
    TakeSealed(VERSION, rest, 4);
  }

  lemma SplitVariable(source: string, title: string, number: string, ext: string)
    requires Sealed(title) && Sealed(number)
    ensures Sealed(source) ==> SplitFields(Variable(source, title, number, ext), 3) == [source, title, number, ext]
    ensures !Sealed(source) ==>
      var fields := SplitFields(Variable(source, title, number, ext), 3);
      |fields| > 0 && fields[0] != source
  {
    hide Sealed;
    var t5 := title + ("|" + (number + ("|" + ext)));
    if Sealed(source) {
      hide SplitFields;
      TakeSealed(source, t5, 3);
      TakeSealed(title, number + ("|" + ext), 2);
      TakeSealed(number, ext, 1);
      ZeroPipes(ext);
    } else {
      FieldExactly(source, t5);
    }
  }

  lemma ZeroPipes(s: string)
    ensures SplitFields(s, 0) == [s]
  {
  }

  /** Splitting a record at its first seven unescaped pipes gives its eight fields back
      exactly when the module name is sealed (the title may be anything). */
  lemma RecordSplits(f: Finding, score: string, explanation: string)
    ensures SplitFields(FormatCEF(f, score, explanation), 7) == RecordFields(f, score, explanation)
       <==> Sealed(f.source)
  {
    hide Extension, EscapeHeader, Dec, SplitFields, Fixed, Variable, Sealed, SeverityNumber;
    var title, number, ext := EscapeHeader(f.title), Dec(SeverityNumber(f.severity)), Extension(f, score, explanation);
    EscapedSealed(f.title);
    DecIsDigits(SeverityNumber(f.severity));
    PlainSealed(number);
    SplitFixed(Variable(f.source, title, number, ext));
    SplitVariable(f.source, title, number, ext);
    var head := ["CEF:0", PRODUCT, "ControlPlane", VERSION];
    var tail := SplitFields(Variable(f.source, title, number, ext), 3);
    assert RecordFields(f, score, explanation) == head + [f.source, title, number, ext];
    if !Sealed(f.source) {
      assert (head + tail)[4] == tail[0];
    }
  }

  // ----- Reading a record -----

  function UntilSpace(s: string): (string, string) {
    if s == "" || s[0] == ' ' then ("", s)
    else
      var (word, rest) := UntilSpace(s[1..]);
      ([s[0]] + word, rest)
  }

  datatype ExtFields = ExtFields(instanceId: string, hostId: string, score: string, message: string)

  /** Reads an extension key by key: values end at a space, the message at the end. */
  function ReadExtension(s: string): Option<ExtFields> {
    var s1 :- Expect(s, "cs1=");
    var (instanceId, s2) := UntilSpace(s1);
    var s3 :- Expect(s2, " cs1Label=InstanceID cs2=");
    var (hostId, s4) := UntilSpace(s3);
    var s5 :- Expect(s4, " cs2Label=HostID cn1=");
    var (score, s6) := UntilSpace(s5);
    var s7 :- Expect(s6, " cn1Label=RiskScore msg=");
    Some(ExtFields(instanceId, hostId, score, Unescape(s7)))
  }

  predicate OneWord(s: string) { ' ' !in s }

  lemma {:induction false} UntilSpaceIs(word: string, rest: string)
    requires OneWord(word) && rest != "" && rest[0] == ' '
    ensures UntilSpace(word + rest) == (word, rest)
  {
    if word == "" {
      assert word + rest == rest;
    } else {
      assert (word + rest)[1..] == word[1..] + rest;
      UntilSpaceIs(word[1..], rest);
      assert [word[0]] + word[1..] == word;
    }
  }

  /** The extension gives back instance, host, score and explanation, newlines of which have become
      spaces, for identifiers and scores without spaces. */
  lemma ExtensionReads(f: Finding, score: string, explanation: string)
    requires OneWord(f.instanceId) && OneWord(f.hostId) && OneWord(score)
    ensures ReadExtension(Extension(f, score, explanation)) ==
      Some(ExtFields(f.instanceId, f.hostId, score, NewlinesAsSpaces(explanation)))
  {
    hide EscapeExt, Unescape, OneWord, UntilSpace, NewlinesAsSpaces;
    var t7 := EscapeExt(explanation);
    var t6 := " cn1Label=RiskScore msg=" + t7;
    var t5 := score + t6;
    var t4 := " cs2Label=HostID cn1=" + t5;
    var t3 := f.hostId + t4;
    var t2 := " cs1Label=InstanceID cs2=" + t3;
    var t1 := f.instanceId + t2;
    assert Extension(f, score, explanation) == "cs1=" + t1;
    ExpectOk("cs1=", t1);
    UntilSpaceIs(f.instanceId, t2);
    ExpectOk(" cs1Label=InstanceID cs2=", t3);
    UntilSpaceIs(f.hostId, t4);
    ExpectOk(" cs2Label=HostID cn1=", t5);
    UntilSpaceIs(score, t6);
    ExpectOk(" cn1Label=RiskScore msg=", t7);
    UnescapeExt(explanation);
  }

  /** Whoever splits a record of a sealed module name at its pipes reads off the module, the title,
      the number of the severity, and the fields of the extension. */
  lemma RecordReads(f: Finding, score: string, explanation: string)
    requires Sealed(f.source) && OneWord(f.instanceId) && OneWord(f.hostId) && OneWord(score)
    ensures var fields := SplitFields(FormatCEF(f, score, explanation), 7);
      && |fields| == 8 && fields[4] == f.source && Unescape(fields[5]) == f.title
      && ReadDigits(fields[6], 0) == (SeverityNumber(f.severity), "")
      && ReadExtension(fields[7]) == Some(ExtFields(f.instanceId, f.hostId, score, NewlinesAsSpaces(explanation)))
  {
    hide FormatCEF, SplitFields, Sealed, EscapeHeader, Unescape, Extension, ReadExtension, OneWord, SeverityNumber, Dec;
    RecordSplits(f, score, explanation);
    UnescapeHeader(f.title);
    ReadDec(SeverityNumber(f.severity), "");
    assert Dec(SeverityNumber(f.severity)) + "" == Dec(SeverityNumber(f.severity));
    ExtensionReads(f, score, explanation);
  }

  /** The numbers keep the order of severities. */
  lemma SeverityNumbersOrdered(a: Severity, b: Severity)
    requires !a.UnlistedSeverity? && !b.UnlistedSeverity?
    ensures SeverityNumber(a) < SeverityNumber(b) <==> SeverityRank(a) < SeverityRank(b)
    ensures 1 <= SeverityNumber(a) <= 10
  {
  }

  /** What every record starts with. */
  lemma RecordStarts(f: Finding, score: string, explanation: string)
    ensures "CEF:0|AutoGov|ControlPlane|0.1.0|" <= FormatCEF(f, score, explanation)
  {
    hide Variable, EscapeHeader, Extension, Dec;
    var number := Dec(SeverityNumber(f.severity));
    var rest := Variable(f.source, EscapeHeader(f.title), number, Extension(f, score, explanation));
    assert Fixed(rest) == "CEF:0|AutoGov|ControlPlane|0.1.0|" + rest;
  }
}
