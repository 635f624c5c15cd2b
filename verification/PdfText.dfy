/** The text layer of the PDF writer: escaping of one line, and a reader of
    literal strings (ISO 32000-1:2008, section 7.3.4.2) that undoes it. */
module PdfText {
  import opened Text

  // ----- Transliteration -----

  /** The table of Cyrillic letters; anything else becomes a question mark. */
  function Translit(r: char): string {
    match r
    case 'а' => "a" case 'б' => "b" case 'в' => "v" case 'г' => "g" case 'д' => "d" case 'е' => "e"
    case 'ё' => "e" case 'ж' => "zh" case 'з' => "z" case 'и' => "i" case 'й' => "y" case 'к' => "k"
    case 'л' => "l" case 'м' => "m" case 'н' => "n" case 'о' => "o" case 'п' => "p" case 'р' => "r"
    case 'с' => "s" case 'т' => "t" case 'у' => "u" case 'ф' => "f" case 'х' => "h" case 'ц' => "ts"
    case 'ч' => "ch" case 'ш' => "sh" case 'щ' => "sch" case 'ъ' => "" case 'ы' => "y" case 'ь' => ""
    case 'э' => "e" case 'ю' => "yu" case 'я' => "ya"
    case 'А' => "A" case 'Б' => "B" case 'В' => "V" case 'Г' => "G" case 'Д' => "D" case 'Е' => "E"
    case 'Ё' => "E" case 'Ж' => "Zh" case 'З' => "Z" case 'И' => "I" case 'Й' => "Y" case 'К' => "K"
    case 'Л' => "L" case 'М' => "M" case 'Н' => "N" case 'О' => "O" case 'П' => "P" case 'Р' => "R"
    case 'С' => "S" case 'Т' => "T" case 'У' => "U" case 'Ф' => "F" case 'Х' => "H" case 'Ц' => "Ts"
    case 'Ч' => "Ch" case 'Ш' => "Sh" case 'Щ' => "Sch" case 'Ъ' => "" case 'Ы' => "Y" case 'Ь' => ""
    case 'Э' => "E" case 'Ю' => "Yu" case 'Я' => "Ya"
    case _ => "?"
  }

  predicate PlainChar(c: char) {
    c as int < 256 && c != '(' && c != ')' && c != '\\'
  }

  predicate Plain(s: string) {
    forall i :: 0 <= i < |s| ==> PlainChar(s[i])
  }

  predicate Ascii(s: string) {
    forall i :: 0 <= i < |s| ==> s[i] as int < 128
  }

  lemma TranslitLatin(r: char)
    ensures forall i :: 0 <= i < |Translit(r)| ==> '?' <= Translit(r)[i] <= 'z' && Translit(r)[i] != '\\'
  {
  }

  lemma TranslitPlain(r: char)
    ensures Plain(Translit(r)) && Ascii(Translit(r))
  {
    hide Translit;
    TranslitLatin(r);
  }

  // ----- Escaping -----

  /** strings.Builder.WriteRune for a rune below 256: its UTF-8 encoding. */
  function Utf8(r: char): string
    requires r as int < 256
  {
    if r as int < 128 then [r]
    else [(0xC0 + r as int / 64) as char, (0x80 + r as int % 64) as char]
  }

  predicate Special(r: char) { r == '(' || r == ')' || r == '\\' }

  /** The bytes that a viewer shows for one rune of the input. */
  function ShownRune(r: char): string {
    if Special(r) then [r]
    else if r as int < 32 then " "
    else if r as int < 256 then Utf8(r)
    else Translit(r)
  }

  function Shown(line: string): string {
    if line == "" then "" else ShownRune(line[0]) + Shown(line[1..])
  }

  function EscapedRune(r: char): string {
    if Special(r) then ['\\', r] else ShownRune(r)
  }

  function Escaped(line: string): string {
    if line == "" then "" else EscapedRune(line[0]) + Escaped(line[1..])
  }

  method PdfEscape(line: string) returns (out: string)
    ensures out == Escaped(line)
  {
    out := "";
    hide Translit;
    for i := 0 to |line|
      invariant out == Escaped(line[..i])
    {
      var r := line[i];
      EscapedSnoc(line[..i], r);
      assert line[..i + 1] == line[..i] + [r];
      if r == '(' || r == ')' || r == '\\' {
        out := out + ['\\'];
        out := out + [r];
      } else if r as int < 32 {
        out := out + " ";
      } else if r as int < 256 {
        out := out + Utf8(r);
      } else {
        out := out + Translit(r);
      }
    }
    assert line[..|line|] == line;
  }

  lemma {:induction false} EscapedSnoc(line: string, r: char)
    ensures Escaped(line + [r]) == Escaped(line) + EscapedRune(r)
  {
    if line == "" {
      assert [r][1..] == "";
    } else {
      assert (line + [r])[1..] == line[1..] + [r];
      EscapedSnoc(line[1..], r);
    }
  }

  // ----- Reading a literal string back -----

  function Prepend(p: string, r: Option<(string, string)>): Option<(string, string)> {
    match r case None => None case Some((s, t)) => Some((p + s, t))
  }

  /** Reads the body of a literal string and its closing parenthesis. Balanced inner
      parentheses belong to the string; a backslash escapes a parenthesis or itself. */
  function ReadLiteral(s: string, depth: nat): (r: Option<(string, string)>)
    ensures r.Some? ==> |r.value.1| < |s|
  {
    if s == "" then None
    else if s[0] == ')' then
      if depth == 0 then Some(("", s[1..])) else Prepend(")", ReadLiteral(s[1..], depth - 1))
    else if s[0] == '(' then Prepend("(", ReadLiteral(s[1..], depth + 1))
    else if s[0] == '\\' then
      if |s| > 1 && Special(s[1]) then Prepend([s[1]], ReadLiteral(s[2..], depth)) else None
    else Prepend([s[0]], ReadLiteral(s[1..], depth))
  }

  lemma ShownRunePlain(r: char)
    ensures IsBytes(ShownRune(r))
    ensures !Special(r) ==> Plain(ShownRune(r))
  {
    TranslitPlain(r);
  }

  lemma {:induction false} ReadPlain(p: string, u: string)
    requires Plain(p)
    ensures ReadLiteral(p + u, 0) == Prepend(p, ReadLiteral(u, 0))
  {
    if p == "" {
      assert p + u == u;
      match ReadLiteral(u, 0) {
        case None =>
        case Some((a, b)) => assert p + a == a;
      }
    } else {
      assert (p + u)[1..] == p[1..] + u;
      ReadPlain(p[1..], u);
      match ReadLiteral(u, 0) {
        case None =>
        case Some((a, b)) => assert [p[0]] + (p[1..] + a) == p + a;
      }
    }
  }

  lemma ReadRune(r: char, u: string)
    ensures ReadLiteral(EscapedRune(r) + u, 0) == Prepend(ShownRune(r), ReadLiteral(u, 0))
  {
    hide Translit, Utf8;
    if Special(r) {
      assert (EscapedRune(r) + u)[2..] == u;
    } else {
      ShownRunePlain(r);
      ReadPlain(ShownRune(r), u);
    }
  }

  /** Escaping leaves no bare parenthesis: the reader stops exactly at the closing one
      and gives back the shown text, whatever the line contains. */
  lemma {:induction false} ReadEscaped(line: string, t: string)
    ensures ReadLiteral(Escaped(line) + (")" + t), 0) == Some((Shown(line), t))
  {
    hide EscapedRune, ShownRune;
    var tail := ")" + t;
    if line == "" {
      assert Escaped(line) + tail == tail;
      assert tail[1..] == t;
    } else {
      ReadEscaped(line[1..], t);
      ReadRune(line[0], Escaped(line[1..]) + tail);
      Assoc(EscapedRune(line[0]), Escaped(line[1..]), tail);
    }
  }

  lemma {:induction false} EscapedBytes(line: string)
    ensures IsBytes(Escaped(line))
  {
    if line != "" {
      ShownRunePlain(line[0]);
      EscapedBytes(line[1..]);
    }
  }

  // ----- What a reader sees -----

  /** The Cyrillic letters by their Latin spelling; the hard and the soft sign are silent. */
  function Letter(r: char): Option<string> {
    match r
    case 'а' => Some("a") case 'б' => Some("b") case 'ч' => Some("ch") case 'д' => Some("d")
    case 'е' | 'ё' | 'э' => Some("e") case 'ф' => Some("f") case 'г' => Some("g") case 'х' => Some("h")
    case 'и' => Some("i") case 'к' => Some("k") case 'л' => Some("l") case 'м' => Some("m")
    case 'н' => Some("n") case 'о' => Some("o") case 'п' => Some("p") case 'р' => Some("r")
    case 'с' => Some("s") case 'щ' => Some("sch") case 'ш' => Some("sh") case 'т' => Some("t")
    case 'ц' => Some("ts") case 'у' => Some("u") case 'в' => Some("v") case 'й' | 'ы' => Some("y")
    case 'я' => Some("ya") case 'ю' => Some("yu") case 'з' => Some("z") case 'ж' => Some("zh")
    case 'А' => Some("A") case 'Б' => Some("B") case 'Ч' => Some("Ch") case 'Д' => Some("D")
    case 'Е' | 'Ё' | 'Э' => Some("E") case 'Ф' => Some("F") case 'Г' => Some("G") case 'Х' => Some("H")
    case 'И' => Some("I") case 'К' => Some("K") case 'Л' => Some("L") case 'М' => Some("M")
    case 'Н' => Some("N") case 'О' => Some("O") case 'П' => Some("P") case 'Р' => Some("R")
    case 'С' => Some("S") case 'Щ' => Some("Sch") case 'Ш' => Some("Sh") case 'Т' => Some("T")
    case 'Ц' => Some("Ts") case 'У' => Some("U") case 'В' => Some("V") case 'Й' | 'Ы' => Some("Y")
    case 'Я' => Some("Ya") case 'Ю' => Some("Yu") case 'З' => Some("Z") case 'Ж' => Some("Zh")
    case 'ъ' | 'ь' | 'Ъ' | 'Ь' => Some("")
    case _ => None
  }

  lemma SmallLetters(r: char)
    requires r >= 'а'
    ensures Translit(r) == match Letter(r) case None => "?" case Some(t) => t
  {
  }

  lemma CapitalLetters(r: char)
    requires r < 'а'
    ensures Translit(r) == match Letter(r) case None => "?" case Some(t) => t
  {
  }

  /** The table of the code spells every letter as that list does, and nothing else. */
  lemma TranslitLetters(r: char)
    ensures Translit(r) == match Letter(r) case None => "?" case Some(t) => t
  {
    hide Translit, Letter;
    if r >= 'а' { SmallLetters(r); } else { CapitalLetters(r); }
  }

  /** What is to be seen of a rune: a space for a control character, Latin-1 as it is, letters
      of the table in Latin, a question mark for anything else. */
  function DisplayedRune(r: char): string {
    if r as int < 32 then " "
    else if r as int < 256 then [r]
    else match Letter(r) case None => "?" case Some(t) => t
  }

  function Displayed(line: string): string {
    if line == "" then "" else DisplayedRune(line[0]) + Displayed(line[1..])
  }

  function Then(first: string, rest: Option<string>): Option<string> {
    match rest case None => None case Some(t) => Some(first + t)
  }

  /** Decodes UTF-8 sequences of one and two bytes (section 4 of RFC 3629). */
  function DecodeUtf8(s: string): Option<string> {
    if s == "" then Some("")
    else if s[0] as int < 0x80 then Then([s[0]], DecodeUtf8(s[1..]))
    else if |s| > 1 && 0xC2 <= s[0] as int <= 0xDF && 0x80 <= s[1] as int <= 0xBF then
      Then([((s[0] as int - 0xC0) * 64 + (s[1] as int - 0x80)) as char], DecodeUtf8(s[2..]))
    else None
  }

  lemma {:induction false} DecodeAscii(p: string, u: string)
    requires Ascii(p)
    ensures DecodeUtf8(p + u) == Then(p, DecodeUtf8(u))
  {
    if p == "" {
      assert p + u == u;
      match DecodeUtf8(u) {
        case None =>
        case Some(t) => assert p + t == t;
      }
    } else {
      assert (p + u)[1..] == p[1..] + u;
      DecodeAscii(p[1..], u);
      match DecodeUtf8(u) {
        case None =>
        case Some(t) => assert [p[0]] + (p[1..] + t) == p + t;
      }
    }
  }

  lemma DecodeRune(r: char, u: string)
    ensures DecodeUtf8(ShownRune(r) + u) == Then(DisplayedRune(r), DecodeUtf8(u))
  {
    hide Translit, Letter;
    if 128 <= r as int < 256 {
      var s := ShownRune(r) + u;
      assert s[2..] == u;
    } else {
      if r as int >= 256 {
        TranslitLetters(r);
        TranslitPlain(r);
      }
      DecodeAscii(DisplayedRune(r), u);
    }
  }

  /** The bytes shown for a line decode as UTF-8 to what a reader is meant to see of it, rune by
      rune. */
  lemma {:induction false} ShownDecodes(line: string)
    ensures DecodeUtf8(Shown(line)) == Some(Displayed(line))
  {
    hide ShownRune, DisplayedRune;
    if line != "" {
      ShownDecodes(line[1..]);
      DecodeRune(line[0], Shown(line[1..]));
    }
  }

  predicate Printable(line: string) {
    forall i :: 0 <= i < |line| ==> 32 <= line[i] as int <= 126
  }

  /** Text of printable ASCII is stored, and seen, exactly as it is. */
  lemma {:induction false} PrintableShown(line: string)
    requires Printable(line)
    ensures Shown(line) == line && Displayed(line) == line
  {
    if line != "" {
      PrintableShown(line[1..]);
      assert line == [line[0]] + line[1..];
    }
  }

  // ----- Latin-1 -----

  /** The text that one byte per character would need: what `/WinAnsiEncoding` and the
      comment above WritePDF ("Latin-1 text") announce. */
  function Latin1Rune(r: char): string {
    if 128 <= r as int < 256 then [r] else ShownRune(r)
  }

  function Latin1(line: string): string {
    if line == "" then "" else Latin1Rune(line[0]) + Latin1(line[1..])
  }

  predicate HasHighRune(line: string) {
    exists i :: 0 <= i < |line| && 128 <= line[i] as int < 256
  }

  lemma {:induction false} ShownLongerThanLatin1(line: string)
    ensures |Shown(line)| >= |Latin1(line)|
    ensures HasHighRune(line) ==> |Shown(line)| > |Latin1(line)|
    ensures !HasHighRune(line) ==> Shown(line) == Latin1(line)
  {
    if line != "" {
      ShownLongerThanLatin1(line[1..]);
      assert HasHighRune(line) <==> 128 <= line[0] as int < 256 || HasHighRune(line[1..]) by {
        if HasHighRune(line[1..]) {
          var i :| 0 <= i < |line[1..]| && 128 <= line[1..][i] as int < 256;
          assert 128 <= line[i + 1] as int < 256;
        }
        if i :| 0 <= i < |line| && 128 <= line[i] as int < 256 {
          if i > 0 { assert 128 <= line[1..][i - 1] as int < 256; }
        }
      }
    }
  }

  /** Accented Latin-1 letters are written as two UTF-8 bytes: a line is stored in the
      announced one-byte encoding exactly when it has no rune between 128 and 255. */
  lemma LatinOneExactly(line: string)
    ensures Shown(line) == Latin1(line) <==> !HasHighRune(line)
  {
    ShownLongerThanLatin1(line);
  }

  /** A line that fails: one letter, e with an acute accent, is written as two bytes. */
  lemma AccentedLetter()
    ensures Shown("\U{E9}") == "\U{C3}\U{A9}" && Latin1("\U{E9}") == "\U{E9}"
  {
    var line := "\U{E9}";
    assert line[1..] == "" && ShownRune(line[0]) == Utf8(line[0]);
  }
}
