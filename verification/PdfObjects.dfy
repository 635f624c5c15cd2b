/** The values of PDF objects (ISO 32000-1:2008, section 7.3) as trees, with a reader that undoes
    their printed form. */
module PdfObjects {
  import opened Text

  datatype Obj = Name(name: string) | Number(n: nat) | Ref(num: nat) | Array(items: Items) | Dict(entries: Entries)

  datatype Items = NoItems | Item(first: Obj, rest: Items)

  datatype Entries = NoEntries | Entry(key: string, value: Obj, rest: Entries)

  // ----- The printed form, with single spaces -----

  function Print(o: Obj): string {
    match o
    case Name(name) => "/" + name
    case Number(n) => Dec(n)
    case Ref(num) => Dec(num) + " 0 R"
    case Array(items) => "[" + PrintItems(items, true)
    case Dict(entries) => "<<" + PrintEntries(entries)
  }

  function PrintItems(items: Items, first: bool): string {
    match items
    case NoItems => "]"
    case Item(o, rest) => (if first then "" else " ") + (Print(o) + PrintItems(rest, false))
  }

  function PrintEntries(entries: Entries): string {
    match entries
    case NoEntries => " >>"
    case Entry(key, value, rest) => " /" + (key + (" " + (Print(value) + PrintEntries(rest))))
  }

  // ----- Reading words -----

  predicate IsLetter(c: char) { 'A' <= c <= 'Z' || 'a' <= c <= 'z' }

  predicate NameChar(c: char) { IsLetter(c) || IsDigit(c) }

  /** The longest prefix of characters of a kind, and the rest. */
  function Word(s: string, kind: char -> bool): (r: (string, string))
    ensures |r.1| <= |s|
    ensures s != "" && kind(s[0]) ==> |r.1| < |s|
  {
    if s == "" || !kind(s[0]) then ("", s)
    else
      var (word, rest) := Word(s[1..], kind);
      ([s[0]] + word, rest)
  }

  predicate AllOf(word: string, kind: char -> bool) { forall i :: 0 <= i < |word| ==> kind(word[i]) }

  lemma {:induction false} WordIs(word: string, rest: string, kind: char -> bool)
    requires AllOf(word, kind) && (rest == "" || !kind(rest[0]))
    ensures Word(word + rest, kind) == (word, rest)
  {
    if word == "" {
      assert word + rest == rest;
    } else {
      assert (word + rest)[1..] == word[1..] + rest;
      WordIs(word[1..], rest, kind);
      assert [word[0]] + word[1..] == word;
    }
  }

  // ----- Reading values -----

  function ReadObj(s: string): (r: Option<(Obj, string)>)
    ensures r.Some? ==> |r.value.1| < |s|
    decreases |s|, 0
  {
    if "<<" <= s then
      var (entries, t) :- ReadEntries(s[2..]);
      Some((Dict(entries), t))
    else if "[" <= s then
      var (items, t) :- ReadItems(s[1..], true);
      Some((Array(items), t))
    else if "/" <= s then
      var (name, t) := Word(s[1..], NameChar);
      Some((Name(name), t))
    else if StartsWithDigit(s) then
      ReadDigitsShrinks(s[1..], DigitValue(s[0]));
      var (n, t) := ReadDigits(s, 0);
      if " 0 R" <= t then Some((Ref(n), t[4..])) else Some((Number(n), t))
    else None
  }

  function ReadEntries(s: string): (r: Option<(Entries, string)>)
    ensures r.Some? ==> |r.value.1| < |s|
    decreases |s|, 1
  {
    if " >>" <= s then Some((NoEntries, s[3..])) else
    var s1 :- Expect(s, " /");
    var (key, s2) := Word(s1, NameChar);
    var s3 :- Expect(s2, " ");
    var (value, s4) :- ReadObj(s3);
    var (rest, s5) :- ReadEntries(s4);
    Some((Entry(key, value, rest), s5))
  }

  function ReadItems(s: string, first: bool): (r: Option<(Items, string)>)
    ensures r.Some? ==> |r.value.1| < |s|
    decreases |s|, 1
  {
    if "]" <= s then Some((NoItems, s[1..])) else
    var s1 :- if first then Some(s) else Expect(s, " ");
    var (o, s2) :- ReadObj(s1);
    var (rest, s3) :- ReadItems(s2, false);
    Some((Item(o, rest), s3))
  }

  // ----- The reader undoes the printer -----

  predicate Proper(o: Obj) {
    match o
    case Name(name) => AllOf(name, NameChar)
    case Number(_) => true
    case Ref(_) => true
    case Array(items) => ProperItems(items)
    case Dict(entries) => ProperEntries(entries)
  }

  predicate ProperItems(items: Items) {
    match items case NoItems => true case Item(o, rest) => Proper(o) && ProperItems(rest)
  }

  predicate ProperEntries(entries: Entries) {
    match entries
    case NoEntries => true
    case Entry(key, value, rest) => AllOf(key, NameChar) && Proper(value) && ProperEntries(rest)
  }

  /** Text that ends the value before it. */
  predicate Ends(u: string) { u == "" || (!NameChar(u[0]) && !(" 0 R" <= u)) }

  lemma PrintStarts(o: Obj)
    ensures Print(o) != "" && Print(o)[0] != 'R' && Print(o)[0] != ' '
    ensures o.Number? || o.Ref? <==> IsDigit(Print(o)[0])
    ensures o.Number? || o.Ref? ==> AllOf(Dec(if o.Number? then o.n else o.num), IsDigit)
  {
    if o.Number? { DecIsDigits(o.n); }
    if o.Ref? { DecIsDigits(o.num); }
  }

  lemma {:induction false} ReadNumber(n: nat, u: string)
    requires Ends(u)
    ensures ReadObj(Dec(n) + u) == Some((Number(n), u))
    ensures ReadObj(Dec(n) + (" 0 R" + u)) == Some((Ref(n), u))
  {
    DecIsDigits(n);
    ReadDec(n, u);
    ReadDec(n, " 0 R" + u);
    assert (" 0 R" + u)[4..] == u;
  }

  /** The zero of a following number does not read as the end of a reference. */
  lemma NoReference(o: Obj, t: string)
    requires t != "" && (t[0] == ']' || (t[0] == ' ' && |t| > 1 && t[1] != 'R'))
    ensures !(" 0 R" <= " " + (Print(o) + t))
  {
    PrintStarts(o);
    var s := " " + (Print(o) + t);
    assert s[1] == Print(o)[0];
    if Print(o)[0] == '0' {
      var digits := Dec(if o.Number? then o.n else o.num);
      if |digits| > 1 {
        assert s[2] == digits[1];
      } else if o.Number? {
        assert s[2..] == t;
      } else {
        assert s[3] == Print(o)[2];
      }
    }
  }

  lemma ItemsEnd(items: Items, u: string)
    ensures Ends(PrintItems(items, false) + u)
  {
    match items
    case NoItems =>
    case Item(o, rest) =>
      var t := PrintItems(rest, false) + u;
      if rest.Item? {
        PrintStarts(rest.first);
        assert t == " " + (Print(rest.first) + (PrintItems(rest.rest, false) + u));
        assert t[1] == Print(rest.first)[0];
      } else {
        assert t[0] == ']';
      }
      NoReference(o, t);
      assert PrintItems(items, false) + u == " " + (Print(o) + t);
  }

  lemma EntriesEnd(entries: Entries, u: string)
    ensures Ends(PrintEntries(entries) + u)
  {
    var s := PrintEntries(entries) + u;
    assert s[0] == ' ';
    match entries
    case NoEntries => assert s[1] == '>';
    case Entry(_, _, _) => assert s[1] == '/';
  }

  lemma {:induction false} ReadPrint(o: Obj, u: string)
    requires Proper(o) && Ends(u)
    ensures ReadObj(Print(o) + u) == Some((o, u))
    decreases o, 0
  {
    match o
    case Name(name) =>
      assert (Print(o) + u)[0] == '/' && (Print(o) + u)[1..] == name + u;
      WordIs(name, u, NameChar);
    case Number(n) => ReadNumber(n, u);
    case Ref(num) =>
      ReadNumber(num, u);
      Assoc(Dec(num), " 0 R", u);
    case Array(items) =>
      assert (Print(o) + u)[0] == '[' && (Print(o) + u)[1..] == PrintItems(items, true) + u;
      ReadPrintItems(items, true, u);
    case Dict(entries) =>
      assert (Print(o) + u)[2..] == PrintEntries(entries) + u;
      ReadPrintEntries(entries, u);
  }

  lemma NoBracket(o: Obj, t: string)
    ensures !("]" <= Print(o) + t) && !("]" <= " " + (Print(o) + t))
  {
    PrintStarts(o);
    assert (Print(o) + t)[0] == Print(o)[0];
  }

  lemma {:induction false} ReadPrintItems(items: Items, first: bool, u: string)
    requires ProperItems(items)
    ensures ReadItems(PrintItems(items, first) + u, first) == Some((items, u))
    decreases items, 1
  {
    match items
    case NoItems => assert (PrintItems(items, first) + u)[1..] == u;
    case Item(o, rest) =>
      var t := PrintItems(rest, false) + u;
      ItemPrinted(o, rest, first, u);
      hide Print, PrintItems, ReadObj, ReadItems, Ends;
      ItemsEnd(rest, u);
      ReadPrint(o, t);
      ReadPrintItems(rest, false, u);
      ReadOneItem(o, rest, first, t, u);
  }

  lemma ItemPrinted(o: Obj, rest: Items, first: bool, u: string)
    ensures PrintItems(Item(o, rest), first) + u ==
      (if first then "" else " ") + (Print(o) + (PrintItems(rest, false) + u))
  {
    hide Print;
    Assoc(Print(o), PrintItems(rest, false), u);
    Assoc(if first then "" else " ", Print(o) + PrintItems(rest, false), u);
  }

  lemma ReadOneItem(o: Obj, rest: Items, first: bool, t: string, u: string)
    requires ReadObj(Print(o) + t) == Some((o, t)) && ReadItems(t, false) == Some((rest, u))
    ensures ReadItems((if first then "" else " ") + (Print(o) + t), first) == Some((Item(o, rest), u))
  {
    NoBracket(o, t);
    ExpectOk(" ", Print(o) + t);
    assert "" + (Print(o) + t) == Print(o) + t;
    hide Print, ReadObj, Expect;
  }

  lemma {:induction false} ReadPrintEntries(entries: Entries, u: string)
    requires ProperEntries(entries)
    ensures ReadEntries(PrintEntries(entries) + u) == Some((entries, u))
    decreases entries, 1
  {
    match entries
    case NoEntries => assert (PrintEntries(entries) + u)[3..] == u;
    case Entry(key, value, rest) =>
      var t := PrintEntries(rest) + u;
      EntryPrinted(key, value, rest, u);
      hide Print, PrintEntries, ReadObj, ReadEntries, Ends;
      EntriesEnd(rest, u);
      ReadPrint(value, t);
      ReadPrintEntries(rest, u);
      ReadOneEntry(key, value, rest, t, u);
  }

  lemma EntryPrinted(key: string, value: Obj, rest: Entries, u: string)
    ensures PrintEntries(Entry(key, value, rest)) + u
         == " /" + (key + (" " + (Print(value) + (PrintEntries(rest) + u))))
  {
    hide Print;
  }

  lemma ReadOneEntry(key: string, value: Obj, rest: Entries, t: string, u: string)
    requires AllOf(key, NameChar)
    requires ReadObj(Print(value) + t) == Some((value, t)) && ReadEntries(t) == Some((rest, u))
    ensures ReadEntries(" /" + (key + (" " + (Print(value) + t)))) == Some((Entry(key, value, rest), u))
  {
    hide Print, ReadObj, Expect, Word;
    var s3 := Print(value) + t;
    var s1 := key + (" " + s3);
    assert (" /" + s1)[1] == '/';
    ExpectOk(" /", s1);
    WordIs(key, " " + s3, NameChar);
    ExpectOk(" ", s3);
  }

  // ----- Looking into dictionaries -----

  function Get(entries: Entries, key: string): Option<Obj> {
    match entries
    case NoEntries => None
    case Entry(k, value, rest) => if k == key then Some(value) else Get(rest, key)
  }

  lemma GetHere(key: string, value: Obj, rest: Entries)
    ensures Get(Entry(key, value, rest), key) == Some(value)
  {
  }

  lemma GetLater(k: string, value: Obj, rest: Entries, key: string)
    requires k != key
    ensures Get(Entry(k, value, rest), key) == Get(rest, key)
  {
  }

  lemma ProperOne(key: string, value: Obj, rest: Entries)
    requires AllOf(key, NameChar) && Proper(value) && ProperEntries(rest)
    ensures ProperEntries(Entry(key, value, rest))
  {
  }

  function GetRef(entries: Entries, key: string): Option<nat> {
    var o :- Get(entries, key);
    if o.Ref? then Some(o.num) else None
  }

  function GetNumber(entries: Entries, key: string): Option<nat> {
    var o :- Get(entries, key);
    if o.Number? then Some(o.n) else None
  }

  function GetDict(entries: Entries, key: string): Option<Entries> {
    var o :- Get(entries, key);
    if o.Dict? then Some(o.entries) else None
  }

  predicate HasType(entries: Entries, name: string) { Get(entries, "Type") == Some(Name(name)) }

  /** The references that an array lists. */
  function Refs(items: Items): Option<seq<nat>> {
    match items
    case NoItems => Some([])
    case Item(o, rest) =>
      if !o.Ref? then None else
      var nums :- Refs(rest);
      Some([o.num] + nums)
  }

  /** The dictionary at the start of a text. */
  function ReadDict(s: string): Option<(Entries, string)> {
    var (o, t) :- ReadObj(s);
    if o.Dict? then Some((o.entries, t)) else None
  }

  lemma ReadDictOk(entries: Entries, u: string)
    requires ProperEntries(entries) && Ends(u)
    ensures ReadDict(Print(Dict(entries)) + u) == Some((entries, u))
  {
    ReadPrint(Dict(entries), u);
  }
}
