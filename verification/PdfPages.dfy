/** The content streams and the dictionaries of the writer are read back, one by one. */
module PdfPages {
  import opened Text
  import opened PdfText
  import opened Pdf
  import opened PdfObjects
  import opened PdfReader

  function ShownLines(lines: seq<string>): (r: seq<string>) {
    seq(|lines|, i requires 0 <= i < |lines| => Shown(lines[i]))
  }

  // ----- Content streams, word by word -----

  lemma DrawSpace(c: char, u: string, args: seq<Operand>, pen: Pen)
    requires c == ' ' || c == '\n'
    ensures Draw([c] + u, args, pen) == Draw(u, args, pen)
  {
    var s := [c] + u;
    assert s[0] == c && s[1..] == u;
    assert s != "ET" && s != "";
    hide Moved, Word, ReadLiteral, ReadDigits;
  }

  lemma DrawNumber(n: nat, u: string, args: seq<Operand>, pen: Pen)
    requires !StartsWithDigit(u)
    ensures Draw(Dec(n) + u, args, pen) == Draw(u, args + [Amount(n)], pen)
  {
    DecIsDigits(n);
    ReadDec(n, u);
    assert (Dec(n) + u)[0] == Dec(n)[0];
    hide Moved, Word;
  }

  lemma DrawName(name: string, u: string, args: seq<Operand>, pen: Pen)
    requires AllOf(name, NameChar) && (u == "" || !NameChar(u[0]))
    ensures Draw("/" + (name + u), args, pen) == Draw(u, args + [FontName(name)], pen)
  {
    var s := "/" + (name + u);
    assert s[0] == '/' && s[1..] == name + u;
    WordIs(name, u, NameChar);
    hide Moved;
  }

  lemma DrawText(line: string, u: string, args: seq<Operand>, pen: Pen)
    ensures Draw("(" + (Escaped(line) + (")" + u)), args, pen) == Draw(u, args + [Chars(Shown(line))], pen)
  {
    var s := Escaped(line) + (")" + u);
    assert ("(" + s)[1..] == s;
    ReadEscaped(line, u);
    hide Moved, Escaped, Shown;
  }

  lemma DrawWord(op: string, u: string, args: seq<Operand>, pen: Pen)
    requires op != "" && AllOf(op, OpChar) && u != "" && !OpChar(u[0])
    ensures Draw(op + u, args, pen) ==
      if op == "Tj" && |args| == 1 && args[0].Chars? then
        Marked(Mark(pen.font, pen.size, pen.x, pen.y, args[0].text), Draw(u, [], pen))
      else match Moved(op, args, pen) case None => None case Some(next) => Draw(u, [], next)
  {
    WordIs(op, u, OpChar);
    assert (op + u)[0] == op[0] && OpChar(op[0]);
    assert (op + u)[|op|] == u[0];
    hide Moved, Marked;
  }

  lemma DrawMove(op: string, u: string, args: seq<Operand>, pen: Pen, next: Pen)
    requires op in ["BT", "Tf", "Td", "TL", "T*"] && u != "" && !OpChar(u[0])
    requires Moved(op, args, pen) == Some(next)
    ensures Draw(op + u, args, pen) == Draw(u, [], next)
  {
    hide Moved;
    DrawWord(op, u, args, pen);
  }

  lemma DrawShow(text: string, u: string, pen: Pen)
    requires u != "" && !OpChar(u[0])
    ensures Draw("Tj" + u, [Chars(text)], pen) ==
      Marked(Mark(pen.font, pen.size, pen.x, pen.y, text), Draw(u, [], pen))
  {
    hide Moved;
    DrawWord("Tj", u, [Chars(text)], pen);
  }

  // ----- The start of a page -----

  lemma HeadIs(u: string)
    ensures ContentHead() + u ==
      "BT /F1 " + (Dec(9) + (" Tf " + (Dec(40) + (" " + (Dec(800) + (" Td " + (Dec(13) + (" TL\n" + u))))))))
  {
    hide Dec;
  }

  lemma DrawBegin(v: string, pen: Pen)
    ensures Draw("BT /F1 " + v, [], pen) == Draw(v, [FontName("F1")], pen.(x := 0, y := 0))
  {
    hide Draw, Word;
    var s := " " + ("/" + ("F1" + (" " + v)));
    assert "BT /F1 " + v == "BT" + s;
    DrawMove("BT", s, [], pen, pen.(x := 0, y := 0));
    DrawSpace(' ', "/" + ("F1" + (" " + v)), [], pen.(x := 0, y := 0));
    DrawName("F1", " " + v, [], pen.(x := 0, y := 0));
    DrawSpace(' ', v, [FontName("F1")], pen.(x := 0, y := 0));
    assert [] + [FontName("F1")] == [FontName("F1")];
  }

  /** An operator between spaces, before the next operand. */
  lemma DrawSpaced(op: string, c: char, v: string, args: seq<Operand>, pen: Pen, next: Pen)
    requires op in ["Tf", "Td", "TL"] && (c == ' ' || c == '\n')
    requires Moved(op, args, pen) == Some(next)
    ensures Draw(" " + (op + ([c] + v)), args, pen) == Draw(v, [], next)
  {
    hide Draw, Moved, Word;
    DrawSpace(' ', op + ([c] + v), args, pen);
    DrawMove(op, [c] + v, args, pen, next);
    DrawSpace(c, v, [], next);
  }

  lemma DrawTwo(a: nat, b: nat, v: string, pen: Pen)
    requires !StartsWithDigit(v)
    ensures Draw(Dec(a) + (" " + (Dec(b) + v)), [], pen) == Draw(v, [Amount(a), Amount(b)], pen)
  {
    hide Draw, Dec;
    DrawNumber(a, " " + (Dec(b) + v), [], pen);
    DrawSpace(' ', Dec(b) + v, [Amount(a)], pen);
    DrawNumber(b, v, [Amount(a)], pen);
    assert [] + [Amount(a)] == [Amount(a)] && [Amount(a)] + [Amount(b)] == [Amount(a), Amount(b)];
  }

  /** Font F1 at 9 points, the first line at (40, 800), each next one 13 units below. */
  lemma DrawHead(u: string)
    ensures ReadContent(ContentHead() + u) == Draw(u, [], Pen("F1", 9, 13, 40, 800))
  {
    hide Draw, Dec, ContentHead;
    var v4 := " TL\n" + u;
    var v3 := " Td " + (Dec(13) + v4);
    var v2 := " Tf " + (Dec(40) + (" " + (Dec(800) + v3)));
    HeadIs(u);
    DrawBegin(Dec(9) + v2, Pen("", 0, 0, 0, 0));
    var p0, p1 := Pen("", 0, 0, 0, 0), Pen("F1", 9, 0, 0, 0);
    DrawNumber(9, v2, [FontName("F1")], p0);
    assert [FontName("F1")] + [Amount(9)] == [FontName("F1"), Amount(9)];
    DrawTf(Dec(40) + (" " + (Dec(800) + v3)), p0);
    DrawTwo(40, 800, v3, p1);
    DrawTd(Dec(13) + v4, p1);
    var p2 := Pen("F1", 9, 0, 40, 800);
    DrawNumber(13, v4, [], p2);
    assert [] + [Amount(13)] == [Amount(13)];
    DrawTL(u, p2);
  }

  lemma Pieces(lit: string, op: string, c: char, v: string)
    requires lit == " " + op + [c]
    ensures lit + v == " " + (op + ([c] + v))
  {
  }

  lemma DrawTf(v: string, pen: Pen)
    ensures Draw(" Tf " + v, [FontName("F1"), Amount(9)], pen) == Draw(v, [], pen.(font := "F1", size := 9))
  {
    assert Moved("Tf", [FontName("F1"), Amount(9)], pen) == Some(pen.(font := "F1", size := 9));
    hide Draw, Moved;
    Pieces(" Tf ", "Tf", ' ', v);
    DrawSpaced("Tf", ' ', v, [FontName("F1"), Amount(9)], pen, pen.(font := "F1", size := 9));
  }

  lemma DrawTd(v: string, pen: Pen)
    ensures Draw(" Td " + v, [Amount(40), Amount(800)], pen) == Draw(v, [], pen.(x := pen.x + 40, y := pen.y + 800))
  {
    assert Moved("Td", [Amount(40), Amount(800)], pen) == Some(pen.(x := pen.x + 40, y := pen.y + 800));
    hide Draw, Moved;
    Pieces(" Td ", "Td", ' ', v);
    DrawSpaced("Td", ' ', v, [Amount(40), Amount(800)], pen, pen.(x := pen.x + 40, y := pen.y + 800));
  }

  lemma DrawTL(v: string, pen: Pen)
    ensures Draw(" TL\n" + v, [Amount(13)], pen) == Draw(v, [], pen.(leading := 13))
  {
    assert Moved("TL", [Amount(13)], pen) == Some(pen.(leading := 13));
    hide Draw, Moved;
    Pieces(" TL\n", "TL", '\n', v);
    DrawSpaced("TL", '\n', v, [Amount(13)], pen, pen.(leading := 13));
  }

  // ----- The lines of a page -----

  /** What a page shows: its lines from the top down, 13 units apart. */
  function MarksOf(page: seq<string>, font: string): (r: seq<Mark>) {
    seq(|page|, i requires 0 <= i < |page| => Mark(font, 9, 40, 800 - 13 * i, Shown(page[i])))
  }

  /** The pen before line `i`, which a new line moves down unless it is the first. */
  function PenAt(i: nat): Pen { Pen("F1", 9, 13, 40, 800 - 13 * if i == 0 then 0 else i - 1) }

  lemma DrawLine(line: string, u: string, pen: Pen)
    ensures Draw(ShowLine(line) + u, [], pen) ==
      Marked(Mark(pen.font, pen.size, pen.x, pen.y, Shown(line)), Draw(u, [], pen))
  {
    hide Draw, Escaped, Shown, Marked;
    var t := "Tj" + (['\n'] + u);
    assert ShowLine(line) + u == "(" + (Escaped(line) + (")" + (" " + t)));
    DrawText(line, " " + t, [], pen);
    assert [] + [Chars(Shown(line))] == [Chars(Shown(line))];
    DrawSpace(' ', t, [Chars(Shown(line))], pen);
    DrawShow(Shown(line), ['\n'] + u, pen);
    DrawSpace('\n', u, [], pen);
  }

  lemma DrawNewLine(u: string, pen: Pen)
    ensures Draw("T*\n" + u, [], pen) == Draw(u, [], pen.(y := pen.y - pen.leading))
  {
    var next := pen.(y := pen.y - pen.leading);
    assert Moved("T*", [], pen) == Some(next);
    hide Draw, Moved;
    assert "T*\n" == "T*" + ['\n'];
    Assoc("T*", ['\n'], u);
    DrawMove("T*", ['\n'] + u, [], pen, next);
    DrawSpace('\n', u, [], next);
  }

  lemma {:induction false} DrawLines(page: seq<string>, i: nat)
    requires i <= |page|
    ensures Draw(ShowsFrom(page, i) + "ET", [], PenAt(i)) == Some(MarksOf(page, "F1")[i..])
    decreases |page| - i
  {
    hide Draw, ShowLine, Shown;
    if i == |page| {
      assert ShowsFrom(page, i) + "ET" == "ET";
      TextEnds(PenAt(i));
    } else {
      var next := ShowsFrom(page, i + 1) + "ET";
      var line := ShowLine(page[i]) + next;
      DrawLines(page, i + 1);
      if i == 0 {
        Assoc(ShowLine(page[0]), ShowsFrom(page, 1), "ET");
        DrawLine(page[0], next, PenAt(0));
      } else {
        Assoc(ShowLine(page[i]), ShowsFrom(page, i + 1), "ET");
        Assoc("T*\n", ShowLine(page[i]) + ShowsFrom(page, i + 1), "ET");
        DrawNewLine(line, PenAt(i));
        DrawLine(page[i], next, PenAt(i + 1));
      }
      assert [MarksOf(page, "F1")[i]] + MarksOf(page, "F1")[i + 1..] == MarksOf(page, "F1")[i..];
    }
  }

  lemma TextEnds(pen: Pen)
    ensures Draw("ET", [], pen) == Some([])
  {
  }

  lemma ReadContentOk(page: seq<string>)
    ensures ReadContent(Content(page)) == Some(MarksOf(page, "F1"))
  {
    hide Draw, ReadContent, ContentHead;
    DrawHead(ShowsFrom(page, 0) + "ET");
    DrawLines(page, 0);
  }

  // ----- Dictionaries -----

  function CatalogEntries(pages: nat): Entries {
    Entry("Type", Name("Catalog"), Entry("Pages", Ref(pages), NoEntries))
  }

  function FontEntries(): Entries {
    Entry("Type", Name("Font"), Entry("Subtype", Name("Type1"), Entry("BaseFont", Name("Courier"),
      Entry("Encoding", Name("WinAnsiEncoding"), NoEntries))))
  }

  function Box(width: nat, height: nat): Obj {
    Array(Item(Number(0), Item(Number(0), Item(Number(width), Item(Number(height), NoItems)))))
  }

  function PageEntries(parent: nat, contents: nat, font: nat): Entries {
    Entry("Type", Name("Page"), Entry("Parent", Ref(parent), Entry("MediaBox", Box(595, 842),
      Entry("Contents", Ref(contents), Entry("Resources", Dict(Fonts(font)), NoEntries)))))
  }

  function Fonts(font: nat): Entries { Entry("Font", Dict(Entry("F1", Ref(font), NoEntries)), NoEntries) }

  function LengthEntries(n: nat): Entries { Entry("Length", Number(n), NoEntries) }

  function TrailerEntries(size: nat, root: nat): Entries {
    Entry("Size", Number(size), Entry("Root", Ref(root), NoEntries))
  }

  function KidItems(nums: seq<nat>): Items {
    if nums == [] then NoItems else Item(Ref(nums[0]), KidItems(nums[1..]))
  }

  function TreeEntries(nums: seq<nat>): Entries {
    Entry("Type", Name("Pages"), Entry("Kids", Array(KidItems(nums)), Entry("Count", Number(|nums|), NoEntries)))
  }

  // ----- Their printed form -----

  lemma PrintDict(entries: Entries, u: string)
    ensures Print(Dict(entries)) + u == "<<" + (PrintEntries(entries) + u)
  {
    hide PrintEntries;
  }

  lemma NoMore(u: string)
    ensures PrintEntries(NoEntries) + u == " >>" + u
  {
  }

  /** Entries with a name, a reference, a number and any other value, by the literal text of their
      keys. */
  lemma NameEntry(lit: string, key: string, name: string, rest: Entries, u: string)
    requires lit == " /" + key + (" /" + name)
    ensures PrintEntries(Entry(key, Name(name), rest)) + u == lit + (PrintEntries(rest) + u)
  {
    EntryPrinted(key, Name(name), rest, u);
    hide PrintEntries;
    assert " " + (("/" + name) + (PrintEntries(rest) + u)) == " /" + (name + (PrintEntries(rest) + u));
  }

  lemma OtherEntry(lit: string, key: string, value: Obj, rest: Entries, u: string)
    requires lit == " /" + key + " "
    ensures PrintEntries(Entry(key, value, rest)) + u == lit + (Print(value) + (PrintEntries(rest) + u))
  {
    EntryPrinted(key, value, rest, u);
    hide PrintEntries, Print;
  }

  lemma RefEntry(lit: string, key: string, num: nat, rest: Entries, u: string)
    requires lit == " /" + key + " "
    ensures PrintEntries(Entry(key, Ref(num), rest)) + u
         == lit + (Dec(num) + (" 0 R" + (PrintEntries(rest) + u)))
  {
    OtherEntry(lit, key, Ref(num), rest, u);
    hide PrintEntries, Dec;
    Assoc(Dec(num), " 0 R", PrintEntries(rest) + u);
  }

  lemma NumberEntry(lit: string, key: string, n: nat, rest: Entries, u: string)
    requires lit == " /" + key + " "
    ensures PrintEntries(Entry(key, Number(n), rest)) + u == lit + (Dec(n) + (PrintEntries(rest) + u))
  {
    OtherEntry(lit, key, Number(n), rest, u);
  }

  lemma CatalogKeys()
    ensures " /Type /Catalog" == " /" + "Type" + (" /" + "Catalog") && " /Pages " == " /" + "Pages" + " "
  {
  }

  lemma CatalogPrinted(n: nat, u: string)
    ensures CatalogBody(n) + u == Print(Dict(CatalogEntries(n))) + u
  {
    hide Dec, PrintEntries, Print;
    CatalogKeys();
    PrintDict(CatalogEntries(n), u);
    NameEntry(" /Type /Catalog", "Type", "Catalog", Entry("Pages", Ref(n), NoEntries), u);
    RefEntry(" /Pages ", "Pages", n, NoEntries, u);
    NoMore(u);
  }

  lemma FontKeys()
    ensures " /Type /Font" == " /" + "Type" + (" /" + "Font")
    ensures " /Subtype /Type1" == " /" + "Subtype" + (" /" + "Type1")
    ensures " /BaseFont /Courier" == " /" + "BaseFont" + (" /" + "Courier")
  {
  }

  lemma EncodingKey()
    ensures " /Encoding /WinAnsiEncoding" == " /" + "Encoding" + (" /" + "WinAnsiEncoding")
  {
  }

  lemma FontPrinted(u: string)
    ensures FontBody() + u == Print(Dict(FontEntries())) + u
  {
    hide PrintEntries, Print;
    FontKeys();
    EncodingKey();
    var e4 := Entry("Encoding", Name("WinAnsiEncoding"), NoEntries);
    var e3 := Entry("BaseFont", Name("Courier"), e4);
    var e2 := Entry("Subtype", Name("Type1"), e3);
    PrintDict(FontEntries(), u);
    NameEntry(" /Type /Font", "Type", "Font", e2, u);
    NameEntry(" /Subtype /Type1", "Subtype", "Type1", e3, u);
    NameEntry(" /BaseFont /Courier", "BaseFont", "Courier", e4, u);
    NameEntry(" /Encoding /WinAnsiEncoding", "Encoding", "WinAnsiEncoding", NoEntries, u);
    NoMore(u);
  }

  lemma LengthPrinted(n: nat, u: string)
    ensures StreamHead(n) + u == Print(Dict(LengthEntries(n))) + ("\nstream\n" + u)
  {
    hide Dec, PrintEntries, Print;
    var v := "\nstream\n" + u;
    assert " /Length " == " /" + "Length" + " ";
    PrintDict(LengthEntries(n), v);
    NumberEntry(" /Length ", "Length", n, NoEntries, v);
    NoMore(v);
  }

  lemma TrailerPrinted(size: nat, root: nat, u: string)
    ensures TrailerHead(size, root) + u ==
      "trailer\n" + (Print(Dict(TrailerEntries(size, root))) + ("\nstartxref\n" + u))
  {
    hide Dec, PrintEntries, Print;
    var v := "\nstartxref\n" + u;
    assert " /Size " == " /" + "Size" + " " && " /Root " == " /" + "Root" + " ";
    PrintDict(TrailerEntries(size, root), v);
    NumberEntry(" /Size ", "Size", size, Entry("Root", Ref(root), NoEntries), v);
    RefEntry(" /Root ", "Root", root, NoEntries, v);
    NoMore(v);
  }

  lemma PageKeys()
    ensures " /Type /Page" == " /" + "Type" + (" /" + "Page") && " /Parent " == " /" + "Parent" + " "
    ensures " /MediaBox " == " /" + "MediaBox" + " " && " /Contents " == " /" + "Contents" + " "
    ensures " /Resources " == " /" + "Resources" + " " && " /Font " == " /" + "Font" + " "
    ensures " /F1 " == " /" + "F1" + " "
  {
  }

  lemma BoxNumbers()
    ensures Dec(0) == "0" && Dec(595) == "595" && Dec(842) == "842"
  {
    assert Dec(595) == Dec(59) + "5" && Dec(59) == Dec(5) + "9" && Dec(5) == "5";
    assert Dec(842) == Dec(84) + "2" && Dec(84) == Dec(8) + "4" && Dec(8) == "8";
  }

  lemma NumberItem(n: nat, rest: Items, first: bool)
    ensures PrintItems(Item(Number(n), rest), first) == (if first then "" else " ") + (Dec(n) + PrintItems(rest, false))
  {
    hide Dec;
  }

  lemma BoxPrinted()
    ensures Print(Box(595, 842)) == "[0 0 595 842]"
  {
    hide Dec, PrintItems;
    var d := Item(Number(842), NoItems);
    var c := Item(Number(595), d);
    var b := Item(Number(0), c);
    BoxNumbers();
    NumberItem(842, NoItems, false);
    NumberItem(595, d, false);
    NumberItem(0, c, false);
    NumberItem(0, b, true);
    assert PrintItems(NoItems, false) == "]" by { NothingListed(); }
    assert " " + ("842" + "]") == " 842]";
    assert " " + ("595" + " 842]") == " 595 842]";
    assert " " + ("0" + " 595 842]") == " 0 595 842]";
    assert "" + ("0" + " 0 595 842]") == "0 0 595 842]";
  }

  lemma NothingListed()
    ensures PrintItems(NoItems, false) == "]"
  {
  }

  lemma PagePrinted(parent: nat, contents: nat, font: nat, u: string)
    ensures PageBody(parent, contents, font) + u == Print(Dict(PageEntries(parent, contents, font))) + u
  {
    hide Dec, PrintEntries, Print, Box;
    PageKeys();
    BoxPrinted();
    var f1 := Entry("F1", Ref(font), NoEntries);
    var e5 := Entry("Resources", Dict(Fonts(font)), NoEntries);
    var e4 := Entry("Contents", Ref(contents), e5);
    var e3 := Entry("MediaBox", Box(595, 842), e4);
    var e2 := Entry("Parent", Ref(parent), e3);
    PrintDict(PageEntries(parent, contents, font), u);
    NameEntry(" /Type /Page", "Type", "Page", e2, u);
    RefEntry(" /Parent ", "Parent", parent, e3, u);
    OtherEntry(" /MediaBox ", "MediaBox", Box(595, 842), e4, u);
    RefEntry(" /Contents ", "Contents", contents, e5, u);
    OtherEntry(" /Resources ", "Resources", Dict(Fonts(font)), NoEntries, u);
    NoMore(u);
    PrintDict(Fonts(font), " >>" + u);
    OtherEntry(" /Font ", "Font", Dict(f1), NoEntries, " >>" + u);
    NoMore(" >>" + u);
    PrintDict(f1, " >>" + (" >>" + u));
    RefEntry(" /F1 ", "F1", font, NoEntries, " >>" + (" >>" + u));
    NoMore(" >>" + (" >>" + u));
  }

  // ----- The page tree -----

  function KidStrings(nums: seq<nat>): seq<string> {
    seq(|nums|, i requires 0 <= i < |nums| => KidText(nums[i]))
  }

  lemma {:induction false} KidsPrinted(nums: seq<nat>, first: bool)
    requires nums != []
    ensures (if first then "" else " ") + (Join(KidStrings(nums), " ") + "]") == PrintItems(KidItems(nums), first)
  {
    var kids := KidStrings(nums);
    assert kids[1..] == KidStrings(nums[1..]);
    if |nums| == 1 {
      assert PrintItems(KidItems(nums), first) == (if first then "" else " ") + (Print(Ref(nums[0])) + "]") by {
        assert KidItems(nums[1..]) == NoItems;
      }
    } else {
      KidsPrinted(nums[1..], false);
      hide Dec;
      Assoc(kids[0] + " ", Join(kids[1..], " "), "]");
      Assoc(kids[0], " ", Join(kids[1..], " ") + "]");
    }
  }

  lemma {:induction false} KidsAreRefs(nums: seq<nat>)
    ensures Refs(KidItems(nums)) == Some(nums) && ProperItems(KidItems(nums))
  {
    if nums != [] {
      KidsAreRefs(nums[1..]);
      assert [nums[0]] + nums[1..] == nums;
    }
  }

  lemma TreeKeys()
    ensures " /Type /Pages" == " /" + "Type" + (" /" + "Pages") && " /Kids " == " /" + "Kids" + " "
    ensures " /Count " == " /" + "Count" + " "
  {
  }

  lemma TreePrinted(nums: seq<nat>, u: string)
    requires nums != []
    ensures TreeBody(Join(KidStrings(nums), " "), |nums|) + u == Print(Dict(TreeEntries(nums))) + u
  {
    hide Dec, PrintEntries, Print, PrintItems, Join, KidStrings, KidItems;
    TreeKeys();
    KidsPrinted(nums, true);
    var kids := Join(KidStrings(nums), " ");
    var e3 := Entry("Count", Number(|nums|), NoEntries);
    var e2 := Entry("Kids", Array(KidItems(nums)), e3);
    PrintDict(TreeEntries(nums), u);
    NameEntry(" /Type /Pages", "Type", "Pages", e2, u);
    OtherEntry(" /Kids ", "Kids", Array(KidItems(nums)), e3, u);
    NumberEntry(" /Count ", "Count", |nums|, NoEntries, u);
    NoMore(u);
    ArrayPrinted(KidItems(nums));
    var rest := " /Count " + (Dec(|nums|) + (" >>" + u));
    assert ("[" + (kids + "]")) + rest == "[" + (kids + ("]" + rest));
    assert "" + (kids + "]") == kids + "]";
  }

  lemma ArrayPrinted(items: Items)
    ensures Print(Array(items)) == "[" + PrintItems(items, true)
  {
  }

  // ----- Each printed object is read back -----

  lemma ReadWholeOk(entries: Entries, t: string)
    requires ProperEntries(entries)
    ensures ReadWhole(Print(Dict(entries)) + (END_OBJ + t)) == Some(entries)
  {
    hide Print, ProperEntries;
    ReadDictOk(entries, END_OBJ + t);
    ExpectOk(END_OBJ, t);
  }

  lemma CatalogRead(n: nat, t: string)
    ensures ReadWhole(CatalogBody(n) + (END_OBJ + t)) == Some(CatalogEntries(n))
    ensures ReadCatalog(CatalogEntries(n)) == Some(n)
  {
    CatalogPrinted(n, END_OBJ + t);
    CatalogLookedUp(n);
    hide ReadWhole, Print, ProperEntries, ReadCatalog, CatalogEntries, CatalogBody;
    ReadWholeOk(CatalogEntries(n), t);
  }

  lemma CatalogLookedUp(n: nat)
    ensures ProperEntries(CatalogEntries(n)) && ReadCatalog(CatalogEntries(n)) == Some(n)
  {
    var e2 := Entry("Pages", Ref(n), NoEntries);
    ProperOne("Pages", Ref(n), NoEntries);
    ProperOne("Type", Name("Catalog"), e2);
    GetHere("Type", Name("Catalog"), e2);
    GetLater("Type", Name("Catalog"), e2, "Pages");
    GetHere("Pages", Ref(n), NoEntries);
    hide Get, ProperEntries;
  }

  lemma FontRead(t: string)
    ensures ReadWhole(FontBody() + (END_OBJ + t)) == Some(FontEntries())
    ensures HasType(FontEntries(), "Font") && Get(FontEntries(), "BaseFont") == Some(Name("Courier"))
  {
    FontPrinted(END_OBJ + t);
    FontLookedUp();
    hide ReadWhole, Print, ProperEntries, FontBody, FontEntries, Get;
    ReadWholeOk(FontEntries(), t);
  }

  lemma FontLookedUp()
    ensures ProperEntries(FontEntries())
    ensures HasType(FontEntries(), "Font") && Get(FontEntries(), "BaseFont") == Some(Name("Courier"))
  {
    var e4 := Entry("Encoding", Name("WinAnsiEncoding"), NoEntries);
    var e3 := Entry("BaseFont", Name("Courier"), e4);
    var e2 := Entry("Subtype", Name("Type1"), e3);
    ProperOne("Encoding", Name("WinAnsiEncoding"), NoEntries);
    ProperOne("BaseFont", Name("Courier"), e4);
    ProperOne("Subtype", Name("Type1"), e3);
    ProperOne("Type", Name("Font"), e2);
    GetHere("Type", Name("Font"), e2);
    GetLater("Type", Name("Font"), e2, "BaseFont");
    GetLater("Subtype", Name("Type1"), e3, "BaseFont");
    GetHere("BaseFont", Name("Courier"), e4);
    hide Get, ProperEntries;
  }

  lemma PageRead(parent: nat, contents: nat, font: nat, t: string)
    ensures ReadWhole(PageBody(parent, contents, font) + (END_OBJ + t)) == Some(PageEntries(parent, contents, font))
    ensures ReadPageEntries(PageEntries(parent, contents, font)) ==
      Some(PageRefs(parent, contents, 595, 842, Entry("F1", Ref(font), NoEntries)))
  {
    PagePrinted(parent, contents, font, END_OBJ + t);
    PageProper(parent, contents, font);
    PageLookedUp(parent, contents, font);
    hide ReadWhole, Print, ProperEntries, PageBody, PageEntries, ReadPageEntries;
    ReadWholeOk(PageEntries(parent, contents, font), t);
  }

  lemma BoxProper()
    ensures Proper(Box(595, 842))
  {
    var c := Item(Number(595), Item(Number(842), NoItems));
    assert ProperItems(c) && ProperItems(Item(Number(0), c));
  }

  lemma PageKeysProper()
    ensures AllOf("F1", NameChar) && AllOf("Font", NameChar) && AllOf("Resources", NameChar)
    ensures AllOf("Contents", NameChar) && AllOf("MediaBox", NameChar) && AllOf("Parent", NameChar)
    ensures AllOf("Type", NameChar) && Proper(Name("Page"))
  {
  }

  lemma PageProper(parent: nat, contents: nat, font: nat)
    ensures ProperEntries(PageEntries(parent, contents, font))
  {
    BoxProper();
    PageKeysProper();
    var f1 := Entry("F1", Ref(font), NoEntries);
    var e5 := Entry("Resources", Dict(Fonts(font)), NoEntries);
    var e4 := Entry("Contents", Ref(contents), e5);
    var e3 := Entry("MediaBox", Box(595, 842), e4);
    var e2 := Entry("Parent", Ref(parent), e3);
    hide Box, AllOf;
    ProperOne("F1", Ref(font), NoEntries);
    ProperOne("Font", Dict(f1), NoEntries);
    ProperOne("Resources", Dict(Fonts(font)), NoEntries);
    ProperOne("Contents", Ref(contents), e5);
    ProperOne("MediaBox", Box(595, 842), e4);
    ProperOne("Parent", Ref(parent), e3);
    ProperOne("Type", Name("Page"), e2);
  }

  lemma PageLookedUp(parent: nat, contents: nat, font: nat)
    ensures ReadPageEntries(PageEntries(parent, contents, font)) ==
      Some(PageRefs(parent, contents, 595, 842, Entry("F1", Ref(font), NoEntries)))
  {
    var f1 := Entry("F1", Ref(font), NoEntries);
    var e5 := Entry("Resources", Dict(Fonts(font)), NoEntries);
    var e4 := Entry("Contents", Ref(contents), e5);
    var e3 := Entry("MediaBox", Box(595, 842), e4);
    var e2 := Entry("Parent", Ref(parent), e3);
    hide Get;
    GetHere("Type", Name("Page"), e2);
    PassBy("Type", Name("Page"), e2);
    GetHere("Parent", Ref(parent), e3);
    PassBy("Parent", Ref(parent), e3);
    GetHere("MediaBox", Box(595, 842), e4);
    PassBy("MediaBox", Box(595, 842), e4);
    GetHere("Contents", Ref(contents), e5);
    PassBy("Contents", Ref(contents), e5);
    GetHere("Resources", Dict(Fonts(font)), NoEntries);
    GetHere("Font", Dict(f1), NoEntries);
  }

  /** Looking for another key passes an entry by. */
  lemma PassBy(key: string, value: Obj, rest: Entries)
    ensures key != "Parent" ==> Get(Entry(key, value, rest), "Parent") == Get(rest, "Parent")
    ensures key != "MediaBox" ==> Get(Entry(key, value, rest), "MediaBox") == Get(rest, "MediaBox")
    ensures key != "Contents" ==> Get(Entry(key, value, rest), "Contents") == Get(rest, "Contents")
    ensures key != "Resources" ==> Get(Entry(key, value, rest), "Resources") == Get(rest, "Resources")
  {
  }

  lemma TreeRead(nums: seq<nat>, t: string)
    requires nums != []
    ensures ReadWhole(TreeBody(Join(KidStrings(nums), " "), |nums|) + (END_OBJ + t)) == Some(TreeEntries(nums))
    ensures ReadKids(TreeEntries(nums)) == Some(nums)
  {
    TreePrinted(nums, END_OBJ + t);
    TreeLookedUp(nums);
    hide ReadWhole, ReadKids, TreeEntries, Print, ProperEntries, TreeBody, Join, KidStrings, KidItems, Refs;
    ReadWholeOk(TreeEntries(nums), t);
  }

  lemma TreeLookedUp(nums: seq<nat>)
    ensures ProperEntries(TreeEntries(nums)) && ReadKids(TreeEntries(nums)) == Some(nums)
  {
    KidsAreRefs(nums);
    var e3 := Entry("Count", Number(|nums|), NoEntries);
    var e2 := Entry("Kids", Array(KidItems(nums)), e3);
    ProperOne("Count", Number(|nums|), NoEntries);
    ProperOne("Kids", Array(KidItems(nums)), e3);
    ProperOne("Type", Name("Pages"), e2);
    hide KidItems, Refs, ProperItems, ProperEntries, Get;
    GetHere("Type", Name("Pages"), e2);
    GetLater("Type", Name("Pages"), e2, "Kids");
    GetLater("Type", Name("Pages"), e2, "Count");
    GetHere("Kids", Array(KidItems(nums)), e3);
    GetLater("Kids", Array(KidItems(nums)), e3, "Count");
    GetHere("Count", Number(|nums|), NoEntries);
  }

  lemma LengthLookedUp(n: nat)
    ensures ProperEntries(LengthEntries(n)) && GetNumber(LengthEntries(n), "Length") == Some(n)
  {
    ProperOne("Length", Number(n), NoEntries);
    GetHere("Length", Number(n), NoEntries);
  }

  lemma StreamFrom(c: string, t: string)
    ensures ReadStream(Print(Dict(LengthEntries(|c|)))
                       + ("\nstream\n" + (c + ("\nendstream\nendobj\n" + t)))) == Some(c)
  {
    var v := "\nendstream\nendobj\n" + t;
    var u := "\nstream\n" + (c + v);
    LengthLookedUp(|c|);
    assert Ends(u);
    hide Print, LengthEntries, ProperEntries, GetNumber, ReadDict, Expect, Ends;
    ReadDictOk(LengthEntries(|c|), u);
    ExpectOk("\nstream\n", c + v);
    DropFirst(c, v);
    ExpectOk("\nendstream\nendobj\n", t);
  }

  lemma StreamEnd(t: string)
    ensures END_STREAM + (END_OBJ + t) == "\nendstream\nendobj\n" + t
  {
    assert END_STREAM + END_OBJ == "\nendstream\nendobj\n";
    Assoc(END_STREAM, END_OBJ, t);
  }

  lemma ReadStreamOk(page: seq<string>, t: string)
    ensures ReadStream(ContentBody(page) + (END_OBJ + t)) == Some(Content(page))
  {
    var c := Content(page);
    hide Content, Print, StreamHead, ReadStream, LengthEntries;
    Assoc(StreamHead(|c|), c + END_STREAM, END_OBJ + t);
    Assoc(c, END_STREAM, END_OBJ + t);
    StreamEnd(t);
    LengthPrinted(|c|, c + ("\nendstream\nendobj\n" + t));
    StreamFrom(c, t);
  }

  lemma ReadXrefHeadOk(n: nat, t: string)
    ensures ReadXrefHead(XrefHead(n) + t) == Some((n, t))
  {
    DecIsDigits(n);
    ReadDec(n, "\n" + t);
    hide Dec;
    assert XrefHead(n) + t == "xref\n0 " + (Dec(n) + ("\n" + t));
    ExpectOk("xref\n0 ", Dec(n) + ("\n" + t));
    ExpectOk("\n", t);
  }

  lemma TrailerLookedUp(size: nat, root: nat)
    ensures ProperEntries(TrailerEntries(size, root))
    ensures GetNumber(TrailerEntries(size, root), "Size") == Some(size)
    ensures GetRef(TrailerEntries(size, root), "Root") == Some(root)
  {
    var e2 := Entry("Root", Ref(root), NoEntries);
    ProperOne("Root", Ref(root), NoEntries);
    ProperOne("Size", Number(size), e2);
    hide Get, ProperEntries;
    GetHere("Size", Number(size), e2);
    GetLater("Size", Number(size), e2, "Root");
    GetHere("Root", Ref(root), NoEntries);
  }

  lemma ReadTrailerOk(size: nat, root: nat, t: string)
    ensures ReadTrailer(TrailerHead(size, root) + t) == Some((size, root))
  {
    TrailerPrinted(size, root, t);
    TrailerLookedUp(size, root);
    assert Ends("\nstartxref\n" + t);
    hide TrailerHead, TrailerEntries, Print, ProperEntries, ReadDict, GetNumber, GetRef, Expect, Ends;
    ExpectOk("trailer\n", Print(Dict(TrailerEntries(size, root))) + ("\nstartxref\n" + t));
    ReadDictOk(TrailerEntries(size, root), "\nstartxref\n" + t);
    ExpectOk("\nstartxref\n", t);
  }

  lemma ReadObjectAtOk(doc: string, offset: nat, num: nat, body: string, t: string)
    requires offset <= |doc| && doc[offset..] == ObjBytes(num, body) + t
    ensures ReadObjectAt(doc, offset, num) == Some(body + (END_OBJ + t))
  {
    var u := body + (END_OBJ + t);
    DecIsDigits(num);
    ReadDec(num, " 0 obj\n" + u);
    hide Dec;
    assert ObjBytes(num, body) + t == Dec(num) + (" 0 obj\n" + u);
    ExpectOk(" 0 obj\n", u);
  }

  function PageNums(n: nat, j: nat): seq<nat>
    requires j <= n
  {
    seq<nat>(n - j, i requires 0 <= i < n - j => PageNum(j + i))
  }
}
