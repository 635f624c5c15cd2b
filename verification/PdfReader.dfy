/** A reader of PDF files (ISO 32000-1:2008) that shares no text with the writer: it goes from the
    end of the file through the table of offsets and the page tree to the content streams, looks
    values up in dictionaries by their keys, and follows the text operators. */
module PdfReader {
  import opened Text
  import opened PdfText
  import opened PdfObjects

  // ----- Content streams: sections 9.3 and 9.4 -----

  datatype Operand = Amount(n: nat) | FontName(name: string) | Chars(text: string)

  /** Font, size and leading, and where the current line starts. */
  datatype Pen = Pen(font: string, size: nat, leading: int, x: int, y: int)

  datatype Mark = Mark(font: string, size: nat, x: int, y: int, text: string)

  predicate OpChar(c: char) { IsLetter(c) || c == '*' }

  /** The operators that change the state of the text. */
  function Moved(op: string, args: seq<Operand>, pen: Pen): Option<Pen> {
    if op == "BT" && args == [] then Some(pen.(x := 0, y := 0))
    else if op == "Tf" && |args| == 2 && args[0].FontName? && args[1].Amount? then
      Some(pen.(font := args[0].name, size := args[1].n))
    else if op == "Td" && |args| == 2 && args[0].Amount? && args[1].Amount? then
      Some(pen.(x := pen.x + args[0].n, y := pen.y + args[1].n))
    else if op == "TL" && |args| == 1 && args[0].Amount? then Some(pen.(leading := args[0].n))
    else if op == "T*" && args == [] then Some(pen.(y := pen.y - pen.leading))
    else None
  }

  function Marked(mark: Mark, rest: Option<seq<Mark>>): Option<seq<Mark>> {
    match rest case None => None case Some(marks) => Some([mark] + marks)
  }

  /** Carries out a content stream of one text object and lists what it shows. */
  function Draw(s: string, args: seq<Operand>, pen: Pen): Option<seq<Mark>>
    decreases |s|
  {
    if s == "ET" && args == [] then Some([])
    else if s == "" then None
    else if s[0] == ' ' || s[0] == '\n' then Draw(s[1..], args, pen)
    else if s[0] == '(' then
      var (text, t) :- ReadLiteral(s[1..], 0);
      Draw(t, args + [Chars(text)], pen)
    else if s[0] == '/' then
      var (name, t) := Word(s[1..], NameChar);
      Draw(t, args + [FontName(name)], pen)
    else if IsDigit(s[0]) then
      ReadDigitsShrinks(s[1..], DigitValue(s[0]));
      var (n, t) := ReadDigits(s, 0);
      Draw(t, args + [Amount(n)], pen)
    else if !OpChar(s[0]) then None
    else
      var (op, t) := Word(s, OpChar);
      if op == "Tj" && |args| == 1 && args[0].Chars? then
        Marked(Mark(pen.font, pen.size, pen.x, pen.y, args[0].text), Draw(t, [], pen))
      else
        var next :- Moved(op, args, pen);
        Draw(t, [], next)
  }

  function ReadContent(content: string): Option<seq<Mark>> { Draw(content, [], Pen("", 0, 0, 0, 0)) }

  // ----- Objects: sections 7.3.8, 7.3.10 and 7.5.4 -----

  datatype Xref = Xref(table: string, size: nat)

  /** The byte position that a 20-byte in-use entry gives. */
  function ReadEntry(entry: string): Option<nat>
    requires |entry| == 20
  {
    if entry[10..] != " 00000 n \n" then None
    else
      var (offset, rest) := ReadDigits(entry[..10], 0);
      if rest != "" then None else Some(offset)
  }

  function EntryOffset(x: Xref, num: nat): Option<nat> {
    if num >= x.size || 20 * num + 20 > |x.table| then None
    else ReadEntry(x.table[20 * num..20 * num + 20])
  }

  /** The bytes after the header of object `num` at a position. */
  function ReadObjectAt(doc: string, offset: nat, num: nat): Option<string> {
    if offset > |doc| || !StartsWithDigit(doc[offset..]) then None
    else
      var (n, rest) := ReadDigits(doc[offset..], 0);
      if n != num then None else Expect(rest, " 0 obj\n")
  }

  /** The same, found through the table. */
  function ReadObject(doc: string, x: Xref, num: nat): Option<string> {
    var offset :- EntryOffset(x, num);
    ReadObjectAt(doc, offset, num)
  }

  /** An object that is a dictionary. */
  function ReadWhole(s: string): Option<Entries> {
    var (entries, t) :- ReadDict(s);
    var _ :- Expect(t, "\nendobj\n");
    Some(entries)
  }

  function ReadDictObject(doc: string, x: Xref, num: nat): Option<Entries> {
    var s :- ReadObject(doc, x, num);
    ReadWhole(s)
  }

  /** A stream: exactly `/Length` bytes, then the end marks. */
  function ReadStream(s: string): Option<string> {
    var (entries, t) :- ReadDict(s);
    var n :- GetNumber(entries, "Length");
    var u :- Expect(t, "\nstream\n");
    if n > |u| then None else
    var _ :- Expect(u[n..], "\nendstream\nendobj\n");
    Some(u[..n])
  }

  // ----- Pages: sections 7.7.2 and 7.7.3 -----

  /** A page: its width and height, and what is shown on it. */
  datatype Sheet = Sheet(width: nat, height: nat, marks: seq<Mark>)

  /** A rectangle with a corner at the origin. */
  function ReadBox(o: Obj): Option<(nat, nat)> {
    match o
    case Array(Item(Number(x), Item(Number(y), Item(Number(w), Item(Number(h), NoItems))))) =>
      if x == 0 && y == 0 then Some((w, h)) else None
    case _ => None
  }

  /** The font that a resource name stands for. */
  function BaseFont(doc: string, x: Xref, fonts: Entries, name: string): Option<string> {
    var num :- GetRef(fonts, name);
    var font :- ReadDictObject(doc, x, num);
    var base :- Get(font, "BaseFont");
    if HasType(font, "Font") && base.Name? then Some(base.name) else None
  }

  function Resolved(doc: string, x: Xref, fonts: Entries, marks: seq<Mark>): Option<seq<Mark>> {
    if marks == [] then Some([]) else
    var base :- BaseFont(doc, x, fonts, marks[0].font);
    var rest :- Resolved(doc, x, fonts, marks[1..]);
    Some([marks[0].(font := base)] + rest)
  }

  datatype PageRefs = PageRefs(parent: nat, contents: nat, width: nat, height: nat, fonts: Entries)

  function ReadPageEntries(page: Entries): Option<PageRefs> {
    var parent :- GetRef(page, "Parent");
    var contents :- GetRef(page, "Contents");
    var box :- Get(page, "MediaBox");
    var (width, height) :- ReadBox(box);
    var resources :- GetDict(page, "Resources");
    var fonts :- GetDict(resources, "Font");
    if HasType(page, "Page") then Some(PageRefs(parent, contents, width, height, fonts)) else None
  }

  function ReadPage(doc: string, x: Xref, parent: nat, num: nat): Option<Sheet> {
    var page :- ReadDictObject(doc, x, num);
    var refs :- ReadPageEntries(page);
    if refs.parent != parent then None else
    var stream :- ReadObject(doc, x, refs.contents);
    var content :- ReadStream(stream);
    var drawn :- ReadContent(content);
    var marks :- Resolved(doc, x, refs.fonts, drawn);
    Some(Sheet(refs.width, refs.height, marks))
  }

  function ReadPages(doc: string, x: Xref, parent: nat, kids: seq<nat>): Option<seq<Sheet>> {
    if kids == [] then Some([]) else
    var page :- ReadPage(doc, x, parent, kids[0]);
    var rest :- ReadPages(doc, x, parent, kids[1..]);
    Some([page] + rest)
  }

  /** The page references of a page tree node. */
  function ReadKids(tree: Entries): Option<seq<nat>> {
    var kids :- Get(tree, "Kids");
    var count :- GetNumber(tree, "Count");
    var nums :- if kids.Array? then Refs(kids.items) else None;
    if HasType(tree, "Pages") && |nums| == count then Some(nums) else None
  }

  function ReadCatalog(catalog: Entries): Option<nat> {
    if HasType(catalog, "Catalog") then GetRef(catalog, "Pages") else None
  }

  function ReadTree(doc: string, x: Xref, root: nat): Option<seq<Sheet>> {
    var catalog :- ReadDictObject(doc, x, root);
    var parent :- ReadCatalog(catalog);
    var tree :- ReadDictObject(doc, x, parent);
    var kids :- ReadKids(tree);
    ReadPages(doc, x, parent, kids)
  }

  // ----- Files: section 7.5 -----

  predicate EndsWith(s: string, t: string) {
    |s| >= |t| && s[|s| - |t|..] == t
  }

  /** Section 7.5.5: the last number of the file says where the table is. */
  function FindXref(doc: string): Option<nat> {
    if !EndsWith(doc, "\n%%EOF\n") then None else
    var s := doc[..|doc| - 7];
    var t := StripDigits(s);
    if !EndsWith(t, "startxref\n") then None else Some(ReadDigits(s[|t|..], 0).0)
  }

  function ReadXrefHead(s: string): Option<(nat, string)> {
    var t :- Expect(s, "xref\n0 ");
    if !StartsWithDigit(t) then None else
    var (size, u) := ReadDigits(t, 0);
    var v :- Expect(u, "\n");
    Some((size, v))
  }

  function ReadTrailer(s: string): Option<(nat, nat)> {
    var t :- Expect(s, "trailer\n");
    var (entries, u) :- ReadDict(t);
    var _ :- Expect(u, "\nstartxref\n");
    var size :- GetNumber(entries, "Size");
    var root :- GetRef(entries, "Root");
    Some((size, root))
  }

  function ReadPdf(doc: string): Option<seq<Sheet>> {
    var _ :- Expect(doc, "%PDF-1.4\n");
    var pos :- FindXref(doc);
    if pos > |doc| then None else
    var (size, table) :- ReadXrefHead(doc[pos..]);
    var _ :- Expect(table, "0000000000 65535 f \n");
    if 20 * size > |table| then None else
    var (size', root) :- ReadTrailer(table[20 * size..]);
    if size' != size then None else ReadTree(doc, Xref(table, size), root)
  }

  /** The texts shown on some pages, in order. */
  function Texts(sheets: seq<Sheet>): seq<string> {
    if sheets == [] then [] else MarkTexts(sheets[0].marks) + Texts(sheets[1..])
  }

  function MarkTexts(marks: seq<Mark>): seq<string> {
    seq(|marks|, i requires 0 <= i < |marks| => marks[i].text)
  }
}
