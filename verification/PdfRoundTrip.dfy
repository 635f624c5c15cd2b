/** The reader undoes the writer, and the cross-reference table is exact. */
module PdfRoundTrip {
  import opened Text
  import opened PdfText
  import opened Pdf
  import opened PdfObjects
  import opened PdfReader
  import opened PdfPages
  import opened Report

  // ----- Positions -----

  lemma {:induction false} FilePrefix(objs: seq<string>, k: nat, n: nat)
    requires k <= n <= |objs|
    ensures FileUpTo(objs, k) <= FileUpTo(objs, n)
    decreases n
  {
    if k < n { FilePrefix(objs, k, n - 1); }
  }

  /** What follows object `num` in a file that ends in `rest`. */
  function After(objs: seq<string>, rest: string, num: nat): string
    requires num <= |objs|
  {
    FilePrefix(objs, num, |objs|);
    (FileUpTo(objs, |objs|) + rest)[|FileUpTo(objs, num)|..]
  }

  lemma ObjBytesNonempty(num: nat, body: string)
    ensures |ObjBytes(num, body)| > 0
  {
    assert |END_OBJ| == 8;
  }

  /** "num 0 obj" starts at exactly the recorded offset. */
  lemma ObjectAtOffset(objs: seq<string>, rest: string, num: nat)
    requires 1 <= num <= |objs|
    ensures Offset(objs, num) < |FileUpTo(objs, |objs|)|
    ensures (FileUpTo(objs, |objs|) + rest)[Offset(objs, num)..]
         == ObjBytes(num, objs[num - 1]) + After(objs, rest, num)
  {
    FilePrefix(objs, num, |objs|);
    ObjBytesNonempty(num, objs[num - 1]);
    Middle(FileUpTo(objs, num - 1), ObjBytes(num, objs[num - 1]), FileUpTo(objs, |objs|), rest);
  }

  // ----- The cross-reference table -----

  /** Section 7.5.4: an in-use entry has 20 bytes exactly when its offset fits 10 digits. */
  lemma EntryWidth(offset: nat)
    ensures |Pad(offset, 10) + IN_USE| == 20 <==> offset < Pow10(10)
  {
    DecWidth(offset, 10);
  }

  lemma ReadEntryOk(offset: nat)
    requires offset < Pow10(10)
    ensures |Pad(offset, 10) + IN_USE| == 20
    ensures ReadEntry(Pad(offset, 10) + IN_USE) == Some(offset)
  {
    EntryWidth(offset);
    var digits := Pad(offset, 10);
    DropFirst(digits, IN_USE);
    ReadPad(offset, 10, "");
    assert digits + "" == digits;
  }

  /** The objects end within the first 10^10 bytes. */
  ghost predicate Small(objs: seq<string>) {
    |FileUpTo(objs, |objs|)| <= Pow10(10)
  }

  lemma {:induction false} XrefWidth(objs: seq<string>, k: nat)
    requires k <= |objs| && Small(objs)
    ensures |XrefUpTo(objs, k)| == 20 * (k + 1)
  {
    if k > 0 {
      XrefWidth(objs, k - 1);
      ObjectAtOffset(objs, "", k);
      EntryWidth(Offset(objs, k));
    }
  }

  lemma {:induction false} XrefPrefix(objs: seq<string>, k: nat, n: nat)
    requires k <= n <= |objs|
    ensures XrefUpTo(objs, k) <= XrefUpTo(objs, n)
    decreases n
  {
    hide Pad, Offset;
    if k < n { XrefPrefix(objs, k, n - 1); }
  }

  /** Entry `num` of the table of a written file is 20 bytes and holds the position of object `num`. */
  lemma EntryOffsetOk(objs: seq<string>, more: string, num: nat)
    requires 1 <= num <= |objs| && Small(objs)
    ensures EntryOffset(Xref(XrefUpTo(objs, |objs|) + more, |objs| + 1), num) == Some(Offset(objs, num))
  {
    hide ReadEntry, EntryOffset, Pad, FileUpTo, Offset;
    XrefWidth(objs, num - 1);
    XrefPrefix(objs, num, |objs|);
    OffsetEntry(objs, num);
    EntryInTable(XrefUpTo(objs, num - 1), Pad(Offset(objs, num), 10) + IN_USE, XrefUpTo(objs, |objs|), more,
                 num, |objs| + 1, Offset(objs, num));
  }

  lemma OffsetEntry(objs: seq<string>, num: nat)
    requires 1 <= num <= |objs| && Small(objs)
    ensures |Pad(Offset(objs, num), 10) + IN_USE| == 20
    ensures ReadEntry(Pad(Offset(objs, num), 10) + IN_USE) == Some(Offset(objs, num))
  {
    hide ReadEntry, Pad, FileUpTo, Offset;
    ObjectAtOffset(objs, "", num);
    ReadEntryOk(Offset(objs, num));
  }

  lemma EntryInTable(before: string, entry: string, whole: string, more: string, num: nat, size: nat, offset: nat)
    requires |before| == 20 * num && |entry| == 20 && before + entry <= whole
    requires num < size && ReadEntry(entry) == Some(offset)
    ensures EntryOffset(Xref(whole + more, size), num) == Some(offset)
  {
    assert (whole + more)[20 * num..20 * num + 20] == entry;
  }

  /** Reading object `num` through the table gives its body. */
  lemma ReadObjectOk(objs: seq<string>, rest: string, more: string, num: nat)
    requires 1 <= num <= |objs| && Small(objs)
    ensures ReadObject(FileUpTo(objs, |objs|) + rest, Xref(XrefUpTo(objs, |objs|) + more, |objs| + 1), num)
         == Some(objs[num - 1] + (END_OBJ + After(objs, rest, num)))
  {
    EntryOffsetOk(objs, more, num);
    ObjectAtOffset(objs, rest, num);
    ReadObjectAtOk(FileUpTo(objs, |objs|) + rest, Offset(objs, num), num, objs[num - 1], After(objs, rest, num));
  }


  lemma EndsWithOk(s: string, t: string)
    ensures EndsWith(s + t, t) && (s + t)[..|s + t| - |t|] == s
  {
  }

  lemma TrailerEnds(size: nat, root: nat)
    ensures EndsWith(TrailerHead(size, root), "startxref\n")
  {
    TrailerPrinted(size, root, "");
    hide TrailerHead, Print;
    var dict := Print(Dict(TrailerEntries(size, root)));
    assert TrailerHead(size, root) + "" == TrailerHead(size, root);
    assert "trailer\n" + (dict + ("\nstartxref\n" + "")) == ("trailer\n" + dict + "\n") + "startxref\n";
    EndsWithOk("trailer\n" + dict + "\n", "startxref\n");
  }

  lemma EndsWithLonger(s: string, t: string, mark: string)
    requires EndsWith(t, mark)
    ensures EndsWith(s + t, mark)
  {
  }

  lemma FindXrefIn(t: string, pos: nat)
    requires EndsWith(t, "startxref\n")
    ensures FindXref(t + (Dec(pos) + EOF_MARK)) == Some(pos)
  {
    var s := t + Dec(pos);
    hide Dec;
    Assoc(t, Dec(pos), EOF_MARK);
    EndsWithOk(s, EOF_MARK);
    assert t[|t| - 1] == "startxref\n"[9];
    StripDec(t, pos);
    DropFirst(t, Dec(pos));
    ReadDec(pos, "");
    assert Dec(pos) + "" == Dec(pos);
  }

  /** The trailing number of a file is where "xref" starts. */
  lemma FindXrefOk(objs: seq<string>)
    ensures FindXref(Assemble(objs)) == Some(|FileUpTo(objs, |objs|)|)
  {
    hide XrefHead, TrailerHead, EndsWith;
    var file, head, table := FileUpTo(objs, |objs|), XrefHead(|objs| + 1), XrefUpTo(objs, |objs|);
    var trailer, tail := TrailerHead(|objs| + 1, 1), Dec(|file|) + EOF_MARK;
    TrailerEnds(|objs| + 1, 1);
    EndsWithLonger(file + head + table, trailer, "startxref\n");
    FindXrefIn(file + head + table + trailer, |file|);
    Assoc(file + head + table, trailer, tail);
    Assoc(file + head, table, trailer + tail);
    Assoc(file, head, table + (trailer + tail));
  }

  // ----- Whole documents -----

  lemma ObjectBodies(pages: seq<seq<string>>, j: nat)
    requires j < |pages|
    ensures ObjectBody(pages, PageNum(j) - 1) == ContentBody(pages[j])
    ensures ObjectBody(pages, PageNum(j)) == PageBody(2, PageNum(j) - 1, 3)
  {
    hide PagesBody, ContentBody, CatalogBody, PageBody, FontBody;
    var num := PageNum(j);
    assert num % 2 == 1 && (num - 1 - 4) / 2 == j;
  }

  lemma FixedBodies(pages: seq<seq<string>>)
    ensures Objects(pages)[0] == CatalogBody(2)
    ensures Objects(pages)[1] == PagesBody(|pages|)
    ensures Objects(pages)[2] == FontBody()
  {
    hide PagesBody, CatalogBody, FontBody;
    assert ObjectBody(pages, 3) == FontBody();
  }

  /** A page as it is meant to look: 595 by 842 units, its lines in Courier. */
  function SheetOf(page: seq<string>): Sheet { Sheet(595, 842, MarksOf(page, "Courier")) }

  function SheetsOf(pages: seq<seq<string>>): (r: seq<Sheet>) {
    seq(|pages|, i requires 0 <= i < |pages| => SheetOf(pages[i]))
  }

  function InFont(marks: seq<Mark>, base: string): (r: seq<Mark>) {
    seq(|marks|, i requires 0 <= i < |marks| => marks[i].(font := base))
  }

  lemma {:induction false} ResolvedOk(doc: string, x: Xref, fonts: Entries, marks: seq<Mark>, base: string)
    requires forall m :: m in marks ==> m.font == "F1"
    requires BaseFont(doc, x, fonts, "F1") == Some(base)
    ensures Resolved(doc, x, fonts, marks) == Some(InFont(marks, base))
  {
    hide BaseFont;
    if marks != [] {
      assert marks[0] in marks;
      ResolvedOk(doc, x, fonts, marks[1..], base);
      assert InFont(marks, base) == [marks[0].(font := base)] + InFont(marks[1..], base);
    }
  }

  lemma FontFound(doc: string, x: Xref, t: string)
    requires ReadObject(doc, x, 3) == Some(FontBody() + (END_OBJ + t))
    ensures BaseFont(doc, x, Entry("F1", Ref(3), NoEntries), "F1") == Some("Courier")
  {
    hide ReadObject, ReadWhole, FontBody, FontEntries;
    FontRead(t);
    assert Get(Entry("F1", Ref(3), NoEntries), "F1") == Some(Ref(3));
  }

  /** What a page object, its font and its stream say is what ReadPage finds. */
  lemma ReadPageFrom(doc: string, x: Xref, page: seq<string>, num: nat, t1: string, t2: string, t3: string)
    requires num > 0
    requires ReadObject(doc, x, num) == Some(PageBody(2, num - 1, 3) + (END_OBJ + t1))
    requires ReadObject(doc, x, num - 1) == Some(ContentBody(page) + (END_OBJ + t2))
    requires ReadObject(doc, x, 3) == Some(FontBody() + (END_OBJ + t3))
    ensures ReadPage(doc, x, 2, num) == Some(SheetOf(page))
  {
    hide ReadObject, ReadPageEntries, ReadStream, ReadContent, BaseFont, FontBody, PageBody, PageEntries, ContentBody,
         Content, ReadWhole, Resolved, Shown;
    PageRead(2, num - 1, 3, t1);
    FontFound(doc, x, t3);
    ReadStreamOk(page, t2);
    ReadContentOk(page);
    ResolvedOk(doc, x, Entry("F1", Ref(3), NoEntries), MarksOf(page, "F1"), "Courier");
    assert InFont(MarksOf(page, "F1"), "Courier") == MarksOf(page, "Courier");
  }

  lemma ReadPageOk(pages: seq<seq<string>>, rest: string, more: string, j: nat)
    requires j < |pages| && Small(Objects(pages))
    ensures var objs := Objects(pages);
      ReadPage(FileUpTo(objs, |objs|) + rest, Xref(XrefUpTo(objs, |objs|) + more, |objs| + 1), 2, PageNum(j))
      == Some(SheetOf(pages[j]))
  {
    var objs := Objects(pages);
    var num := PageNum(j);
    hide ReadObject, ReadPage, PageBody, ContentBody, SheetOf, ObjectBody, FileUpTo, XrefUpTo, After, Small, FontBody;
    ObjectBodies(pages, j);
    FixedBodies(pages);
    ReadObjectOk(objs, rest, more, num);
    ReadObjectOk(objs, rest, more, num - 1);
    ReadObjectOk(objs, rest, more, 3);
    ReadPageFrom(FileUpTo(objs, |objs|) + rest, Xref(XrefUpTo(objs, |objs|) + more, |objs| + 1), pages[j], num,
                 After(objs, rest, num), After(objs, rest, num - 1), After(objs, rest, 3));
  }

  lemma {:induction false} ReadPagesOk(doc: string, x: Xref, pages: seq<seq<string>>, j: nat)
    requires j <= |pages|
    requires forall i :: j <= i < |pages| ==> ReadPage(doc, x, 2, PageNum(i)) == Some(SheetOf(pages[i]))
    ensures ReadPages(doc, x, 2, PageNums(|pages|, j)) == Some(SheetsOf(pages)[j..])
    decreases |pages| - j
  {
    hide ReadPage, SheetOf;
    if j < |pages| {
      ReadPagesOk(doc, x, pages, j + 1);
      assert PageNums(|pages|, j)[1..] == PageNums(|pages|, j + 1);
      assert [SheetsOf(pages)[j]] + SheetsOf(pages)[j + 1..] == SheetsOf(pages)[j..];
    }
  }

  lemma ReadTreeFrom(doc: string, x: Xref, pages: seq<seq<string>>, t1: string, t2: string)
    requires pages != []
    requires ReadObject(doc, x, 1) == Some(CatalogBody(2) + (END_OBJ + t1))
    requires ReadObject(doc, x, 2) == Some(PagesBody(|pages|) + (END_OBJ + t2))
    requires forall i :: 0 <= i < |pages| ==> ReadPage(doc, x, 2, PageNum(i)) == Some(SheetOf(pages[i]))
    ensures ReadTree(doc, x, 1) == Some(SheetsOf(pages))
  {
    hide ReadObject, ReadPage, ReadCatalog, ReadKids, ReadPages, ReadWhole, CatalogBody, TreeBody, SheetOf,
         CatalogEntries, TreeEntries;
    CatalogRead(2, t1);
    var nums := PageNums(|pages|, 0);
    assert Kids(|pages|) == KidStrings(nums);
    TreeRead(nums, t2);
    ReadPagesOk(doc, x, pages, 0);
    assert SheetsOf(pages)[0..] == SheetsOf(pages);
  }

  lemma AllPagesOk(pages: seq<seq<string>>, rest: string, more: string)
    requires Small(Objects(pages))
    ensures var objs := Objects(pages);
      forall i :: 0 <= i < |pages| ==>
        ReadPage(FileUpTo(objs, |objs|) + rest, Xref(XrefUpTo(objs, |objs|) + more, |objs| + 1), 2, PageNum(i))
        == Some(SheetOf(pages[i]))
  {
    hide ReadPage, SheetOf, Objects, FileUpTo, XrefUpTo, Small;
    forall i | 0 <= i < |pages| {
      ReadPageOk(pages, rest, more, i);
    }
  }

  lemma ReadTreeOk(pages: seq<seq<string>>, rest: string, more: string)
    requires pages != [] && Small(Objects(pages))
    ensures var objs := Objects(pages);
      ReadTree(FileUpTo(objs, |objs|) + rest, Xref(XrefUpTo(objs, |objs|) + more, |objs| + 1), 1)
      == Some(SheetsOf(pages))
  {
    var objs := Objects(pages);
    hide ReadObject, ReadPage, ReadTree, CatalogBody, PagesBody, SheetOf, SheetsOf, FileUpTo, XrefUpTo, After, Small;
    FixedBodies(pages);
    ReadObjectOk(objs, rest, more, 1);
    ReadObjectOk(objs, rest, more, 2);
    AllPagesOk(pages, rest, more);
    ReadTreeFrom(FileUpTo(objs, |objs|) + rest, Xref(XrefUpTo(objs, |objs|) + more, |objs| + 1), pages,
                 After(objs, rest, 1), After(objs, rest, 2));
  }

  lemma HeaderFirst(objs: seq<string>, rest: string)
    ensures Expect(FileUpTo(objs, |objs|) + rest, "%PDF-1.4\n").Some?
  {
    hide ObjBytes;
    FilePrefix(objs, 0, |objs|);
  }

  lemma {:induction false} FreeEntryFirst(objs: seq<string>, k: nat, rest: string)
    requires k <= |objs|
    ensures Expect(XrefUpTo(objs, k) + rest, "0000000000 65535 f \n").Some?
  {
    hide Pad, Offset;
    XrefPrefix(objs, 0, k);
  }

  lemma PagesOf(lines: seq<string>)
    ensures Pages(lines) != []
    ensures Flatten(Pages(lines)) == if lines == [] then ["(empty report)"] else lines
  {
    PaginateConcatenates(lines);
    if lines == [] {
      assert Flatten([["(empty report)"]]) == ["(empty report)"] + Flatten([]);
    }
  }

  lemma ReadPdfFrom(file: string, n: nat, xref: string, tail: string, sheets: seq<Sheet>)
    requires |xref| == 20 * n
    requires var trailer := TrailerHead(n, 1) + tail;
      var doc := file + (XrefHead(n) + (xref + trailer));
      && Expect(doc, "%PDF-1.4\n").Some?
      && Expect(xref + trailer, "0000000000 65535 f \n").Some?
      && FindXref(doc) == Some(|file|)
      && ReadTree(doc, Xref(xref + trailer, n), 1) == Some(sheets)
    ensures ReadPdf(file + (XrefHead(n) + (xref + (TrailerHead(n, 1) + tail)))) == Some(sheets)
  {
    hide ReadTree, FindXref, ReadXrefHead, ReadTrailer, XrefHead, TrailerHead, Expect;
    var trailer := TrailerHead(n, 1) + tail;
    DropFirst(file, XrefHead(n) + (xref + trailer));
    ReadXrefHeadOk(n, xref + trailer);
    DropFirst(xref, trailer);
    ReadTrailerOk(n, 1, tail);
  }

  lemma ReadAssembled(pages: seq<seq<string>>)
    requires pages != [] && Small(Objects(pages))
    ensures ReadPdf(Assemble(Objects(pages))) == Some(SheetsOf(pages))
  {
    hide ReadTree, ReadPdf, FindXref, XrefHead, TrailerHead, Objects, FileUpTo, XrefUpTo, Small, SheetsOf, Expect;
    var objs := Objects(pages);
    var rest := XrefHead(|objs| + 1) + (XrefUpTo(objs, |objs|) + Trailer(objs));
    HeaderFirst(objs, rest);
    FreeEntryFirst(objs, |objs|, Trailer(objs));
    FindXrefOk(objs);
    XrefWidth(objs, |objs|);
    ReadTreeOk(pages, rest, Trailer(objs));
    ReadPdfFrom(FileUpTo(objs, |objs|), |objs| + 1, XrefUpTo(objs, |objs|), Dec(|FileUpTo(objs, |objs|)|) + EOF_MARK,
                SheetsOf(pages));
  }

  lemma {:induction false} TextsOf(pages: seq<seq<string>>)
    ensures Texts(SheetsOf(pages)) == ShownLines(Flatten(pages))
  {
    hide Shown;
    if pages != [] {
      TextsOf(pages[1..]);
      assert SheetsOf(pages)[1..] == SheetsOf(pages[1..]);
      assert MarkTexts(MarksOf(pages[0], "Courier")) == ShownLines(pages[0]);
      assert ShownLines(pages[0]) + ShownLines(Flatten(pages[1..])) == ShownLines(Flatten(pages));
    }
  }

  /** The reader follows startxref, the table, the trailer, the page tree and every content stream,
      and gets back the pages as they are meant to look, and with them exactly the lines, in order,
      under the character mapping. */
  lemma RoundTrip(lines: seq<string>)
    requires Small(Objects(Pages(lines)))
    ensures ReadPdf(Document(lines)) == Some(SheetsOf(Pages(lines)))
    ensures Texts(SheetsOf(Pages(lines))) == ShownLines(if lines == [] then ["(empty report)"] else lines)
  {
    PagesOf(lines);
    ReadAssembled(Pages(lines));
    TextsOf(Pages(lines));
  }

  /** What the reader gets decodes to what every line is meant to look like, and lines of printable
      ASCII come back unchanged. */
  lemma TextComesBack(lines: seq<string>)
    requires Small(Objects(Pages(lines))) && lines != []
    ensures ReadPdf(Document(lines)).Some?
    ensures var texts := Texts(ReadPdf(Document(lines)).value);
      && |texts| == |lines|
      && (forall i :: 0 <= i < |lines| ==> DecodeUtf8(texts[i]) == Some(Displayed(lines[i])))
      && ((forall i :: 0 <= i < |lines| ==> Printable(lines[i])) ==> texts == lines)
  {
    hide ReadPdf, Document, Small, Texts, SheetsOf, Pages, Objects;
    RoundTrip(lines);
    ShownTexts(lines);
  }

  lemma ShownTexts(lines: seq<string>)
    ensures forall i :: 0 <= i < |lines| ==> DecodeUtf8(ShownLines(lines)[i]) == Some(Displayed(lines[i]))
    ensures (forall i :: 0 <= i < |lines| ==> Printable(lines[i])) ==> ShownLines(lines) == lines
  {
    hide Shown, Displayed, DecodeUtf8, Printable;
    forall i | 0 <= i < |lines|
      ensures DecodeUtf8(ShownLines(lines)[i]) == Some(Displayed(lines[i]))
      ensures Printable(lines[i]) ==> ShownLines(lines)[i] == lines[i]
    {
      ShownDecodes(lines[i]);
      if Printable(lines[i]) { PrintableShown(lines[i]); }
    }
  }

  // ----- Where the lines stand -----

  /** Courier is 0.6 of its size wide; tenths of units keep the sum whole. */
  predicate EndsOnSheet(sheet: Sheet, m: Mark) { 10 * m.x + 6 * m.size * |m.text| <= 10 * sheet.width }

  lemma LineOnSheet(page: seq<string>, i: nat)
    requires i < |page| <= 54
    ensures var m := SheetOf(page).marks[i];
      && 0 < m.x && 0 < m.y && m.y + m.size <= SheetOf(page).height
      && (i > 0 ==> m.y + m.size < SheetOf(page).marks[i - 1].y)
      && (EndsOnSheet(SheetOf(page), m) <==> |Shown(page[i])| <= 102)
  {
    hide Shown;
  }

  /** Every line of every page stands between the lower and the upper edge, and no two overlap. It
      ends before the right edge exactly if it shows at most 102 bytes. */
  lemma LinesOnSheets(lines: seq<string>, p: nat, i: nat)
    requires p < |Pages(lines)| && i < |Pages(lines)[p]|
    ensures var (sheet, line) := (SheetsOf(Pages(lines))[p], Pages(lines)[p][i]);
      && 0 < sheet.marks[i].x && 0 < sheet.marks[i].y && sheet.marks[i].y + sheet.marks[i].size <= sheet.height
      && (i > 0 ==> sheet.marks[i].y + sheet.marks[i].size < sheet.marks[i - 1].y)
      && (EndsOnSheet(sheet, sheet.marks[i]) <==> |Shown(line)| <= 102)
  {
    PaginateConcatenates(lines);
    assert Pages(lines)[p] in Pages(lines);
    hide Shown, Pages, Paginate;
    LineOnSheet(Pages(lines)[p], i);
  }

  /** Explanations are indented by four spaces: a line of printable text fits the page exactly if it
      has at most 98 characters, while they are broken at 100. */
  lemma ExplanationFits(page: seq<string>, i: nat, chunk: string)
    requires i < |page| <= 54 && page[i] == "    " + chunk && Printable(chunk)
    ensures EndsOnSheet(SheetOf(page), SheetOf(page).marks[i]) <==> |chunk| <= 98
  {
    assert Printable(page[i]);
    PrintableShown(page[i]);
    hide Shown;
    LineOnSheet(page, i);
  }

  lemma SecondGroup(groups: seq<seq<string>>, u: string, v: string)
    requires Flatten(groups) == [u, v]
    ensures groups != [] && (|groups[0]| >= 1 ==> groups[0][0] == u) && (|groups[0]| >= 2 ==> groups[0] == [u, v])
    ensures |groups[0]| == 1 ==> |groups| > 1 && (groups[1] != [] ==> groups[1][0] == v)
  {
    var rest := Flatten(groups[1..]);
    assert groups[0] + rest == [u, v];
    assert |groups[0]| >= 1 ==> groups[0][0] == (groups[0] + rest)[0];
    assert |groups[0]| >= 2 ==> groups[0] == (groups[0] + rest)[..2];
    if |groups[0]| == 1 {
      assert rest == (groups[0] + rest)[1..] == [v];
      assert rest == groups[1] + Flatten(groups[1..][1..]);
      assert groups[1] != [] ==> groups[1][0] == rest[0];
    }
  }

  /** An explanation that runs off the page: words of 49 and 50 letters make one line of 100. */
  lemma LongExplanation(u: string, v: string, groups: seq<seq<string>>, lines: seq<string>)
    requires |u| == 49 && |v| == 50 && Printable(u) && Printable(v)
    requires Flatten(groups) == [u, v] && Filled(groups, lines, 100) && lines[0] != ""
    ensures lines[0] == u + (" " + v) && Printable(lines[0])
    ensures !EndsOnSheet(SheetOf(["    " + lines[0]]), SheetOf(["    " + lines[0]]).marks[0])
  {
    Alone(u);
    SecondGroup(groups, u, v);
    assert groups[0] != [];
    assert |groups[0]| != 1;
    assert groups[0] == [u, v];
    JoinSnoc([u], v);
    assert [u] + [v] == [u, v];
    hide Flatten, Filled, Join;
    ExplanationFits(["    " + lines[0]], 0, lines[0]);
  }

  ghost predicate PieceAt(doc: string, pos: nat, piece: string) {
    pos <= |doc| && piece <= doc[pos..]
  }

  /** Position by position: the trailing number points at the "xref" keyword, entry `num` of
      the table below it is the 20 bytes that print a position, and at that position object
      `num` starts. */
  lemma LayoutExact(objs: seq<string>, num: nat)
    requires Small(objs) && 1 <= num <= |objs|
    ensures FindXref(Assemble(objs)) == Some(|FileUpTo(objs, |objs|)|)
    ensures PieceAt(Assemble(objs), |FileUpTo(objs, |objs|)|, XrefHead(|objs| + 1))
    ensures PieceAt(Assemble(objs), |FileUpTo(objs, |objs|) + XrefHead(|objs| + 1)| + 20 * num,
                    Pad(Offset(objs, num), 10) + IN_USE)
    ensures |Pad(Offset(objs, num), 10) + IN_USE| == 20
    ensures PieceAt(Assemble(objs), Offset(objs, num), ObjBytes(num, objs[num - 1]))
  {
    hide XrefHead, FindXref, FileUpTo, XrefUpTo, Pad, Offset, Small, Trailer, ObjBytes, PieceAt;
    var file, head, table := FileUpTo(objs, |objs|), XrefHead(|objs| + 1), XrefUpTo(objs, |objs|);
    FindXrefOk(objs);
    PieceAfter(file, head, table + Trailer(objs));
    OffsetEntry(objs, num);
    EntryBytes(objs, num);
    TableSlice(file, head, table, Trailer(objs), 20 * num, Pad(Offset(objs, num), 10) + IN_USE);
    ObjectAtOffset(objs, head + (table + Trailer(objs)), num);
    PieceStarts(Assemble(objs), Offset(objs, num), ObjBytes(num, objs[num - 1]),
                After(objs, head + (table + Trailer(objs)), num));
  }

  lemma PieceAfter(a: string, piece: string, b: string)
    ensures PieceAt(a + (piece + b), |a|, piece)
  {
    DropFirst(a, piece + b);
  }

  lemma PieceStarts(doc: string, pos: nat, piece: string, after: string)
    requires pos <= |doc| && doc[pos..] == piece + after
    ensures PieceAt(doc, pos, piece)
  {
  }

  lemma EntryBytes(objs: seq<string>, num: nat)
    requires 1 <= num <= |objs| && Small(objs)
    ensures 20 * num + 20 <= |XrefUpTo(objs, |objs|)|
    ensures XrefUpTo(objs, |objs|)[20 * num..][..20] == Pad(Offset(objs, num), 10) + IN_USE
  {
    hide Pad, FileUpTo, Offset;
    XrefWidth(objs, num - 1);
    XrefPrefix(objs, num, |objs|);
    OffsetEntry(objs, num);
  }

  lemma TableSlice(file: string, head: string, table: string, trailer: string, i: nat, entry: string)
    requires i + 20 <= |table| && table[i..][..20] == entry
    ensures PieceAt(file + (head + (table + trailer)), |file + head| + i, entry)
  {
    var doc := file + (head + (table + trailer));
    assert doc[|file + head| + i..] == table[i..] + trailer;
    assert entry <= table[i..];
  }
}
