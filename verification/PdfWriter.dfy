/** writePDFLines itself: the loops that build pages, objects, offsets and the buffer,
    with the catalog and the page tree filled in after the pages are known. */
module PdfWriter {
  import opened Text
  import opened PdfText
  import opened Pdf
  import opened PdfReader
  import opened PdfPages
  import opened PdfRoundTrip

  method SplitPages(lines: seq<string>) returns (pages: seq<seq<string>>)
    ensures pages == Pages(lines)
  {
    pages := [];
    var start := 0;
    while start < |lines|
      invariant 0 <= start
      invariant start <= |lines| ==> pages + Paginate(lines[start..]) == Paginate(lines)
      invariant start > |lines| ==> pages == Paginate(lines)
      invariant start == 0 ==> pages == []
      invariant start > 0 ==> pages != []
    {
      var end := start + LINES_PER_PAGE;
      if end > |lines| {
        end := |lines|;
      }
      var rest := lines[start..];
      assert lines[start..end] == if |rest| <= LINES_PER_PAGE then rest else rest[..LINES_PER_PAGE];
      assert |rest| > LINES_PER_PAGE ==> rest[LINES_PER_PAGE..] == lines[end..];
      ghost var before := pages;
      pages := pages + [lines[start..end]];
      if |rest| > LINES_PER_PAGE {
        Assoc(before, [lines[start..end]], Paginate(lines[end..]));
      }
      start := start + LINES_PER_PAGE;
    }
    if |pages| == 0 {
      pages := [["(empty report)"]];
    }
  }

  lemma {:induction false} ShowsSnoc(page: seq<string>, i: nat)
    requires i < |page|
    ensures ShowsFrom(page[..i + 1], 0)
         == ShowsFrom(page[..i], 0) + ((if i > 0 then "T*\n" else "") + ShowLine(page[i]))
  {
    ShowsSnocFrom(page, 0, i);
  }

  lemma {:induction false} ShowsSnocFrom(page: seq<string>, j: nat, i: nat)
    requires j <= i < |page|
    ensures ShowsFrom(page[..i + 1], j)
         == ShowsFrom(page[..i], j) + ((if i > 0 then "T*\n" else "") + ShowLine(page[i]))
    decreases i - j
  {
    hide ShowLine;
    var p, q := page[..i + 1], page[..i];
    var last := (if i > 0 then "T*\n" else "") + ShowLine(page[i]);
    assert p[j] == page[j];
    if j == i {
      assert ShowsFrom(p, i + 1) == "" && ShowsFrom(q, i) == "";
      assert ShowLine(page[i]) + "" == ShowLine(page[i]);
      assert ShowsFrom(p, i) == last;
      assert "" + last == last;
    } else {
      ShowsSnocFrom(page, j + 1, i);
      assert q[j] == page[j];
      Assoc(ShowLine(page[j]), ShowsFrom(q, j + 1), last);
      Assoc("T*\n", ShowLine(page[j]) + ShowsFrom(q, j + 1), last);
    }
  }

  method WriteContent(page: seq<string>) returns (content: string)
    ensures content == Content(page)
  {
    var head := ContentHead();
    hide ContentHead, Escaped;
    content := head;
    for i := 0 to |page|
      invariant content == head + ShowsFrom(page[..i], 0)
    {
      ghost var before := content;
      if i > 0 {
        content := content + "T*\n";
      }
      var escaped := PdfEscape(page[i]);
      content := content + ("(" + (escaped + (")" + " Tj\n")));
      ShowsSnoc(page, i);
      Assoc(before, if i > 0 then "T*\n" else "", ShowLine(page[i]));
      Assoc(head, ShowsFrom(page[..i], 0), (if i > 0 then "T*\n" else "") + ShowLine(page[i]));
    }
    assert page[..|page|] == page;
    content := content + "ET";
    Assoc(head, ShowsFrom(page, 0), "ET");
  }

  /** The first `k` objects as they stand before the catalog and page tree are filled in. */
  ghost predicate Pending(objects: seq<string>, pages: seq<seq<string>>, k: nat) {
    && |objects| == 3 + 2 * k <= 3 + 2 * |pages|
    && forall i :: 2 <= i < |objects| ==> objects[i] == ObjectBody(pages, i + 1)
  }

  lemma PendingStep(objects: seq<string>, pages: seq<seq<string>>, k: nat)
    requires k < |pages| && Pending(objects, pages, k)
    ensures Pending(objects + [ContentBody(pages[k]), PageBody(2, |objects| + 1, 3)], pages, k + 1)
  {
    hide PageBody, ContentBody, ObjectBody;
    ObjectBodies(pages, k);
    assert |objects| == PageNum(k) - 2;
  }

  method BuildObjects(pages: seq<seq<string>>) returns (objects: seq<string>)
    ensures objects == Objects(pages)
  {
    hide PagesBody, TreeBody, CatalogBody, PageBody, ContentBody, ObjectBody, FontBody, KidText;
    objects := [];
    objects := objects + [""];
    var catalogNum := |objects|;
    objects := objects + [""];
    var pagesNum := |objects|;
    objects := objects + [FontBody()];
    var fontNum := |objects|;
    assert Pending(objects, pages, 0) by { ThirdIsFont(pages); }
    var pageNums: seq<nat> := [];
    for k := 0 to |pages|
      invariant Pending(objects, pages, k)
      invariant pageNums == PageNums(k, 0)
    {
      var content := WriteContent(pages[k]);
      PendingStep(objects, pages, k);
      ghost var before := objects;
      objects := objects + [StreamBody(content)];
      var contentNum := |objects|;
      objects := objects + [PageBody(pagesNum, contentNum, fontNum)];
      assert objects == before + [ContentBody(pages[k]), PageBody(2, |before| + 1, 3)] by {
        assert StreamBody(content) == ContentBody(pages[k]) by { StreamBodyIs(pages[k]); }
      }
      pageNums := pageNums + [|objects|];
      assert |objects| == PageNum(k);
    }
    var kids: seq<string> := [];
    for i := 0 to |pageNums|
      invariant kids == KidStrings(pageNums[..i])
    {
      kids := kids + [KidText(pageNums[i])];
      assert pageNums[..i + 1][..i] == pageNums[..i];
    }
    assert kids == Kids(|pages|);
    objects := objects[catalogNum - 1 := CatalogBody(pagesNum)];
    objects := objects[pagesNum - 1 := TreeBody(Join(kids, " "), |pageNums|)];
    FirstTwo(pages);
    assert objects == Objects(pages);
  }

  /** The dictionary and body of a stream object with the given content. */
  function StreamBody(content: string): string {
    StreamHead(|content|) + (content + END_STREAM)
  }

  lemma StreamBodyIs(page: seq<string>)
    ensures StreamBody(Content(page)) == ContentBody(page)
  {
  }

  lemma ThirdIsFont(pages: seq<seq<string>>)
    ensures ObjectBody(pages, 3) == FontBody()
  {
  }

  lemma FirstTwo(pages: seq<seq<string>>)
    ensures ObjectBody(pages, 1) == CatalogBody(2)
    ensures ObjectBody(pages, 2) == TreeBody(Join(Kids(|pages|), " "), |pages|)
  {
    hide CatalogBody, TreeBody;
  }

  method WriteObjects(objects: seq<string>) returns (buf: string)
    ensures buf == Assemble(objects)
  {
    hide ObjBytes, XrefHead, TrailerHead, Pad;
    buf := HEADER;
    var offsets: seq<nat> := [0];
    for i := 0 to |objects|
      invariant buf == FileUpTo(objects, i)
      invariant |offsets| == i + 1
      invariant forall k :: 1 <= k <= i ==> offsets[k] == Offset(objects, k)
    {
      offsets := offsets + [|buf|];
      buf := buf + ObjBytes(i + 1, objects[i]);
    }
    var xrefPos := |buf|;
    ghost var file := buf;
    ghost var head := XrefHead(|objects| + 1);
    buf := buf + XrefHead(|objects| + 1) + FREE_ENTRY;
    for i := 1 to |objects| + 1
      invariant buf == file + head + XrefUpTo(objects, i - 1)
    {
      Assoc(file + head, XrefUpTo(objects, i - 1), Pad(Offset(objects, i), 10) + IN_USE);
      buf := buf + (Pad(offsets[i], 10) + IN_USE);
    }
    buf := buf + (TrailerHead(|objects| + 1, 1) + (Dec(xrefPos) + EOF_MARK));
    Assoc(file + head, XrefUpTo(objects, |objects|), Trailer(objects));
    Assoc(file, head, XrefUpTo(objects, |objects|) + Trailer(objects));
  }

  /** The whole writer: what it writes is read back as its input. */
  method WritePdfLines(lines: seq<string>) returns (doc: string)
    ensures doc == Document(lines)
    ensures Small(Objects(Pages(lines))) ==>
      ReadPdf(doc).Some? && Texts(ReadPdf(doc).value) == ShownLines(if lines == [] then ["(empty report)"] else lines)
  {
    hide Assemble, Objects, Pages, Small, ReadPdf;
    var pages := SplitPages(lines);
    var objects := BuildObjects(pages);
    doc := WriteObjects(objects);
    if Small(Objects(Pages(lines))) {
      RoundTrip(lines);
    }
  }
}
