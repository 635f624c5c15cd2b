/** The PDF writer of the report package: pagination, numbered objects, stream lengths
    and the cross-reference table.
    File structure: ISO 32000-1:2008, sections 7.3.8, 7.5.4 and 7.5.5. */
module Pdf {
  import opened Text
  import opened PdfText

  const LINES_PER_PAGE: nat := 54
  const FONT_SIZE: nat := 9
  const LEADING: nat := 13
  const MARGIN_X: nat := 40
  const TOP_Y: nat := 800

  const HEADER := "%PDF-1.4\n"
  const EOF_MARK := "\n%%EOF\n"
  const END_OBJ := "\nendobj\n"

  // ----- Pages -----

  function Paginate(lines: seq<string>): seq<seq<string>> {
    if lines == [] then []
    else if |lines| <= LINES_PER_PAGE then [lines]
    else [lines[..LINES_PER_PAGE]] + Paginate(lines[LINES_PER_PAGE..])
  }

  function Pages(lines: seq<string>): seq<seq<string>> {
    if lines == [] then [["(empty report)"]] else Paginate(lines)
  }

  /** Pages are nonempty, hold at most 54 lines, and concatenate back to the input. */
  lemma {:induction false} PaginateConcatenates(lines: seq<string>)
    ensures Flatten(Paginate(lines)) == lines
    ensures forall p :: p in Paginate(lines) ==> 0 < |p| <= LINES_PER_PAGE
  {
    if |lines| > LINES_PER_PAGE {
      PaginateConcatenates(lines[LINES_PER_PAGE..]);
      assert lines == lines[..LINES_PER_PAGE] + lines[LINES_PER_PAGE..];
    } else if lines != [] {
      assert Flatten([lines]) == lines + Flatten([]);
    }
  }

  // ----- Object bodies -----

  // Literal text comes in as many pieces as is convenient.

  function FontBody(): string {
    "<<" + (" /Type /Font" + (" /Subtype /Type1" + (" /BaseFont /Courier" + (" /Encoding /WinAnsiEncoding" + " >>"))))
  }

  const END_STREAM := "\nendstream"

  function ContentHead(): string {
    "BT /F1 " + (Dec(FONT_SIZE) + (" Tf "
    + (Dec(MARGIN_X) + (" " + (Dec(TOP_Y) + (" Td " + (Dec(LEADING) + " TL\n")))))))
  }

  function StreamHead(length: nat): string {
    "<<" + (" /Length " + (Dec(length) + (" >>" + "\nstream\n")))
  }

  function PageBody(parent: nat, contents: nat, font: nat): string {
    "<<" + (" /Type /Page" + (" /Parent " + (Dec(parent) + (" 0 R" + (" /MediaBox " + ("[0 0 595 842]"
    + (" /Contents " + (Dec(contents) + (" 0 R" + (" /Resources " + ("<<" + (" /Font " + ("<<" + (" /F1 "
    + (Dec(font) + (" 0 R" + (" >>" + (" >>" + " >>"))))))))))))))))))
  }

  function CatalogBody(pagesNum: nat): string {
    "<<" + (" /Type /Catalog" + (" /Pages " + (Dec(pagesNum) + (" 0 R" + " >>"))))
  }

  function KidText(num: nat): string { Dec(num) + " 0 R" }

  function TreeBody(kids: string, count: nat): string {
    "<<" + (" /Type /Pages" + (" /Kids " + ("[" + (kids + ("]" + (" /Count " + (Dec(count) + " >>")))))))
  }

  function XrefHead(size: nat): string { "xref\n0 " + (Dec(size) + "\n") }

  function TrailerHead(size: nat, root: nat): string {
    "trailer\n" + ("<<" + (" /Size " + (Dec(size) + (" /Root " + (Dec(root) + (" 0 R" + (" >>" + "\nstartxref\n")))))))
  }

  function ShowLine(line: string): string {
    "(" + (Escaped(line) + (")" + " Tj\n"))
  }

  /** The show operators for the lines of a page from index `i` on. */
  function ShowsFrom(page: seq<string>, i: nat): string
    requires i <= |page|
    decreases |page| - i
  {
    if i == |page| then ""
    else if i == 0 then ShowLine(page[0]) + ShowsFrom(page, 1)
    else "T*\n" + (ShowLine(page[i]) + ShowsFrom(page, i + 1))
  }

  function Content(page: seq<string>): string {
    ContentHead() + (ShowsFrom(page, 0) + "ET")
  }

  function ContentBody(page: seq<string>): string {
    StreamHead(|Content(page)|) + (Content(page) + END_STREAM)
  }

  function PageNum(i: nat): nat { 5 + 2 * i }

  function Kids(n: nat): seq<string> {
    seq(n, i requires 0 <= i < n => KidText(PageNum(i)))
  }

  function PagesBody(n: nat): string {
    TreeBody(Join(Kids(n), " "), n)
  }

  /** The body of object `num`: 1 catalog, 2 page tree, 3 font, then for each page its
      content stream and its page object. */
  function ObjectBody(pages: seq<seq<string>>, num: nat): string
    requires 1 <= num <= 3 + 2 * |pages|
  {
    if num == 1 then CatalogBody(2)
    else if num == 2 then PagesBody(|pages|)
    else if num == 3 then FontBody()
    else if num % 2 == 0 then ContentBody(pages[(num - 4) / 2])
    else PageBody(2, num - 1, 3)
  }

  function Objects(pages: seq<seq<string>>): seq<string> {
    seq(3 + 2 * |pages|, i requires 0 <= i < 3 + 2 * |pages| => ObjectBody(pages, i + 1))
  }

  // ----- File layout -----

  function ObjBytes(num: nat, body: string): string {
    Dec(num) + (" 0 obj\n" + (body + END_OBJ))
  }

  /** The file up to and including object `k`. */
  function FileUpTo(objs: seq<string>, k: nat): string
    requires k <= |objs|
  {
    if k == 0 then HEADER else FileUpTo(objs, k - 1) + ObjBytes(k, objs[k - 1])
  }

  /** The byte position at which object `num` starts. */
  function Offset(objs: seq<string>, num: nat): nat
    requires 1 <= num <= |objs|
  {
    |FileUpTo(objs, num - 1)|
  }

  const FREE_ENTRY := "0000000000 65535 f \n"
  const IN_USE := " 00000 n \n"

  function XrefUpTo(objs: seq<string>, k: nat): string
    requires k <= |objs|
  {
    if k == 0 then FREE_ENTRY else XrefUpTo(objs, k - 1) + (Pad(Offset(objs, k), 10) + IN_USE)
  }

  function Trailer(objs: seq<string>): string {
    TrailerHead(|objs| + 1, 1) + (Dec(|FileUpTo(objs, |objs|)|) + EOF_MARK)
  }

  function Assemble(objs: seq<string>): string {
    FileUpTo(objs, |objs|) + (XrefHead(|objs| + 1) + (XrefUpTo(objs, |objs|) + Trailer(objs)))
  }

  function Document(lines: seq<string>): string {
    Assemble(Objects(Pages(lines)))
  }
}
