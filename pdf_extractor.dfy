/**
 * Text extraction from PDFs: PyPDF2 page by page for digital PDFs, the
 * Textract block list for scanned ones, and the text clean-up both share.
 * The PDF reader and the Textract service are inputs: a `Reader` value and
 * the list of blocks Textract answered.
 */
module PdfExtractor {
  import opened Lib
  import opened PyPdf

  // ---------------------------------------------------------------------------
  // _clean_text

  /** `s` without its leading run of `c`. */
  function DropRun(s: string, c: char): (r: string)
    ensures |r| <= |s| && r == s[|s| - |r|..]
    ensures r == [] || r[0] != c
    ensures forall i :: 0 <= i < |s| - |r| ==> s[i] == c
  {
    if s != [] && s[0] == c then DropRun(s[1..], c) else s
  }

  /** Every character of `s` other than `c`, in order. */
  function Without(s: string, c: char): (r: string)
    ensures c !in r
  {
    if s == [] then [] else (if s[0] == c then [] else [s[0]]) + Without(s[1..], c)
  }

  lemma {:induction false} WithoutConcat(a: string, b: string, c: char)
    ensures Without(a + b, c) == Without(a, c) + Without(b, c)
  {
    if a != [] {
      assert (a + b)[1..] == a[1..] + b;
      WithoutConcat(a[1..], b, c);
    } else {
      assert a + b == b;
    }
  }

  /** A run of `c` contributes nothing once `c` is removed. */
  lemma {:induction false} WithoutRun(s: string, c: char)
    ensures Without(s, c) == Without(DropRun(s, c), c)
  {
    if s != [] && s[0] == c {
      WithoutRun(s[1..], c);
    }
  }

  /** No two adjacent characters are both `c`. */
  predicate NoDouble(s: string, c: char) {
    forall i :: 0 <= i < |s| - 1 ==> !(s[i] == c && s[i + 1] == c)
  }

  /** `re.sub(r' +', ' ', text)`: every run of spaces becomes one space. */
  function CollapseSpaces(s: string): (r: string)
    ensures |s| > 0 ==> |r| > 0 && r[0] == s[0]
    ensures NoDouble(r, ' ')
    decreases |s|
  {
    if s == [] then []
    else if s[0] == ' ' then [' '] + CollapseSpaces(DropRun(s, ' '))
    else [s[0]] + CollapseSpaces(s[1..])
  }

  /** Collapsing spaces keeps every other character, in order. */
  lemma {:induction false} CollapseSpacesKeepsText(s: string)
    ensures Without(CollapseSpaces(s), ' ') == Without(s, ' ')
    decreases |s|
  {
    if s != [] {
      if s[0] == ' ' {
        var rest := DropRun(s, ' ');
        CollapseSpacesKeepsText(rest);
        WithoutConcat([' '], CollapseSpaces(rest), ' ');
        WithoutRun(s, ' ');
      } else {
        CollapseSpacesKeepsText(s[1..]);
        WithoutConcat([s[0]], CollapseSpaces(s[1..]), ' ');
      }
    }
  }

  /** No three adjacent characters are all newlines. */
  predicate NoTripleNewline(s: string) {
    forall i :: 0 <= i < |s| - 2 ==> !(s[i] == '\n' && s[i + 1] == '\n' && s[i + 2] == '\n')
  }

  /** `re.sub(r'\n{3,}', '\n\n', text)`: a run of three or more newlines becomes two. */
  function CollapseNewlines(s: string): (r: string)
    ensures |s| > 0 ==> |r| > 0 && r[0] == s[0]
    ensures NoTripleNewline(r)
    decreases |s|
  {
    if s == [] then []
    else if s[0] == '\n' then
      var rest := DropRun(s, '\n');
      var n := |s| - |rest|;
      (if n >= 3 then "\n\n" else s[..n]) + CollapseNewlines(rest)
    else [s[0]] + CollapseNewlines(s[1..])
  }

  /** Collapsing newline runs keeps every other character, in order. */
  lemma {:induction false} CollapseNewlinesKeepsText(s: string)
    ensures Without(CollapseNewlines(s), '\n') == Without(s, '\n')
    decreases |s|
  {
    if s != [] {
      if s[0] == '\n' {
        var rest := DropRun(s, '\n');
        var n := |s| - |rest|;
        var run := if n >= 3 then "\n\n" else s[..n];
        CollapseNewlinesKeepsText(rest);
        WithoutConcat(run, CollapseNewlines(rest), '\n');
        AllNewlines(run);
        WithoutRun(s, '\n');
      } else {
        CollapseNewlinesKeepsText(s[1..]);
        WithoutConcat([s[0]], CollapseNewlines(s[1..]), '\n');
      }
    }
  }

  lemma {:induction false} AllNewlines(s: string)
    requires forall i :: 0 <= i < |s| ==> s[i] == '\n'
    ensures Without(s, '\n') == []
  {
    if s != [] {
      AllNewlines(s[1..]);
    }
  }

  /** `'\n'.join(line.strip() for line in text.split('\n'))`. */
  function StripLines(s: string): string {
    Join("\n", MapSeq(Strip, SplitOn(s, '\n')))
  }

  /** `text.replace(c, rep)` for a one-character pattern. */
  function ReplaceChar(s: string, c: char, rep: string): (r: string)
    ensures forall ch :: ch in r ==> (ch in s && ch != c) || ch in rep
  {
    if s == [] then []
    else
      var head := if s[0] == c then rep else [s[0]];
      assert forall ch :: ch in s[1..] ==> ch in s;
      head + ReplaceChar(s[1..], c, rep)
  }

  /** The ligature table of `_clean_text`, in its order. */
  const Ligatures: seq<(char, string)> :=
    [('\U{fb01}', "fi"), ('\U{fb02}', "fl"), ('\U{fb00}', "ff"), ('\U{fb03}', "ffi"), ('\U{fb04}', "ffl")]

  /** One of the five ligature characters the clean-up spells out. */
  predicate IsLigature(c: char) {
    c == '\U{fb00}' || c == '\U{fb01}' || c == '\U{fb02}' || c == '\U{fb03}' || c == '\U{fb04}'
  }

  /** Each replacement of `ligs` applied in turn. */
  function ReplaceEach(s: string, ligs: seq<(char, string)>): (r: string)
    ensures forall ch :: ch in r ==> ch in s || exists j :: 0 <= j < |ligs| && ch in ligs[j].1
    decreases |ligs|
  {
    if ligs == [] then s
    else
      var r := ReplaceEach(ReplaceChar(s, ligs[0].0, ligs[0].1), ligs[1..]);
      assert forall j :: 0 <= j < |ligs| - 1 ==> ligs[1..][j] == ligs[j + 1];
      r
  }

  /** After all replacements, none of the replaced characters is left, provided no replacement text holds one. */
  lemma {:induction false} ReplaceEachRemoves(s: string, ligs: seq<(char, string)>)
    requires forall j, k :: 0 <= j < |ligs| && 0 <= k < |ligs| ==> ligs[j].0 !in ligs[k].1
    ensures forall j :: 0 <= j < |ligs| ==> ligs[j].0 !in ReplaceEach(s, ligs)
    decreases |ligs|
  {
    if ligs != [] {
      var s1 := ReplaceChar(s, ligs[0].0, ligs[0].1);
      ReplaceEachRemoves(s1, ligs[1..]);
      forall j | 0 <= j < |ligs|
        ensures ligs[j].0 !in ReplaceEach(s, ligs)
      {
        if j > 0 {
          assert ligs[1..][j - 1] == ligs[j];
        } else {
          assert ligs[0].0 !in s1;
          forall k | 0 <= k < |ligs[1..]|
            ensures ligs[0].0 !in ligs[1..][k].1
          {
            assert ligs[1..][k] == ligs[k + 1];
          }
        }
      }
    }
  }

  /**
   * `_clean_text`: "" for empty input; otherwise spaces collapsed, newline
   * runs of three or more cut to two, every line stripped, the five
   * ligatures spelled out, NUL characters removed and the result stripped.
   * Python's None input is the empty string here.
   */
  function CleanText(text: string): string {
    if text == "" then ""
    else
      var lines := StripLines(CollapseNewlines(CollapseSpaces(text)));
      Strip(ReplaceChar(ReplaceEach(lines, Ligatures), '\0', ""))
  }

  /** The text `CleanText` strips at the end. */
  function Unstripped(text: string): string {
    ReplaceChar(ReplaceEach(StripLines(CollapseNewlines(CollapseSpaces(text))), Ligatures), '\0', "")
  }

  /** Before the final strip, no NUL and no ligature character is left. */
  lemma UnstrippedClean(text: string)
    ensures forall c :: c in Unstripped(text) ==> c != '\0' && !IsLigature(c)
  {
    ReplacedClean(StripLines(CollapseNewlines(CollapseSpaces(text))));
  }

  lemma ReplacedClean(lines: string)
    ensures forall c :: c in ReplaceChar(ReplaceEach(lines, Ligatures), '\0', "") ==> c != '\0' && !IsLigature(c)
  {
    var fixed := ReplaceEach(lines, Ligatures);
    ReplaceEachRemoves(lines, Ligatures);
    forall c | c in ReplaceChar(fixed, '\0', "")
      ensures c != '\0' && !IsLigature(c)
    {
      assert c in fixed;
      assert c != Ligatures[0].0 && c != Ligatures[1].0 && c != Ligatures[2].0 && c != Ligatures[3].0 && c != Ligatures[4].0;
    }
  }

  /**
   * What the clean-up guarantees: the result of empty input is empty, and
   * any result has no leading or trailing whitespace, no NUL character and
   * none of the five ligature characters.
   */
  lemma CleanTextClean(text: string)
    ensures text == "" ==> CleanText(text) == ""
    ensures var r := CleanText(text); r == "" || (!IsSpace(r[0]) && !IsSpace(r[|r| - 1]))
    ensures forall c :: c in CleanText(text) ==> c != '\0' && !IsLigature(c)
  {
    if text != "" {
      var u := Unstripped(text);
      assert CleanText(text) == Strip(u);
      StripIsTrimmedSlice(u);
      UnstrippedClean(text);
      forall c | c in Strip(u)
        ensures c in u
      {
        var i :| 0 <= i < |Strip(u)| && Strip(u)[i] == c;
        assert Strip(u)[i] == u[StripStart(u) + i];
      }
    }
  }

  // ---------------------------------------------------------------------------
  // PageContent / PDFContent and extract_text_from_pdf

  /** A table as rows of cell texts. */
  type Table = seq<seq<string>>

  /** `extraction_method`: "pypdf2" or "textract". */
  datatype Method = PyPdf2 | Textract

  datatype PageContent = PageContent(pageNumber: int, text: string, charCount: int, tables: seq<Table>, isScanned: bool)

  datatype PdfContent = PdfContent(
    totalPages: int,
    pages: seq<PageContent>,
    fullText: string,
    totalChars: int,
    metadata: map<string, string>,
    errors: seq<string>,
    extractionMethod: Method)

  /** The result every failure path returns: no pages, no text, only the errors. */
  function Failed(errors: seq<string>, m: Method): (c: PdfContent)
    ensures c.totalPages == 0 && c.pages == [] && c.fullText == "" && c.totalChars == 0
    ensures c.metadata == map[] && c.errors == errors && c.extractionMethod == m
  {
    PdfContent(0, [], "", 0, map[], errors, m)
  }

  /** `[p.text for p in pages if p.text]` */
  function NonEmptyTexts(pages: seq<PageContent>): (r: seq<string>)
    ensures |r| <= |pages|
    ensures forall t :: t in r ==> t != ""
  {
    if pages == [] then []
    else (if pages[0].text != "" then [pages[0].text] else []) + NonEmptyTexts(pages[1..])
  }

  /** `full_text`: the non-empty page texts joined by blank lines. */
  function FullText(pages: seq<PageContent>): string {
    Join("\n\n", NonEmptyTexts(pages))
  }

  /** `total_chars`: the sum of the pages' character counts. */
  function TotalChars(pages: seq<PageContent>): int {
    if pages == [] then 0 else pages[0].charCount + TotalChars(pages[1..])
  }

  /**
   * When every page's count is the length of its text, the full text is
   * as long as all page texts together plus two characters for each
   * blank line between two non-empty pages.
   */
  lemma {:induction false} FullTextLength(pages: seq<PageContent>)
    requires forall i :: 0 <= i < |pages| ==> pages[i].charCount == |pages[i].text|
    ensures NonEmptyTexts(pages) == [] ==> FullText(pages) == "" && TotalChars(pages) == 0
    ensures NonEmptyTexts(pages) != [] ==> |FullText(pages)| == TotalChars(pages) + 2 * (|NonEmptyTexts(pages)| - 1)
  {
    if pages != [] {
      var rest := pages[1..];
      assert forall i :: 0 <= i < |rest| ==> rest[i] == pages[i + 1];
      FullTextLength(rest);
      var t := pages[0].text;
      assert TotalChars(pages) == |t| + TotalChars(rest);
      if t != "" {
        var parts := NonEmptyTexts(pages);
        assert parts == [t] + NonEmptyTexts(rest);
        assert parts[1..] == NonEmptyTexts(rest);
        if NonEmptyTexts(rest) != [] {
          assert FullText(pages) == t + "\n\n" + FullText(rest);
        }
      } else {
        assert NonEmptyTexts(pages) == [] + NonEmptyTexts(rest) == NonEmptyTexts(rest);
      }
    }
  }

  /**
   * `pages_to_extract`: every page without a limit, otherwise the limit cut
   * to the page total; a negative limit extracts nothing.
   */
  function PageCount(maxPages: Option<int>, total: nat): (n: nat)
    ensures n <= total
    ensures maxPages.None? ==> n == total
    ensures maxPages.Some? ==> n == Max(0, Min(maxPages.value, total))
  {
    match maxPages
    case None => total
    case Some(m) => if m < 0 then 0 else Min(m, total)
  }

  /**
   * The entry for page `i` (counted from 0): its text, cleaned when asked,
   * or empty text when extraction raised.
   */
  function PageOf(i: nat, read: PageRead, clean: bool): (p: PageContent)
    ensures p.pageNumber == i + 1 && p.charCount == |p.text| && p.tables == [] && !p.isScanned
    ensures read.Raises? ==> p.text == ""
    ensures !read.Raises? && !clean ==> p.text == TextOf(read)
    ensures !read.Raises? && clean ==> p.text == CleanText(TextOf(read))
  {
    if read.Raises? then PageContent(i + 1, "", 0, [], false)
    else
      var text := if clean then CleanText(TextOf(read)) else TextOf(read);
      PageContent(i + 1, text, |text|, [], false)
  }

  /** The error recorded for page `i` whose extraction raised `message`. */
  function PageErrorText(i: nat, message: string): string {
    "Error extracting page " + NatToString(i + 1) + ": " + message
  }

  /** The errors the first `n` pages record, one per page that raised. */
  function PageErrors(pageReads: seq<PageRead>, n: nat): (r: seq<string>)
    requires n <= |pageReads|
    ensures |r| <= n
  {
    if n == 0 then []
    else
      PageErrors(pageReads, n - 1)
        + (if pageReads[n - 1].Raises? then [PageErrorText(n - 1, pageReads[n - 1].message)] else [])
  }

  /** The first `n` page entries. */
  function PypdfPages(pageReads: seq<PageRead>, n: nat, clean: bool): (r: seq<PageContent>)
    requires n <= |pageReads|
    ensures |r| == n
  {
    if n == 0 then [] else PypdfPages(pageReads, n - 1, clean) + [PageOf(n - 1, pageReads[n - 1], clean)]
  }

  /** Entry `k` of the first `n` is the entry for page `k`. */
  lemma {:induction false} PypdfPagesAt(pageReads: seq<PageRead>, n: nat, clean: bool)
    requires n <= |pageReads|
    ensures forall k :: 0 <= k < n ==> PypdfPages(pageReads, n, clean)[k] == PageOf(k, pageReads[k], clean)
  {
    if n > 0 {
      PypdfPagesAt(pageReads, n - 1, clean);
      var init, last := PypdfPages(pageReads, n - 1, clean), PageOf(n - 1, pageReads[n - 1], clean);
      assert PypdfPages(pageReads, n, clean) == init + [last];
      forall k | 0 <= k < n
        ensures PypdfPages(pageReads, n, clean)[k] == PageOf(k, pageReads[k], clean)
      {
        if k < n - 1 {
          assert (init + [last])[k] == init[k];
        }
      }
    }
  }

  /** What `extract_text_from_pdf` returns for a reader. */
  function PypdfContent(reader: Reader, maxPages: Option<int>, clean: bool): PdfContent {
    match reader
    case Unopenable => Failed(["Cannot read PDF file"], PyPdf2)
    case Broken(message) => Failed(["Failed to process PDF: " + message], PyPdf2)
    case Pdf(pageReads, metadata) =>
      var n := PageCount(maxPages, |pageReads|);
      var pages := PypdfPages(pageReads, n, clean);
      PdfContent(|pageReads|, pages, FullText(pages), TotalChars(pages), metadata, PageErrors(pageReads, n), PyPdf2)
  }

  /**
   * `extract_text_from_pdf`: one entry per extracted page, in order, a page
   * that raises recorded as empty with an error, then the combined text.
   */
  method ExtractTextFromPdf(reader: Reader, maxPages: Option<int>, clean: bool) returns (c: PdfContent)
    ensures c == PypdfContent(reader, maxPages, clean)
  {
    match reader
    case Unopenable =>
      c := Failed(["Cannot read PDF file"], PyPdf2);
    case Broken(message) =>
      c := Failed(["Failed to process PDF: " + message], PyPdf2);
    case Pdf(pageReads, metadata) =>
      var n := PageCount(maxPages, |pageReads|);
      var pages: seq<PageContent> := [];
      var errors: seq<string> := [];
      for i := 0 to n
        invariant pages == PypdfPages(pageReads, i, clean)
        invariant errors == PageErrors(pageReads, i)
      {
        if pageReads[i].Raises? {
          errors := errors + [PageErrorText(i, pageReads[i].message)];
        }
        pages := pages + [PageOf(i, pageReads[i], clean)];
      }
      c := PdfContent(|pageReads|, pages, FullText(pages), TotalChars(pages), metadata, errors, PyPdf2);
  }

  /** A readable PDF gives the page count it asked for, numbered from 1 in order, each counted exactly. */
  lemma PypdfPagesNumbered(reader: Reader, maxPages: Option<int>, clean: bool)
    requires reader.Pdf?
    ensures var c := PypdfContent(reader, maxPages, clean);
      && c.totalPages == |reader.pages|
      && |c.pages| == PageCount(maxPages, |reader.pages|) <= c.totalPages
      && (forall i :: 0 <= i < |c.pages| ==> c.pages[i].pageNumber == i + 1 && c.pages[i].charCount == |c.pages[i].text|)
      && c.errors == PageErrors(reader.pages, |c.pages|)
  {
    PypdfPagesAt(reader.pages, PageCount(maxPages, |reader.pages|), clean);
  }

  /** No error is recorded exactly when no extracted page raised. */
  lemma {:induction false} NoErrorsIffNoPageRaised(pageReads: seq<PageRead>, n: nat)
    requires n <= |pageReads|
    ensures PageErrors(pageReads, n) == [] <==> forall i :: 0 <= i < n ==> !pageReads[i].Raises?
  {
    if n > 0 {
      NoErrorsIffNoPageRaised(pageReads, n - 1);
    }
  }

  /** Every extracted page that raised has its own error, naming the page. */
  lemma {:induction false} RaisedPageHasError(pageReads: seq<PageRead>, n: nat, i: nat)
    requires i < n <= |pageReads| && pageReads[i].Raises?
    ensures PageErrorText(i, pageReads[i].message) in PageErrors(pageReads, n)
  {
    if i < n - 1 {
      RaisedPageHasError(pageReads, n - 1, i);
    }
  }

  /** The full text of a PyPDF2 extraction is as long as its pages together plus the blank lines between them. */
  lemma PypdfFullTextLength(reader: Reader, maxPages: Option<int>, clean: bool)
    ensures var c := PypdfContent(reader, maxPages, clean);
      c.fullText == "" || |c.fullText| == c.totalChars + 2 * (|NonEmptyTexts(c.pages)| - 1)
  {
    if reader.Pdf? {
      var c := PypdfContent(reader, maxPages, clean);
      PypdfPagesAt(reader.pages, |c.pages|, clean);
      FullTextLength(c.pages);
    }
  }

  /** `get_page_count`: the number of pages, 0 when the PDF cannot be read. */
  function GetPageCount(reader: Reader): (n: nat)
    ensures reader.Pdf? ==> n == |reader.pages|
    ensures !reader.Pdf? ==> n == 0
  {
    if reader.Pdf? then |reader.pages| else 0
  }

  /** `extract_text_simple`: the full text of an extraction of every page, cleaned. */
  method ExtractTextSimple(reader: Reader) returns (text: string)
    ensures text == FullText(PypdfContent(reader, None, true).pages)
  {
    var c := ExtractTextFromPdf(reader, None, true);
    text := c.fullText;
  }

  /** `extract_text_by_page`: each extracted page's text, in page order. */
  method ExtractTextByPage(reader: Reader) returns (texts: seq<string>)
    ensures |texts| == |PypdfContent(reader, None, true).pages|
    ensures forall i :: 0 <= i < |texts| ==> texts[i] == PypdfContent(reader, None, true).pages[i].text
  {
    var c := ExtractTextFromPdf(reader, None, true);
    texts := seq(|c.pages|, i requires 0 <= i < |c.pages| => c.pages[i].text);
  }

  // ---------------------------------------------------------------------------
  // TextractExtractor: blocks to pages and tables

  /** One entry of a block's `Relationships`. */
  datatype Relationship = Relationship(relType: string, ids: seq<string>)

  /**
   * A Textract block. `Id` and `BlockType` are always present; the other
   * keys may be missing, which `None` stands for.
   */
  datatype Block = Block(
    id: string,
    blockType: string,
    text: Option<string>,
    page: Option<int>,
    rowIndex: Option<int>,
    columnIndex: Option<int>,
    relationships: Option<seq<Relationship>>)

  /** `{block["Id"]: block for block in all_blocks}` */
  function BlockMap(blocks: seq<Block>): (m: map<string, Block>)
    ensures forall b :: b in blocks ==> b.id in m
    ensures forall id :: id in m ==> m[id] in blocks && m[id].id == id
  {
    if blocks == [] then map[]
    else
      var last := blocks[|blocks| - 1];
      assert blocks == blocks[..|blocks| - 1] + [last];
      BlockMap(blocks[..|blocks| - 1])[last.id := last]
  }

  /** When several blocks share an id, the map keeps the last of them. */
  lemma {:induction false} BlockMapKeepsLast(blocks: seq<Block>, i: nat)
    requires i < |blocks|
    requires forall j :: i < j < |blocks| ==> blocks[j].id != blocks[i].id
    ensures BlockMap(blocks)[blocks[i].id] == blocks[i]
  {
    if i < |blocks| - 1 {
      var init := blocks[..|blocks| - 1];
      assert forall j :: i < j < |init| ==> init[j] == blocks[j];
      BlockMapKeepsLast(init, i);
    }
  }

  /** The ids of every CHILD relationship, in order. */
  function ChildIds(rels: seq<Relationship>): seq<string> {
    if rels == [] then []
    else ChildIds(rels[..|rels| - 1]) + (if rels[|rels| - 1].relType == "CHILD" then rels[|rels| - 1].ids else [])
  }

  lemma {:induction false} ChildIdsAppend(a: seq<Relationship>, b: seq<Relationship>)
    ensures ChildIds(a + b) == ChildIds(a) + ChildIds(b)
    decreases |b|
  {
    if b == [] {
      assert a + b == a;
    } else {
      assert (a + b)[..|a + b| - 1] == a + b[..|b| - 1];
      ChildIdsAppend(a, b[..|b| - 1]);
    }
  }

  /** One more relationship read. */
  lemma ChildIdsStep(rels: seq<Relationship>, i: nat)
    requires i < |rels|
    ensures ChildIds(rels[..i + 1]) == ChildIds(rels[..i]) + (if rels[i].relType == "CHILD" then rels[i].ids else [])
  {
    assert rels[..i + 1][..i] == rels[..i];
  }

  /** `child.get("Text", "")` */
  function TextOr(b: Block): string {
    if b.text.Some? then b.text.value else ""
  }

  /** What one child id contributes: the text of a WORD block, nothing otherwise. */
  function WordOf(id: string, bmap: map<string, Block>): seq<string> {
    if id in bmap && bmap[id].blockType == "WORD" then [TextOr(bmap[id])] else []
  }

  /** The texts of the WORD blocks among `ids`, in order. */
  function WordTexts(ids: seq<string>, bmap: map<string, Block>): (r: seq<string>)
    ensures |r| <= |ids|
  {
    if ids == [] then [] else WordTexts(ids[..|ids| - 1], bmap) + WordOf(ids[|ids| - 1], bmap)
  }

  /** One more child id read. */
  lemma WordTextsStep(before: seq<string>, ids: seq<string>, j: nat, bmap: map<string, Block>)
    requires j < |ids|
    ensures WordTexts(before + ids[..j + 1], bmap) == WordTexts(before + ids[..j], bmap) + WordOf(ids[j], bmap)
  {
    assert (before + ids[..j + 1])[..|before + ids[..j + 1]| - 1] == before + ids[..j];
  }

  /** When every child is a WORD, there is one text per child, in the same order. */
  lemma {:induction false} AllWordsKept(ids: seq<string>, bmap: map<string, Block>)
    requires forall id :: id in ids ==> id in bmap && bmap[id].blockType == "WORD"
    ensures |WordTexts(ids, bmap)| == |ids|
    ensures forall k :: 0 <= k < |ids| ==> WordTexts(ids, bmap)[k] == TextOr(bmap[ids[k]])
  {
    if ids != [] {
      var init := ids[..|ids| - 1];
      assert forall id :: id in init ==> id in ids;
      AllWordsKept(init, bmap);
    }
  }

  /** Children that are not WORD blocks (or are missing) give no text. */
  lemma {:induction false} NoWordsNoText(ids: seq<string>, bmap: map<string, Block>)
    requires forall id :: id in ids ==> id !in bmap || bmap[id].blockType != "WORD"
    ensures WordTexts(ids, bmap) == []
  {
    if ids != [] {
      var init := ids[..|ids| - 1];
      assert forall id :: id in init ==> id in ids;
      NoWordsNoText(init, bmap);
    }
  }

  /** The text of a block: its WORD children's texts joined by single spaces, "" without relationships. */
  function ChildText(b: Block, bmap: map<string, Block>): (s: string)
    ensures b.relationships.None? ==> s == ""
  {
    if b.relationships.None? then "" else Join(" ", WordTexts(ChildIds(b.relationships.value), bmap))
  }

  /** `_get_text_from_children` */
  method GetTextFromChildren(b: Block, bmap: map<string, Block>) returns (s: string)
    ensures s == ChildText(b, bmap)
  {
    if b.relationships.None? {
      return "";
    }
    var rels := b.relationships.value;
    var parts: seq<string> := [];
    for i := 0 to |rels|
      invariant parts == WordTexts(ChildIds(rels[..i]), bmap)
    {
      ChildIdsStep(rels, i);
      if rels[i].relType == "CHILD" {
        var ids := rels[i].ids;
        ghost var before := ChildIds(rels[..i]);
        assert before + ids[..0] == before;
        for j := 0 to |ids|
          invariant parts == WordTexts(before + ids[..j], bmap)
        {
          WordTextsStep(before, ids, j, bmap);
          parts := parts + WordOf(ids[j], bmap);
        }
        assert ids[..|ids|] == ids;
        assert parts == WordTexts(before + ids, bmap);
        assert ChildIds(rels[..i + 1]) == before + ids;
      } else {
        assert ChildIds(rels[..i]) + [] == ChildIds(rels[..i]);
      }
    }
    assert rels[..|rels|] == rels;
    s := Join(" ", parts);
  }

  // ---------------------------------------------------------------------------
  // _extract_table

  /** `rows`: row index to column index to cell text. */
  type Grid = map<int, map<int, string>>

  /**
   * One child of a table: a CELL writes its text at (RowIndex, ColumnIndex),
   * replacing what an earlier cell wrote there; a CELL without either index
   * raises KeyError; any other child is skipped.
   */
  function CellStep(g: Grid, id: string, bmap: map<string, Block>): Result<Grid, string> {
    if id !in bmap || bmap[id].blockType != "CELL" then Ok(g)
    else
      var cell := bmap[id];
      if cell.rowIndex.None? then Err("'RowIndex'")
      else if cell.columnIndex.None? then Err("'ColumnIndex'")
      else
        var r := cell.rowIndex.value;
        Ok(g[r := (if r in g then g[r] else map[])[cell.columnIndex.value := ChildText(cell, bmap)]])
  }

  /** The grid the children `ids` fill, or the first KeyError. */
  function TableGrid(ids: seq<string>, bmap: map<string, Block>): Result<Grid, string> {
    if ids == [] then Ok(map[])
    else
      match TableGrid(ids[..|ids| - 1], bmap)
      case Err(e) => Err(e)
      case Ok(g) => CellStep(g, ids[|ids| - 1], bmap)
  }

  /** One more child read. */
  lemma TableGridStep(before: seq<string>, ids: seq<string>, j: nat, bmap: map<string, Block>)
    requires j < |ids|
    requires TableGrid(before + ids[..j], bmap).Ok?
    ensures TableGrid(before + ids[..j + 1], bmap) == CellStep(TableGrid(before + ids[..j], bmap).value, ids[j], bmap)
  {
    assert (before + ids[..j + 1])[..|before + ids[..j + 1]| - 1] == before + ids[..j];
  }

  /** Once a child raises, the children after it change nothing. */
  lemma {:induction false} TableGridErrSticks(a: seq<string>, b: seq<string>, bmap: map<string, Block>)
    requires TableGrid(a, bmap).Err?
    ensures TableGrid(a + b, bmap) == TableGrid(a, bmap)
    decreases |b|
  {
    if b == [] {
      assert a + b == a;
    } else {
      assert (a + b)[..|a + b| - 1] == a + b[..|b| - 1];
      TableGridErrSticks(a, b[..|b| - 1], bmap);
    }
  }

  /** Children that are not CELL blocks leave the grid as it was. */
  lemma {:induction false} TableGridIgnoresNonCells(a: seq<string>, b: seq<string>, bmap: map<string, Block>)
    requires forall id :: id in b ==> id !in bmap || bmap[id].blockType != "CELL"
    ensures TableGrid(a + b, bmap) == TableGrid(a, bmap)
    decreases |b|
  {
    if b == [] {
      assert a + b == a;
    } else {
      assert (a + b)[..|a + b| - 1] == a + b[..|b| - 1];
      assert forall id :: id in b[..|b| - 1] ==> id in b;
      TableGridIgnoresNonCells(a, b[..|b| - 1], bmap);
    }
  }

  /** The last CELL written at a position is the one whose text the grid holds there. */
  lemma {:induction false} TableGridLastCellWins(ids: seq<string>, bmap: map<string, Block>, k: nat)
    requires k < |ids| && ids[k] in bmap
    requires TableGrid(ids, bmap).Ok?
    requires var c := bmap[ids[k]]; c.blockType == "CELL"
    requires forall j :: k < j < |ids| && ids[j] in bmap && bmap[ids[j]].blockType == "CELL" ==>
      bmap[ids[j]].rowIndex != bmap[ids[k]].rowIndex || bmap[ids[j]].columnIndex != bmap[ids[k]].columnIndex
    ensures var c := bmap[ids[k]]; var g := TableGrid(ids, bmap).value;
      && c.rowIndex.Some? && c.columnIndex.Some?
      && c.rowIndex.value in g && c.columnIndex.value in g[c.rowIndex.value]
      && g[c.rowIndex.value][c.columnIndex.value] == ChildText(c, bmap)
  {
    var init := ids[..|ids| - 1];
    if k < |ids| - 1 {
      assert forall j :: k < j < |init| ==> init[j] == ids[j];
      TableGridLastCellWins(init, bmap, k);
    }
  }

  /** A non-empty set has an element. */
  lemma HasElement(s: set<int>)
    requires s != {}
    ensures exists x :: x in s
  {
    if forall x :: x !in s {
      assert false;
    }
  }

  /** The smallest element of a non-empty set. */
  ghost function SetMin(s: set<int>): (m: int)
    requires s != {}
    ensures m in s && forall y :: y in s ==> m <= y
  {
    HasElement(s);
    var x :| x in s;
    if s == {x} then x
    else
      var m := SetMin(s - {x});
      assert forall y :: y in s ==> y == x || y in s - {x};
      if x <= m then x else m
  }

  /** `sorted(s)` */
  ghost function SortedKeys(s: set<int>): (ks: seq<int>)
    ensures forall i :: 0 <= i < |ks| ==> ks[i] in s
  {
    if s == {} then []
    else
      var m := SetMin(s);
      [m] + SortedKeys(s - {m})
  }

  /** `sorted(s)` lists every element of `s` once, in increasing order. */
  lemma SortedKeysSorted(s: set<int>)
    ensures forall k :: k in s ==> k in SortedKeys(s)
    ensures forall i, j :: 0 <= i < j < |SortedKeys(s)| ==> SortedKeys(s)[i] < SortedKeys(s)[j]
  {
    SortedKeysComplete(s);
    SortedKeysIncreasing(s);
  }

  lemma {:induction false} SortedKeysComplete(s: set<int>)
    ensures forall k :: k in s ==> k in SortedKeys(s)
  {
    if s != {} {
      var m := SetMin(s);
      var ks, rest := SortedKeys(s), SortedKeys(s - {m});
      SortedKeysComplete(s - {m});
      assert ks == [m] + rest;
      forall k | k in s
        ensures k in ks
      {
        if k != m {
          assert k in s - {m};
        }
      }
    }
  }

  lemma {:induction false} SortedKeysIncreasing(s: set<int>)
    ensures forall i, j :: 0 <= i < j < |SortedKeys(s)| ==> SortedKeys(s)[i] < SortedKeys(s)[j]
  {
    if s != {} {
      var m := SetMin(s);
      var ks, rest := SortedKeys(s), SortedKeys(s - {m});
      SortedKeysIncreasing(s - {m});
      assert ks == [m] + rest;
      forall i, j | 0 <= i < j < |ks|
        ensures ks[i] < ks[j]
      {
        assert ks[j] == rest[j - 1] && rest[j - 1] in s - {m};
        if i > 0 {
          assert ks[i] == rest[i - 1];
        }
      }
    }
  }

  /** The values at `keys`, in order. */
  ghost function ValuesAt(keys: seq<int>, m: map<int, string>): (r: seq<string>)
    requires forall i :: 0 <= i < |keys| ==> keys[i] in m
    ensures |r| == |keys| && forall i :: 0 <= i < |keys| ==> r[i] == m[keys[i]]
  {
    if keys == [] then [] else ValuesAt(keys[..|keys| - 1], m) + [m[keys[|keys| - 1]]]
  }

  /** A row of the table: its cells ordered by column index. */
  ghost function RowCells(row: map<int, string>): seq<string> {
    ValuesAt(SortedKeys(row.Keys), row)
  }

  /** The rows at `keys`, in order. */
  ghost function RowsAt(keys: seq<int>, g: Grid): (r: Table)
    requires forall i :: 0 <= i < |keys| ==> keys[i] in g
    ensures |r| == |keys| && forall i :: 0 <= i < |keys| ==> r[i] == RowCells(g[keys[i]])
  {
    if keys == [] then [] else RowsAt(keys[..|keys| - 1], g) + [RowCells(g[keys[|keys| - 1]])]
  }

  /** The table of a grid: rows ordered by row index, each row's cells by column index. */
  ghost function GridTable(g: Grid): (t: Table)
    ensures |t| == |SortedKeys(g.Keys)|
    ensures forall i :: 0 <= i < |t| ==> t[i] == RowCells(g[SortedKeys(g.Keys)[i]])
  {
    RowsAt(SortedKeys(g.Keys), g)
  }

  /** What `_extract_table` gives for a table block: [] without relationships, else its grid as rows, or the KeyError. */
  ghost function TableOf(tb: Block, bmap: map<string, Block>): Result<Table, string> {
    if tb.relationships.None? then Ok([])
    else
      match TableGrid(ChildIds(tb.relationships.value), bmap)
      case Err(e) => Err(e)
      case Ok(g) => Ok(GridTable(g))
  }

  /** `sorted(keys)` */
  method SortKeys(s: set<int>) returns (ks: seq<int>)
    ensures ks == SortedKeys(s)
  {
    ks := [];
    var rest := s;
    while rest != {}
      invariant ks + SortedKeys(rest) == SortedKeys(s)
      decreases rest
    {
      ghost var least := SetMin(rest);
      var m :| m in rest && forall y :: y in rest ==> m <= y;
      assert m <= least && least <= m;
      assert SortedKeys(rest) == [m] + SortedKeys(rest - {m});
      ks := ks + [m];
      rest := rest - {m};
    }
  }

  lemma ValuesAtStep(keys: seq<int>, c: nat, m: map<int, string>)
    requires c < |keys| && forall i :: 0 <= i < |keys| ==> keys[i] in m
    ensures ValuesAt(keys[..c + 1], m) == ValuesAt(keys[..c], m) + [m[keys[c]]]
  {
    assert keys[..c + 1][..c] == keys[..c];
  }

  lemma RowsAtStep(keys: seq<int>, k: nat, g: Grid)
    requires k < |keys| && forall i :: 0 <= i < |keys| ==> keys[i] in g
    ensures RowsAt(keys[..k + 1], g) == RowsAt(keys[..k], g) + [RowCells(g[keys[k]])]
  {
    assert keys[..k + 1][..k] == keys[..k];
  }

  /** The cells of one row, ordered by column index. */
  method RowOf(row: map<int, string>) returns (cells: seq<string>)
    ensures cells == RowCells(row)
  {
    var cols := SortKeys(row.Keys);
    cells := [];
    for c := 0 to |cols|
      invariant cells == ValuesAt(cols[..c], row)
    {
      ValuesAtStep(cols, c, row);
      cells := cells + [row[cols[c]]];
    }
    assert cols[..|cols|] == cols;
  }

  /** The error a table raises at the j-th id of its i-th relationship is the error of the whole table. */
  lemma TableErrAt(rels: seq<Relationship>, i: nat, j: nat, bmap: map<string, Block>)
    requires i < |rels| && rels[i].relType == "CHILD" && j < |rels[i].ids|
    requires TableGrid(ChildIds(rels[..i]) + rels[i].ids[..j + 1], bmap).Err?
    ensures TableGrid(ChildIds(rels), bmap) == TableGrid(ChildIds(rels[..i]) + rels[i].ids[..j + 1], bmap)
  {
    var ids := rels[i].ids;
    var x := ChildIds(rels[..i]) + ids[..j + 1];
    ChildIdsStep(rels, i);
    assert rels == rels[..i + 1] + rels[i + 1..];
    ChildIdsAppend(rels[..i + 1], rels[i + 1..]);
    assert ids == ids[..j + 1] + ids[j + 1..];
    assert ChildIds(rels) == x + (ids[j + 1..] + ChildIds(rels[i + 1..]));
    TableGridErrSticks(x, ids[j + 1..] + ChildIds(rels[i + 1..]), bmap);
  }

  /** `_extract_table` */
  method ExtractTable(tb: Block, bmap: map<string, Block>) returns (r: Result<Table, string>)
    ensures r == TableOf(tb, bmap)
  {
    if tb.relationships.None? {
      return Ok([]);
    }
    var rels := tb.relationships.value;
    var rows: Grid := map[];
    for i := 0 to |rels|
      invariant TableGrid(ChildIds(rels[..i]), bmap) == Ok(rows)
    {
      ChildIdsStep(rels, i);
      if rels[i].relType == "CHILD" {
        var ids := rels[i].ids;
        ghost var before := ChildIds(rels[..i]);
        assert before + ids[..0] == before;
        for j := 0 to |ids|
          invariant TableGrid(before + ids[..j], bmap) == Ok(rows)
        {
          TableGridStep(before, ids, j, bmap);
          var id := ids[j];
          if id in bmap && bmap[id].blockType == "CELL" {
            var cell := bmap[id];
            if cell.rowIndex.None? {
              TableErrAt(rels, i, j, bmap);
              return Err("'RowIndex'");
            }
            if cell.columnIndex.None? {
              TableErrAt(rels, i, j, bmap);
              return Err("'ColumnIndex'");
            }
            var text := GetTextFromChildren(cell, bmap);
            var rowIdx := cell.rowIndex.value;
            var row := if rowIdx in rows then rows[rowIdx] else map[];
            rows := rows[rowIdx := row[cell.columnIndex.value := text]];
          }
        }
        assert ids[..|ids|] == ids;
      } else {
        assert ChildIds(rels[..i]) + [] == ChildIds(rels[..i]);
      }
    }
    assert rels[..|rels|] == rels;
    var rowKeys := SortKeys(rows.Keys);
    var table: Table := [];
    for k := 0 to |rowKeys|
      invariant table == RowsAt(rowKeys[..k], rows)
    {
      RowsAtStep(rowKeys, k, rows);
      var cells := RowOf(rows[rowKeys[k]]);
      table := table + [cells];
    }
    assert rowKeys[..|rowKeys|] == rowKeys;
    r := Ok(table);
  }

  // ---------------------------------------------------------------------------
  // _parse_response

  /** `block.get("Page", 1)` */
  function PageNum(b: Block): int {
    if b.page.Some? then b.page.value else 1
  }

  /** `max_page`: 1, raised to the page of every block. */
  function MaxPage(blocks: seq<Block>): (m: int)
    ensures m >= 1
    ensures forall i :: 0 <= i < |blocks| ==> PageNum(blocks[i]) <= m
  {
    if blocks == [] then 1
    else
      var init := blocks[..|blocks| - 1];
      assert forall i :: 0 <= i < |init| ==> init[i] == blocks[i];
      Max(MaxPage(init), PageNum(blocks[|blocks| - 1]))
  }

  /** The largest page is 1 or the page of some block. */
  lemma {:induction false} MaxPageAttained(blocks: seq<Block>)
    ensures MaxPage(blocks) == 1 || exists i :: 0 <= i < |blocks| && PageNum(blocks[i]) == MaxPage(blocks)
  {
    if blocks != [] {
      var init := blocks[..|blocks| - 1];
      MaxPageAttained(init);
      if MaxPage(blocks) != 1 && MaxPage(blocks) != PageNum(blocks[|blocks| - 1]) {
        var i :| 0 <= i < |init| && PageNum(init[i]) == MaxPage(init);
        assert PageNum(blocks[i]) == MaxPage(blocks);
      }
    }
  }

  /** `pages_data[page]`: the lines and tables gathered for one page. */
  datatype PageData = PageData(lines: seq<string>, tables: seq<Table>)

  /** `pages_data.get(page, {"lines": [], "tables": []})` */
  function DataAt(pagesData: map<int, PageData>, page: int): PageData {
    if page in pagesData then pagesData[page] else PageData([], [])
  }

  /** The KeyError one block raises: a LINE without text, or a table with a malformed cell. */
  ghost function BlockError(b: Block, bmap: map<string, Block>, extractTables: bool): Option<string> {
    if b.blockType == "LINE" && b.text.None? then Some("'Text'")
    else if b.blockType == "TABLE" && extractTables && TableOf(b, bmap).Err? then Some(TableOf(b, bmap).error)
    else None
  }

  /** The first error the blocks raise, in block order. */
  ghost function FirstError(blocks: seq<Block>, bmap: map<string, Block>, extractTables: bool): Option<string> {
    if blocks == [] then None
    else
      var e := FirstError(blocks[..|blocks| - 1], bmap, extractTables);
      if e.Some? then e else BlockError(blocks[|blocks| - 1], bmap, extractTables)
  }

  /**
   * `d` with what block `b` adds when it lies on page `page`: a LINE its
   * text, a non-empty table (when tables are wanted) the table.
   */
  ghost function AddBlock(d: PageData, b: Block, bmap: map<string, Block>, extractTables: bool, page: int): PageData {
    if PageNum(b) != page then d
    else if b.blockType == "LINE" then PageData(d.lines + [TextOr(b)], d.tables)
    else if b.blockType == "TABLE" && extractTables && TableOf(b, bmap).Ok? && TableOf(b, bmap).value != [] then
      PageData(d.lines, d.tables + [TableOf(b, bmap).value])
    else d
  }

  /** The lines and tables the blocks on page `page` give, in block order. */
  ghost function DataOn(blocks: seq<Block>, bmap: map<string, Block>, extractTables: bool, page: int): PageData {
    if blocks == [] then PageData([], [])
    else AddBlock(DataOn(blocks[..|blocks| - 1], bmap, extractTables, page), blocks[|blocks| - 1], bmap, extractTables, page)
  }

  /** A Textract page from what was gathered for it: the lines joined by newlines and cleaned, and the tables. */
  function PageFrom(page: int, d: PageData): (p: PageContent)
    ensures p.pageNumber == page && p.charCount == |p.text| && p.tables == d.tables && p.isScanned
    ensures d.lines == [] ==> p.text == ""
  {
    var text := CleanText(Join("\n", d.lines));
    PageContent(page, text, |text|, d.tables, true)
  }

  /** Page `page` of a Textract result. */
  ghost function TextractPage(blocks: seq<Block>, bmap: map<string, Block>, extractTables: bool, page: int): PageContent {
    PageFrom(page, DataOn(blocks, bmap, extractTables, page))
  }

  /** Pages 1 to `n`, page `k` being `pageOf(k)`. */
  ghost function PagesUpTo(n: nat, pageOf: int -> PageContent): (r: seq<PageContent>)
    ensures |r| == n
    ensures forall k :: 0 <= k < n ==> r[k] == pageOf(k + 1)
  {
    if n == 0 then [] else PagesUpTo(n - 1, pageOf) + [pageOf(n)]
  }

  /** What `_parse_response` returns when no block raises. */
  ghost function TextractContent(blocks: seq<Block>, extractTables: bool): PdfContent {
    var pages := PagesUpTo(MaxPage(blocks), page => TextractPage(blocks, BlockMap(blocks), extractTables, page));
    PdfContent(MaxPage(blocks), pages, FullText(pages), TotalChars(pages), map[], [], Textract)
  }

  lemma FlattenStep<T>(xss: seq<seq<T>>, i: nat)
    requires i < |xss|
    ensures Flatten(xss[..i + 1]) == Flatten(xss[..i]) + xss[i]
  {
    assert xss[..i + 1] == xss[..i] + [xss[i]];
    FlattenAppend(xss[..i], [xss[i]]);
    assert Flatten([xss[i]]) == xss[i] + Flatten([xss[i]][1..]);
    assert [xss[i]][1..] == [];
  }

  lemma FlattenOne<T>(xs: seq<T>)
    ensures Flatten([xs]) == xs
  {
    assert [xs][1..] == [];
  }

  /** One more block read. */
  lemma ParseStep(blocks: seq<Block>, i: nat, bmap: map<string, Block>, extractTables: bool)
    requires i < |blocks|
    ensures MaxPage(blocks[..i + 1]) == Max(MaxPage(blocks[..i]), PageNum(blocks[i]))
    ensures FirstError(blocks[..i + 1], bmap, extractTables)
      == if FirstError(blocks[..i], bmap, extractTables).Some? then FirstError(blocks[..i], bmap, extractTables)
         else BlockError(blocks[i], bmap, extractTables)
    ensures forall page ::
      DataOn(blocks[..i + 1], bmap, extractTables, page) == AddBlock(DataOn(blocks[..i], bmap, extractTables, page), blocks[i], bmap, extractTables, page)
  {
    assert blocks[..i + 1][..i] == blocks[..i];
  }

  /** Once a block raises, the blocks after it change nothing. */
  lemma {:induction false} FirstErrorSticks(blocks: seq<Block>, k: nat, bmap: map<string, Block>, extractTables: bool)
    requires k <= |blocks| && FirstError(blocks[..k], bmap, extractTables).Some?
    ensures FirstError(blocks, bmap, extractTables) == FirstError(blocks[..k], bmap, extractTables)
    decreases |blocks| - k
  {
    if k == |blocks| {
      assert blocks[..k] == blocks;
    } else {
      var init := blocks[..|blocks| - 1];
      assert init[..k] == blocks[..k];
      FirstErrorSticks(init, k, bmap, extractTables);
    }
  }

  /**
   * The grouping loop of `_parse_response`: the largest page, and each
   * page's lines and tables, or the first KeyError a block raises.
   */
  method GroupByPage(blocks: seq<Block>, bmap: map<string, Block>, extractTables: bool)
    returns (error: Option<string>, pagesData: map<int, PageData>, maxPage: int)
    ensures error == FirstError(blocks, bmap, extractTables)
    ensures error.None? ==> maxPage == MaxPage(blocks)
    ensures error.None? ==> forall page :: DataOn(blocks, bmap, extractTables, page) == DataAt(pagesData, page)
  {
    pagesData := map[];
    maxPage := 1;
    for i := 0 to |blocks|
      invariant maxPage == MaxPage(blocks[..i])
      invariant FirstError(blocks[..i], bmap, extractTables).None?
      invariant forall page :: DataOn(blocks[..i], bmap, extractTables, page) == DataAt(pagesData, page)
    {
      var b := blocks[i];
      ParseStep(blocks, i, bmap, extractTables);
      var pageNum := PageNum(b);
      maxPage := Max(maxPage, pageNum);
      var data := DataAt(pagesData, pageNum);
      if b.blockType == "LINE" {
        if b.text.None? {
          FirstErrorSticks(blocks, i + 1, bmap, extractTables);
          return Some("'Text'"), pagesData, maxPage;
        }
        data := PageData(data.lines + [b.text.value], data.tables);
      } else if b.blockType == "TABLE" && extractTables {
        var table := ExtractTable(b, bmap);
        if table.Err? {
          FirstErrorSticks(blocks, i + 1, bmap, extractTables);
          return Some(table.error), pagesData, maxPage;
        }
        if table.value != [] {
          data := PageData(data.lines, data.tables + [table.value]);
        }
      }
      assert data == AddBlock(DataAt(pagesData, pageNum), b, bmap, extractTables, pageNum);
      ghost var before := pagesData;
      pagesData := pagesData[pageNum := data];
      forall page
        ensures DataOn(blocks[..i + 1], bmap, extractTables, page) == DataAt(pagesData, page)
      {
        assert DataOn(blocks[..i], bmap, extractTables, page) == DataAt(before, page);
      }
    }
    assert blocks[..|blocks|] == blocks;
    error := None;
  }

  /** The page loop of `_parse_response`: pages 1 to `maxPage`, each from its gathered lines and tables. */
  method BuildPages(pagesData: map<int, PageData>, maxPage: int, ghost pageOf: int -> PageContent)
    returns (pages: seq<PageContent>)
    requires maxPage >= 1
    requires forall page :: pageOf(page) == PageFrom(page, DataAt(pagesData, page))
    ensures pages == PagesUpTo(maxPage, pageOf)
  {
    pages := [];
    for page := 1 to maxPage + 1
      invariant pages == PagesUpTo(page - 1, pageOf)
    {
      var data := DataAt(pagesData, page);
      var text := CleanText(Join("\n", data.lines));
      assert PageContent(page, text, |text|, data.tables, true) == PageFrom(page, data) == pageOf(page);
      pages := pages + [PageContent(page, text, |text|, data.tables, true)];
    }
  }

  /**
   * `_parse_response`: the blocks of every response page are grouped by
   * page; pages 1 to the largest page number come out in order, even those
   * no block lies on, each with its LINE texts joined by newlines and
   * cleaned. A missing key raises, which the result carries as `Err`.
   */
  method ParseResponse(responses: seq<seq<Block>>, extractTables: bool) returns (r: Result<PdfContent, string>)
    ensures r.Err? <==> FirstError(Flatten(responses), BlockMap(Flatten(responses)), extractTables).Some?
    ensures r.Err? ==> FirstError(Flatten(responses), BlockMap(Flatten(responses)), extractTables) == Some(r.error)
    ensures r.Ok? ==> r.value == TextractContent(Flatten(responses), extractTables)
  {
    var blocks: seq<Block> := [];
    for i := 0 to |responses|
      invariant blocks == Flatten(responses[..i])
    {
      FlattenStep(responses, i);
      blocks := blocks + responses[i];
    }
    assert responses[..|responses|] == responses;
    var bmap := BlockMap(blocks);
    var error, pagesData, maxPage := GroupByPage(blocks, bmap, extractTables);
    if error.Some? {
      return Err(error.value);
    }
    ghost var pageOf := page => TextractPage(blocks, bmap, extractTables, page);
    var pages := BuildPages(pagesData, maxPage, pageOf);
    r := Ok(PdfContent(maxPage, pages, FullText(pages), TotalChars(pages), map[], [], Textract));
  }

  /** A Textract result has pages 1 to its largest page number, in order, all marked scanned and counted exactly. */
  lemma TextractPagesNumbered(blocks: seq<Block>, extractTables: bool)
    ensures var c := TextractContent(blocks, extractTables);
      && c.totalPages == |c.pages| == MaxPage(blocks) >= 1
      && c.errors == [] && c.extractionMethod == Textract
      && forall k :: 0 <= k < |c.pages| ==>
           c.pages[k].pageNumber == k + 1 && c.pages[k].isScanned && c.pages[k].charCount == |c.pages[k].text|
  {
  }

  /** A page no block lies on has no lines and no tables. */
  lemma {:induction false} PageWithoutBlocksIsEmpty(blocks: seq<Block>, bmap: map<string, Block>, extractTables: bool, page: int)
    requires forall i :: 0 <= i < |blocks| ==> PageNum(blocks[i]) != page
    ensures DataOn(blocks, bmap, extractTables, page) == PageData([], [])
    ensures TextractPage(blocks, bmap, extractTables, page).text == ""
    ensures TextractPage(blocks, bmap, extractTables, page).tables == []
  {
    if blocks != [] {
      var init := blocks[..|blocks| - 1];
      assert forall i :: 0 <= i < |init| ==> init[i] == blocks[i];
      PageWithoutBlocksIsEmpty(init, bmap, extractTables, page);
    }
  }

  /** Every LINE block's text is among the lines of its page; a block without a page number lies on page 1. */
  lemma {:induction false} LineOnItsPage(blocks: seq<Block>, bmap: map<string, Block>, extractTables: bool, i: nat)
    requires i < |blocks| && blocks[i].blockType == "LINE"
    ensures TextOr(blocks[i]) in DataOn(blocks, bmap, extractTables, PageNum(blocks[i])).lines
    ensures blocks[i].page.None? ==> PageNum(blocks[i]) == 1
  {
    var init := blocks[..|blocks| - 1];
    var page := PageNum(blocks[i]);
    if i < |blocks| - 1 {
      assert init[i] == blocks[i];
      LineOnItsPage(init, bmap, extractTables, i);
      var d := DataOn(init, bmap, extractTables, page);
      assert DataOn(blocks, bmap, extractTables, page) == AddBlock(d, blocks[|blocks| - 1], bmap, extractTables, page);
      assert forall x :: x in d.lines ==> x in d.lines + [TextOr(blocks[|blocks| - 1])];
    }
  }

  /** Without table extraction no page has tables. */
  lemma {:induction false} NoTablesUnlessAsked(blocks: seq<Block>, bmap: map<string, Block>, page: int)
    ensures DataOn(blocks, bmap, false, page).tables == []
  {
    if blocks != [] {
      NoTablesUnlessAsked(blocks[..|blocks| - 1], bmap, page);
    }
  }

  // ---------------------------------------------------------------------------
  // extract_from_bytes and extract_pdf_auto

  /**
   * What the synchronous Textract call answers: a ClientError with its
   * error code ("Unknown" when the response has none), any other
   * exception, or the blocks of the document.
   */
  datatype TextractAnswer = ClientError(code: string) | Failure(message: string) | Answer(blocks: seq<Block>)

  /** What `extract_from_bytes` returns for an answer. */
  ghost function TextractResult(answer: TextractAnswer, extractTables: bool): PdfContent {
    match answer
    case ClientError(code) => Failed(["Textract error: " + code], Textract)
    case Failure(message) => Failed([message], Textract)
    case Answer(blocks) =>
      var e := FirstError(blocks, BlockMap(blocks), extractTables);
      if e.Some? then Failed([e.value], Textract) else TextractContent(blocks, extractTables)
  }

  /**
   * `TextractExtractor.extract_from_bytes`: the answer parsed into pages, or
   * a result with no pages whose one error says what went wrong.
   */
  method ExtractFromBytes(answer: TextractAnswer, extractTables: bool) returns (c: PdfContent)
    ensures c == TextractResult(answer, extractTables)
  {
    match answer
    case ClientError(code) =>
      c := Failed(["Textract error: " + code], Textract);
    case Failure(message) =>
      c := Failed([message], Textract);
    case Answer(blocks) =>
      FlattenOne(blocks);
      var r := ParseResponse([blocks], extractTables);
      if r.Err? {
        c := Failed([r.error], Textract);
      } else {
        c := r.value;
      }
  }

  /** Where `extract_pdf_auto` gets its input from; other kinds are refused. */
  datatype PdfInput = PathInput | BytesInput | StreamInput | OtherInput

  /** `avg_chars_per_page >= 50`: at least 50 characters per page on average, a result without pages counting as one page. */
  predicate HasMeaningfulText(c: PdfContent) {
    (c.totalChars as real) / (Max(c.totalPages, 1) as real) >= 50.0
  }

  /** The average test is the integer comparison `total_chars >= 50 * max(total_pages, 1)`. */
  lemma MeaningfulTextIsCrossMultiplication(c: PdfContent)
    ensures HasMeaningfulText(c) <==> c.totalChars >= 50 * Max(c.totalPages, 1)
  {
    var d := Max(c.totalPages, 1) as real;
    var q := (c.totalChars as real) / d;
    assert q * d == c.totalChars as real;
    if q >= 50.0 {
      assert q * d >= 50.0 * d;
    } else {
      assert q * d < 50.0 * d;
    }
  }

  /** A PDF PyPDF2 cannot read never passes the test, so Textract is tried when allowed. */
  lemma UnreadableIsNeverMeaningful(reader: Reader, maxPages: Option<int>, clean: bool)
    requires !reader.Pdf?
    ensures !HasMeaningfulText(PypdfContent(reader, maxPages, clean))
  {
  }

  /**
   * `extract_pdf_auto`: the PyPDF2 result when it has enough text per page;
   * otherwise, when allowed and the input is a path, bytes or a stream, the
   * Textract result for the document's bytes (`answer` stands for what
   * Textract answers for them); otherwise the PyPDF2 result after all.
   */
  method ExtractPdfAuto(input: PdfInput, reader: Reader, useTextract: bool, answer: TextractAnswer) returns (c: PdfContent)
    ensures HasMeaningfulText(PypdfContent(reader, None, true)) ==> c == PypdfContent(reader, None, true)
    ensures !HasMeaningfulText(PypdfContent(reader, None, true)) && useTextract && !input.OtherInput? ==>
      c == TextractResult(answer, true)
    ensures !HasMeaningfulText(PypdfContent(reader, None, true)) && (!useTextract || input.OtherInput?) ==>
      c == PypdfContent(reader, None, true)
  {
    var result := ExtractTextFromPdf(reader, None, true);
    var avgCharsPerPage := (result.totalChars as real) / (Max(result.totalPages, 1) as real);
    if avgCharsPerPage >= 50.0 {
      return result;
    }
    if useTextract {
      if input.OtherInput? {
        return result;
      }
      c := ExtractFromBytes(answer, true);
      return;
    }
    c := result;
  }
}
