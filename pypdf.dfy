/**
 * The PyPDF2 reader as the PDF code sees it: opening either fails
 * (`_get_pdf_reader` returns None), or counting the pages raises, or it
 * yields a list of pages whose `extract_text()` returns text, returns None,
 * or raises.
 */
module PyPdf {
  /** What `page.extract_text()` does for one page. */
  datatype PageRead = Text(text: string) | NoText | Raises(message: string)

  /** What opening a PDF gives. `metadata` is what `_extract_metadata` reads from it. */
  datatype Reader = Unopenable | Broken(message: string) | Pdf(pages: seq<PageRead>, metadata: map<string, string>)

  /** `page.extract_text() or ""` for a page whose extraction does not raise. */
  function TextOf(p: PageRead): (s: string)
    requires !p.Raises?
    ensures p.NoText? ==> s == ""
  {
    if p.Text? then p.text else ""
  }
}
