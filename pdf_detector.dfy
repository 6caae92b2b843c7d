/**
 * Telling a digital PDF (with extractable text) from a scanned one: the
 * first few pages are read, their characters counted after `strip()`, and
 * the average per page compared with a threshold. Every failure gives
 * UNKNOWN. Python's float division is modelled with exact reals.
 */
module PdfDetector {
  import opened Lib
  import opened PyPdf

  datatype PdfType = Digital | Scanned | Unknown

  const MinCharsPerPage: int := 50
  const SamplePages: int := 3

  /** `len(text.strip())`, the characters a sampled page contributes. */
  function StrippedSize(text: string): nat {
    |Strip(text)|
  }

  /** The sizes of the first `n` pages' texts added up; None when one of them raises. */
  function SampledBy(pages: seq<PageRead>, n: nat, size: string -> nat): Option<nat>
    requires n <= |pages|
  {
    if n == 0 then Some(0)
    else
      match SampledBy(pages, n - 1, size)
      case None => None
      case Some(t) => if pages[n - 1].Raises? then None else Some(t + size(TextOf(pages[n - 1])))
  }

  /** Characters of the first `n` pages, each counted after `strip()`; None when one of them raises. */
  function SampledChars(pages: seq<PageRead>, n: nat): Option<nat>
    requires n <= |pages|
  {
    SampledBy(pages, n, StrippedSize)
  }

  /** `avg_chars_per_page >= min_chars_per_page` with `avg = total_chars / pages_to_check`. */
  function Classify(totalChars: nat, pagesChecked: int, minChars: int): PdfType
    requires pagesChecked != 0
  {
    if (totalChars as real) / (pagesChecked as real) >= minChars as real then Digital else Scanned
  }

  /**
   * What `detect_pdf_type` returns. `pages_to_check` is
   * `min(sample_pages, total_pages)`; zero pages to check divides by zero,
   * which the function catches and reports as UNKNOWN.
   */
  function DetectType(reader: Reader, minChars: int, samplePages: int): PdfType {
    if !reader.Pdf? || |reader.pages| == 0 then Unknown
    else
      var k := Min(samplePages, |reader.pages|);
      if k == 0 then Unknown
      else if k < 0 then Classify(0, k, minChars)
      else
        match SampledChars(reader.pages, k)
        case None => Unknown
        case Some(total) => Classify(total, k, minChars)
  }

  /** `detect_pdf_type`; its loop over the sampled pages is `CountSample`. */
  method DetectPdfType(reader: Reader, minChars: int, samplePages: int) returns (t: PdfType)
    ensures t == DetectType(reader, minChars, samplePages)
  {
    if reader.Unopenable? || reader.Broken? {
      return Unknown;
    }
    var totalPages := |reader.pages|;
    if totalPages == 0 {
      return Unknown;
    }
    var pagesToCheck := Min(samplePages, totalPages);
    if pagesToCheck == 0 {
      // the loop runs zero times and the average divides by zero
      return Unknown;
    }
    if pagesToCheck < 0 {
      // `range` of a negative count is empty: the average is 0 over a negative count
      return Classify(0, pagesToCheck, minChars);
    }
    var totalChars, error := CountSample(reader.pages, pagesToCheck, StrippedSize);
    if error.Some? {
      return Unknown;
    }
    DetectFromSample(reader, minChars, samplePages, totalChars);
    t := Classify(totalChars, pagesToCheck, minChars);
  }

  /** One more page that does not raise adds its size to the count. */
  lemma SampledStep(pages: seq<PageRead>, i: nat, total: nat, size: string -> nat)
    requires i < |pages| && !pages[i].Raises? && SampledBy(pages, i, size) == Some(total)
    ensures SampledBy(pages, i + 1, size) == Some(total + size(TextOf(pages[i])))
  {
  }

  /** With `k > 0` pages to check and a count for them, the type is the count's classification. */
  lemma DetectFromSample(reader: Reader, minChars: int, samplePages: int, total: nat)
    requires reader.Pdf? && |reader.pages| > 0
    requires Min(samplePages, |reader.pages|) > 0
    requires SampledChars(reader.pages, Min(samplePages, |reader.pages|)) == Some(total)
    ensures DetectType(reader, minChars, samplePages) == Classify(total, Min(samplePages, |reader.pages|), minChars)
  {
  }

  /** Once a sampled page raises, the whole sample fails. */
  lemma {:induction false} NoneFrom(pages: seq<PageRead>, i: nat, n: nat, size: string -> nat)
    requires 0 < i <= n <= |pages| && pages[i - 1].Raises?
    ensures SampledBy(pages, n, size).None?
  {
    if n > i {
      NoneFrom(pages, i, n - 1, size);
    }
  }

  /** The sample has a count only when none of its pages raises. */
  lemma {:induction false} SampledOnlyWithoutRaise(pages: seq<PageRead>, n: nat)
    requires n <= |pages|
    ensures SampledChars(pages, n).Some? ==> forall i :: 0 <= i < n ==> !pages[i].Raises?
  {
    if n > 0 {
      SampledOnlyWithoutRaise(pages, n - 1);
    }
  }

  /** When none of the first `n` pages raises, the sample has a count. */
  lemma {:induction false} SampledWhenNoneRaises(pages: seq<PageRead>, n: nat)
    requires n <= |pages| && forall i :: 0 <= i < n ==> !pages[i].Raises?
    ensures SampledChars(pages, n).Some?
  {
    if n > 0 {
      SampledWhenNoneRaises(pages, n - 1);
    }
  }

  /** With pages to check, the threshold test is the cross-multiplication `total_chars >= min_chars * pages_checked` (inclusive). */
  lemma ClassifyIsCrossMultiplication(totalChars: nat, pagesChecked: int, minChars: int)
    requires pagesChecked > 0
    ensures Classify(totalChars, pagesChecked, minChars) == Digital <==> totalChars >= minChars * pagesChecked
    ensures Classify(totalChars, pagesChecked, minChars) != Unknown
  {
    var t, c, m := totalChars as real, pagesChecked as real, minChars as real;
    assert (t / c) * c == t;
    if t / c >= m {
      assert t >= m * c;
    } else {
      assert t < m * c;
    }
    assert (minChars * pagesChecked) as real == m * c;
  }

  /** An unreadable PDF, one whose page count fails, and one with no pages are UNKNOWN. */
  lemma DetectUnknownWhenUnreadable(reader: Reader, minChars: int, samplePages: int)
    requires !reader.Pdf? || |reader.pages| == 0
    ensures DetectType(reader, minChars, samplePages) == Unknown
  {
  }

  /**
   * The usual case: with `0 < k = min(sample_pages, total)` pages sampled and
   * none of them raising, the PDF is DIGITAL exactly when the stripped
   * characters of those pages reach `min_chars * k`, else SCANNED.
   */
  lemma DetectDigitalIff(pages: seq<PageRead>, metadata: map<string, string>, minChars: int, samplePages: int)
    requires |pages| > 0 && samplePages > 0
    requires forall i :: 0 <= i < Min(samplePages, |pages|) ==> !pages[i].Raises?
    ensures SampledChars(pages, Min(samplePages, |pages|)).Some?
    ensures DetectType(Pdf(pages, metadata), minChars, samplePages) ==
      if SampledChars(pages, Min(samplePages, |pages|)).value >= minChars * Min(samplePages, |pages|) then Digital else Scanned
  {
    var k := Min(samplePages, |pages|);
    SampledWhenNoneRaises(pages, k);
    ClassifyIsCrossMultiplication(SampledChars(pages, k).value, k, minChars);
  }

  /** Any page among those sampled that raises makes the result UNKNOWN. */
  lemma DetectUnknownWhenPageRaises(pages: seq<PageRead>, metadata: map<string, string>, minChars: int, samplePages: int, i: nat)
    requires i < samplePages && i < |pages| && pages[i].Raises?
    ensures DetectType(Pdf(pages, metadata), minChars, samplePages) == Unknown
  {
    NoneFrom(pages, i + 1, Min(samplePages, |pages|), StrippedSize);
  }

  /** `is_digital_pdf`: detection with the default threshold and sample size says DIGITAL. */
  predicate IsDigitalPdf(reader: Reader) {
    DetectType(reader, MinCharsPerPage, SamplePages) == Digital
  }

  /** `is_scanned_pdf`: detection with the default threshold and sample size says SCANNED. */
  predicate IsScannedPdf(reader: Reader) {
    DetectType(reader, MinCharsPerPage, SamplePages) == Scanned
  }

  /** A PDF is never both digital and scanned, and an unreadable one is neither. */
  lemma DigitalScannedExclusive(reader: Reader)
    ensures !(IsDigitalPdf(reader) && IsScannedPdf(reader))
    ensures (!reader.Pdf? || |reader.pages| == 0) ==> !IsDigitalPdf(reader) && !IsScannedPdf(reader)
  {
  }

  /** The dictionary `get_pdf_info` returns; `error` is None unless something failed. */
  datatype PdfInfo = PdfInfo(pdfType: PdfType, totalPages: int, avgCharsPerPage: real, sampleText: string, error: Option<string>)

  /** The message of the first raising page among the first `n`, if any. */
  function FirstRaise(pages: seq<PageRead>, n: nat): Option<string>
    requires n <= |pages|
  {
    if n == 0 then None
    else if FirstRaise(pages, n - 1).Some? then FirstRaise(pages, n - 1)
    else if pages[n - 1].Raises? then Some(pages[n - 1].message)
    else None
  }

  /** There is no error exactly when none of the first `n` pages raises. */
  lemma {:induction false} FirstRaiseNoneIff(pages: seq<PageRead>, n: nat)
    requires n <= |pages|
    ensures FirstRaise(pages, n).None? <==> forall i :: 0 <= i < n ==> !pages[i].Raises?
  {
    if n > 0 {
      FirstRaiseNoneIff(pages, n - 1);
    }
  }

  /** The first raising page names the error. */
  lemma {:induction false} FirstRaiseAt(pages: seq<PageRead>, i: nat, n: nat)
    requires i < n <= |pages| && pages[i].Raises? && FirstRaise(pages, i) == None
    ensures FirstRaise(pages, n) == Some(pages[i].message)
  {
    if n > i + 1 {
      FirstRaiseAt(pages, i, n - 1);
    }
  }

  lemma FirstRaiseStep(pages: seq<PageRead>, i: nat)
    requires i < |pages| && !pages[i].Raises? && FirstRaise(pages, i) == None
    ensures FirstRaise(pages, i + 1) == None
  {
  }

  /** A raise at page `i`, the first, decides the whole sample of `n` pages. */
  lemma RaisedAt(pages: seq<PageRead>, i: nat, n: nat, size: string -> nat)
    requires i < n <= |pages| && pages[i].Raises? && FirstRaise(pages, i) == None
    ensures FirstRaise(pages, n) == Some(pages[i].message) && SampledBy(pages, n, size) == None
  {
    NoneFrom(pages, i + 1, n, size);
    FirstRaiseAt(pages, i, n);
  }

  /**
   * The sampling loop of `get_pdf_info`: the stripped characters of the
   * first `n` pages, or the message of the first of them that raises.
   */
  method CountSample(pages: seq<PageRead>, n: nat, size: string -> nat) returns (total: nat, error: Option<string>)
    requires n <= |pages|
    ensures error == FirstRaise(pages, n)
    ensures error.None? ==> SampledBy(pages, n, size) == Some(total)
    ensures error.Some? ==> SampledBy(pages, n, size) == None
  {
    total := 0;
    for i := 0 to n
      invariant SampledBy(pages, i, size) == Some(total)
      invariant FirstRaise(pages, i) == None
    {
      var page := pages[i];
      if page.Raises? {
        RaisedAt(pages, i, n, size);
        return total, Some(page.message);
      }
      var chars := size(TextOf(page));
      SampledStep(pages, i, total, size);
      FirstRaiseStep(pages, i);
      total := total + chars;
    }
    error := None;
  }

  /**
   * `get_pdf_info`: the result dict is filled in step by step. The sample
   * text is the first 500 characters of page 1, the classification always
   * uses MIN_CHARS_PER_PAGE and SAMPLE_PAGES, and a failure sets `error`
   * and leaves the type UNKNOWN (keeping what was already filled in).
   * `avg_chars_per_page` is kept unrounded.
   */
  method GetPdfInfo(reader: Reader) returns (info: PdfInfo)
    ensures reader.Unopenable? ==> info == PdfInfo(Unknown, 0, 0.0, "", Some("Cannot read PDF file"))
    ensures reader.Broken? ==> info == PdfInfo(Unknown, 0, 0.0, "", Some(reader.message))
    ensures reader.Pdf? && |reader.pages| == 0 ==> info == PdfInfo(Unknown, 0, 0.0, "", Some("PDF has no pages"))
    ensures reader.Pdf? && |reader.pages| > 0 ==> info.totalPages == |reader.pages|
    ensures reader.Pdf? && |reader.pages| > 0 && reader.pages[0].Raises? ==>
      info == PdfInfo(Unknown, |reader.pages|, 0.0, "", Some(reader.pages[0].message))
    ensures reader.Pdf? && |reader.pages| > 0 && !reader.pages[0].Raises? ==>
      info.sampleText == Take(TextOf(reader.pages[0]), 500) &&
      info.error == FirstRaise(reader.pages, Min(SamplePages, |reader.pages|)) &&
      info.pdfType == DetectType(reader, MinCharsPerPage, SamplePages)
  {
    var pdfType, totalPages, avg, sampleText := Unknown, 0, 0.0, "";
    if reader.Unopenable? {
      return PdfInfo(pdfType, totalPages, avg, sampleText, Some("Cannot read PDF file"));
    }
    if reader.Broken? {
      return PdfInfo(pdfType, totalPages, avg, sampleText, Some(reader.message));
    }
    totalPages := |reader.pages|;
    if totalPages == 0 {
      return PdfInfo(pdfType, totalPages, avg, sampleText, Some("PDF has no pages"));
    }
    var first := reader.pages[0];
    if first.Raises? {
      return PdfInfo(pdfType, totalPages, avg, sampleText, Some(first.message));
    }
    sampleText := Take(TextOf(first), 500);
    var pagesToCheck := Min(SamplePages, totalPages);
    var totalChars, error := CountSample(reader.pages, pagesToCheck, StrippedSize);
    if error.Some? {
      return PdfInfo(Unknown, totalPages, avg, sampleText, error);
    }
    DetectFromSample(reader, MinCharsPerPage, SamplePages, totalChars);
    avg := (totalChars as real) / (pagesToCheck as real);
    if avg >= MinCharsPerPage as real {
      pdfType := Digital;
    } else {
      pdfType := Scanned;
    }
    assert pdfType == Classify(totalChars, pagesToCheck, MinCharsPerPage);
    info := PdfInfo(pdfType, totalPages, avg, sampleText, None);
  }
}
