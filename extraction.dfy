/**
  `BaseExtractor` of extractors/base_extractor.py: the document text every
  header search reads (`get_pdf_text`), and `extract`, which packages the
  header and the transactions of one vendor into an `ExtractionResult`, or
  into an error result when the document cannot be read.

  The PDF library is an input (`PdfOutcome`), the clock is the `timestamp`
  parameter, and the vendor's header label patterns are the `labels`
  parameter: what they capture from the text of the document.
 */
module Extraction {
  import opened Wrappers
  import opened Invoice
  import opened Vendors
  import Assembly
  import Engine

  /** `page.extract_text() or ""`. */
  function PageText(p: Page): string {
    match p.text
    case Some(s) => s
    case None => ""
  }

  /** The page texts, in page order, run together with nothing between them. */
  function AllText(pages: seq<Page>): string {
    if pages == [] then "" else AllText(pages[..|pages| - 1]) + PageText(pages[|pages| - 1])
  }

  /** The text of a document is the text of its first part followed by that of the rest. */
  lemma {:induction false} AllTextAppend(a: seq<Page>, b: seq<Page>)
    ensures AllText(a + b) == AllText(a) + AllText(b)
    decreases |b|
  {
    if b == [] {
      assert a + b == a;
    } else {
      var n := |b| - 1;
      assert (a + b)[..|a + b| - 1] == a + b[..n];
      AllTextAppend(a, b[..n]);
    }
  }

  /** A page without text adds nothing to the document text. */
  lemma TextlessPage(a: seq<Page>, p: Page, b: seq<Page>)
    requires p.text.None? || p.text == Some("")
    ensures AllText(a + [p] + b) == AllText(a + b)
  {
    AllTextAppend(a + [p], b);
    AllTextAppend(a, [p]);
    AllTextAppend(a, b);
    assert [p][..0] == [];
  }

  /** `get_pdf_text(pdf)`. */
  method GetPdfText(doc: Document) returns (text: string)
    ensures text == AllText(doc.pages)
  {
    text := "";
    var i := 0;
    while i < |doc.pages|
      invariant 0 <= i <= |doc.pages|
      invariant text == AllText(doc.pages[..i])
    {
      assert doc.pages[..i + 1][..i] == doc.pages[..i];
      text := text + PageText(doc.pages[i]);
      i := i + 1;
    }
    assert doc.pages[..i] == doc.pages;
  }

  /** The message of the error result. */
  const ErrorPrefix: string := "Errore durante l'estrazione: "

  /** The invoice data of the error result: empty strings, zero totals, no transactions. */
  function EmptyInvoice(fornitore: string): InvoiceData {
    InvoiceData("", "", fornitore, "", 0.0, 0.0, 0.0, [])
  }

  /**
    `extract(pdf_content, filename)` for the vendor `v`. The success result
    holds the header read through the vendor's labels from the document text,
    the transactions of the document in output order, their number, and the
    header's invoice total as the total amount. When the document cannot be
    opened the result says so and carries nothing else.
   */
  method Extract(v: Vendor, pdf: PdfOutcome, filename: string, timestamp: string,
                 labels: (Vendor, string) -> LabelHits)
    returns (r: ExtractionResult)
    ensures r.filename == filename && r.timestamp == timestamp
    ensures r.fornitore == Fornitore(v) && r.invoiceData.fornitore == Fornitore(v)
    ensures pdf.Opened? ==>
      var h := Vendors.Header(v, labels(v, AllText(pdf.doc.pages)));
      && r.status == Succeeded && r.message == None
      && r.invoiceData.transactions == Assembly.Transactions(v, pdf.doc)
      && r.recordsCount == |r.invoiceData.transactions|
      && r.totalAmount == h.totaleFattura == r.invoiceData.totaleFattura
      && r.invoiceData.numeroFattura == h.numeroFattura
      && r.invoiceData.dataFattura == h.dataFattura
      && r.invoiceData.cliente == h.cliente
      && r.invoiceData.totaleImponibile == h.totaleImponibile
      && r.invoiceData.totaleIva == h.totaleIva
    ensures pdf.Unreadable? ==>
      && r.status == Failed
      && r.recordsCount == 0 && r.totalAmount == 0.0
      && r.invoiceData == EmptyInvoice(Fornitore(v))
      && r.message == Some(ErrorPrefix + pdf.message)
  {
    match pdf
    case Unreadable(msg) =>
      r := ExtractionResult(Failed, filename, timestamp, Fornitore(v), EmptyInvoice(Fornitore(v)),
                            0, 0.0, Some(ErrorPrefix + msg));
    case Opened(doc) =>
      var text := GetPdfText(doc);
      var header := Vendors.Header(v, labels(v, text));
      var transactions := Engine.ExtractTransactions(v, doc);
      var invoice := InvoiceData(header.numeroFattura, header.dataFattura, Fornitore(v), header.cliente,
                                 header.totaleImponibile, header.totaleIva, header.totaleFattura,
                                 transactions);
      r := ExtractionResult(Succeeded, filename, timestamp, Fornitore(v), invoice,
                            |transactions|, header.totaleFattura, None);
  }

  /**
    On success the count is that of the records, not of the lines read, and
    the records have pairwise distinct keys; the total is the header's and
    stays 0.0 when the vendor's total label is absent.
   */
  lemma SuccessResult(v: Vendor, doc: Document, labels: (Vendor, string) -> LabelHits, r: ExtractionResult)
    requires r.status == Succeeded
    requires r.invoiceData.transactions == Assembly.Transactions(v, doc)
    requires r.recordsCount == |r.invoiceData.transactions|
    requires r.totalAmount == Vendors.Header(v, labels(v, AllText(doc.pages))).totaleFattura
    ensures var ts := r.invoiceData.transactions;
      forall a, b :: 0 <= a < b < r.recordsCount ==> KeyOf(ts[a]) != KeyOf(ts[b])
    ensures labels(v, AllText(doc.pages)).totale.None? ==> r.totalAmount == 0.0
  {
    Assembly.TransactionsDistinct(v, doc);
  }
}
