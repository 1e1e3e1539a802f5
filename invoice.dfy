/**
  The records the extraction engine produces (models/invoice_models.py) and the
  shape of its input: a PDF document as the PDF library presents it.
 */
module Invoice {
  import opened Wrappers

  /** One refuelling, as `Transaction` in models/invoice_models.py. */
  datatype Transaction = Transaction(
    data: string,
    ora: string,
    numeroScontrino: string,
    codiceSede: string,
    localita: string,
    targa: string,
    chilometraggio: int,
    prodotto: string,
    quantita: real,
    prezzoUnitario: real,
    importoTotale: real,
    fornitore: string,
    numeroCarta: Option<string>)

  /** The de-duplication key `(data, ora, numero_scontrino)`. */
  datatype Key = Key(data: string, ora: string, scontrino: string)

  function KeyOf(t: Transaction): Key {
    Key(t.data, t.ora, t.numeroScontrino)
  }

  /** `trans_dict["targa"] = targa`. */
  function WithPlate(t: Transaction, plate: string): (r: Transaction)
    ensures r.targa == plate && KeyOf(r) == KeyOf(t)
    ensures r.(targa := t.targa) == t
  {
    t.(targa := plate)
  }

  /** The plate given to transactions still pending at the end of a document. */
  const Sentinel: string := "SCONOSCIUTA"

  /** The customer name a header keeps when its label is absent. */
  const DefaultCliente: string := "BEEBUS SPA"

  // ---------------------------------------------------------------- the PDF

  /** A word as the PDF library reports it: its text and its rounded `top` coordinate. */
  datatype Word = Word(text: string, row: int)

  /** A page: its words, and the text its `extract_text()` returns (None when it has none). */
  datatype Page = Page(words: seq<Word>, text: Option<string>)

  datatype Document = Document(pages: seq<Page>)

  /** What opening the uploaded bytes gives: a document, or the library's error message. */
  datatype PdfOutcome = Opened(doc: Document) | Unreadable(message: string)

  // ---------------------------------------------------------------- results

  /**
    What a vendor's header label patterns capture from the document text, one
    entry per label; None where the label is absent.
   */
  datatype LabelHits = LabelHits(
    numero: Option<string>,
    data: Option<string>,
    cliente: Option<string>,
    imponibile: Option<string>,
    iva: Option<string>,
    totale: Option<string>)

  /** The header dictionary every `extract_invoice_header` returns (all six keys are always set). */
  datatype Header = Header(
    numeroFattura: string,
    dataFattura: string,
    cliente: string,
    totaleImponibile: real,
    totaleIva: real,
    totaleFattura: real)

  datatype InvoiceData = InvoiceData(
    numeroFattura: string,
    dataFattura: string,
    fornitore: string,
    cliente: string,
    totaleImponibile: real,
    totaleIva: real,
    totaleFattura: real,
    transactions: seq<Transaction>)

  datatype Status = Succeeded | Failed

  /** `ExtractionResult`; `timestamp` is the ISO time the caller supplies. */
  datatype ExtractionResult = ExtractionResult(
    status: Status,
    filename: string,
    timestamp: string,
    fornitore: string,
    invoiceData: InvoiceData,
    recordsCount: int,
    totalAmount: real,
    message: Option<string>)

  /** The ten-key record of the legacy output format. */
  datatype LegacyRecord = LegacyRecord(
    targa: string,
    dataRifornimento: string,
    oraRifornimento: string,
    chilometraggio: int,
    litri: real,
    importoTotale: real,
    fornitore: string,
    tipoRifornimento: string,
    numeroScontrino: string,
    localita: string)

  datatype LegacyResult = LegacyResult(
    status: Status,
    filename: string,
    timestamp: string,
    recordsCount: int,
    totalAmount: real,
    data: seq<LegacyRecord>,
    fornitore: string,
    message: Option<string>)
}
