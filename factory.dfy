/**
  `ExtractorFactory` of extractors/extractor_factory.py: the text used to
  recognise the vendor, the fixed-priority choice of the vendor, the
  flattening of a result into the legacy ten-key records, and the one-call
  `extract_from_pdf`. A raised `ValueError` is a `Failure` carrying its message.
 */
module Factory {
  import opened Wrappers
  import opened Text
  import opened Invoice
  import opened Vendors
  import IpExtractor
  import Assembly
  import Extraction

  // ---------------------------------------------------------------- detection text

  /** Each page text that is present and not empty, followed by a newline, in page order. */
  function DetectionText(pages: seq<Page>): string {
    if pages == [] then ""
    else
      var n := |pages| - 1;
      var t := pages[n].text;
      DetectionText(pages[..n]) + (if t.Some? && t.value != "" then t.value + "\n" else "")
  }

  lemma {:induction false} DetectionTextAppend(a: seq<Page>, b: seq<Page>)
    ensures DetectionText(a + b) == DetectionText(a) + DetectionText(b)
    decreases |b|
  {
    if b == [] {
      assert a + b == a;
    } else {
      var n := |b| - 1;
      assert (a + b)[..|a + b| - 1] == a + b[..n];
      DetectionTextAppend(a, b[..n]);
    }
  }

  /** A marker written on any one page is found in the detection text. */
  lemma MarkerOnAnyPage(pages: seq<Page>, i: nat, marker: string)
    requires i < |pages| && pages[i].text.Some?
    requires Contains(pages[i].text.value, marker)
    ensures Contains(DetectionText(pages), marker)
  {
    var p := pages[i];
    if p.text.value == "" {
      assert marker == "";
      assert StartsAt(DetectionText(pages), marker, 0);
      return;
    }
    assert pages == pages[..i] + [p] + pages[i + 1..];
    DetectionTextAppend(pages[..i] + [p], pages[i + 1..]);
    DetectionTextAppend(pages[..i], [p]);
    assert [p][..0] == [];
    assert DetectionText([p]) == p.text.value + "\n";
    ContainsLeft(p.text.value, "\n", marker);
    ContainsRight(DetectionText(pages[..i]), p.text.value + "\n", marker);
    ContainsLeft(DetectionText(pages[..i]) + DetectionText([p]), DetectionText(pages[i + 1..]), marker);
  }

  /**
    The converse: a marker without a newline that the detection text contains
    is written on one page, since the newline after each page cannot be part
    of it.
   */
  lemma {:induction false} MarkerOnSomePage(pages: seq<Page>, marker: string)
    requires marker != [] && '\n' !in marker
    requires Contains(DetectionText(pages), marker)
    ensures exists i :: 0 <= i < |pages| && pages[i].text.Some? && Contains(pages[i].text.value, marker)
    decreases |pages|
  {
    if pages == [] {
      assert false;
    }
    var p, rest := pages[0], pages[1..];
    assert pages == [p] + rest;
    DetectionTextAppend([p], rest);
    assert [p][..0] == [];
    if p.text.Some? && p.text.value != "" {
      assert DetectionText(pages) == p.text.value + ['\n'] + DetectionText(rest);
      ContainsAcrossSeparator(p.text.value, '\n', DetectionText(rest), marker);
      if Contains(p.text.value, marker) {
        assert pages[0] == p;
        return;
      }
    } else {
      assert DetectionText(pages) == DetectionText(rest);
    }
    MarkerOnSomePage(rest, marker);
    var j :| 0 <= j < |rest| && rest[j].text.Some? && Contains(rest[j].text.value, marker);
    assert pages[j + 1] == rest[j];
  }

  /** `_extract_text_from_pdf(pdf_content)` on a document that opened. */
  method ExtractTextFromPdf(doc: Document) returns (text: string)
    ensures text == DetectionText(doc.pages)
  {
    text := "";
    var i := 0;
    while i < |doc.pages|
      invariant 0 <= i <= |doc.pages|
      invariant text == DetectionText(doc.pages[..i])
    {
      assert doc.pages[..i + 1][..i] == doc.pages[..i];
      var pageText := doc.pages[i].text;
      if pageText.Some? && pageText.value != "" {
        text := text + pageText.value + "\n";
      }
      i := i + 1;
    }
    assert doc.pages[..i] == doc.pages;
  }

  // ---------------------------------------------------------------- the choice of vendor

  /** `EXTRACTORS`, in the order they are tried. */
  const Priority: seq<Vendor> := [IP, Esso, Q8, Tamoil]

  /** The place of each vendor in `Priority`. */
  function Rank(v: Vendor): (k: nat)
    ensures k < |Priority| && Priority[k] == v
  {
    match v
    case IP => 0
    case Esso => 1
    case Q8 => 2
    case Tamoil => 3
  }

  /** The first of `vs` whose `can_handle` accepts the text. */
  function FirstHandler(vs: seq<Vendor>, text: string): (r: Option<nat>)
    ensures r.Some? ==> r.value < |vs| && CanHandle(vs[r.value], text)
    ensures r.Some? ==> forall k :: 0 <= k < r.value ==> !CanHandle(vs[k], text)
    ensures r.None? ==> forall k :: 0 <= k < |vs| ==> !CanHandle(vs[k], text)
  {
    if vs == [] then None
    else if CanHandle(vs[0], text) then Some(0)
    else match FirstHandler(vs[1..], text)
      case Some(k) => Some(k + 1)
      case None => None
  }

  /** The vendor the factory picks for the text, if any. */
  function Choose(text: string): Option<Vendor> {
    match FirstHandler(Priority, text)
    case Some(k) => Some(Priority[k])
    case None => None
  }

  /** The chosen vendor accepts the text and every vendor tried before it does not; with none chosen, none accepts it. */
  lemma ChooseFirstMatch(text: string)
    ensures Choose(text).Some? ==>
      CanHandle(Choose(text).value, text)
      && forall w :: Rank(w) < Rank(Choose(text).value) ==> !CanHandle(w, text)
    ensures Choose(text).None? ==> forall w :: !CanHandle(w, text)
  {
    if Choose(text).None? {
      forall w ensures !CanHandle(w, text) {
        assert Priority[Rank(w)] == w;
      }
    } else {
      var k := FirstHandler(Priority, text).value;
      forall w | Rank(w) < Rank(Choose(text).value) ensures !CanHandle(w, text) {
        assert Priority[Rank(w)] == w;
        assert Rank(Priority[k]) == k by {
          match Priority[k]
          case IP =>
          case Esso =>
          case Q8 =>
          case Tamoil =>
        }
      }
    }
  }

  /** A vendor that accepts the text is chosen exactly when no earlier vendor accepts it. */
  lemma ChosenIff(text: string, v: Vendor)
    requires CanHandle(v, text)
    ensures Choose(text) == Some(v) <==> forall w :: Rank(w) < Rank(v) ==> !CanHandle(w, text)
  {
    ChooseFirstMatch(text);
    if forall w :: Rank(w) < Rank(v) ==> !CanHandle(w, text) {
      var c := Choose(text).value;
      assert Rank(c) == Rank(v);
      assert c == Priority[Rank(c)];
    }
  }

  /** Text carrying an IP marker goes to IP, whatever other markers it also carries. */
  lemma IpWinsTies(text: string)
    requires Contains(text, "IP PLUS") || Contains(text, "IP Plus")
    ensures Choose(text) == Some(IP)
  {
    IpExtractor.CanHandleIff(text);
    ChosenIff(text, IP);
  }

  const IdentificationPrefix: string := "Errore nell'identificazione del tipo di fattura: "

  const NotRecognised: string := "Tipo di fattura non riconosciuto. Formati supportati: IP Plus, Esso, Q8, Tamoil"

  /**
    `get_extractor(pdf_content)`: the vendors are tried in priority order and
    the first that accepts the detection text is returned; otherwise, or when
    the document cannot be opened, the error is wrapped in the identification
    message.
   */
  method GetExtractor(pdf: PdfOutcome) returns (r: Result<Vendor, string>)
    ensures pdf.Unreadable? ==> r == Failure(IdentificationPrefix + pdf.message)
    ensures pdf.Opened? ==> match Choose(DetectionText(pdf.doc.pages))
      case Some(v) => r == Success(v)
      case None => r == Failure(IdentificationPrefix + NotRecognised)
  {
    match pdf
    case Unreadable(msg) =>
      return Failure(IdentificationPrefix + msg);
    case Opened(doc) =>
      var text := ExtractTextFromPdf(doc);
      var i := 0;
      while i < |Priority|
        invariant 0 <= i <= |Priority|
        invariant forall k :: 0 <= k < i ==> !CanHandle(Priority[k], text)
      {
        if CanHandle(Priority[i], text) {
          FirstIs(Priority, text, i);
          return Success(Priority[i]);
        }
        i := i + 1;
      }
      NoneAccepts(Priority, text);
      return Failure(IdentificationPrefix + NotRecognised);
  }

  /** The first index of `vs` that accepts the text is what `FirstHandler` returns. */
  lemma FirstIs(vs: seq<Vendor>, text: string, i: nat)
    requires i < |vs| && CanHandle(vs[i], text)
    requires forall k :: 0 <= k < i ==> !CanHandle(vs[k], text)
    ensures FirstHandler(vs, text) == Some(i)
  {
  }

  lemma NoneAccepts(vs: seq<Vendor>, text: string)
    requires forall k :: 0 <= k < |vs| ==> !CanHandle(vs[k], text)
    ensures FirstHandler(vs, text) == None
  {
  }

  // ---------------------------------------------------------------- the legacy format

  /** The kind of refuelling every legacy record reports. */
  const TipoRifornimento: string := "esterno"

  /** One legacy record: the ten keys read from the transaction. */
  function LegacyOf(t: Transaction): LegacyRecord {
    LegacyRecord(t.targa, t.data, t.ora, t.chilometraggio, t.quantita, t.importoTotale,
                 t.fornitore, TipoRifornimento, t.numeroScontrino, t.localita)
  }

  /** Two records come from transactions with the same key exactly when they show the same date, time and ticket. */
  lemma LegacyKeepsKey(a: Transaction, b: Transaction)
    ensures KeyOf(a) == KeyOf(b) <==>
      (LegacyOf(a).dataRifornimento, LegacyOf(a).oraRifornimento, LegacyOf(a).numeroScontrino)
      == (LegacyOf(b).dataRifornimento, LegacyOf(b).oraRifornimento, LegacyOf(b).numeroScontrino)
  {
  }

  /** `_convert_to_legacy_format(extraction_result)`. */
  method ConvertToLegacy(res: ExtractionResult) returns (r: LegacyResult)
    ensures |r.data| == |res.invoiceData.transactions|
    ensures forall i :: 0 <= i < |r.data| ==> r.data[i] == LegacyOf(res.invoiceData.transactions[i])
    ensures r.status == res.status && r.filename == res.filename && r.timestamp == res.timestamp
    ensures r.recordsCount == res.recordsCount && r.totalAmount == res.totalAmount
    ensures r.fornitore == res.fornitore && r.message == res.message
  {
    var data: seq<LegacyRecord> := [];
    var ts := res.invoiceData.transactions;
    var i := 0;
    while i < |ts|
      invariant 0 <= i <= |ts|
      invariant |data| == i
      invariant forall k :: 0 <= k < i ==> data[k] == LegacyOf(ts[k])
    {
      data := data + [LegacyOf(ts[i])];
      i := i + 1;
    }
    r := LegacyResult(res.status, res.filename, res.timestamp, res.recordsCount, res.totalAmount,
                      data, res.fornitore, res.message);
  }

  /**
    `extract_from_pdf(pdf_content, filename)`: choose the vendor, extract,
    flatten. A document no vendor accepts, or one that cannot be opened, ends
    in the identification error. Otherwise the legacy result lists one record
    per transaction of the chosen vendor, in output order, with pairwise
    distinct (date, time, ticket), its count is the number of records, its
    total is the invoice total of the vendor's header and it has no message.
   */
  method ExtractFromPdf(pdf: PdfOutcome, filename: string, timestamp: string,
                        labels: (Vendor, string) -> LabelHits)
    returns (r: Result<LegacyResult, string>)
    ensures pdf.Unreadable? ==> r == Failure(IdentificationPrefix + pdf.message)
    ensures pdf.Opened? && Choose(DetectionText(pdf.doc.pages)).None? ==>
      r == Failure(IdentificationPrefix + NotRecognised)
    ensures pdf.Opened? && Choose(DetectionText(pdf.doc.pages)).Some? ==>
      var v := Choose(DetectionText(pdf.doc.pages)).value;
      var ts := Assembly.Transactions(v, pdf.doc);
      && r.Success?
      && r.value.status == Succeeded && r.value.filename == filename && r.value.timestamp == timestamp
      && r.value.fornitore == Fornitore(v)
      && r.value.totalAmount == Vendors.Header(v, labels(v, Extraction.AllText(pdf.doc.pages))).totaleFattura
      && r.value.message == None
      && r.value.recordsCount == |r.value.data| == |ts|
      && (forall i :: 0 <= i < |ts| ==> r.value.data[i] == LegacyOf(ts[i]))
      && (forall a, b :: 0 <= a < b < |r.value.data| ==>
            (r.value.data[a].dataRifornimento, r.value.data[a].oraRifornimento, r.value.data[a].numeroScontrino)
            != (r.value.data[b].dataRifornimento, r.value.data[b].oraRifornimento, r.value.data[b].numeroScontrino))
  {
    var chosen := GetExtractor(pdf);
    if chosen.Failure? {
      return Failure(chosen.error);
    }
    var v := chosen.value;
    var res := Extraction.Extract(v, pdf, filename, timestamp, labels);
    var legacy := ConvertToLegacy(res);
    Assembly.TransactionsDistinct(v, pdf.doc);
    forall a, b | 0 <= a < b < |legacy.data|
      ensures (legacy.data[a].dataRifornimento, legacy.data[a].oraRifornimento, legacy.data[a].numeroScontrino)
           != (legacy.data[b].dataRifornimento, legacy.data[b].oraRifornimento, legacy.data[b].numeroScontrino)
    {
      LegacyKeepsKey(res.invoiceData.transactions[a], res.invoiceData.transactions[b]);
    }
    return Success(legacy);
  }
}
