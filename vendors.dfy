/**
  The four vendor grammars behind one interface: which vendor a document is
  for, its supplier name, its marker test, its plate lines, the transaction a
  line yields and its header post-processing.
 */
module Vendors {
  import opened Wrappers
  import opened Text
  import opened Invoice
  import Plates
  import opened Numbers
  import IpExtractor
  import EssoExtractor
  import Q8Extractor
  import TamoilExtractor

  datatype Vendor = IP | Esso | Q8 | Tamoil

  /** `self.fornitore` of each extractor. */
  function Fornitore(v: Vendor): string {
    match v
    case IP => IpExtractor.Fornitore
    case Esso => EssoExtractor.Fornitore
    case Q8 => Q8Extractor.Fornitore
    case Tamoil => TamoilExtractor.Fornitore
  }

  /** `can_handle`. */
  predicate CanHandle(v: Vendor, text: string) {
    match v
    case IP => IpExtractor.CanHandle(text)
    case Esso => EssoExtractor.CanHandle(text)
    case Q8 => Q8Extractor.CanHandle(text)
    case Tamoil => TamoilExtractor.CanHandle(text)
  }

  /** The plate a line announces: after TARGA, Carta: <digits>, TARGA/NOME or Targa. */
  function PlateOf(v: Vendor, line: string): (r: Option<string>)
    ensures r.Some? ==> Plates.PlateShape(r.value)
  {
    match v
    case IP => IpExtractor.PlateOf(line)
    case Esso => EssoExtractor.PlateOf(line)
    case Q8 => Q8Extractor.PlateOf(line)
    case Tamoil => TamoilExtractor.PlateOf(line)
  }

  /**
    The transaction a line yields. Only the Esso parse takes a plate, the
    current one; the other grammars leave the plate empty until a plate line
    or the end of the document gives them one.
   */
  function Candidate(v: Vendor, line: string, targa: string): (r: Option<Transaction>)
    ensures r.Some? ==> r.value.fornitore == Fornitore(v)
    ensures r.Some? ==> r.value.targa == (if v == Esso then targa else "")
  {
    match v
    case IP => IpExtractor.TransactionOf(line)
    case Esso =>
      (match EssoExtractor.Recognise(line)
       case Some(m) => Some(EssoExtractor.Parse(m, line, targa))
       case None => None)
    case Q8 => Q8Extractor.TransactionOf(line)
    case Tamoil => TamoilExtractor.TransactionOf(line)
  }

  /** `extract_invoice_header`, given what its label patterns capture. */
  function Header(v: Vendor, hits: LabelHits): (r: Invoice.Header)
    ensures hits.numero.None? ==> r.numeroFattura == ""
    ensures hits.data.None? ==> r.dataFattura == ""
    ensures hits.cliente.None? ==> r.cliente == DefaultCliente
    ensures hits.imponibile.None? ==> r.totaleImponibile == 0.0
    ensures hits.iva.None? ==> r.totaleIva == 0.0
    ensures hits.totale.None? ==> r.totaleFattura == 0.0
    ensures hits.numero.Some? ==> r.numeroFattura == hits.numero.value
    ensures hits.imponibile.Some? ==> r.totaleImponibile == Normalize(hits.imponibile.value)
    ensures hits.iva.Some? ==> r.totaleIva == Normalize(hits.iva.value)
    ensures hits.totale.Some? ==> r.totaleFattura == Normalize(hits.totale.value)
  {
    match v
    case IP => IpExtractor.Header(hits)
    case Esso => EssoExtractor.Header(hits)
    case Q8 => Q8Extractor.Header(hits)
    case Tamoil => TamoilExtractor.Header(hits)
  }

  /**
    The grammars read a kilometre field of "1" differently: IP keeps it as 1,
    Tamoil takes it for "not entered" and records 0.
   */
  lemma KilometreOneDiffers()
    ensures IpExtractor.ValidaKm("1") == 1
    ensures TamoilExtractor.Km("1") == 0
  {
    IpExtractor.ValidaKmExamples();
  }
}
