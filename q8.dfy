/**
  The Q8 invoice grammar (extractors/q8_extractor.py): the marker test, the
  `TARGA/NOME <plate>` marker, the anchored transaction prefix and the
  mapping of a recognised line to a transaction, with its positional amounts,
  its product table and its searches for the site code and the place name.
 */
module Q8Extractor {
  import opened Wrappers
  import opened Text
  import opened Numbers
  import opened Invoice
  import Plates

  const Fornitore: string := "Q8"

  /** The indicators of `can_handle`. */
  const Markers: seq<string> := ["Kuwait Petroleum Italia", "CartissimaQ8", "Cartissima Q8", "CARTISSIMA Q8"]

  predicate CanHandle(text: string) {
    ContainsAny(text, Markers)
  }

  /** The document is Q8's exactly when one of the four indicators occurs in its text. */
  lemma CanHandleIff(text: string)
    ensures CanHandle(text) <==>
      Contains(text, "Kuwait Petroleum Italia") || Contains(text, "CartissimaQ8")
      || Contains(text, "Cartissima Q8") || Contains(text, "CARTISSIMA Q8")
  {
    if Contains(text, "Kuwait Petroleum Italia") {
      assert Contains(text, Markers[0]);
    }
    if Contains(text, "CartissimaQ8") {
      assert Contains(text, Markers[1]);
    }
    if Contains(text, "Cartissima Q8") {
      assert Contains(text, Markers[2]);
    }
    if Contains(text, "CARTISSIMA Q8") {
      assert Contains(text, Markers[3]);
    }
  }

  /** `TARGA/NOME\s+` and a plate, anywhere on the line. */
  function PlateOf(line: string): (r: Option<string>)
    ensures r.Some? ==> Plates.PlateShape(r.value)
  {
    Plates.MarkerPlate(line, "TARGA/NOME")
  }

  // ---------------------------------------------------------------- the transaction line

  /** The five groups: card number, ticket, date, HHMM time and product code. */
  datatype Q8Match = Q8Match(carta: string, ticket: string, data: string, ora: string, codice: string)

  /** `^(\d{19})\s+(\d{5})\s+(\d{2}/\d{2}/\d{2})\s+(\d{4})\s+([A-Z]{3})` over the tokens of the line. */
  function Match(t: seq<string>): (r: Option<Q8Match>)
    ensures r.Some? ==>
      && DigitsN(r.value.carta, 19)
      && DigitsN(r.value.ticket, 5)
      && DateToken(r.value.data, '/', 2)
      && DigitsN(r.value.ora, 4)
      && |r.value.codice| == 3 && AllIn(r.value.codice, Upper)
  {
    if |t| >= 5 && DigitsN(t[0], 19) && DigitsN(t[1], 5) && DateToken(t[2], '/', 2)
       && DigitsN(t[3], 4) && |t[4]| >= 3 && AllIn(t[4][..3], Upper) then
      Some(Q8Match(t[0], t[1], t[2], t[3], t[4][..3]))
    else
      None
  }

  /** `_trova_transazione`. */
  function Recognise(line: string): Option<Q8Match> {
    Match(Tokens(line))
  }

  /** The shapes the five leading tokens must have; `rest` is any further tokens. */
  predicate WellFormed(carta: string, ticket: string, data: string, ora: string, code: string, rest: seq<string>) {
    && DigitsN(carta, 19) && DigitsN(ticket, 5) && DateToken(data, '/', 2) && DigitsN(ora, 4)
    && |code| >= 3 && AllIn(code, NonSpace) && AllIn(code[..3], Upper)
    && (forall i :: 0 <= i < |rest| ==> IsWord(rest[i]))
  }

  lemma LineTokensWords(carta: string, ticket: string, data: string, ora: string, code: string, rest: seq<string>)
    requires WellFormed(carta, ticket, data, ora, code, rest)
    ensures var ts := [carta, ticket, data, ora, code] + rest;
      forall i :: 0 <= i < |ts| ==> IsWord(ts[i])
  {
    var ts := [carta, ticket, data, ora, code] + rest;
    forall i | 0 <= i < |ts| ensures IsWord(ts[i]) {
      if i == 0 {
        ClassWord(carta, Digit);
      } else if i == 1 {
        ClassWord(ticket, Digit);
      } else if i == 2 {
        DateWord(data, '/', 2);
      } else if i == 3 {
        ClassWord(ora, Digit);
      } else if i > 4 {
        assert ts[i] == rest[i - 5];
      }
    }
  }

  lemma MatchPrefix(ts: seq<string>, carta: string, ticket: string, data: string, ora: string, code: string)
    requires |ts| >= 5 && ts[0] == carta && ts[1] == ticket && ts[2] == data && ts[3] == ora && ts[4] == code
    requires DigitsN(carta, 19) && DigitsN(ticket, 5) && DateToken(data, '/', 2) && DigitsN(ora, 4)
    requires |code| >= 3 && AllIn(code[..3], Upper)
    ensures Match(ts) == Some(Q8Match(carta, ticket, data, ora, code[..3]))
  {
  }

  /** A line whose first five tokens have the transaction shapes is recognised with them. */
  lemma RecogniseLine(carta: string, ticket: string, data: string, ora: string, code: string, rest: seq<string>)
    requires WellFormed(carta, ticket, data, ora, code, rest)
    ensures Recognise(Join([carta, ticket, data, ora, code] + rest))
         == Some(Q8Match(carta, ticket, data, ora, code[..3]))
  {
    var ts := [carta, ticket, data, ora, code] + rest;
    LineTokensWords(carta, ticket, data, ora, code, rest);
    TokensOfJoin(ts);
    MatchPrefix(ts, carta, ticket, data, ora, code);
  }

  // ---------------------------------------------------------------- fields

  /** `f"{ora_raw[:2]}:{ora_raw[2:]}"`: HHMM becomes HH:MM. */
  function Clock(hhmm: string): (r: string)
    requires |hhmm| >= 2
    ensures |r| == |hhmm| + 1 && r[2] == ':'
    ensures r[..2] == hhmm[..2] && r[3..] == hhmm[2..]
    ensures DigitsN(hhmm, 4) ==> ClockToken(r)
  {
    var r := hhmm[..2] + ":" + hhmm[2..];
    assert r[..2] == hhmm[..2] && r[3..] == hhmm[2..];
    r
  }

  /** `numeri[k] if len(numeri) > k else "0,00"`. */
  function Pick(numeri: seq<string>, k: nat): string {
    if |numeri| > k then numeri[k] else "0,00"
  }

  /** The k-th `\d+,\d+` of the line read as a number, 0.0 when there are not that many. */
  function Positional(line: string, k: nat): (v: real)
    ensures |Decimals(line)| <= k ==> v == 0.0
  {
    var numeri := Decimals(line);
    assert |numeri| <= k ==> Normalize(Pick(numeri, k)) == 0.0 by {
      if |numeri| <= k {
        NormalizeZero(Pick(numeri, k));
      }
    }
    Normalize(Pick(numeri, k))
  }

  /** The product table of `_parse_transaction`. */
  const Products: map<string, string> := map[
    "GLS" := "GASOLIO",
    "SSP" := "BENZINA",
    "GPL" := "GPL",
    "HGL" := "GASOLIO PREMIUM",
    "GEC" := "GASOLIO ECOPLUS",
    "BWR" := "BENZINA 100",
    "HBZ" := "BENZINA PREMIUM"]

  /** `prodotto_map.get(codice_prodotto, "GASOLIO")`. */
  function Product(code: string): (p: string)
    ensures code !in Products ==> p == "GASOLIO"
    ensures code in Products ==> p == Products[code]
  {
    if code in Products then Products[code] else "GASOLIO"
  }

  /** Every product name is one of the seven the table knows; unknown codes read as diesel. */
  lemma ProductNames(code: string)
    ensures Product(code) in {"GASOLIO", "BENZINA", "GPL", "GASOLIO PREMIUM", "GASOLIO ECOPLUS",
                              "BENZINA 100", "BENZINA PREMIUM"}
    ensures Product("GLS") == "GASOLIO" && Product("SSP") == "BENZINA"
  {
  }

  // ---------------------------------------------------------------- site code

  /**
    `[A-Z]{3}\s+\d{4}\s+\d+\s+(\d+)` with its letters ending token `i`: a
    four-digit token, a number token, and the leading digits of the next token.
   */
  function SiteAt(t: seq<string>, i: nat): (r: Option<string>)
    requires i < |t|
    ensures r.Some? ==> Number(r.value)
  {
    var w := t[i];
    if |w| >= 3 && AllIn(w[|w| - 3..], Upper) && i + 3 < |t|
       && DigitsN(t[i + 1], 4) && Number(t[i + 2]) && RunPrefix(t[i + 3], Digit) != [] then
      Some(RunPrefix(t[i + 3], Digit))
    else
      None
  }

  function FirstSite(t: seq<string>, i: nat): (r: nat)
    requires i <= |t|
    ensures i <= r <= |t|
    ensures r < |t| ==> SiteAt(t, r).Some?
    ensures forall m :: i <= m < r ==> SiteAt(t, m).None?
    decreases |t| - i
  {
    if i == |t| || SiteAt(t, i).Some? then i else FirstSite(t, i + 1)
  }

  /** `codice_sede`: the leftmost match's group, "0000" when there is none. */
  function CodiceSede(line: string): (r: string)
    ensures (forall k :: 0 <= k < |Tokens(line)| ==> SiteAt(Tokens(line), k).None?) ==> r == "0000"
    ensures forall i | 0 <= i < |Tokens(line)| ::
      SiteAt(Tokens(line), i).Some? && (forall m :: 0 <= m < i ==> SiteAt(Tokens(line), m).None?)
      ==> r == SiteAt(Tokens(line), i).value
    ensures r == "0000" || Number(r)
  {
    var t := Tokens(line);
    var i := FirstSite(t, 0);
    if i < |t| then SiteAt(t, i).value else "0000"
  }

  // ---------------------------------------------------------------- place name

  predicate HasSuffix(w: string, suffix: string) {
    |suffix| <= |w| && w[|w| - |suffix|..] == suffix
  }

  predicate PumpMode(w: string) { w == "SF" || w == "SV" || w == "PP" }

  /** The first token from `j` on that is SF, SV or PP and is followed by another token. */
  function ModeAt(t: seq<string>, j: nat): (r: nat)
    requires j <= |t|
    ensures j <= r <= |t|
    ensures r < |t| ==> PumpMode(t[r]) && r + 1 < |t|
    ensures forall m :: j <= m < r ==> !(PumpMode(t[m]) && m + 1 < |t|)
    decreases |t| - j
  {
    if j == |t| || (PumpMode(t[j]) && j + 1 < |t|) then j else ModeAt(t, j + 1)
  }

  /**
    `{codice_sede}\s+(.+?)\s+(SF|SV|PP)\s+` with the code ending token `i`:
    the lazy name runs to the first pump-mode token that has a token after it.
   */
  function PlaceAt(t: seq<string>, code: string, i: nat): Option<string>
    requires i < |t|
  {
    if HasSuffix(t[i], code) && i + 2 <= |t| then
      var j := ModeAt(t, i + 2);
      if j < |t| then Some(Strip(Join(t[i + 1..j]))) else None
    else
      None
  }

  function FirstPlace(t: seq<string>, code: string, i: nat): (r: nat)
    requires i <= |t|
    ensures i <= r <= |t|
    ensures r < |t| ==> PlaceAt(t, code, r).Some?
    ensures forall m :: i <= m < r ==> PlaceAt(t, code, m).None?
    decreases |t| - i
  {
    if i == |t| || PlaceAt(t, code, i).Some? then i else FirstPlace(t, code, i + 1)
  }

  /** `localita`: the leftmost match's group, stripped; "SCONOSCIUTA" when there is none. */
  function Localita(line: string, code: string): (r: string)
    ensures (forall k :: 0 <= k < |Tokens(line)| ==> PlaceAt(Tokens(line), code, k).None?) ==> r == Sentinel
    ensures forall i | 0 <= i < |Tokens(line)| ::
      PlaceAt(Tokens(line), code, i).Some? && (forall m :: 0 <= m < i ==> PlaceAt(Tokens(line), code, m).None?)
      ==> r == PlaceAt(Tokens(line), code, i).value
  {
    var t := Tokens(line);
    var i := FirstPlace(t, code, 0);
    if i < |t| then PlaceAt(t, code, i).value else Sentinel
  }

  // ---------------------------------------------------------------- the transaction

  /** `_parse_transaction`. */
  function Parse(m: Q8Match, line: string): (r: Transaction)
    requires |m.ora| >= 2
    ensures KeyOf(r) == Key(m.data, Clock(m.ora), m.ticket)
    ensures DigitsN(m.ora, 4) ==> ClockToken(r.ora)
    ensures r.targa == "" && r.fornitore == Fornitore && r.numeroCarta == Some(m.carta)
    ensures r.chilometraggio == 0
    ensures r.prodotto == Product(m.codice)
    ensures r.importoTotale == Positional(line, 0)
    ensures r.quantita == Positional(line, 1)
    ensures r.prezzoUnitario == Positional(line, 2)
    ensures r.codiceSede == CodiceSede(line) && r.localita == Localita(line, r.codiceSede)
  {
    var sede := CodiceSede(line);
    Transaction(
      data := m.data,
      ora := Clock(m.ora),
      numeroScontrino := m.ticket,
      codiceSede := sede,
      localita := Localita(line, sede),
      targa := "",
      chilometraggio := 0,
      prodotto := Product(m.codice),
      quantita := Positional(line, 1),
      prezzoUnitario := Positional(line, 2),
      importoTotale := Positional(line, 0),
      fornitore := Fornitore,
      numeroCarta := Some(m.carta))
  }

  /** What a line contributes: the parsed transaction when the prefix matches. */
  function TransactionOf(line: string): Option<Transaction> {
    match Recognise(line)
    case Some(m) => Some(Parse(m, line))
    case None => None
  }

  // ---------------------------------------------------------------- a printed line

  /**
    A transaction line as the invoice prints it: the five matched groups, the
    pump's four-digit field and counter, the site code, the place name, the
    pump mode, then amount, volume and unit price, and whatever follows.
   */
  datatype Q8Line = Q8Line(
    carta: string, ticket: string, data: string, ora: string, codice: string,
    campo: string, contatore: string, sede: string, luogo: seq<string>, modo: string,
    importo: string, litri: string, prezzo: string, resto: seq<string>)

  /** The seven tokens before the site code. */
  function Head(l: Q8Line): seq<string> {
    [l.carta, l.ticket, l.data, l.ora, l.codice, l.campo, l.contatore]
  }

  /** Everything before the amount. */
  function Lead(l: Q8Line): seq<string> {
    Head(l) + [l.sede] + l.luogo + [l.modo]
  }

  function Words(l: Q8Line): seq<string> {
    Lead(l) + [l.importo, l.litri, l.prezzo] + l.resto
  }

  /**
    The shapes of a printed line. The place name holds no comma and no pump
    mode, and no token before the site code ends with the site code.
   */
  predicate Printed(l: Q8Line) {
    && DigitsN(l.carta, 19) && DigitsN(l.ticket, 5) && DateToken(l.data, '/', 2) && DigitsN(l.ora, 4)
    && |l.codice| == 3 && AllIn(l.codice, Upper)
    && DigitsN(l.campo, 4) && Number(l.contatore) && Number(l.sede)
    && |l.luogo| > 0
    && (forall k :: 0 <= k < |l.luogo| ==> IsWord(l.luogo[k]) && ',' !in l.luogo[k] && !PumpMode(l.luogo[k]))
    && PumpMode(l.modo)
    && DecimalShape(l.importo) && DecimalShape(l.litri) && DecimalShape(l.prezzo)
    && (forall k :: 0 <= k < |l.resto| ==> IsWord(l.resto[k]))
    && (forall k :: 0 <= k < 7 ==> !HasSuffix(Head(l)[k], l.sede))
  }

  /**
    The transaction of a printed line: keyed on date, time and ticket, with the
    printed site code and place name, the product of the code, and the first
    three amounts as amount, volume and unit price.
   */
  lemma TransactionOfLine(l: Q8Line)
    requires Printed(l)
    ensures var r := TransactionOf(Join(Words(l)));
      && r.Some?
      && KeyOf(r.value) == Key(l.data, Clock(l.ora), l.ticket)
      && r.value.numeroCarta == Some(l.carta)
      && r.value.prodotto == Product(l.codice)
      && r.value.codiceSede == l.sede
      && r.value.localita == Join(l.luogo)
      && r.value.importoTotale == Normalize(l.importo)
      && r.value.quantita == Normalize(l.litri)
      && r.value.prezzoUnitario == Normalize(l.prezzo)
  {
    var line := Join(Words(l));
    FieldsOfLine(l);
    PositionalOfLine(l);
    assert Recognise(line) == Some(Q8Match(l.carta, l.ticket, l.data, l.ora, l.codice));
  }

  /** The line is recognised with its five groups, and its site code and place are the printed ones. */
  lemma FieldsOfLine(l: Q8Line)
    requires Printed(l)
    ensures var line := Join(Words(l));
      && Recognise(line) == Some(Q8Match(l.carta, l.ticket, l.data, l.ora, l.codice))
      && CodiceSede(line) == l.sede && Localita(line, l.sede) == Join(l.luogo)
  {
    var t := Words(l);
    WordsLayout(l);
    WordsAreWords(l);
    TokensOfJoin(t);
    assert l.codice[..3] == l.codice;
    MatchPrefix(t, l.carta, l.ticket, l.data, l.ora, l.codice);
    SiteOfWords(l);
    PlaceOfWords(l);
  }

  /** The three positional amounts of the line are the printed ones. */
  lemma PositionalOfLine(l: Q8Line)
    requires Printed(l)
    ensures var line := Join(Words(l));
      && Positional(line, 0) == Normalize(l.importo)
      && Positional(line, 1) == Normalize(l.litri)
      && Positional(line, 2) == Normalize(l.prezzo)
  {
    AmountsOfWords(l);
  }

  /** Where each field sits among the words. */
  lemma WordsLayout(l: Q8Line)
    ensures var t := Words(l); var e := 8 + |l.luogo|;
      && |t| == e + 4 + |l.resto|
      && t[0] == l.carta && t[1] == l.ticket && t[2] == l.data && t[3] == l.ora
      && t[4] == l.codice && t[5] == l.campo && t[6] == l.contatore && t[7] == l.sede
      && t[8..e] == l.luogo && t[e] == l.modo
      && t[e + 1] == l.importo && t[e + 2] == l.litri && t[e + 3] == l.prezzo
      && t[..7] == Head(l)
  {
  }

  lemma WordsAreWords(l: Q8Line)
    requires Printed(l)
    ensures forall k :: 0 <= k < |Words(l)| ==> IsWord(Words(l)[k])
  {
    var t := Words(l);
    var e := 8 + |l.luogo|;
    WordsLayout(l);
    forall k | 0 <= k < |t| ensures IsWord(t[k]) {
      if k == 2 {
        DateWord(l.data, '/', 2);
      } else if k == 4 {
        ClassWord(l.codice, Upper);
      } else if k < 8 {
        ClassWord(t[k], Digit);
      } else if k < e {
        assert t[k] == l.luogo[k - 8];
      } else if k == e {
        assert IsWord(l.modo);
      } else if k <= e + 3 {
        DecimalWord(t[k]);
      } else {
        assert t[k] == l.resto[k - e - 4];
      }
    }
  }

  /** The site search stops at the product code: the four tokens before it end with digits. */
  lemma SiteOfWords(l: Q8Line)
    requires Printed(l)
    ensures var t := Words(l); SiteAt(t, 4) == Some(l.sede) && forall m :: 0 <= m < 4 ==> SiteAt(t, m).None?
  {
    var t := Words(l);
    WordsLayout(l);
    assert t[4][|t[4]| - 3..] == l.codice;
    RunPrefixAll(l.sede, Digit);
    assert IsDigit(l.data[7]) by { assert l.data[6..][1] == l.data[7]; }
    forall m | 0 <= m < 4 ensures SiteAt(t, m).None? {
      EndsWithDigit(t[m]);
    }
  }

  /** A token whose last character is a digit does not end with three capitals. */
  lemma EndsWithDigit(w: string)
    requires |w| > 0 && IsDigit(w[|w| - 1])
    ensures !(|w| >= 3 && AllIn(w[|w| - 3..], Upper))
  {
    if |w| >= 3 {
      assert w[|w| - 3..][2] == w[|w| - 1];
    }
  }

  /** The place search starts at the site code and runs to the pump mode. */
  lemma PlaceOfWords(l: Q8Line)
    requires Printed(l)
    ensures var t := Words(l);
      && PlaceAt(t, l.sede, 7) == Some(Join(l.luogo))
      && forall m :: 0 <= m < 7 ==> PlaceAt(t, l.sede, m).None?
  {
    var t := Words(l);
    var e := 8 + |l.luogo|;
    WordsLayout(l);
    assert HasSuffix(t[7], l.sede) by { assert l.sede[|l.sede| - |l.sede|..] == l.sede; }
    forall m | 9 <= m < e ensures !PumpMode(t[m]) {
      assert t[m] == l.luogo[m - 8];
    }
    ModeAtIs(t, 9, e);
    StripJoin(l.luogo);
    forall m | 0 <= m < 7 ensures PlaceAt(t, l.sede, m).None? {
      assert t[m] == Head(l)[m];
    }
  }

  /** The lazy place name ends at the first pump mode with a token after it. */
  lemma {:induction false} ModeAtIs(t: seq<string>, j: nat, e: nat)
    requires j <= e && e + 1 < |t| && PumpMode(t[e])
    requires forall m :: j <= m < e ==> !PumpMode(t[m])
    ensures ModeAt(t, j) == e
    decreases e - j
  {
    if j < e {
      ModeAtIs(t, j + 1, e);
    }
  }

  /** The first three `\d+,\d+` hits of the line are the amount, the volume and the price. */
  lemma AmountsOfWords(l: Q8Line)
    requires Printed(l)
    ensures var d := Decimals(Join(Words(l)));
      |d| >= 3 && d[0] == l.importo && d[1] == l.litri && d[2] == l.prezzo
  {
    var pre := Join(Lead(l));
    var post := if l.resto == [] then "" else " " + Join(l.resto);
    LineText(l);
    LeadWithoutComma(l);
    JoinWithout(Lead(l), ',');
    LeadingDecimals(Join(Words(l)), pre, l.importo, l.litri, l.prezzo, post);
  }

  /** The line is its lead, the three amounts and the rest, one space apart. */
  lemma LineText(l: Q8Line)
    ensures Join(Words(l)) == Join(Lead(l)) + " " + l.importo + " " + l.litri + " " + l.prezzo
      + (if l.resto == [] then "" else " " + Join(l.resto))
  {
    var p := Lead(l);
    var q := p + [l.importo, l.litri, l.prezzo];
    JoinSnoc(p, l.importo);
    JoinSnoc(p + [l.importo], l.litri);
    JoinSnoc(p + [l.importo] + [l.litri], l.prezzo);
    assert p + [l.importo] + [l.litri] + [l.prezzo] == q;
    if l.resto == [] {
      assert Words(l) == q;
    } else {
      assert Words(l) == q + l.resto;
      JoinAppend(q, l.resto);
    }
  }

  /** No token before the amounts holds a comma. */
  lemma LeadWithoutComma(l: Q8Line)
    requires Printed(l)
    ensures forall k :: 0 <= k < |Lead(l)| ==> ',' !in Lead(l)[k]
  {
    var p := Lead(l);
    var e := 8 + |l.luogo|;
    assert |p| == e + 1;
    forall k | 0 <= k < |p| ensures ',' !in p[k] {
      if k == 2 {
        assert forall m :: 6 <= m < 8 ==> l.data[6..][m - 6] == l.data[m];
      } else if k == 4 {
        ClassWithoutComma(l.codice, Upper);
      } else if k <= 7 {
        assert p[k] in {l.carta, l.ticket, l.ora, l.campo, l.contatore, l.sede};
        ClassWithoutComma(p[k], Digit);
      } else if k < e {
        assert p[k] == l.luogo[k - 8];
      }
    }
  }

  lemma ClassWithoutComma(w: string, k: Class)
    requires (k == Digit || k == Upper) && AllIn(w, k)
    ensures ',' !in w
  {
    forall m | 0 <= m < |w| ensures w[m] != ',' {
      assert InClass(w[m], k);
    }
  }

  // ---------------------------------------------------------------- header

  /** `extract_invoice_header`: no customer label, so the customer is always the default. */
  function Header(h: LabelHits): (r: Invoice.Header)
    ensures r.cliente == DefaultCliente
    ensures h.numero.None? ==> r.numeroFattura == ""
    ensures h.numero.Some? ==> r.numeroFattura == h.numero.value
    ensures h.data.None? ==> r.dataFattura == ""
    ensures h.data.Some? ==> r.dataFattura == h.data.value
    ensures h.imponibile.None? ==> r.totaleImponibile == 0.0
    ensures h.iva.None? ==> r.totaleIva == 0.0
    ensures h.totale.None? ==> r.totaleFattura == 0.0
    ensures h.imponibile.Some? ==> r.totaleImponibile == Normalize(h.imponibile.value)
    ensures h.iva.Some? ==> r.totaleIva == Normalize(h.iva.value)
    ensures h.totale.Some? ==> r.totaleFattura == Normalize(h.totale.value)
  {
    Invoice.Header(
      numeroFattura := h.numero.GetOr(""),
      dataFattura := h.data.GetOr(""),
      cliente := DefaultCliente,
      totaleImponibile := NormalizeHit(h.imponibile),
      totaleIva := NormalizeHit(h.iva),
      totaleFattura := NormalizeHit(h.totale))
  }
}
