/**
  The Tamoil invoice grammar (extractors/tamoil_extractor.py): the marker test,
  the `Targa <plate>` line, the anchored transaction line and its mapping to a
  transaction, with the "1 means no kilometres" rule and the guarded unit price.

  The pattern is read over the tokens of a single-spaced line. It is anchored
  with `^`, so only a line whose first token is "S" can match; the two lazy
  groups (the place name and the product) are the shortest token runs after
  which the rest of the pattern matches.
 */
module TamoilExtractor {
  import opened Wrappers
  import opened Text
  import opened Numbers
  import opened Invoice
  import Plates

  const Fornitore: string := "TAMOIL"

  /** The indicators of `can_handle`, in the order the source lists them. */
  const Markers: seq<string> := ["TAMOIL ITALIA S.p.A.", "TAMOIL", "mycard"]

  predicate CanHandle(text: string) {
    ContainsAny(text, Markers)
  }

  /** "TAMOIL ITALIA S.p.A." begins with "TAMOIL", so two of the three indicators decide. */
  lemma CanHandleIff(text: string)
    ensures CanHandle(text) <==> Contains(text, "TAMOIL") || Contains(text, "mycard")
  {
    if Contains(text, Markers[0]) {
      ContainsPrefix(text, "TAMOIL ITALIA S.p.A.", "TAMOIL");
    }
    if Contains(text, "TAMOIL") {
      assert Contains(text, Markers[1]);
    }
    if Contains(text, "mycard") {
      assert Contains(text, Markers[2]);
    }
  }

  /** `Targa\s+` and a plate, anywhere on the line. */
  function PlateOf(line: string): (r: Option<string>)
    ensures r.Some? ==> Plates.PlateShape(r.value)
  {
    Plates.MarkerPlate(line, "Targa")
  }

  /** The card total line "Totale Carta <card> Targa <plate>" yields its plate. */
  lemma PlateLine(pre: string, p: string, post: string)
    requires Plates.PlateShape(p)
    ensures PlateOf(pre + "Targa" + " " + p + post).Some?
  {
    Plates.MarkerPlateFound(pre, "Targa", p, post);
  }

  // ---------------------------------------------------------------- the transaction line

  /** The nine groups of the pattern. */
  datatype TamoilMatch = TamoilMatch(
    codicePv: string,
    localita: string,
    autorizzazione: string,
    data: string,
    ora: string,
    km: string,
    prodotto: string,
    quantita: string,
    importo: string)

  /** `[\d,]+` filling a whole token. */
  predicate Quantity(w: string) { w != [] && AllIn(w, DigitOrComma) }

  /** `LT\s+([\d,]+)\s+([\d,]+)` from token `k`; the amount need not fill its token. */
  predicate LitresAt(t: seq<string>, k: nat) {
    k + 2 < |t| && t[k] == "LT" && Quantity(t[k + 1]) && RunPrefix(t[k + 2], DigitOrComma) != []
  }

  /** The lazy `(.+?)` of the product: the first token from `k` on where the litres part starts, or `|t|`. */
  function ProductEnd(t: seq<string>, k: nat): (r: nat)
    requires k <= |t|
    ensures k <= r <= |t|
    ensures r < |t| ==> LitresAt(t, r)
    ensures forall m :: k <= m < r ==> !LitresAt(t, m)
    decreases |t| - k
  {
    if k == |t| || LitresAt(t, k) then k else ProductEnd(t, k + 1)
  }

  /**
    What must follow the place name at token `j`: authorisation, date, time and
    kilometres, then a product of at least one token and the litres part.
   */
  predicate MiddleAt(t: seq<string>, j: nat) {
    && j + 5 <= |t|
    && Number(t[j]) && DateToken(t[j + 1], '/', 4) && ClockToken(t[j + 2]) && Number(t[j + 3])
    && ProductEnd(t, j + 5) < |t|
  }

  /**
    The lazy `([A-Z\s()]+?)`: the place name grows one token of capitals and
    brackets at a time until the rest of the pattern matches; `|t|` when it never does.
   */
  function PlaceEnd(t: seq<string>, j: nat): (r: nat)
    requires j <= |t|
    ensures j <= r <= |t|
    ensures r < |t| ==> MiddleAt(t, r)
    ensures r < |t| ==> forall m :: j <= m < r ==> !MiddleAt(t, m) && AllIn(t[m], UpperOrParen)
    decreases |t| - j
  {
    if j == |t| || MiddleAt(t, j) then j
    else if AllIn(t[j], UpperOrParen) then PlaceEnd(t, j + 1)
    else |t|
  }

  /** The pattern over the tokens of the line, anchored at the first token. */
  function Match(t: seq<string>): (r: Option<TamoilMatch>)
    ensures r.Some? ==>
      && Number(r.value.codicePv)
      && Number(r.value.autorizzazione)
      && DateToken(r.value.data, '/', 4)
      && ClockToken(r.value.ora)
      && Number(r.value.km)
      && Quantity(r.value.quantita)
      && Quantity(r.value.importo)
  {
    if |t| >= 3 && t[0] == "S" && Number(t[1]) && AllIn(t[2], UpperOrParen) then
      var j := PlaceEnd(t, 3);
      if j < |t| then
        var k := ProductEnd(t, j + 5);
        Some(TamoilMatch(t[1], Join(t[2..j]), t[j], t[j + 1], t[j + 2], t[j + 3],
                         Join(t[j + 4..k]), t[k + 1], RunPrefix(t[k + 2], DigitOrComma)))
      else None
    else None
  }

  /** `_trova_transazione`. */
  function Recognise(line: string): Option<TamoilMatch> {
    Match(Tokens(line))
  }

  // ---------------------------------------------------------------- fields

  /** `int(km_raw) if km_raw and km_raw != "1" else 0`: "1" stands for kilometres not entered. */
  function Km(raw: string): (km: nat)
    ensures raw == "1" ==> km == 0
    ensures raw != "1" ==> km == Val(raw)
  {
    if raw != "" && raw != "1" then Val(raw) else 0
  }

  /** `_parse_transaction`. */
  function Parse(m: TamoilMatch): (r: Transaction)
    ensures KeyOf(r) == Key(m.data, m.ora, m.autorizzazione)
    ensures r.codiceSede == m.codicePv
    ensures r.targa == "" && r.fornitore == Fornitore && r.numeroCarta == None
    ensures r.localita == Strip(m.localita) && r.prodotto == Strip(m.prodotto)
    ensures r.chilometraggio == Km(m.km)
    ensures r.quantita == Normalize(m.quantita) && r.importoTotale == Normalize(m.importo)
    ensures r.prezzoUnitario == UnitPrice(r.importoTotale, r.quantita)
  {
    var quantita := Normalize(m.quantita);
    var importo := Normalize(m.importo);
    Transaction(
      data := m.data,
      ora := m.ora,
      numeroScontrino := m.autorizzazione,
      codiceSede := m.codicePv,
      localita := Strip(m.localita),
      targa := "",
      chilometraggio := Km(m.km),
      prodotto := Strip(m.prodotto),
      quantita := quantita,
      prezzoUnitario := UnitPrice(importo, quantita),
      importoTotale := importo,
      fornitore := Fornitore,
      numeroCarta := None)
  }

  /** What a line contributes: the parsed transaction when the pattern matches. */
  function TransactionOf(line: string): Option<Transaction> {
    match Recognise(line)
    case Some(m) => Some(Parse(m))
    case None => None
  }

  // ---------------------------------------------------------------- a line as written out

  /** The tokens of a transaction line: "S", the point code, the place, the middle, the product, "LT" and the numbers. */
  function LineTokens(pv: string, loc: seq<string>, auth: string, d: string, o: string, km: string,
                      prod: seq<string>, quantita: string, importo: string, rest: seq<string>): seq<string>
  {
    ["S", pv] + loc + [auth, d, o, km] + prod + ["LT", quantita, importo] + rest
  }

  predicate WellFormed(pv: string, loc: seq<string>, auth: string, d: string, o: string, km: string,
                       prod: seq<string>, quantita: string, importo: string, rest: seq<string>)
  {
    && Number(pv)
    && |loc| > 0 && (forall i :: 0 <= i < |loc| ==> loc[i] != [] && AllIn(loc[i], UpperOrParen))
    && Number(auth) && DateToken(d, '/', 4) && ClockToken(o) && Number(km)
    && |prod| > 0 && (forall i :: 0 <= i < |prod| ==> IsWord(prod[i]) && prod[i] != "LT")
    && Quantity(quantita) && Quantity(importo)
    && (forall i :: 0 <= i < |rest| ==> IsWord(rest[i]))
  }

  lemma LineTokensWords(pv: string, loc: seq<string>, auth: string, d: string, o: string, km: string,
                        prod: seq<string>, quantita: string, importo: string, rest: seq<string>)
    requires WellFormed(pv, loc, auth, d, o, km, prod, quantita, importo, rest)
    ensures var ts := LineTokens(pv, loc, auth, d, o, km, prod, quantita, importo, rest);
      forall i :: 0 <= i < |ts| ==> IsWord(ts[i])
  {
    var ts := LineTokens(pv, loc, auth, d, o, km, prod, quantita, importo, rest);
    var L := 2 + |loc|;
    var P := L + 4;
    var K := P + |prod|;
    forall i | 0 <= i < |ts| ensures IsWord(ts[i]) {
      if i == 0 {
        assert ts[0] == "S";
      } else if i == 1 {
        ClassWord(pv, Digit);
      } else if i < L {
        assert ts[i] == loc[i - 2];
        ClassWord(ts[i], UpperOrParen);
      } else if i == L {
        ClassWord(auth, Digit);
      } else if i == L + 1 {
        DateWord(d, '/', 4);
      } else if i == L + 2 {
        ClockWord(o);
      } else if i == L + 3 {
        ClassWord(km, Digit);
      } else if i < K {
        assert ts[i] == prod[i - P];
      } else if i == K {
        assert ts[i] == "LT";
      } else if i == K + 1 {
        ClassWord(quantita, DigitOrComma);
      } else if i == K + 2 {
        ClassWord(importo, DigitOrComma);
      } else {
        assert ts[i] == rest[i - K - 3];
      }
    }
  }

  /** The product ends at the first "LT" with the two numbers after it when none of its tokens is "LT". */
  lemma {:induction false} ProductEndIs(t: seq<string>, k: nat, e: nat)
    requires k <= e < |t| && LitresAt(t, e)
    requires forall m :: k <= m < e ==> t[m] != "LT"
    ensures ProductEnd(t, k) == e
    decreases e - k
  {
    if k < e {
      ProductEndIs(t, k + 1, e);
    }
  }

  /** The place name ends at the first token where the middle matches when only capitals and brackets come before it. */
  lemma {:induction false} PlaceEndIs(t: seq<string>, j: nat, e: nat)
    requires j <= e < |t| && MiddleAt(t, e)
    requires forall m :: j <= m < e ==> t[m] != [] && AllIn(t[m], UpperOrParen)
    ensures PlaceEnd(t, j) == e
    decreases e - j
  {
    if j < e {
      assert !IsDigit(t[j][0]);
      PlaceEndIs(t, j + 1, e);
    }
  }

  /** The middle of a well-formed line sits right after its place name. */
  lemma MiddleOfLine(t: seq<string>, L: nat, auth: string, d: string, o: string, km: string,
                     prod: seq<string>, quantita: string, importo: string, rest: seq<string>)
    requires L <= |t| && t[L..] == [auth, d, o, km] + prod + ["LT", quantita, importo] + rest
    requires Number(auth) && DateToken(d, '/', 4) && ClockToken(o) && Number(km)
    requires |prod| > 0 && forall i :: 0 <= i < |prod| ==> prod[i] != "LT"
    requires Quantity(quantita) && Quantity(importo)
    ensures MiddleAt(t, L) && ProductEnd(t, L + 5) == L + 4 + |prod|
    ensures t[L] == auth && t[L + 1] == d && t[L + 2] == o && t[L + 3] == km
    ensures t[L + 4..L + 4 + |prod|] == prod
    ensures t[L + 4 + |prod| + 1] == quantita && t[L + 4 + |prod| + 2] == importo
  {
    var u := t[L..];
    var K := L + 4 + |prod|;
    assert u[0] == auth && u[1] == d && u[2] == o && u[3] == km;
    assert t[L] == auth && t[L + 1] == d && t[L + 2] == o && t[L + 3] == km;
    assert u[4..4 + |prod|] == prod;
    assert t[L + 4..K] == prod;
    assert u[4 + |prod|] == "LT" && u[5 + |prod|] == quantita && u[6 + |prod|] == importo;
    assert t[K] == "LT" && t[K + 1] == quantita && t[K + 2] == importo;
    RunPrefixAll(importo, DigitOrComma);
    forall m | L + 5 <= m < K ensures t[m] != "LT" {
      assert t[m] == prod[m - L - 4];
    }
    ProductEndIs(t, L + 5, K);
  }

  lemma MatchLine(pv: string, loc: seq<string>, auth: string, d: string, o: string, km: string,
                  prod: seq<string>, quantita: string, importo: string, rest: seq<string>)
    requires WellFormed(pv, loc, auth, d, o, km, prod, quantita, importo, rest)
    ensures Match(LineTokens(pv, loc, auth, d, o, km, prod, quantita, importo, rest))
         == Some(TamoilMatch(pv, Join(loc), auth, d, o, km, Join(prod), quantita, importo))
  {
    var ts := LineTokens(pv, loc, auth, d, o, km, prod, quantita, importo, rest);
    var L := 2 + |loc|;
    LineHead(pv, loc, auth, d, o, km, prod, quantita, importo, rest);
    MiddleOfLine(ts, L, auth, d, o, km, prod, quantita, importo, rest);
    PlaceOfLine(ts, L, loc);
    RunPrefixAll(importo, DigitOrComma);
    MatchAtEnds(ts, L, L + 4 + |prod|, pv, loc, auth, d, o, km, prod, quantita, importo);
  }

  /** Where the parts of a line of tokens sit. */
  lemma LineHead(pv: string, loc: seq<string>, auth: string, d: string, o: string, km: string,
                 prod: seq<string>, quantita: string, importo: string, rest: seq<string>)
    ensures var ts := LineTokens(pv, loc, auth, d, o, km, prod, quantita, importo, rest);
      var L := 2 + |loc|;
      && L <= |ts| && ts[0] == "S" && ts[1] == pv && ts[2..L] == loc && (loc != [] ==> ts[2] == loc[0])
      && ts[L..] == [auth, d, o, km] + prod + ["LT", quantita, importo] + rest
  {
  }

  /** The place name runs up to the middle of the line. */
  lemma PlaceOfLine(ts: seq<string>, L: nat, loc: seq<string>)
    requires 3 <= L < |ts| && ts[2..L] == loc && MiddleAt(ts, L)
    requires forall i :: 0 <= i < |loc| ==> loc[i] != [] && AllIn(loc[i], UpperOrParen)
    ensures PlaceEnd(ts, 3) == L
  {
    forall m | 3 <= m < L ensures ts[m] != [] && AllIn(ts[m], UpperOrParen) {
      assert ts[m] == loc[m - 2];
    }
    PlaceEndIs(ts, 3, L);
  }

  /** The groups are read off at the ends of the two lazy runs. */
  lemma MatchAtEnds(t: seq<string>, j: nat, k: nat, pv: string, loc: seq<string>, auth: string,
                    d: string, o: string, km: string, prod: seq<string>, quantita: string, importo: string)
    requires 3 <= j && j + 4 <= k && k + 2 < |t|
    requires t[0] == "S" && t[1] == pv && Number(pv) && t[2..j] == loc && AllIn(t[2], UpperOrParen)
    requires PlaceEnd(t, 3) == j && ProductEnd(t, j + 5) == k
    requires t[j] == auth && t[j + 1] == d && t[j + 2] == o && t[j + 3] == km && t[j + 4..k] == prod
    requires t[k + 1] == quantita && t[k + 2] == importo && RunPrefix(importo, DigitOrComma) == importo
    ensures Match(t) == Some(TamoilMatch(pv, Join(loc), auth, d, o, km, Join(prod), quantita, importo))
  {
  }

  /**
    A line of "S", the point code, a place name in capitals and brackets, the
    authorisation, date, time and kilometres, a product none of whose words is
    "LT", then "LT", the litres and the amount is recognised with exactly those groups.
   */
  lemma RecogniseLine(pv: string, loc: seq<string>, auth: string, d: string, o: string, km: string,
                      prod: seq<string>, quantita: string, importo: string, rest: seq<string>)
    requires WellFormed(pv, loc, auth, d, o, km, prod, quantita, importo, rest)
    ensures Recognise(Join(LineTokens(pv, loc, auth, d, o, km, prod, quantita, importo, rest)))
         == Some(TamoilMatch(pv, Join(loc), auth, d, o, km, Join(prod), quantita, importo))
  {
    var ts := LineTokens(pv, loc, auth, d, o, km, prod, quantita, importo, rest);
    LineTokensWords(pv, loc, auth, d, o, km, prod, quantita, importo, rest);
    TokensOfJoin(ts);
    MatchLine(pv, loc, auth, d, o, km, prod, quantita, importo, rest);
  }

  /**
    The transaction of such a line: keyed on date, time and authorisation, the
    place name and product as written, kilometres "1" read as none.
   */
  lemma TransactionOfLine(pv: string, loc: seq<string>, auth: string, d: string, o: string, km: string,
                          prod: seq<string>, quantita: string, importo: string, rest: seq<string>)
    requires WellFormed(pv, loc, auth, d, o, km, prod, quantita, importo, rest)
    ensures var r := TransactionOf(Join(LineTokens(pv, loc, auth, d, o, km, prod, quantita, importo, rest)));
      && r.Some?
      && KeyOf(r.value) == Key(d, o, auth)
      && r.value.codiceSede == pv
      && r.value.localita == Join(loc) && r.value.prodotto == Join(prod)
      && r.value.chilometraggio == (if km == "1" then 0 else Val(km))
      && r.value.quantita == Normalize(quantita) && r.value.importoTotale == Normalize(importo)
  {
    RecogniseLine(pv, loc, auth, d, o, km, prod, quantita, importo, rest);
    forall i | 0 <= i < |loc| ensures IsWord(loc[i]) {
      ClassWord(loc[i], UpperOrParen);
    }
    StripJoin(loc);
    StripJoin(prod);
  }

  // ---------------------------------------------------------------- header

  /**
    `extract_invoice_header`: the number, the date, the stripped customer name
    and the three totals; the defaults where a label is absent.
   */
  function Header(h: LabelHits): (r: Invoice.Header)
    ensures h.numero.None? ==> r.numeroFattura == ""
    ensures h.numero.Some? ==> r.numeroFattura == h.numero.value
    ensures h.data.None? ==> r.dataFattura == ""
    ensures h.data.Some? ==> r.dataFattura == h.data.value
    ensures h.cliente.None? ==> r.cliente == DefaultCliente
    ensures h.cliente.Some? ==> r.cliente == Strip(h.cliente.value)
    ensures h.imponibile.None? ==> r.totaleImponibile == 0.0
    ensures h.iva.None? ==> r.totaleIva == 0.0
    ensures h.totale.None? ==> r.totaleFattura == 0.0
    ensures h.imponibile.Some? ==> r.totaleImponibile == Normalize(h.imponibile.value)
    ensures h.iva.Some? ==> r.totaleIva == Normalize(h.iva.value)
    ensures h.totale.Some? ==> r.totaleFattura == Normalize(h.totale.value)
  {
    Invoice.Header(
      numeroFattura := h.numero.GetOr(""),
      dataFattura := h.data.GetOr(""),
      cliente := match h.cliente case Some(c) => Strip(c) case None => DefaultCliente,
      totaleImponibile := NormalizeHit(h.imponibile),
      totaleIva := NormalizeHit(h.iva),
      totaleFattura := NormalizeHit(h.totale))
  }
}
