/**
  The Esso invoice grammar (extractors/esso_extractor.py): the marker test,
  the `Carta: <digits> <plate>` line that sets the current plate, the
  transaction line and its mapping to a transaction.

  The transaction pattern is searched anywhere on the line and without regard
  to case. As for the other grammars it is read over the whitespace-separated
  tokens of a single-spaced line; the date may end a longer token, since the
  search is not anchored.
 */
module EssoExtractor {
  import opened Wrappers
  import opened Text
  import opened Numbers
  import opened Invoice
  import Plates

  const Fornitore: string := "ESSO"

  /** The indicators of `can_handle`. */
  const Markers: seq<string> := ["WEX Europe Services", "ESSO CARD", "essocard"]

  predicate CanHandle(text: string) {
    ContainsAny(text, Markers)
  }

  /** The document is Esso's exactly when one of the three indicators occurs in its text. */
  lemma CanHandleIff(text: string)
    ensures CanHandle(text) <==>
      Contains(text, "WEX Europe Services") || Contains(text, "ESSO CARD") || Contains(text, "essocard")
  {
    if Contains(text, "WEX Europe Services") {
      assert Contains(text, Markers[0]);
    }
    if Contains(text, "ESSO CARD") {
      assert Contains(text, Markers[1]);
    }
    if Contains(text, "essocard") {
      assert Contains(text, Markers[2]);
    }
  }

  /** The card line: `Carta:\s*\d+\s+` and a plate, anywhere on the line. */
  function PlateOf(line: string): (r: Option<string>)
    ensures r.Some? ==> Plates.PlateShape(r.value)
  {
    Plates.CartaPlate(line)
  }

  // ---------------------------------------------------------------- the transaction line

  /** The groups of the transaction pattern; `km` is the optional group 5. */
  datatype EssoMatch = EssoMatch(
    data: string,
    ticket: string,
    codice: string,
    localita: string,
    km: Option<string>,
    quantita: string,
    importo: string)

  predicate Gasolio(w: string) { EqualsIgnoreCase(w, "gasolio") }
  predicate Autotrazion(w: string) { EqualsIgnoreCase(w, "autotrazion") }

  /** `[\d,]+` filling a whole token. */
  predicate Quantity(w: string) { w != [] && AllIn(w, DigitOrComma) }

  /** What follows the place name: kilometres (optional), product, quantity and amount. */
  datatype Tail = Tail(km: Option<string>, quantita: string, importo: string)

  /**
    `(\d+)?\s*gasolio\s+autotrazion\s+([\d,]+)\s+([\d,]+)` from token `j`: the
    kilometres are a token of their own, or glued to "gasolio", or absent.
    The three readings exclude each other by the first character of `t[j]`.
   */
  function TailAt(t: seq<string>, j: nat): (r: Option<Tail>)
    requires j < |t|
    ensures r.Some? ==>
      && (r.value.km.Some? ==> Number(r.value.km.value))
      && Quantity(r.value.quantita)
      && Quantity(r.value.importo)
  {
    var w := t[j];
    if Number(w) && j + 4 < |t| && Gasolio(t[j + 1]) && Autotrazion(t[j + 2])
       && Quantity(t[j + 3]) && RunPrefix(t[j + 4], DigitOrComma) != [] then
      Some(Tail(Some(w), t[j + 3], RunPrefix(t[j + 4], DigitOrComma)))
    else if |w| > 7 && Number(w[..|w| - 7]) && Gasolio(w[|w| - 7..]) && j + 3 < |t|
       && Autotrazion(t[j + 1]) && Quantity(t[j + 2]) && RunPrefix(t[j + 3], DigitOrComma) != [] then
      Some(Tail(Some(w[..|w| - 7]), t[j + 2], RunPrefix(t[j + 3], DigitOrComma)))
    else if Gasolio(w) && j + 3 < |t|
       && Autotrazion(t[j + 1]) && Quantity(t[j + 2]) && RunPrefix(t[j + 3], DigitOrComma) != [] then
      Some(Tail(None, t[j + 2], RunPrefix(t[j + 3], DigitOrComma)))
    else
      None
  }

  /**
    The lazy `([A-Z\s]+?)`: the place name grows one token of letters at a time
    until the rest of the pattern matches; `|t|` when it never does.
   */
  function PlaceEnd(t: seq<string>, j: nat): (r: nat)
    requires j <= |t|
    ensures j <= r <= |t|
    ensures r < |t| ==> TailAt(t, r).Some?
    ensures r < |t| ==> forall m :: j <= m < r ==> TailAt(t, m).None? && AllIn(t[m], Letter)
    decreases |t| - j
  {
    if j == |t| || TailAt(t, j).Some? then j
    else if AllIn(t[j], Letter) then PlaceEnd(t, j + 1)
    else |t|
  }

  /** The last eight characters of a token, where the unanchored date must sit. */
  function DateSuffix(w: string): string
    requires |w| >= 8
  {
    w[|w| - 8..]
  }

  /** The pattern with its date ending token `i`. */
  function MatchAt(t: seq<string>, i: nat): (r: Option<EssoMatch>)
    requires i < |t|
    ensures r.Some? ==>
      && DateToken(r.value.data, '.', 2)
      && DigitsN(r.value.ticket, 6)
      && Number(r.value.codice)
      && (r.value.km.Some? ==> Number(r.value.km.value))
      && Quantity(r.value.quantita)
      && Quantity(r.value.importo)
  {
    if i + 4 <= |t| && |t[i]| >= 8 && DateToken(DateSuffix(t[i]), '.', 2)
       && DigitsN(t[i + 1], 6) && Number(t[i + 2]) && AllIn(t[i + 3], Letter) then
      var e := PlaceEnd(t, i + 4);
      if e < |t| then
        var tail := TailAt(t, e).value;
        Some(EssoMatch(DateSuffix(t[i]), t[i + 1], t[i + 2], Join(t[i + 3..e]),
                       tail.km, tail.quantita, tail.importo))
      else None
    else None
  }

  /** The leftmost position from `i` on that holds `true`, or `|hits|`. */
  function FirstTrue(hits: seq<bool>, i: nat): (r: nat)
    requires i <= |hits|
    ensures i <= r <= |hits|
    ensures r < |hits| ==> hits[r]
    decreases |hits| - i
  {
    if i == |hits| || hits[i] then i else FirstTrue(hits, i + 1)
  }

  /** No position the search passed over holds `true`. */
  lemma {:induction false} FirstTrueLeftmost(hits: seq<bool>, i: nat, m: nat)
    requires i <= |hits| && i <= m < FirstTrue(hits, i)
    ensures !hits[m]
    decreases m - i
  {
    if m > i {
      FirstTrueLeftmost(hits, i + 1, m);
    }
  }

  /** Whether the pattern matches at each token. */
  function Hits(t: seq<string>): (h: seq<bool>)
    ensures |h| == |t|
  {
    seq(|t|, k requires 0 <= k < |t| => MatchAt(t, k).Some?)
  }

  /** The leftmost token from `i` on at which the pattern matches, or `|t|`. */
  function FirstMatch(t: seq<string>, i: nat): (r: nat)
    requires i <= |t|
    ensures i <= r <= |t|
    ensures r < |t| ==> MatchAt(t, r).Some?
  {
    FirstTrue(Hits(t), i)
  }

  /** `re.search` takes the leftmost match: the pattern matches at no earlier token. */
  lemma FirstMatchLeftmost(t: seq<string>, i: nat, m: nat)
    requires i <= |t| && i <= m < FirstMatch(t, i)
    ensures MatchAt(t, m).None?
  {
    FirstTrueLeftmost(Hits(t), i, m);
  }

  /** `_trova_transazione`: `re.search` of the pattern, ignoring case. */
  function Recognise(line: string): (r: Option<EssoMatch>)
    ensures r.Some? ==>
      && DateToken(r.value.data, '.', 2)
      && DigitsN(r.value.ticket, 6)
      && Number(r.value.codice)
      && Quantity(r.value.quantita)
  {
    var t := Tokens(line);
    var i := FirstMatch(t, 0);
    if i < |t| then MatchAt(t, i) else None
  }

  // ---------------------------------------------------------------- fields

  /** The last `[\d,]+` run of the line (the total including VAT), or 0.0. */
  function LastAmount(line: string): real {
    var runs := NumericRuns(line);
    if runs == [] then 0.0 else Normalize(runs[|runs| - 1])
  }

  /** A line that ends with a space and a run of digits and commas has that run as its amount. */
  lemma LastAmountOfLine(pre: string, w: string)
    requires Quantity(w)
    ensures LastAmount(pre + " " + w) == Normalize(w)
  {
    LastNumericRun(pre, w);
  }

  /** `data_raw.replace('.', '/')`: DD.MM.YY becomes DD/MM/YY. */
  function SlashDate(d: string): (r: string)
    ensures |r| == |d| && '.' !in r
    ensures forall k :: 0 <= k < |d| && d[k] != '.' ==> r[k] == d[k]
    ensures forall y: nat :: DateToken(d, '.', y) ==> DateToken(r, '/', y)
  {
    var r := ReplaceChar(d, '.', '/');
    assert forall y: nat :: DateToken(d, '.', y) ==> r[6..] == d[6..];
    r
  }

  /** `int(km_raw) if km_raw else 0`. */
  function Km(raw: Option<string>): (km: int)
    ensures km >= 0
    ensures raw.None? ==> km == 0
    ensures raw.Some? ==> km == Val(raw.value)
  {
    match raw
    case Some(k) => Val(k)
    case None => 0
  }

  /** `_parse_transaction`: the groups, the line and the current plate mapped to a transaction. */
  function Parse(m: EssoMatch, line: string, targa: string): (r: Transaction)
    ensures KeyOf(r) == Key(SlashDate(m.data), "00:00", m.ticket)
    ensures r.targa == targa && r.fornitore == Fornitore && r.numeroCarta == None
    ensures DateToken(m.data, '.', 2) ==> DateToken(r.data, '/', 2)
    ensures r.codiceSede == m.codice && r.localita == Strip(m.localita)
    ensures r.prodotto == "GASOLIO" && r.chilometraggio == Km(m.km)
    ensures m.km.None? ==> r.chilometraggio == 0
    ensures r.quantita == Normalize(m.quantita) && r.importoTotale == LastAmount(line)
    ensures r.prezzoUnitario == UnitPrice(r.importoTotale, r.quantita)
  {
    var quantita := Normalize(m.quantita);
    var importo := LastAmount(line);
    Transaction(
      data := SlashDate(m.data),
      ora := "00:00",
      numeroScontrino := m.ticket,
      codiceSede := m.codice,
      localita := Strip(m.localita),
      targa := targa,
      chilometraggio := Km(m.km),
      prodotto := "GASOLIO",
      quantita := quantita,
      prezzoUnitario := UnitPrice(importo, quantita),
      importoTotale := importo,
      fornitore := Fornitore,
      numeroCarta := None)
  }

  // ---------------------------------------------------------------- a line as written out

  function KmTokens(km: Option<string>): seq<string> {
    match km
    case Some(k) => [k]
    case None => []
  }

  /** The tokens of a transaction line whose kilometres, if any, stand alone. */
  function LineTokens(d: string, ticket: string, codice: string, loc: seq<string>,
                      km: Option<string>, quantita: string, importo: string, rest: seq<string>): seq<string>
  {
    [d, ticket, codice] + loc + KmTokens(km) + ["gasolio", "autotrazion", quantita, importo] + rest
  }

  predicate WellFormed(d: string, ticket: string, codice: string, loc: seq<string>,
                       km: Option<string>, quantita: string, importo: string, rest: seq<string>)
  {
    && DateToken(d, '.', 2) && DigitsN(ticket, 6) && Number(codice)
    && |loc| > 0
    && (forall i :: 0 <= i < |loc| ==> loc[i] != [] && AllIn(loc[i], Letter) && !Gasolio(loc[i]))
    && (km.Some? ==> Number(km.value))
    && Quantity(quantita) && Quantity(importo)
    && (forall i :: 0 <= i < |rest| ==> IsWord(rest[i]))
  }

  lemma LineTokensWords(d: string, ticket: string, codice: string, loc: seq<string>,
                        km: Option<string>, quantita: string, importo: string, rest: seq<string>)
    requires WellFormed(d, ticket, codice, loc, km, quantita, importo, rest)
    ensures var ts := LineTokens(d, ticket, codice, loc, km, quantita, importo, rest);
      forall i :: 0 <= i < |ts| ==> IsWord(ts[i])
  {
    var ts := LineTokens(d, ticket, codice, loc, km, quantita, importo, rest);
    var L := 3 + |loc|;
    var K := L + |KmTokens(km)|;
    forall i | 0 <= i < |ts| ensures IsWord(ts[i]) {
      if i == 0 {
        DateWord(d, '.', 2);
      } else if i < 3 {
        ClassWord(ts[i], Digit);
      } else if i < L {
        assert ts[i] == loc[i - 3];
        ClassWord(ts[i], Letter);
      } else if i < K {
        assert ts[i] == km.value;
        ClassWord(ts[i], Digit);
      } else if i == K + 2 {
        ClassWord(quantita, DigitOrComma);
      } else if i == K + 3 {
        ClassWord(importo, DigitOrComma);
      } else if i > K + 3 {
        assert ts[i] == rest[i - K - 4];
      }
    }
  }

  /** A place-name token is never where the rest of the pattern starts. */
  lemma PlaceTokenNoTail(t: seq<string>, j: nat)
    requires j < |t| && t[j] != [] && AllIn(t[j], Letter) && !Gasolio(t[j])
    ensures TailAt(t, j).None?
  {
    assert !IsDigit(t[j][0]);
  }

  lemma MatchLine(d: string, ticket: string, codice: string, loc: seq<string>,
                  km: Option<string>, quantita: string, importo: string, rest: seq<string>)
    requires WellFormed(d, ticket, codice, loc, km, quantita, importo, rest)
    ensures MatchAt(LineTokens(d, ticket, codice, loc, km, quantita, importo, rest), 0)
         == Some(EssoMatch(d, ticket, codice, Join(loc), km, quantita, importo))
  {
    var ts := LineTokens(d, ticket, codice, loc, km, quantita, importo, rest);
    var L := 3 + |loc|;
    assert ts[3..L] == loc;
    assert DateSuffix(d) == d;
    forall m | 4 <= m < L ensures TailAt(ts, m).None? && AllIn(ts[m], Letter) {
      assert ts[m] == loc[m - 3];
      PlaceTokenNoTail(ts, m);
    }
    assert ts[L..] == KmTokens(km) + ["gasolio", "autotrazion", quantita, importo] + rest;
    TailOfLine(ts, L, km, quantita, importo, rest);
    PlaceEndIs(ts, 4, L);
  }

  /** The tail of a well-formed line is read back with its kilometres, quantity and amount. */
  lemma TailOfLine(t: seq<string>, L: nat, km: Option<string>, quantita: string, importo: string,
                   rest: seq<string>)
    requires L <= |t| && t[L..] == KmTokens(km) + ["gasolio", "autotrazion", quantita, importo] + rest
    requires km.Some? ==> Number(km.value)
    requires Quantity(quantita) && Quantity(importo)
    ensures L < |t| && TailAt(t, L) == Some(Tail(km, quantita, importo))
  {
    var u := t[L..];
    RunPrefixAll(importo, DigitOrComma);
    if km.Some? {
      assert u[0] == km.value && u[1] == "gasolio" && u[2] == "autotrazion";
      assert u[3] == quantita && u[4] == importo;
      assert t[L] == u[0] && t[L + 1] == u[1] && t[L + 2] == u[2] && t[L + 3] == u[3] && t[L + 4] == u[4];
    } else {
      assert u[0] == "gasolio" && u[1] == "autotrazion";
      assert u[2] == quantita && u[3] == importo;
      assert t[L] == u[0] && t[L + 1] == u[1] && t[L + 2] == u[2] && t[L + 3] == u[3];
      assert !Number(t[L]) by { assert !IsDigit(t[L][0]); }
    }
  }

  /** The place name ends at the first tail position when only letter tokens come before it. */
  lemma {:induction false} PlaceEndIs(t: seq<string>, j: nat, e: nat)
    requires j <= e < |t| && TailAt(t, e).Some?
    requires forall m :: j <= m < e ==> TailAt(t, m).None? && AllIn(t[m], Letter)
    ensures PlaceEnd(t, j) == e
    decreases e - j
  {
    if j < e {
      PlaceEndIs(t, j + 1, e);
    }
  }

  /**
    A line of date, ticket, place code, a place name in letters (none of its
    words "gasolio"), optional kilometres, "gasolio autotrazion", the quantity,
    the amount and anything after is recognised with exactly those groups.
   */
  lemma RecogniseLine(d: string, ticket: string, codice: string, loc: seq<string>,
                      km: Option<string>, quantita: string, importo: string, rest: seq<string>)
    requires WellFormed(d, ticket, codice, loc, km, quantita, importo, rest)
    ensures Recognise(Join(LineTokens(d, ticket, codice, loc, km, quantita, importo, rest)))
         == Some(EssoMatch(d, ticket, codice, Join(loc), km, quantita, importo))
  {
    var ts := LineTokens(d, ticket, codice, loc, km, quantita, importo, rest);
    LineTokensWords(d, ticket, codice, loc, km, quantita, importo, rest);
    TokensOfJoin(ts);
    MatchLine(d, ticket, codice, loc, km, quantita, importo, rest);
  }

  // ---------------------------------------------------------------- header

  /**
    `extract_invoice_header`: the number, the date with its points turned into
    slashes, the stripped customer name and the three totals of the TOTALE row;
    the defaults where a label is absent.
   */
  function Header(h: LabelHits): (r: Invoice.Header)
    ensures h.numero.None? ==> r.numeroFattura == ""
    ensures h.numero.Some? ==> r.numeroFattura == h.numero.value
    ensures h.data.None? ==> r.dataFattura == ""
    ensures h.data.Some? ==> r.dataFattura == SlashDate(h.data.value)
    ensures h.data.Some? && DateToken(h.data.value, '.', 4) ==> DateToken(r.dataFattura, '/', 4)
    ensures h.cliente.None? ==> r.cliente == DefaultCliente
    ensures h.cliente.Some? ==> r.cliente == Strip(h.cliente.value)
    ensures h.imponibile.None? ==> r.totaleImponibile == 0.0
    ensures h.iva.None? ==> r.totaleIva == 0.0
    ensures h.totale.None? ==> r.totaleFattura == 0.0
    ensures h.imponibile.Some? ==> r.totaleImponibile == Normalize(h.imponibile.value)
    ensures h.iva.Some? ==> r.totaleIva == Normalize(h.iva.value)
    ensures h.totale.Some? ==> r.totaleFattura == Normalize(h.totale.value)
  {
    Invoice.Header(
      numeroFattura := h.numero.GetOr(""),
      dataFattura := match h.data case Some(d) => SlashDate(d) case None => "",
      cliente := match h.cliente case Some(c) => Strip(c) case None => DefaultCliente,
      totaleImponibile := NormalizeHit(h.imponibile),
      totaleIva := NormalizeHit(h.iva),
      totaleFattura := NormalizeHit(h.totale))
  }
}
