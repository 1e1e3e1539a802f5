/**
  The IP Plus invoice grammar (extractors/ip_extractor.py): the marker test,
  the `TARGA <plate>` line, the transaction line, the kilometre rule and the
  mapping of a recognised line to a transaction.

  The transaction pattern is read over the whitespace-separated tokens of the
  line. The lines the engine builds are words joined by single spaces
  (`Lines.SingleSpaced`), and on such a line every `\s+` of the pattern is one
  separator between two tokens, so a match is a choice of token positions.
 */
module IpExtractor {
  import opened Wrappers
  import opened Text
  import opened Numbers
  import opened Invoice
  import Plates

  const Fornitore: string := "IP"

  /** The indicators of `can_handle`, in the order the source lists them. */
  const Markers: seq<string> := ["IP PLUS S.R.L", "IP PLUS", "IP Plus"]

  predicate CanHandle(text: string) {
    ContainsAny(text, Markers)
  }

  /** "IP PLUS S.R.L" begins with "IP PLUS", so two of the three indicators decide. */
  lemma CanHandleIff(text: string)
    ensures CanHandle(text) <==> Contains(text, "IP PLUS") || Contains(text, "IP Plus")
  {
    if Contains(text, Markers[0]) {
      ContainsPrefix(text, "IP PLUS S.R.L", "IP PLUS");
    }
    if Contains(text, "IP PLUS") {
      assert Contains(text, Markers[1]);
    }
    if Contains(text, "IP Plus") {
      assert Contains(text, Markers[2]);
    }
  }

  /** `_estrai_targa`: `TARGA\s+` and a plate, anywhere on the line. */
  function PlateOf(line: string): (r: Option<string>)
    ensures r.Some? ==> Plates.PlateShape(r.value)
  {
    Plates.MarkerPlate(line, "TARGA")
  }

  /** A line "... TARGA <plate> ..." is a plate line. */
  lemma PlateLine(pre: string, p: string, post: string)
    requires Plates.PlateShape(p)
    ensures PlateOf(pre + "TARGA" + " " + p + post).Some?
  {
    Plates.MarkerPlateFound(pre, "TARGA", p, post);
  }

  // ---------------------------------------------------------------- kilometres

  /** `\d{1,3}(?:\.\d{3})*` filling a whole token (the `|1` alternative adds nothing). */
  predicate KmShape(s: string)
    decreases |s|
  {
    || (1 <= |s| <= 3 && AllDigits(s))
    || (|s| >= 5 && s[|s| - 4] == '.' && AllDigits(s[|s| - 3..]) && KmShape(s[..|s| - 4]))
  }

  /**
    `_valida_chilometraggio`: the dots are removed and the rest read as an
    integer; a failed read or a value above 10,000,000 gives 0.
   */
  function ValidaKm(raw: string): (km: int)
    ensures 0 <= km <= 10_000_000
  {
    var d := DeleteChar(raw, '.');
    if Number(d) && Val(d) <= 10_000_000 then Val(d) else 0
  }

  /** A kilometre token always reads: its digits with the grouping dots removed. */
  lemma {:induction false} KmShapeDigits(s: string)
    requires KmShape(s)
    ensures Number(DeleteChar(s, '.'))
    decreases |s|
  {
    if 1 <= |s| <= 3 && AllDigits(s) {
      DeleteCharAbsent(s, '.');
    } else {
      var front, group := s[..|s| - 4], s[|s| - 3..];
      KmShapeDigits(front);
      assert s == front + ("." + group);
      DeleteCharAppend(front, "." + group, '.');
      assert ("." + group)[1..] == group;
      DeleteCharAbsent(group, '.');
      AllDigitsAppend(DeleteChar(front, '.'), group);
    }
  }

  lemma KmShapeWord(s: string)
    requires KmShape(s)
    ensures IsDigit(s[0]) && IsWord(s)
    decreases |s|
  {
    if !(1 <= |s| <= 3 && AllDigits(s)) {
      var front := s[..|s| - 4];
      KmShapeWord(front);
      assert s[0] == front[0];
      forall i | 0 <= i < |s| ensures !IsSpace(s[i]) {
        if i < |s| - 4 {
          assert s[i] == front[i];
        } else if i > |s| - 4 {
          assert s[i] == s[|s| - 3..][i - (|s| - 3)];
        }
      }
    }
  }

  /** A token that does not begin with a digit is no kilometre token. */
  lemma {:induction false} NotKmShape(s: string)
    requires s != [] && !IsDigit(s[0])
    ensures !KmShape(s)
    decreases |s|
  {
    if |s| >= 5 {
      var front := s[..|s| - 4];
      assert front[0] == s[0];
      NotKmShape(front);
    }
  }

  /** The kilometres of a recognised line: the grouped value, or 0 above 10,000,000. */
  lemma ValidaKmOfShape(raw: string)
    requires KmShape(raw)
    ensures var v := Val(DeleteChar(raw, '.'));
      ValidaKm(raw) == if v > 10_000_000 then 0 else v
  {
    KmShapeDigits(raw);
  }

  /** "1" stays 1 (only the Tamoil grammar maps it to 0), and "1.234" reads as 1234. */
  lemma ValidaKmExamples()
    ensures ValidaKm("1") == 1
    ensures ValidaKm("1.234") == 1234
  {
    assert DeleteChar("1", '.') == "1";
    assert DeleteChar("1.234", '.') == "1234";
    ValExamples();
  }

  // ---------------------------------------------------------------- the transaction line

  /** The seven groups of the transaction pattern. */
  datatype IpMatch = IpMatch(
    data: string,
    ora: string,
    scontrino: string,
    codicePv: string,
    localita: string,
    km: string,
    litri: string)

  /**
    `GASOLIO(?:\s+SELF)?\s+([\d,]+)` after the product token: the optional SELF
    is tried first; the litres are the digit-and-comma prefix of the next token.
   */
  function LitriAt(t: seq<string>, k: nat): (r: Option<string>)
    requires k < |t|
    ensures r.Some? ==> r.value != [] && AllIn(r.value, DigitOrComma)
  {
    if t[k] == "SELF" && k + 1 < |t| && RunPrefix(t[k + 1], DigitOrComma) != [] then
      Some(RunPrefix(t[k + 1], DigitOrComma))
    else if RunPrefix(t[k], DigitOrComma) != [] then
      Some(RunPrefix(t[k], DigitOrComma))
    else
      None
  }

  /** The pattern after the place name matches from token `j`: kilometres, 0000, GASOLIO, litres. */
  predicate TailAt(t: seq<string>, j: nat) {
    && j + 3 < |t|
    && KmShape(t[j])
    && t[j + 1] == "0000"
    && t[j + 2] == "GASOLIO"
    && LitriAt(t, j + 3).Some?
  }

  /**
    The lazy `(.+?)` ends before the first token from `j` on where the rest of
    the pattern matches; `|t|` when there is none.
   */
  function FirstTail(t: seq<string>, j: nat): (r: nat)
    requires j <= |t|
    ensures j <= r <= |t|
    ensures r < |t| ==> TailAt(t, r)
    ensures forall r' :: j <= r' < r ==> !TailAt(t, r')
    decreases |t| - j
  {
    if j == |t| || TailAt(t, j) then j else FirstTail(t, j + 1)
  }

  /** `_trova_transazione` over the tokens of the line. */
  function Recognise(line: string): (r: Option<IpMatch>)
    ensures r.Some? ==>
      && DateToken(r.value.data, '/', 2)
      && ClockToken(r.value.ora)
      && DigitsN(r.value.scontrino, 8)
      && DigitsN(r.value.codicePv, 5)
      && r.value.localita != []
      && KmShape(r.value.km)
      && r.value.litri != [] && AllIn(r.value.litri, DigitOrComma)
  {
    Match(Tokens(line))
  }

  /** The pattern anchored at the first token. */
  function Match(t: seq<string>): (r: Option<IpMatch>)
    requires forall k :: 0 <= k < |t| ==> IsWord(t[k])
    ensures r.Some? ==>
      && DateToken(r.value.data, '/', 2)
      && ClockToken(r.value.ora)
      && DigitsN(r.value.scontrino, 8)
      && DigitsN(r.value.codicePv, 5)
      && r.value.localita != []
      && KmShape(r.value.km)
      && r.value.litri != [] && AllIn(r.value.litri, DigitOrComma)
  {
    if |t| < 5 || !DateToken(t[0], '/', 2) || !ClockToken(t[1])
       || !DigitsN(t[2], 8) || !DigitsN(t[3], 5) then
      None
    else
      var j := FirstTail(t, 5);
      if j == |t| then None
      else
        assert Join(t[4..j]) != [] by {
          assert IsWord(t[4]) && t[4..j][0] == t[4];
          JoinNonEmpty(t[4..j]);
        }
        Some(IpMatch(t[0], t[1], t[2], t[3], Join(t[4..j]), t[j], LitriAt(t, j + 3).value))
  }

  /** The tokens of a well-formed transaction line, as the engine writes them out. */
  function LineTokens(d: string, o: string, n: string, c: string, loc: seq<string>,
                      km: string, self: bool, litri: string, rest: seq<string>): seq<string>
  {
    [d, o, n, c] + loc + [km, "0000", "GASOLIO"] + (if self then ["SELF"] else []) + [litri] + rest
  }

  /** The conditions under which `LineTokens` describes a transaction line. */
  predicate WellFormed(d: string, o: string, n: string, c: string, loc: seq<string>,
                       km: string, litri: string, rest: seq<string>)
  {
    && DateToken(d, '/', 2) && ClockToken(o) && DigitsN(n, 8) && DigitsN(c, 5)
    && |loc| > 0 && (forall i :: 0 <= i < |loc| ==> loc[i] != [] && AllIn(loc[i], Letter))
    && KmShape(km)
    && litri != [] && AllIn(litri, DigitOrComma)
    && (forall i :: 0 <= i < |rest| ==> IsWord(rest[i]))
  }

  /**
    A line made of a date, a time, the receipt and point-of-sale numbers, a
    place name in letters, the kilometres, 0000, GASOLIO (SELF), the litres and
    anything after is recognised with exactly those groups.
   */
  lemma RecogniseLine(d: string, o: string, n: string, c: string, loc: seq<string>,
                      km: string, self: bool, litri: string, rest: seq<string>)
    requires WellFormed(d, o, n, c, loc, km, litri, rest)
    ensures Recognise(Join(LineTokens(d, o, n, c, loc, km, self, litri, rest)))
         == Some(IpMatch(d, o, n, c, Join(loc), km, litri))
  {
    var ts := LineTokens(d, o, n, c, loc, km, self, litri, rest);
    LineTokensWords(d, o, n, c, loc, km, self, litri, rest);
    TokensOfJoin(ts);
    MatchLine(d, o, n, c, loc, km, self, litri, rest);
  }

  lemma LineTokensWords(d: string, o: string, n: string, c: string, loc: seq<string>,
                        km: string, self: bool, litri: string, rest: seq<string>)
    requires WellFormed(d, o, n, c, loc, km, litri, rest)
    ensures var ts := LineTokens(d, o, n, c, loc, km, self, litri, rest);
      forall i :: 0 <= i < |ts| ==> IsWord(ts[i])
  {
    var ts := LineTokens(d, o, n, c, loc, km, self, litri, rest);
    var L := 4 + |loc|;
    var k := if self then L + 4 else L + 3;
    forall i | 0 <= i < |ts| ensures IsWord(ts[i]) {
      if i == 0 {
        DateWord(d, '/', 2);
      } else if i == 1 {
        ClockWord(o);
      } else if i < 4 {
        ClassWord(ts[i], Digit);
      } else if i < L {
        assert ts[i] == loc[i - 4];
        ClassWord(ts[i], Letter);
      } else if i == L {
        KmShapeWord(km);
      } else if i == k {
        ClassWord(litri, DigitOrComma);
      } else if i > k {
        assert ts[i] == rest[i - k - 1];
      }
    }
  }

  lemma MatchLine(d: string, o: string, n: string, c: string, loc: seq<string>,
                  km: string, self: bool, litri: string, rest: seq<string>)
    requires WellFormed(d, o, n, c, loc, km, litri, rest)
    requires var ts := LineTokens(d, o, n, c, loc, km, self, litri, rest);
      forall i :: 0 <= i < |ts| ==> IsWord(ts[i])
    ensures Match(LineTokens(d, o, n, c, loc, km, self, litri, rest))
         == Some(IpMatch(d, o, n, c, Join(loc), km, litri))
  {
    var ts := LineTokens(d, o, n, c, loc, km, self, litri, rest);
    var L := 4 + |loc|;
    LineHead(d, o, n, c, loc, km, self, litri, rest);
    LitriOfLine(ts, L + 3, self, litri);
    TailOfLine(ts, L, loc);
    MatchAtTail(ts, L, d, o, n, c, loc, km, litri);
  }

  /** Where the parts of a line of tokens sit. */
  lemma LineHead(d: string, o: string, n: string, c: string, loc: seq<string>,
                 km: string, self: bool, litri: string, rest: seq<string>)
    ensures var ts := LineTokens(d, o, n, c, loc, km, self, litri, rest);
      var L := 4 + |loc|;
      && L + 3 + (if self then 1 else 0) < |ts|
      && ts[0] == d && ts[1] == o && ts[2] == n && ts[3] == c && ts[4..L] == loc
      && ts[L] == km && ts[L + 1] == "0000" && ts[L + 2] == "GASOLIO"
      && (self ==> ts[L + 3] == "SELF" && ts[L + 4] == litri)
      && (!self ==> ts[L + 3] == litri)
  {
  }

  /** The litres group after GASOLIO, with or without SELF. */
  lemma LitriOfLine(ts: seq<string>, k: nat, self: bool, litri: string)
    requires k + (if self then 1 else 0) < |ts|
    requires litri != [] && AllIn(litri, DigitOrComma)
    requires self ==> ts[k] == "SELF" && ts[k + 1] == litri
    requires !self ==> ts[k] == litri
    ensures LitriAt(ts, k) == Some(litri)
  {
    RunPrefixAll(litri, DigitOrComma);
    assert InClass(litri[0], DigitOrComma);
  }

  /** The place name, in letters, runs up to the kilometres. */
  lemma TailOfLine(ts: seq<string>, L: nat, loc: seq<string>)
    requires 5 <= L && L == 4 + |loc| && L + 3 < |ts| && ts[4..L] == loc
    requires forall i :: 0 <= i < |loc| ==> loc[i] != [] && AllIn(loc[i], Letter)
    requires KmShape(ts[L]) && ts[L + 1] == "0000" && ts[L + 2] == "GASOLIO" && LitriAt(ts, L + 3).Some?
    ensures FirstTail(ts, 5) == L
  {
    assert TailAt(ts, L);
    forall j | 5 <= j < L ensures !TailAt(ts, j) {
      assert ts[j] == loc[j - 4];
      NotKmShape(ts[j]);
    }
  }

  /** The groups are read off where the tail starts. */
  lemma MatchAtTail(ts: seq<string>, L: nat, d: string, o: string, n: string, c: string,
                    loc: seq<string>, km: string, litri: string)
    requires forall k :: 0 <= k < |ts| ==> IsWord(ts[k])
    requires 5 <= L < |ts| - 3 && FirstTail(ts, 5) == L
    requires ts[0] == d && ts[1] == o && ts[2] == n && ts[3] == c && ts[4..L] == loc && ts[L] == km
    requires DateToken(d, '/', 2) && ClockToken(o) && DigitsN(n, 8) && DigitsN(c, 5)
    requires LitriAt(ts, L + 3) == Some(litri)
    ensures Match(ts) == Some(IpMatch(d, o, n, c, Join(loc), km, litri))
  {
  }

  // ---------------------------------------------------------------- fields

  /** `_estrai_importo_finale`: the last `\d+,\d+` on the line, or 0.0. */
  function ImportoFinale(line: string): real {
    var ds := Decimals(line);
    if ds == [] then 0.0 else Normalize(ds[|ds| - 1])
  }

  /** A line ending in the amount `a,b` has the final amount `a.b`. */
  lemma ImportoFinaleLast(pre: string, a: string, b: string)
    requires Number(a) && Number(b)
    ensures ImportoFinale(pre + " " + a + "," + b) == Amount(a, b)
  {
    LastDecimal(pre, a, b);
    DeleteCharAbsent(a, '.');
    DeleteCharAbsent(b, '.');
    NormalizeDecimal(a, b);
  }

  /** A line without any `\d+,\d+` has the final amount 0.0. */
  lemma ImportoFinaleNone(line: string)
    requires Decimals(line) == []
    ensures ImportoFinale(line) == 0.0
  {
  }

  /** `localita_raw.strip().rstrip(',')`. */
  function CleanLocalita(raw: string): (r: string)
    ensures r <= Strip(raw)
    ensures forall k :: |r| <= k < |Strip(raw)| ==> Strip(raw)[k] == ','
    ensures r == [] || (!IsSpace(r[0]) && r[|r| - 1] != ',')
  {
    StripSpec(raw);
    var r := RStripChar(Strip(raw), ',');
    assert r != [] ==> r[0] == Strip(raw)[0];
    r
  }

  /** `_parse_transaction`: the groups and the line mapped to a transaction still without plate. */
  function Parse(m: IpMatch, line: string): (r: Transaction)
    ensures KeyOf(r) == Key(m.data, m.ora, m.scontrino)
    ensures r.targa == "" && r.fornitore == Fornitore && r.numeroCarta == None
    ensures r.prodotto == "GASOLIO SELF" <==> Contains(line, "SELF")
    ensures !Contains(line, "SELF") ==> r.prodotto == "GASOLIO"
    ensures r.codiceSede == m.codicePv
    ensures r.localita == CleanLocalita(m.localita)
    ensures r.chilometraggio == ValidaKm(m.km) && 0 <= r.chilometraggio <= 10_000_000
    ensures r.quantita == Normalize(m.litri) && r.importoTotale == ImportoFinale(line)
    ensures r.prezzoUnitario == UnitPrice(r.importoTotale, r.quantita)
  {
    var localita := CleanLocalita(m.localita);
    var litri := Normalize(m.litri);
    var importo := ImportoFinale(line);
    Transaction(
      data := m.data,
      ora := m.ora,
      numeroScontrino := m.scontrino,
      codiceSede := m.codicePv,
      localita := localita,
      targa := "",
      chilometraggio := ValidaKm(m.km),
      prodotto := if Contains(line, "SELF") then "GASOLIO SELF" else "GASOLIO",
      quantita := litri,
      prezzoUnitario := UnitPrice(importo, litri),
      importoTotale := importo,
      fornitore := Fornitore,
      numeroCarta := None)
  }

  /** What a line contributes: the parsed transaction when the pattern matches. */
  function TransactionOf(line: string): Option<Transaction> {
    match Recognise(line)
    case Some(m) => Some(Parse(m, line))
    case None => None
  }

  // ---------------------------------------------------------------- header

  /**
    `extract_invoice_header`: number, date and the three totals from their
    labels; the customer is always the default, since this grammar has no
    customer label.
   */
  function Header(h: LabelHits): (r: Invoice.Header)
    ensures r.cliente == DefaultCliente
    ensures h.numero.None? ==> r.numeroFattura == ""
    ensures h.numero.Some? ==> r.numeroFattura == h.numero.value
    ensures h.data.None? ==> r.dataFattura == ""
    ensures h.data.Some? ==> r.dataFattura == h.data.value
    ensures h.imponibile.None? ==> r.totaleImponibile == 0.0
    ensures h.iva.None? ==> r.totaleIva == 0.0
    ensures h.totale.None? ==> r.totaleFattura == 0.0
    ensures h.imponibile.Some? ==> r.totaleImponibile == Normalize(h.imponibile.value)
    ensures h.iva.Some? ==> r.totaleIva == Normalize(h.iva.value)
    ensures h.totale.Some? ==> r.totaleFattura == Normalize(h.totale.value)
  {
    Invoice.Header(
      numeroFattura := h.numero.GetOr(""),
      dataFattura := h.data.GetOr(""),
      cliente := DefaultCliente,
      totaleImponibile := NormalizeHit(h.imponibile),
      totaleIva := NormalizeHit(h.iva),
      totaleFattura := NormalizeHit(h.totale))
  }
}
