/**
  The Q8 transaction line shown in extractors/q8_extractor.py, worked through
  `TransactionOf`: its site code, place name and first three amounts.

  The line is a parameter equal to the literal, and the proof goes through the
  lemma about printed lines rather than unfolding the searches on the text.
 */
module WorkedQ8 {
  import opened Wrappers
  import opened Text
  import opened Numbers
  import opened Invoice
  import opened Q8Extractor

  /** The line as the invoice prints it, split into its fields. */
  const Doc: Q8Line := Q8Line(
    "7028009864300015041", "00002", "02/10/25", "0852", "GLS", "0000", "000001", "5817",
    ["LOC.ACQUAVIVA", "S.S.", "4", "NEROLA"], "SF", "75,00", "45,76", "1,639", [])

  /**
    `7028009864300015041 00002 02/10/25 0852 GLS 0000 000001 5817 LOC.ACQUAVIVA S.S. 4 NEROLA SF 75,00 45,76 1,639`,
    the words of `Doc` joined by single spaces, is ticket 00002 of 02/10/25 at
    08:52, diesel, at site 5817 in LOC.ACQUAVIVA S.S. 4 NEROLA: 75.00 euro for
    45.76 litres at 1.639.
   */
  lemma DocLine(l: Q8Line)
    requires l == Doc
    ensures var r := TransactionOf(Join(Words(l)));
      && r.Some?
      && KeyOf(r.value) == Key("02/10/25", "08:52", "00002")
      && r.value.numeroCarta == Some("7028009864300015041")
      && r.value.prodotto == "GASOLIO"
      && r.value.codiceSede == "5817"
      && r.value.localita == "LOC.ACQUAVIVA S.S. 4 NEROLA"
      && r.value.importoTotale == 75.0
      && r.value.quantita == 45.76
      && r.value.prezzoUnitario == 1.639
  {
    DocPrinted();
    TransactionOfLine(l);
    DocPlace(l.luogo);
    DocAmounts();
    ProductNames(l.codice);
    DocClock(l.ora);
  }

  lemma DocClock(hhmm: string)
    requires hhmm == "0852"
    ensures Clock(hhmm) == "08:52"
  {
    assert hhmm[..2] == "08" && hhmm[2..] == "52";
  }

  lemma DocPlace(ws: seq<string>)
    requires ws == ["LOC.ACQUAVIVA", "S.S.", "4", "NEROLA"]
    ensures Join(ws) == "LOC.ACQUAVIVA S.S. 4 NEROLA"
  {
    assert Join(ws[3..]) == "NEROLA" by { assert ws[3..] == ["NEROLA"]; }
    assert Join(ws[2..]) == "4 NEROLA" by { assert ws[2..][1..] == ws[3..]; }
    assert Join(ws[1..]) == "S.S. 4 NEROLA" by { assert ws[1..][1..] == ws[2..]; }
  }

  lemma DocPrinted()
    ensures Printed(Doc)
  {
    DocGroups();
    DocPump();
    DocPlaceWords();
    DocShapes();
    DocSuffixes();
  }

  lemma DocGroups()
    ensures DigitsN(Doc.carta, 19) && DigitsN(Doc.ticket, 5) && DateToken(Doc.data, '/', 2) && DigitsN(Doc.ora, 4)
  {
    assert DigitsN(Doc.carta, 19);
    assert DigitsN(Doc.ticket, 5);
    assert DateToken(Doc.data, '/', 2);
  }

  lemma DocPump()
    ensures |Doc.codice| == 3 && AllIn(Doc.codice, Upper)
    ensures DigitsN(Doc.campo, 4) && Number(Doc.contatore) && Number(Doc.sede) && PumpMode(Doc.modo)
  {
    assert AllIn(Doc.codice, Upper);
    assert DigitsN(Doc.campo, 4);
    assert Number(Doc.contatore);
  }

  lemma DocPlaceWords()
    ensures |Doc.luogo| > 0
    ensures forall k :: 0 <= k < |Doc.luogo| ==> IsWord(Doc.luogo[k]) && ',' !in Doc.luogo[k] && !PumpMode(Doc.luogo[k])
  {
    forall k | 0 <= k < |Doc.luogo| ensures IsWord(Doc.luogo[k]) && ',' !in Doc.luogo[k] && !PumpMode(Doc.luogo[k]) {
      if k == 0 {
        assert IsWord("LOC.ACQUAVIVA");
      } else if k == 1 {
        assert IsWord("S.S.");
      } else if k == 3 {
        assert IsWord("NEROLA");
      }
    }
  }

  lemma DocShapes()
    ensures DecimalShape(Doc.importo) && DecimalShape(Doc.litri) && DecimalShape(Doc.prezzo)
  {
    assert DecimalShape(Doc.importo);
    assert DecimalShape(Doc.litri);
  }

  /** No token before the site code ends with 5817: the card ends with 5041. */
  lemma DocSuffixes()
    ensures forall k :: 0 <= k < 7 ==> !HasSuffix(Head(Doc)[k], Doc.sede)
  {
    assert Doc.carta[15..] == "5041";
    assert Doc.data[4..] == "0/25";
  }

  lemma DocAmounts()
    ensures Normalize(Doc.importo) == 75.0 && Normalize(Doc.litri) == 45.76 && Normalize(Doc.prezzo) == 1.639
  {
    NormalizeImporto(Doc.importo);
    NormalizeLitri(Doc.litri);
    NormalizePrezzo(Doc.prezzo);
  }

  /** "75,00" reads as 75.0. */
  lemma NormalizeImporto(s: string)
    requires s == "75,00"
    ensures Normalize(s) == 75.0
  {
    NormalizeDigitsComma(s, "75", "00");
    AmountValues();
  }

  /** "45,76" reads as 45.76. */
  lemma NormalizeLitri(s: string)
    requires s == "45,76"
    ensures Normalize(s) == 45.76
  {
    NormalizeDigitsComma(s, "45", "76");
    AmountValues();
  }

  /** "1,639" reads as 1.639. */
  lemma NormalizePrezzo(s: string)
    requires s == "1,639"
    ensures Normalize(s) == 1.639
  {
    NormalizeDigitsComma(s, "1", "639");
    AmountValues();
  }

  lemma AmountValues()
    ensures Amount("75", "00") == 75.0 && Amount("45", "76") == 45.76 && Amount("1", "639") == 1.639
  {
    assert "75"[..1] == "7" && "00"[..1] == "0" && "45"[..1] == "4" && "76"[..1] == "7";
    assert "639"[..2] == "63" && "63"[..1] == "6";
    assert "7"[..0] == "" && "0"[..0] == "" && "4"[..0] == "" && "1"[..0] == "" && "6"[..0] == "";
    assert Pow10(2) == 100 && Pow10(3) == 1000;
  }

  /**
    The same line with ticket 05817, which ends with the site code 5817. The
    place search of extractors/q8_extractor.py:180 has no word boundary before
    the code, so it matches inside the ticket and the place starts at the date.
   */
  const SiteTicket: Q8Line := Q8Line(
    "7028009864300015041", "05817", "02/10/25", "0852", "GLS", "0000", "000001", "5817",
    ["LOC.ACQUAVIVA", "S.S.", "4", "NEROLA"], "SF", "75,00", "45,76", "1,639", [])

  /**
    The words of `SiteTicket` joined by single spaces,
    `7028009864300015041 05817 02/10/25 0852 GLS 0000 000001 5817 LOC.ACQUAVIVA S.S. 4 NEROLA SF 75,00 45,76 1,639`
    has the place `02/10/25 0852 GLS 0000 000001 5817 LOC.ACQUAVIVA S.S. 4 NEROLA`.
   */
  lemma PlaceAfterTicket(l: Q8Line)
    requires l == SiteTicket
    ensures Localita(Join(Words(l)), "5817") != "LOC.ACQUAVIVA S.S. 4 NEROLA"
    ensures Localita(Join(Words(l)), "5817") == Join(Words(l)[2..12])
  {
    var t := Words(l);
    var line := Join(t);
    SiteTicketWords();
    TokensOfJoin(t);
    assert Tokens(line) == t;
    TicketPlace(t, "5817");
    assert forall m :: 0 <= m < 1 ==> PlaceAt(t, "5817", m).None?;
    assert Localita(line, "5817") == PlaceAt(t, "5817", 1).value;
    WordsLayout(l);
    PlaceFromDate(t[2..12]);
  }

  /** The search fails at the card and matches at the ticket, taking the ten tokens after it. */
  lemma TicketPlace(t: seq<string>, code: string)
    requires t == Words(SiteTicket) && code == "5817"
    ensures PlaceAt(t, code, 0).None?
    ensures PlaceAt(t, code, 1) == Some(Join(t[2..12]))
  {
    WordsLayout(SiteTicket);
    assert !HasSuffix(t[0], code) by { assert t[0][15..] == "5041"; }
    assert HasSuffix(t[1], code) by { assert t[1][1..] == "5817"; }
    SiteTicketMode(t);
    TicketPlaceWords(t);
    StripJoin(t[2..12]);
  }

  lemma TicketPlaceWords(t: seq<string>)
    requires t == Words(SiteTicket)
    ensures forall k :: 0 <= k < |t[2..12]| ==> IsWord(t[2..12][k])
  {
    SiteTicketWords();
    WordsLayout(SiteTicket);
  }

  /** A place starting with the date token is not the printed place. */
  lemma PlaceFromDate(ws: seq<string>)
    requires |ws| == 10 && ws[0] == "02/10/25"
    ensures Join(ws) != "LOC.ACQUAVIVA S.S. 4 NEROLA"
  {
    assert Join(ws) == ws[0] + " " + Join(ws[1..]);
    assert Join(ws)[0] == '0';
  }

  lemma SiteTicketWords()
    ensures forall k :: 0 <= k < |Words(SiteTicket)| ==> IsWord(Words(SiteTicket)[k])
  {
    var l := SiteTicket;
    var t := Words(l);
    WordsLayout(l);
    DocGroups();
    DocPump();
    DocPlaceWords();
    DocShapes();
    assert DigitsN(l.ticket, 5);
    forall k | 0 <= k < 16 ensures IsWord(t[k]) {
      if k == 2 {
        DateWord(l.data, '/', 2);
      } else if k == 4 {
        ClassWord(l.codice, Upper);
      } else if k < 8 {
        ClassWord(t[k], Digit);
      } else if k < 12 {
        assert t[k] == Doc.luogo[k - 8];
      } else if k == 12 {
        assert IsWord(l.modo);
      } else {
        assert t[k] == Words(Doc)[k];
        DecimalWord(t[k]);
      }
    }
  }

  lemma SiteTicketMode(t: seq<string>)
    requires t == Words(SiteTicket)
    ensures ModeAt(t, 3) == 12
  {
    WordsLayout(SiteTicket);
    assert t[12] == "SF" && 13 < |t|;
    assert forall m :: 3 <= m < 12 ==> !PumpMode(t[m]);
  }
}
