/**
  The Esso card example of extractors/esso_extractor.py worked through the
  whole assembler: a card line naming plate FH682DD, then one transaction line.

  The lines are parameters built from their parts, so that the verifier works
  from the lemmas about those parts rather than unfolding the recognisers on
  constant strings.
 */
module WorkedExamples {
  import opened Wrappers
  import opened Text
  import opened Numbers
  import opened Invoice
  import opened Vendors
  import opened Assembly
  import Plates
  import EssoExtractor

  lemma DigitValues()
    ensures Val("42") == 42 && Val("50") == 50
  {
    assert "42"[..1] == "4" && "50"[..1] == "5" && "4"[..0] == "" && "5"[..0] == "";
  }

  /** "42,50" reads as 42.5. */
  lemma NormalizeFortyTwoFifty(s: string)
    requires s == "42,50"
    ensures Normalize(s) == 42.5
  {
    NormalizeDigitsComma(s, "42", "50");
    FortyTwoFifty();
  }

  lemma FortyTwoFifty()
    ensures Amount("42", "50") == 42.5
  {
    DigitValues();
    assert Pow10(2) == 100;
  }

  /** The card line yields its plate. */
  lemma CardPlate(card: string)
    requires card == "Carta: " + "078" + " " + "FH682DD" + " 7033166200912540788"
    ensures PlateOf(Esso, card) == Some("FH682DD")
  {
    assert Number("078");
    assert Plates.PlateShape("FH682DD");
    Plates.CartaLine("078", "FH682DD", " 7033166200912540788");
  }

  /** A line without a colon is no card line. */
  lemma NoColonNoCard(line: string)
    requires forall i :: 0 <= i < |line| ==> line[i] != ':'
    ensures PlateOf(Esso, line).None?
  {
    var j := Plates.CartaIndex(line, 0);
    if j <= |line| {
      CardColon(line, j);
      assert false;
    }
  }

  /** Where the card pattern matches, a colon follows "Carta". */
  lemma CardColon(s: string, j: nat)
    requires j <= |s| && Plates.CartaAt(s, j).Some?
    ensures j + 5 < |s| && s[j + 5] == ':'
  {
    assert s[j..j + 6] == "Carta:";
    assert s[j + 5] == s[j..j + 6][5];
  }

  /** The words of the transaction line. */
  const Words: seq<string> := ["07.10.25", "000412", "367030", "CITTADUCALE", "1", "gasolio", "autotrazion", "26,58", "42,50"]

  /** The transaction line is recognised with its groups. */
  lemma TransactionMatch(line: string)
    requires line == Join(Words)
    ensures EssoExtractor.Recognise(line)
         == Some(EssoExtractor.EssoMatch("07.10.25", "000412", "367030", "CITTADUCALE", Some("1"), "26,58", "42,50"))
  {
    var loc := ["CITTADUCALE"];
    WordsLaidOut(loc);
    WordsWellFormed(loc);
    EssoExtractor.RecogniseLine("07.10.25", "000412", "367030", loc, Some("1"), "26,58", "42,50", []);
    assert Join(loc) == "CITTADUCALE";
  }

  lemma WordsLaidOut(loc: seq<string>)
    requires loc == ["CITTADUCALE"]
    ensures Words == EssoExtractor.LineTokens("07.10.25", "000412", "367030", loc, Some("1"), "26,58", "42,50", [])
  {
  }

  lemma WordsWellFormed(loc: seq<string>)
    requires loc == ["CITTADUCALE"]
    ensures EssoExtractor.WellFormed("07.10.25", "000412", "367030", loc, Some("1"), "26,58", "42,50", [])
  {
    assert loc[0] != [] && AllIn(loc[0], Letter) && !EssoExtractor.Gasolio(loc[0]);
    assert DateToken("07.10.25", '.', 2) by {
      assert "07.10.25"[6..] == "25";
    }
    assert DigitsN("000412", 6) && Number("367030") && Number("1");
    assert EssoExtractor.Quantity("26,58") && EssoExtractor.Quantity("42,50");
  }

  /** The transaction line holds no colon, so it is no card line. */
  lemma TransactionNoCard(line: string)
    requires line == Join(Words)
    ensures PlateOf(Esso, line).None?
  {
    forall k | 0 <= k < |Words| ensures ':' !in Words[k] {
      WordNoColon(k);
    }
    JoinWithout(Words, ':');
    NoColonNoCard(line);
  }

  lemma WordNoColon(k: nat)
    requires k < |Words|
    ensures forall i :: 0 <= i < |Words[k]| ==> Words[k][i] != ':'
  {
    if k == 0 {
      assert Words[0] == "07.10.25";
    } else if k == 3 || k == 5 || k == 6 {
      assert AllIn(Words[k], Letter);
    } else {
      assert AllIn(Words[k], DigitOrComma);
    }
  }

  /** The amount is the last word of the line. */
  lemma TransactionAmount(line: string)
    requires line == Join(Words)
    ensures EssoExtractor.LastAmount(line) == 42.5
  {
    var front, last := Words[..8], Words[8];
    LastWord(front, last);
    AmountWord(last);
    LastWordAmount(front, last);
    NormalizeFortyTwoFifty(last);
  }

  lemma LastWord(front: seq<string>, last: string)
    requires front == Words[..8] && last == Words[8]
    ensures Words == front + [last] && last == "42,50"
  {
  }

  lemma AmountWord(w: string)
    requires w == "42,50"
    ensures EssoExtractor.Quantity(w)
  {
  }

  /** The amount of a line of words is read from its last word, when that is an amount. */
  lemma LastWordAmount(ws: seq<string>, w: string)
    requires |ws| > 0 && EssoExtractor.Quantity(w)
    ensures EssoExtractor.LastAmount(Join(ws + [w])) == Normalize(w)
  {
    JoinSnoc(ws, w);
    EssoExtractor.LastAmountOfLine(Join(ws), w);
  }

  /** The transaction line, read while FH682DD is the current plate. */
  lemma TransactionParsed(line: string)
    requires line == Join(Words)
    ensures var t := Candidate(Esso, line, "FH682DD");
      && t.Some?
      && t.value.targa == "FH682DD"
      && t.value.data == "07/10/25" && t.value.ora == "00:00" && t.value.numeroScontrino == "000412"
      && t.value.chilometraggio == 1
      && t.value.quantita == 26.58 && t.value.importoTotale == 42.5
  {
    var m := EssoExtractor.EssoMatch("07.10.25", "000412", "367030", "CITTADUCALE", Some("1"), "26,58", "42,50");
    TransactionMatch(line);
    assert Candidate(Esso, line, "FH682DD") == Some(EssoExtractor.Parse(m, line, "FH682DD"));
    TransactionAmount(line);
    ParsedFields(m, line, EssoExtractor.Parse(m, line, "FH682DD"));
    ParsedAmounts(m, line, EssoExtractor.Parse(m, line, "FH682DD"));
  }

  /** The fields of the parse that come from the groups as written. */
  lemma ParsedFields(m: EssoExtractor.EssoMatch, line: string, t: Transaction)
    requires m == EssoExtractor.EssoMatch("07.10.25", "000412", "367030", "CITTADUCALE", Some("1"), "26,58", "42,50")
    requires t == EssoExtractor.Parse(m, line, "FH682DD")
    ensures t.targa == "FH682DD"
    ensures t.data == "07/10/25" && t.ora == "00:00" && t.numeroScontrino == "000412"
    ensures t.chilometraggio == 1
  {
    SlashDateExample(m.data);
    KmExample(m.km);
  }

  lemma SlashDateExample(d: string)
    requires d == "07.10.25"
    ensures EssoExtractor.SlashDate(d) == "07/10/25"
  {
  }

  lemma KmExample(km: Option<string>)
    requires km == Some("1")
    ensures EssoExtractor.Km(km) == 1
  {
    assert Val("1") == 1;
  }

  /** The quantity and the amount of the parse. */
  lemma ParsedAmounts(m: EssoExtractor.EssoMatch, line: string, t: Transaction)
    requires m.quantita == "26,58"
    requires EssoExtractor.LastAmount(line) == 42.5
    requires t == EssoExtractor.Parse(m, line, "FH682DD")
    ensures t.quantita == 26.58 && t.importoTotale == 42.5
  {
    NormalizeComma(m.quantita);
  }

  /**
    "Carta: 078 FH682DD 7033166200912540788" followed by
    "07.10.25 000412 367030 CITTADUCALE 1 gasolio autotrazion 26,58 42,50"
    outputs one transaction: plate FH682DD, date 07/10/25, time 00:00,
    ticket 000412, 1 km, 26.58 litres for 42.50.
   */
  lemma EssoCardThenTransaction(card: string, line: string)
    requires card == "Carta: " + "078" + " " + "FH682DD" + " 7033166200912540788"
    requires line == Join(Words)
    ensures var out := Run(Esso, Init, [card, line]).out;
      && |out| == 1
      && out[0].targa == "FH682DD"
      && out[0].data == "07/10/25" && out[0].ora == "00:00" && out[0].numeroScontrino == "000412"
      && out[0].chilometraggio == 1
      && out[0].quantita == 26.58 && out[0].importoTotale == 42.5
  {
    CardPlate(card);
    TransactionNoCard(line);
    TransactionParsed(line);
    CardThenLine(card, line, "FH682DD", Candidate(Esso, line, "FH682DD").value);
  }

  /** From the start, a card line and then a line read under its plate output that line's transaction alone. */
  lemma CardThenLine(card: string, line: string, p: string, t: Transaction)
    requires PlateOf(Esso, card) == Some(p)
    requires PlateOf(Esso, line).None?
    requires Candidate(Esso, line, p) == Some(t)
    ensures Run(Esso, Init, [card, line]).out == [t]
  {
    var s1 := Init.(current := Some(p));
    RunSnoc(Esso, Init, [], card);
    RunSnoc(Esso, Init, [card], line);
    assert [card, line] == [card] + [line];
    assert Run(Esso, Init, [card]) == s1;
    assert Step(Esso, s1, line) == Accept(s1, t);
  }
}
