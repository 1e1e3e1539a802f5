/**
  The per-document transaction assembler of `extract_transactions`, as a
  function of the document's lines.

  IP, Q8 and Tamoil queue each parsed transaction until a plate line arrives;
  the plate line gives every queued transaction its plate and hands them, in
  queue order, to the seen-check, which keeps a transaction only if its
  (data, ora, numero_scontrino) key has not been kept before. At the end of the
  document what is still queued gets the plate "SCONOSCIUTA" and goes through
  the same check. Esso keeps a current plate instead of a queue and hands each
  transaction to the check as soon as it is parsed, and only while a plate is
  known.

  `offered` records every transaction handed to the seen-check, in order; the
  source keeps no such list, and it is here only so that the output can be
  stated as the first occurrences of each key (`Dedup`).
 */
module Assembly {
  import opened Wrappers
  import opened Invoice
  import opened Vendors
  import Plates
  import Lines

  /** `transazioni_in_attesa`, `visti`, `transactions` and, for Esso, `targa_corrente`. */
  datatype State = State(
    queue: seq<Transaction>,
    seen: set<Key>,
    out: seq<Transaction>,
    current: Option<string>,
    offered: seq<Transaction>)

  const Init: State := State([], {}, [], None, [])

  // ---------------------------------------------------------------- first occurrences

  function KeysOf(xs: seq<Transaction>): set<Key> {
    set i | 0 <= i < |xs| :: KeyOf(xs[i])
  }

  /** No transaction before position `i` has the key of `xs[i]`. */
  predicate FirstSeen(xs: seq<Transaction>, i: nat)
    requires i < |xs|
  {
    forall j :: 0 <= j < i ==> KeyOf(xs[j]) != KeyOf(xs[i])
  }

  /** The positions of the first occurrence of each key, in ascending order. */
  function FirstSeenIndices(xs: seq<Transaction>): (f: seq<nat>)
    ensures forall k :: 0 <= k < |f| ==> f[k] < |xs|
    ensures forall a, b :: 0 <= a < b < |f| ==> f[a] < f[b]
    ensures forall i :: 0 <= i < |xs| ==> (FirstSeen(xs, i) <==> i in f)
  {
    if xs == [] then []
    else
      var n := |xs| - 1;
      var front := xs[..n];
      var f := FirstSeenIndices(front);
      assert forall i :: 0 <= i < n ==> (FirstSeen(front, i) <==> FirstSeen(xs, i));
      if FirstSeen(xs, n) then f + [n] else f
  }

  /** The reference de-duplication: the first transaction with each key, in the order they first appear. */
  function Dedup(xs: seq<Transaction>): seq<Transaction> {
    var f := FirstSeenIndices(xs);
    seq(|f|, k requires 0 <= k < |f| => xs[f[k]])
  }

  lemma KeysOfSnoc(xs: seq<Transaction>, x: Transaction)
    ensures KeysOf(xs + [x]) == KeysOf(xs) + {KeyOf(x)}
  {
    var ys := xs + [x];
    forall k | k in KeysOf(ys) ensures k in KeysOf(xs) + {KeyOf(x)} {
      var i :| 0 <= i < |ys| && KeyOf(ys[i]) == k;
      if i < |xs| { assert ys[i] == xs[i]; }
    }
    forall k | k in KeysOf(xs) + {KeyOf(x)} ensures k in KeysOf(ys) {
      if k == KeyOf(x) {
        assert KeyOf(ys[|xs|]) == k;
      } else {
        var i :| 0 <= i < |xs| && KeyOf(xs[i]) == k;
        assert KeyOf(ys[i]) == k;
      }
    }
  }

  /** Handing one more transaction to the seen-check keeps it exactly when its key is new. */
  lemma DedupSnoc(xs: seq<Transaction>, x: Transaction)
    ensures Dedup(xs + [x]) == Dedup(xs) + (if KeyOf(x) in KeysOf(xs) then [] else [x])
  {
    var ys := xs + [x];
    var n := |xs|;
    assert ys[..n] == xs;
    FirstSeenLast(xs, x);
    var f := FirstSeenIndices(xs);
    assert FirstSeenIndices(ys) == if FirstSeen(ys, n) then f + [n] else f;
    DedupExtend(xs, x, f, FirstSeenIndices(ys));
  }

  lemma FirstSeenLast(xs: seq<Transaction>, x: Transaction)
    ensures FirstSeen(xs + [x], |xs|) <==> KeyOf(x) !in KeysOf(xs)
  {
    var ys := xs + [x];
    var n := |xs|;
    if KeyOf(x) in KeysOf(xs) {
      var j :| 0 <= j < n && KeyOf(xs[j]) == KeyOf(x);
      assert KeyOf(ys[j]) == KeyOf(ys[n]);
    } else {
      forall j | 0 <= j < n ensures KeyOf(ys[j]) != KeyOf(ys[n]) {
        assert ys[j] == xs[j];
      }
    }
  }

  lemma DedupExtend(xs: seq<Transaction>, x: Transaction, f: seq<nat>, g: seq<nat>)
    requires f == FirstSeenIndices(xs) && g == FirstSeenIndices(xs + [x])
    requires g == f || g == f + [|xs|]
    ensures Dedup(xs + [x]) == Dedup(xs) + (if g == f then [] else [x])
  {
    var ys := xs + [x];
    var d, e := Dedup(xs), Dedup(ys);
    forall k | 0 <= k < |f| ensures e[k] == d[k] {
      assert g[k] == f[k] && f[k] < |xs|;
      assert ys[f[k]] == xs[f[k]];
    }
    if g != f {
      assert e[|f|] == ys[|xs|] == x;
    }
    assert e == d + (if g == f then [] else [x]);
  }

  /** No two kept transactions share a key. */
  lemma DedupDistinct(xs: seq<Transaction>)
    ensures var d := Dedup(xs);
      forall a, b :: 0 <= a < b < |d| ==> KeyOf(d[a]) != KeyOf(d[b])
  {
    var f := FirstSeenIndices(xs);
    var d := Dedup(xs);
    forall a, b | 0 <= a < b < |d| ensures KeyOf(d[a]) != KeyOf(d[b]) {
      assert f[a] < f[b] && FirstSeen(xs, f[b]) by {
        assert f[b] in f;
      }
    }
  }

  /** Every key that was offered is kept once. */
  lemma DedupKeys(xs: seq<Transaction>)
    ensures KeysOf(Dedup(xs)) == KeysOf(xs)
  {
    var f := FirstSeenIndices(xs);
    var d := Dedup(xs);
    forall k | k in KeysOf(xs) ensures k in KeysOf(d) {
      var i :| 0 <= i < |xs| && KeyOf(xs[i]) == k;
      var m := FirstOf(xs, i);
      assert m in f;
      var a :| 0 <= a < |f| && f[a] == m;
      assert d[a] == xs[m];
    }
    forall k | k in KeysOf(d) ensures k in KeysOf(xs) {
      var a :| 0 <= a < |d| && KeyOf(d[a]) == k;
      assert KeyOf(xs[f[a]]) == k;
    }
  }

  /** The first position holding the key of `xs[i]`. */
  lemma FirstOf(xs: seq<Transaction>, i: nat) returns (m: nat)
    requires i < |xs|
    ensures m <= i && KeyOf(xs[m]) == KeyOf(xs[i]) && FirstSeen(xs, m)
    decreases i
  {
    if FirstSeen(xs, i) {
      m := i;
    } else {
      var j :| 0 <= j < i && KeyOf(xs[j]) == KeyOf(xs[i]);
      m := FirstOf(xs, j);
    }
  }

  /** Every kept transaction is one that was offered. */
  lemma DedupMembers(xs: seq<Transaction>)
    ensures forall t :: t in Dedup(xs) ==> t in xs
  {
    var f := FirstSeenIndices(xs);
    forall t | t in Dedup(xs) ensures t in xs {
      var a :| 0 <= a < |f| && Dedup(xs)[a] == t;
      assert xs[f[a]] == t;
    }
  }

  // ---------------------------------------------------------------- the steps

  /** `if key not in visti: visti.add(key); transactions.append(...)`. */
  function Accept(s: State, t: Transaction): (r: State)
    ensures r.queue == s.queue && r.current == s.current && r.offered == s.offered + [t]
  {
    var k := KeyOf(t);
    if k in s.seen then s.(offered := s.offered + [t])
    else s.(seen := s.seen + {k}, out := s.out + [t], offered := s.offered + [t])
  }

  /** `trans_dict["targa"] = targa` for each queued transaction. */
  function Plate(q: seq<Transaction>, plate: string): (r: seq<Transaction>)
    ensures |r| == |q|
    ensures forall i :: 0 <= i < |q| ==> r[i].targa == plate && KeyOf(r[i]) == KeyOf(q[i])
    ensures forall i :: 0 <= i < |q| ==> r[i].(targa := q[i].targa) == q[i]
  {
    seq(|q|, i requires 0 <= i < |q| => WithPlate(q[i], plate))
  }

  /** The loop over the queue: each transaction, with the plate, through the seen-check in order. */
  function AcceptAll(s: State, q: seq<Transaction>, plate: string): (r: State)
    ensures r.queue == s.queue && r.current == s.current
    ensures r.offered == s.offered + Plate(q, plate)
  {
    if q == [] then s
    else
      var n := |q| - 1;
      var r := Accept(AcceptAll(s, q[..n], plate), WithPlate(q[n], plate));
      assert Plate(q, plate) == Plate(q[..n], plate) + [WithPlate(q[n], plate)];
      r
  }

  /** A plate line (or the end of the document): the queue is handed over with the plate and emptied. */
  function Flush(s: State, plate: string): (r: State)
    ensures r.queue == [] && r.current == s.current
    ensures r.offered == s.offered + Plate(s.queue, plate)
  {
    AcceptAll(s, s.queue, plate).(queue := [])
  }

  function Enqueue(s: State, t: Option<Transaction>): State {
    match t
    case Some(x) => s.(queue := s.queue + [x])
    case None => s
  }

  /**
    One non-blank line. IP and Tamoil look for a plate first and parse a
    transaction only on other lines; Q8 parses first and then looks for a
    plate on the same line; Esso's card line sets the current plate, and its
    transaction lines count only while a plate is known.
   */
  function Step(v: Vendor, s: State, line: string): (r: State)
    ensures s.offered <= r.offered
    ensures r.current == s.current || (v == Esso && r.current == PlateOf(Esso, line))
  {
    match v
    case Esso =>
      (match PlateOf(Esso, line)
       case Some(p) => s.(current := Some(p))
       case None =>
         if s.current.None? then s
         else
           (match Candidate(Esso, line, s.current.value)
            case Some(t) => Accept(s, t)
            case None => s))
    case Q8 =>
      var s1 := Enqueue(s, Candidate(Q8, line, ""));
      (match PlateOf(Q8, line)
       case Some(p) => Flush(s1, p)
       case None => s1)
    case _ =>
      (match PlateOf(v, line)
       case Some(p) => Flush(s, p)
       case None => Enqueue(s, Candidate(v, line, "")))
  }

  /** The lines in order. */
  function Run(v: Vendor, s: State, lines: seq<string>): State {
    if lines == [] then s
    else Step(v, Run(v, s, lines[..|lines| - 1]), lines[|lines| - 1])
  }

  /** The end of the document: leftovers get the sentinel plate; Esso has nothing left over. */
  function Close(v: Vendor, s: State): State {
    if v == Esso then s else Flush(s, Sentinel)
  }

  // ---------------------------------------------------------------- the document

  /** The lines of page `i`; Q8 skips the first two pages. */
  function PageLinesAt(v: Vendor, i: nat, page: Page): seq<string> {
    if v == Q8 && i < 2 then [] else Lines.PageLinesSpec(page.words)
  }

  /** The lines of the pages, page by page. */
  function DocLines(v: Vendor, pages: seq<Page>): seq<string> {
    if pages == [] then []
    else
      var n := |pages| - 1;
      DocLines(v, pages[..n]) + PageLinesAt(v, n, pages[n])
  }

  /** The state at the end of the document, after the leftovers are handled. */
  function Final(v: Vendor, doc: Document): State {
    Close(v, Run(v, Init, DocLines(v, doc.pages)))
  }

  /** `extract_transactions`. */
  function Transactions(v: Vendor, doc: Document): (r: seq<Transaction>)
    ensures r == Dedup(Final(v, doc).offered)
  {
    FinalInv(v, doc);
    Final(v, doc).out
  }

  // ---------------------------------------------------------------- the invariant

  /** An output plate: one read from a plate line, or for the queueing vendors the sentinel. */
  predicate Plated(v: Vendor, t: Transaction) {
    && t.fornitore == Fornitore(v)
    && (Plates.PlateShape(t.targa) || (v != Esso && t.targa == Sentinel))
  }

  /**
    What the assembler keeps true: the output is the de-duplication of what was
    offered and `seen` its keys; everything offered carries an output plate; the
    queue holds this vendor's transactions; Esso never queues.
   */
  predicate Inv(v: Vendor, s: State) {
    && s.out == Dedup(s.offered)
    && s.seen == KeysOf(s.offered)
    && (forall i :: 0 <= i < |s.offered| ==> Plated(v, s.offered[i]))
    && (forall i :: 0 <= i < |s.queue| ==> s.queue[i].fornitore == Fornitore(v))
    && (s.current.Some? ==> Plates.PlateShape(s.current.value))
    && (v == Esso ==> s.queue == [])
  }

  lemma InitInv(v: Vendor)
    ensures Inv(v, Init)
  {
    assert FirstSeenIndices([]) == [];
  }

  lemma AcceptInv(v: Vendor, s: State, t: Transaction)
    requires Inv(v, s) && Plated(v, t)
    ensures Inv(v, Accept(s, t))
  {
    DedupSnoc(s.offered, t);
    KeysOfSnoc(s.offered, t);
  }

  lemma {:induction false} AcceptAllInv(v: Vendor, s: State, q: seq<Transaction>, plate: string)
    requires Inv(v, s)
    requires forall i :: 0 <= i < |q| ==> q[i].fornitore == Fornitore(v)
    requires Plates.PlateShape(plate) || (v != Esso && plate == Sentinel)
    ensures Inv(v, AcceptAll(s, q, plate))
    decreases |q|
  {
    if q != [] {
      var n := |q| - 1;
      AcceptAllInv(v, s, q[..n], plate);
      AcceptInv(v, AcceptAll(s, q[..n], plate), WithPlate(q[n], plate));
    }
  }

  lemma FlushInv(v: Vendor, s: State, plate: string)
    requires Inv(v, s)
    requires Plates.PlateShape(plate) || (v != Esso && plate == Sentinel)
    ensures Inv(v, Flush(s, plate))
  {
    AcceptAllInv(v, s, s.queue, plate);
  }

  lemma StepInv(v: Vendor, s: State, line: string)
    requires Inv(v, s)
    ensures Inv(v, Step(v, s, line))
  {
    match v
    case Esso => EssoStepInv(s, line);
    case Q8 => Q8StepInv(s, line);
    case _ => QueueStepInv(v, s, line);
  }

  lemma EssoStepInv(s: State, line: string)
    requires Inv(Esso, s)
    ensures Inv(Esso, Step(Esso, s, line))
  {
    if PlateOf(Esso, line).None? && s.current.Some? {
      var t := Candidate(Esso, line, s.current.value);
      if t.Some? {
        AcceptInv(Esso, s, t.value);
      }
    }
  }

  lemma Q8StepInv(s: State, line: string)
    requires Inv(Q8, s)
    ensures Inv(Q8, Step(Q8, s, line))
  {
    var s1 := Enqueue(s, Candidate(Q8, line, ""));
    EnqueueInv(Q8, s, Candidate(Q8, line, ""));
    if PlateOf(Q8, line).Some? {
      FlushInv(Q8, s1, PlateOf(Q8, line).value);
    }
  }

  lemma QueueStepInv(v: Vendor, s: State, line: string)
    requires v == IP || v == Tamoil
    requires Inv(v, s)
    ensures Inv(v, Step(v, s, line))
  {
    var p := PlateOf(v, line);
    if p.Some? {
      FlushInv(v, s, p.value);
    } else {
      EnqueueInv(v, s, Candidate(v, line, ""));
    }
  }

  /** Queueing one of this vendor's transactions keeps the invariant. */
  lemma EnqueueInv(v: Vendor, s: State, c: Option<Transaction>)
    requires v != Esso && Inv(v, s)
    requires c.Some? ==> c.value.fornitore == Fornitore(v)
    ensures Inv(v, Enqueue(s, c))
  {
  }

  lemma {:induction false} RunInv(v: Vendor, s: State, lines: seq<string>)
    requires Inv(v, s)
    ensures Inv(v, Run(v, s, lines))
    decreases |lines|
  {
    if lines != [] {
      RunInv(v, s, lines[..|lines| - 1]);
      StepInv(v, Run(v, s, lines[..|lines| - 1]), lines[|lines| - 1]);
    }
  }

  lemma FinalInv(v: Vendor, doc: Document)
    ensures Inv(v, Final(v, doc)) && Final(v, doc).queue == []
  {
    InitInv(v);
    var s := Run(v, Init, DocLines(v, doc.pages));
    RunInv(v, Init, DocLines(v, doc.pages));
    if v != Esso {
      FlushInv(v, s, Sentinel);
    }
  }

  // ---------------------------------------------------------------- what the output is

  /**
    The output is the first transaction with each key among those offered, in
    the order they were offered; a later one with the same key is dropped
    whatever its plate.
   */
  lemma TransactionsFirstSeen(v: Vendor, doc: Document)
    ensures Transactions(v, doc) == Dedup(Final(v, doc).offered)
    ensures KeysOf(Transactions(v, doc)) == KeysOf(Final(v, doc).offered)
  {
    FinalInv(v, doc);
    DedupKeys(Final(v, doc).offered);
  }

  /** The output keys are pairwise distinct. */
  lemma TransactionsDistinct(v: Vendor, doc: Document)
    ensures var ts := Transactions(v, doc);
      forall a, b :: 0 <= a < b < |ts| ==> KeyOf(ts[a]) != KeyOf(ts[b])
  {
    FinalInv(v, doc);
    DedupDistinct(Final(v, doc).offered);
  }

  /**
    Every output transaction has this vendor's supplier name and a plate read
    from a plate line, or (IP, Q8, Tamoil only) "SCONOSCIUTA"; none keeps the
    empty placeholder plate.
   */
  lemma TransactionsPlated(v: Vendor, doc: Document)
    ensures forall t :: t in Transactions(v, doc) ==> Plated(v, t)
  {
    var f := Final(v, doc);
    FinalInv(v, doc);
    DedupMembers(f.offered);
    forall t | t in Transactions(v, doc) ensures Plated(v, t) {
      var i :| 0 <= i < |f.offered| && f.offered[i] == t;
    }
  }

  // ---------------------------------------------------------------- one line

  /**
    IP and Tamoil: a plate line hands over exactly the queue with that plate,
    empties it and is not itself parsed as a transaction.
   */
  lemma PlateLineNotParsed(v: Vendor, s: State, line: string, p: string)
    requires v == IP || v == Tamoil
    requires PlateOf(v, line) == Some(p)
    ensures Step(v, s, line).queue == []
    ensures Step(v, s, line).offered == s.offered + Plate(s.queue, p)
  {
  }

  /** Any vendor but Esso: a transaction line that is no plate line is queued and nothing is output. */
  lemma TransactionLineQueued(v: Vendor, s: State, line: string, t: Transaction)
    requires v != Esso
    requires PlateOf(v, line).None? && Candidate(v, line, "") == Some(t)
    ensures Step(v, s, line) == s.(queue := s.queue + [t])
  {
  }

  /** Q8: a line with both a transaction and a plate queues the transaction, then hands it over with the rest. */
  lemma Q8SameLine(s: State, line: string, t: Transaction, p: string)
    requires Candidate(Q8, line, "") == Some(t) && PlateOf(Q8, line) == Some(p)
    ensures Step(Q8, s, line).queue == []
    ensures Step(Q8, s, line).offered == s.offered + Plate(s.queue + [t], p)
  {
  }

  /** At the end, leftovers get "SCONOSCIUTA" (not for Esso, which has none). */
  lemma CloseLeftovers(v: Vendor, s: State)
    ensures v == Esso ==> Close(v, s) == s
    ensures v != Esso ==> Close(v, s).queue == [] && Close(v, s).offered == s.offered + Plate(s.queue, Sentinel)
  {
  }

  /** Esso: a card line sets the current plate and nothing else. */
  lemma EssoCardLine(s: State, line: string, p: string)
    requires PlateOf(Esso, line) == Some(p)
    ensures Step(Esso, s, line) == s.(current := Some(p))
  {
  }

  /** The plate of the last card line among `lines`, if any. */
  function LastCard(lines: seq<string>): Option<string> {
    if lines == [] then None
    else
      var p := PlateOf(Esso, lines[|lines| - 1]);
      if p.Some? then p else LastCard(lines[..|lines| - 1])
  }

  /** Esso: the current plate is that of the last card line, across lines and pages alike. */
  lemma {:induction false} EssoCurrentIsLastCard(lines: seq<string>)
    ensures Run(Esso, Init, lines).current == LastCard(lines)
    decreases |lines|
  {
    if lines != [] {
      var front := lines[..|lines| - 1];
      EssoCurrentIsLastCard(front);
      var s := Run(Esso, Init, front);
      var line := lines[|lines| - 1];
      if PlateOf(Esso, line).None? && s.current.Some? {
        var t := Candidate(Esso, line, s.current.value);
        if t.Some? {
          assert Step(Esso, s, line).current == s.current;
        }
      }
    }
  }

  /** Esso: transaction lines before the first card line are dropped, so nothing is output. */
  lemma {:induction false} EssoNoCardNoOutput(lines: seq<string>)
    requires forall i :: 0 <= i < |lines| ==> PlateOf(Esso, lines[i]).None?
    ensures Run(Esso, Init, lines) == Init
    decreases |lines|
  {
    if lines != [] {
      EssoNoCardNoOutput(lines[..|lines| - 1]);
    }
  }

  /** Esso: a transaction line accepted while a plate is known carries that plate. */
  lemma EssoCarriesCurrent(s: State, line: string, t: Transaction)
    requires PlateOf(Esso, line).None? && s.current.Some?
    requires Candidate(Esso, line, s.current.value) == Some(t)
    ensures Step(Esso, s, line) == Accept(s, t) && t.targa == s.current.value
  {
  }

  // ---------------------------------------------------------------- pages

  /** Q8: the lines of the first two pages play no part. */
  lemma {:induction false} Q8SkipsFirstTwoPages(pages: seq<Page>)
    requires |pages| >= 2
    ensures DocLines(Q8, pages) == DocLines(IP, pages[2..])
    decreases |pages|
  {
    var n := |pages| - 1;
    if |pages| == 2 {
      Q8FirstTwoPages(pages);
    } else {
      Q8SkipsFirstTwoPages(pages[..n]);
      Q8LaterPage(pages);
    }
  }

  lemma Q8FirstTwoPages(pages: seq<Page>)
    requires |pages| == 2
    ensures DocLines(Q8, pages) == [] && DocLines(IP, pages[2..]) == []
  {
    var one := pages[..1];
    assert one[..0] == [];
    assert DocLines(Q8, one) == DocLines(Q8, one[..0]) + PageLinesAt(Q8, 0, one[0]) == [];
    assert DocLines(Q8, pages) == DocLines(Q8, one) + PageLinesAt(Q8, 1, pages[1]);
  }

  lemma Q8LaterPage(pages: seq<Page>)
    requires |pages| > 2
    requires DocLines(Q8, pages[..|pages| - 1]) == DocLines(IP, pages[..|pages| - 1][2..])
    ensures DocLines(Q8, pages) == DocLines(IP, pages[2..])
  {
    var n := |pages| - 1;
    var later := pages[2..];
    var m := |later| - 1;
    assert pages[..n][2..] == later[..m];
    assert later[m] == pages[n];
    var page := Lines.PageLinesSpec(pages[n].words);
    assert DocLines(Q8, pages) == DocLines(Q8, pages[..n]) + page;
    assert DocLines(IP, later) == DocLines(IP, later[..m]) + page;
  }

  /** Running over more lines continues from where the earlier lines left off. */
  lemma RunSnoc(v: Vendor, s: State, lines: seq<string>, line: string)
    ensures Run(v, s, lines + [line]) == Step(v, Run(v, s, lines), line)
  {
    assert (lines + [line])[..|lines|] == lines;
  }

  /** One more line of a sequence of lines, in the terms of a loop over it. */
  lemma RunPrefixStep(v: Vendor, s: State, lines: seq<string>, i: nat, before: State, after: State)
    requires i < |lines|
    requires before == Run(v, s, lines[..i]) && after == Step(v, before, lines[i])
    ensures after == Run(v, s, lines[..i + 1])
  {
    var upTo := lines[..i + 1];
    assert upTo[..i] == lines[..i] && upTo[i] == lines[i];
  }

  /** Running over two stretches of lines is running over the second from where the first left off. */
  lemma {:induction false} RunAppend(v: Vendor, s: State, xs: seq<string>, ys: seq<string>)
    ensures Run(v, s, xs + ys) == Run(v, Run(v, s, xs), ys)
    decreases |ys|
  {
    if ys == [] {
      assert xs + ys == xs;
    } else {
      var n := |ys| - 1;
      RunAppend(v, s, xs, ys[..n]);
      RunAppendLast(v, s, xs, ys);
    }
  }

  lemma RunAppendLast(v: Vendor, s: State, xs: seq<string>, ys: seq<string>)
    requires ys != []
    requires Run(v, s, xs + ys[..|ys| - 1]) == Run(v, Run(v, s, xs), ys[..|ys| - 1])
    ensures Run(v, s, xs + ys) == Run(v, Run(v, s, xs), ys)
  {
    var n := |ys| - 1;
    var a := xs + ys[..n];
    SplitLast(xs, ys);
    calc {
      Run(v, s, xs + ys);
      { RunSnoc(v, s, a, ys[n]); }
      Step(v, Run(v, s, a), ys[n]);
      Step(v, Run(v, Run(v, s, xs), ys[..n]), ys[n]);
      { RunSnoc(v, Run(v, s, xs), ys[..n], ys[n]); }
      Run(v, Run(v, s, xs), ys);
    }
  }

  lemma SplitLast(xs: seq<string>, ys: seq<string>)
    requires ys != []
    ensures xs + ys == (xs + ys[..|ys| - 1]) + [ys[|ys| - 1]]
    ensures ys == ys[..|ys| - 1] + [ys[|ys| - 1]]
  {
  }

  lemma DocLinesSnoc(v: Vendor, pages: seq<Page>, n: nat)
    requires n < |pages|
    ensures DocLines(v, pages[..n + 1]) == DocLines(v, pages[..n]) + PageLinesAt(v, n, pages[n])
  {
    assert pages[..n + 1][..n] == pages[..n];
  }
}
