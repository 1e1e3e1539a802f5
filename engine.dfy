/**
  `extract_transactions` as the source writes it: a loop over pages and their
  lines that updates a pending queue, a seen set, the output list and (Esso)
  the current plate in place. Each method is proved to do what the
  corresponding function of `Assembly` says.
 */
module Engine {
  import opened Wrappers
  import opened Invoice
  import opened Vendors
  import opened Assembly
  import Lines

  class Assembler {
    const vendor: Vendor
    var queue: seq<Transaction>
    var seen: set<Key>
    var out: seq<Transaction>
    var current: Option<string>
    /** Every transaction handed to the seen-check so far; kept for the proofs only. */
    ghost var offered: seq<Transaction>

    ghost function Snapshot(): State
      reads this
    {
      State(queue, seen, out, current, offered)
    }

    constructor(v: Vendor)
      ensures vendor == v && Snapshot() == Init
    {
      vendor := v;
      queue := [];
      seen := {};
      out := [];
      current := None;
      offered := [];
    }

    /** The seen-check: keep `t` only if its key is new. */
    method Offer(t: Transaction)
      modifies this
      ensures Snapshot() == Accept(old(Snapshot()), t)
    {
      var key := KeyOf(t);
      if key !in seen {
        seen := seen + {key};
        out := out + [t];
      }
      offered := offered + [t];
    }

    /** Give every queued transaction the plate, offer them in order, empty the queue. */
    method FlushQueue(plate: string)
      modifies this
      ensures Snapshot() == Flush(old(Snapshot()), plate)
    {
      var pending := queue;
      var i := 0;
      while i < |pending|
        invariant 0 <= i <= |pending| && queue == pending
        invariant Snapshot() == AcceptAll(old(Snapshot()), pending[..i], plate)
      {
        assert pending[..i + 1][..i] == pending[..i];
        Offer(WithPlate(pending[i], plate));
        i := i + 1;
      }
      assert pending[..i] == pending;
      queue := [];
    }

    /** One non-blank line of the document. */
    method OnLine(line: string)
      modifies this
      ensures Snapshot() == Step(vendor, old(Snapshot()), line)
    {
      match vendor
      case Esso =>
        var plate := PlateOf(Esso, line);
        if plate.Some? {
          current := plate;
        } else if current.Some? {
          var t := Candidate(Esso, line, current.value);
          if t.Some? {
            Offer(t.value);
          }
        }
      case Q8 =>
        var t := Candidate(Q8, line, "");
        if t.Some? {
          queue := queue + [t.value];
        }
        var plate := PlateOf(Q8, line);
        if plate.Some? {
          FlushQueue(plate.value);
        }
      case _ =>
        var plate := PlateOf(vendor, line);
        if plate.Some? {
          FlushQueue(plate.value);
        } else {
          var t := Candidate(vendor, line, "");
          if t.Some? {
            queue := queue + [t.value];
          }
        }
    }

    /** The end of the document: the leftovers get "SCONOSCIUTA"; Esso has none. */
    method Finish()
      modifies this
      ensures Snapshot() == Close(vendor, old(Snapshot()))
    {
      if vendor != Esso {
        FlushQueue(Sentinel);
      }
    }
  }

  /** The lines of one page, in order. */
  method OnLines(a: Assembler, lines: seq<string>)
    modifies a
    ensures a.Snapshot() == Run(a.vendor, old(a.Snapshot()), lines)
  {
    ghost var start := a.Snapshot();
    var i := 0;
    while i < |lines|
      invariant 0 <= i <= |lines|
      invariant a.Snapshot() == Run(a.vendor, start, lines[..i])
    {
      ghost var before := a.Snapshot();
      a.OnLine(lines[i]);
      RunPrefixStep(a.vendor, start, lines, i, before, a.Snapshot());
      i := i + 1;
    }
    assert lines[..i] == lines;
  }

  /** `extract_transactions(pdf)` over the words of each page. */
  method ExtractTransactions(v: Vendor, doc: Document) returns (txns: seq<Transaction>)
    ensures txns == Transactions(v, doc)
  {
    var a := new Assembler(v);
    var pages := doc.pages;
    var p := 0;
    while p < |pages|
      invariant 0 <= p <= |pages| && a.vendor == v
      invariant a.Snapshot() == Run(v, Init, DocLines(v, pages[..p]))
    {
      DocLinesSnoc(v, pages, p);
      if !(v == Q8 && p < 2) {
        var lines := Lines.PageLines(pages[p].words);
        RunAppend(v, Init, DocLines(v, pages[..p]), lines);
        OnLines(a, lines);
      } else {
        assert DocLines(v, pages[..p + 1]) == DocLines(v, pages[..p]) + [];
      }
      p := p + 1;
    }
    assert pages[..p] == pages;
    a.Finish();
    txns := a.out;
  }
}
