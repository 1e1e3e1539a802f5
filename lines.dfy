/**
  Line reconstruction, the same in every extractor (extractors/ip_extractor.py
  lines 77-87): the words of a page are grouped by their rounded `top`
  coordinate, the row keys are taken in ascending order, each row's texts are
  joined with single spaces and stripped, and blank lines are skipped.
 */
module Lines {
  import opened Text
  import opened Invoice

  /** The texts of the words whose row key is `k`, in input order. */
  function TextsInRow(words: seq<Word>, k: int): seq<string> {
    if words == [] then []
    else
      var last := words[|words| - 1];
      TextsInRow(words[..|words| - 1], k) + (if last.row == k then [last.text] else [])
  }

  function RowKeys(words: seq<Word>): set<int> {
    set i | 0 <= i < |words| :: words[i].row
  }

  /** A row key no word has collects nothing. */
  lemma {:induction false} TextsOutsideRows(words: seq<Word>, k: int)
    requires k !in RowKeys(words)
    ensures TextsInRow(words, k) == []
  {
    if words != [] {
      var front := words[..|words| - 1];
      assert RowKeys(front) <= RowKeys(words) by {
        forall x | x in RowKeys(front) ensures x in RowKeys(words) {
          var i :| 0 <= i < |front| && front[i].row == x;
          assert words[i].row == x;
        }
      }
      TextsOutsideRows(front, k);
      assert words[|words| - 1].row in RowKeys(words);
    }
  }

  lemma RowKeysSnoc(words: seq<Word>, i: nat)
    requires i < |words|
    ensures RowKeys(words[..i + 1]) == RowKeys(words[..i]) + {words[i].row}
  {
    var a, b := words[..i + 1], words[..i];
    forall x | x in RowKeys(a) ensures x in RowKeys(b) + {words[i].row} {
      var j :| 0 <= j < |a| && a[j].row == x;
      if j < i { assert b[j] == a[j]; }
    }
    forall x | x in RowKeys(b) + {words[i].row} ensures x in RowKeys(a) {
      if x == words[i].row {
        assert a[i].row == x;
      } else {
        var j :| 0 <= j < |b| && b[j].row == x;
        assert a[j] == b[j];
      }
    }
  }

  /** The `righe` dictionary: each row key mapped to the texts of its words, in input order. */
  method GroupRows(words: seq<Word>) returns (rows: map<int, seq<string>>)
    ensures rows.Keys == RowKeys(words)
    ensures forall k :: k in rows ==> rows[k] == TextsInRow(words, k)
  {
    rows := map[];
    var i := 0;
    while i < |words|
      invariant 0 <= i <= |words|
      invariant rows.Keys == RowKeys(words[..i])
      invariant forall k :: k in rows ==> rows[k] == TextsInRow(words[..i], k)
    {
      var w := words[i];
      assert words[..i + 1][..i] == words[..i];
      if w.row !in rows {
        TextsOutsideRows(words[..i], w.row);
      }
      var prev := if w.row in rows then rows[w.row] else [];
      rows := rows[w.row := prev + [w.text]];
      RowKeysSnoc(words, i);
      i := i + 1;
    }
    assert words[..i] == words;
  }

  // ---------------------------------------------------------------- sorted(righe.keys())

  predicate Ascending(r: seq<int>) {
    forall i, j :: 0 <= i < j < |r| ==> r[i] < r[j]
  }

  /** Adds `k` to an ascending sequence of keys, keeping it ascending and free of repeats. */
  function Insert(r: seq<int>, k: int): (r': seq<int>)
    requires Ascending(r)
    ensures Ascending(r')
    ensures forall x :: x in r' <==> x in r || x == k
  {
    if r == [] then [k]
    else if k < r[0] then [k] + r
    else if k == r[0] then r
    else
      var tail := Insert(r[1..], k);
      assert forall x :: x in tail ==> r[0] < x;
      var r' := [r[0]] + tail;
      forall i, j | 0 <= i < j < |r'| ensures r'[i] < r'[j] {
        assert r'[j] == tail[j - 1] && r'[j] in tail;
        if i > 0 {
          assert r'[i] == tail[i - 1];
        }
      }
      r'
  }

  /** Python's `sorted(keys)` over the distinct keys of `ks`: ascending, each key once. */
  function SortedKeys(ks: seq<int>): (r: seq<int>)
    ensures Ascending(r)
    ensures forall x :: x in r <==> x in ks
  {
    if ks == [] then []
    else
      var front := SortedKeys(ks[..|ks| - 1]);
      assert forall x :: x in ks <==> x in ks[..|ks| - 1] || x == ks[|ks| - 1] by {
        assert ks == ks[..|ks| - 1] + [ks[|ks| - 1]];
      }
      Insert(front, ks[|ks| - 1])
  }

  /** The row key of every word, in input order. */
  function RowList(words: seq<Word>): (r: seq<int>)
    ensures |r| == |words|
    ensures forall x :: x in r <==> x in RowKeys(words)
  {
    var r := seq(|words|, i requires 0 <= i < |words| => words[i].row);
    assert forall x :: x in RowKeys(words) ==> x in r by {
      forall x | x in RowKeys(words) ensures x in r {
        var i :| 0 <= i < |words| && words[i].row == x;
        assert r[i] == x;
      }
    }
    r
  }

  // ---------------------------------------------------------------- the lines

  /** `" ".join(righe[k]).strip()`. */
  function LineOf(words: seq<Word>, k: int): string {
    Strip(Join(TextsInRow(words, k)))
  }

  /** The non-blank lines of the rows `keys`, in the order of `keys`. */
  function LinesOf(words: seq<Word>, keys: seq<int>): (r: seq<string>)
    ensures forall i :: 0 <= i < |r| ==> r[i] != ""
  {
    if keys == [] then []
    else
      var front := LinesOf(words, keys[..|keys| - 1]);
      var line := LineOf(words, keys[|keys| - 1]);
      if line == "" then front else front + [line]
  }

  /** The lines of a page as every extractor visits them. */
  function PageLinesSpec(words: seq<Word>): seq<string> {
    LinesOf(words, SortedKeys(RowList(words)))
  }

  /** The nested loops of lines 79-87: group, sort the keys, join, strip, skip blanks. */
  method PageLines(words: seq<Word>) returns (lines: seq<string>)
    ensures lines == PageLinesSpec(words)
  {
    var rows := GroupRows(words);
    var keys := SortedKeys(RowList(words));
    lines := [];
    var i := 0;
    while i < |keys|
      invariant 0 <= i <= |keys|
      invariant lines == LinesOf(words, keys[..i])
    {
      assert keys[..i + 1][..i] == keys[..i];
      var line := Strip(Join(rows[keys[i]]));
      if line != "" {
        lines := lines + [line];
      }
      i := i + 1;
    }
    assert keys[..i] == keys;
  }

  // ---------------------------------------------------------------- properties

  /** How many words before position `i` share its row: its place in the row's line. */
  function Rank(words: seq<Word>, i: nat): nat
    requires i < |words|
  {
    |TextsInRow(words[..i], words[i].row)|
  }

  lemma {:induction false} TextsInRowPrefix(words: seq<Word>, n: nat, k: int)
    requires n <= |words|
    ensures TextsInRow(words[..n], k) <= TextsInRow(words, k)
    decreases |words|
  {
    if n < |words| {
      var front := words[..|words| - 1];
      assert words[..n] == front[..n];
      TextsInRowPrefix(front, n, k);
    } else {
      assert words[..n] == words;
    }
  }

  /**
    Every word lands in the line of its own row key, at the position given by the
    words of that row that precede it.
   */
  lemma WordInItsRow(words: seq<Word>, i: nat)
    requires i < |words|
    ensures Rank(words, i) < |TextsInRow(words, words[i].row)|
    ensures TextsInRow(words, words[i].row)[Rank(words, i)] == words[i].text
  {
    var k := words[i].row;
    assert words[..i + 1][..i] == words[..i];
    assert TextsInRow(words[..i + 1], k) == TextsInRow(words[..i], k) + [words[i].text];
    TextsInRowPrefix(words, i + 1, k);
  }

  /** Words of one row keep their input order in its line. */
  lemma RowKeepsOrder(words: seq<Word>, i: nat, j: nat)
    requires i < j < |words| && words[i].row == words[j].row
    ensures Rank(words, i) < Rank(words, j)
  {
    var k := words[i].row;
    TextsInRowPrefix(words[..j], i + 1, k);
    assert words[..j][..i + 1] == words[..i + 1];
    assert words[..i + 1][..i] == words[..i];
    assert TextsInRow(words[..i + 1], k) == TextsInRow(words[..i], k) + [words[i].text];
  }

  /** Every emitted line is the line of some row, and every non-blank row line is emitted. */
  lemma {:induction false} LinesOfMembers(words: seq<Word>, keys: seq<int>)
    ensures forall l :: l in LinesOf(words, keys) ==> exists k :: k in keys && l == LineOf(words, k)
    ensures forall k :: k in keys && LineOf(words, k) != "" ==> LineOf(words, k) in LinesOf(words, keys)
  {
    if keys != [] {
      var front := keys[..|keys| - 1];
      LinesOfMembers(words, front);
      assert keys == front + [keys[|keys| - 1]];
      forall l | l in LinesOf(words, keys) ensures exists k :: k in keys && l == LineOf(words, k) {
        if l in LinesOf(words, front) {
          var k :| k in front && l == LineOf(words, k);
          assert k in keys;
        }
      }
    }
  }

  /**
    The rows are visited in ascending key order: the line of a lower row comes
    before the line of a higher one.
   */
  lemma {:induction false} LinesFollowKeys(words: seq<Word>, keys: seq<int>, a: nat, b: nat)
    requires Ascending(keys)
    requires a < b < |LinesOf(words, keys)|
    ensures exists i, j ::
              (&& 0 <= i < j < |keys|
               && LinesOf(words, keys)[a] == LineOf(words, keys[i])
               && LinesOf(words, keys)[b] == LineOf(words, keys[j]))
  {
    var front := keys[..|keys| - 1];
    assert Ascending(front);
    if b < |LinesOf(words, front)| {
      LinesFollowKeys(words, front, a, b);
      FollowInFront(words, keys, a, b);
    } else {
      FollowToLast(words, keys, a, b);
    }
  }

  /** The lines of all keys but the last come first, then the last key's line if it is not blank. */
  lemma LinesOfStep(words: seq<Word>, keys: seq<int>)
    requires keys != []
    ensures var lf := LinesOf(words, keys[..|keys| - 1]); var r := LinesOf(words, keys);
      && |lf| <= |r| <= |lf| + 1 && r[..|lf|] == lf
      && (|r| > |lf| ==> r[|lf|] == LineOf(words, keys[|keys| - 1]))
  {
  }

  /** Two lines already ordered among all keys but the last stay ordered among all keys. */
  lemma FollowInFront(words: seq<Word>, keys: seq<int>, a: nat, b: nat)
    requires keys != [] && a < b < |LinesOf(words, keys[..|keys| - 1])|
    requires var front := keys[..|keys| - 1]; exists i, j ::
              (&& 0 <= i < j < |front|
               && LinesOf(words, front)[a] == LineOf(words, front[i])
               && LinesOf(words, front)[b] == LineOf(words, front[j]))
    ensures exists i, j ::
              (&& 0 <= i < j < |keys|
               && LinesOf(words, keys)[a] == LineOf(words, keys[i])
               && LinesOf(words, keys)[b] == LineOf(words, keys[j]))
  {
    var front := keys[..|keys| - 1];
    var lf := LinesOf(words, front);
    LinesOfStep(words, keys);
    var i, j :| 0 <= i < j < |front| && lf[a] == LineOf(words, front[i]) && lf[b] == LineOf(words, front[j]);
    assert LinesOf(words, keys)[a] == lf[a] && LinesOf(words, keys)[b] == lf[b];
    assert front[i] == keys[i] && front[j] == keys[j];
  }

  /** A line before the last key's line comes from an earlier key. */
  lemma FollowToLast(words: seq<Word>, keys: seq<int>, a: nat, b: nat)
    requires keys != [] && a < b < |LinesOf(words, keys)|
    requires |LinesOf(words, keys[..|keys| - 1])| <= b
    ensures exists i, j ::
              (&& 0 <= i < j < |keys|
               && LinesOf(words, keys)[a] == LineOf(words, keys[i])
               && LinesOf(words, keys)[b] == LineOf(words, keys[j]))
  {
    var front := keys[..|keys| - 1];
    var lf := LinesOf(words, front);
    LinesOfStep(words, keys);
    LinesOfMembers(words, front);
    assert LinesOf(words, keys)[a] == lf[a];
    assert lf[a] in lf;
    var k :| k in front && lf[a] == LineOf(words, k);
    var i :| 0 <= i < |front| && front[i] == k;
    assert keys[i] == k;
    assert LinesOf(words, keys)[b] == LineOf(words, keys[|keys| - 1]);
  }

  /**
    For words that are non-empty and contain no whitespace (what the PDF layout
    reports), a row's line is its texts joined by single spaces, and splitting
    the line on whitespace gives them back.
   */
  lemma SingleSpaced(words: seq<Word>, k: int)
    requires forall i :: 0 <= i < |words| ==> IsWord(words[i].text)
    ensures LineOf(words, k) == Join(TextsInRow(words, k))
    ensures Tokens(LineOf(words, k)) == TextsInRow(words, k)
  {
    TextsAreWords(words, k);
    StripJoin(TextsInRow(words, k));
    TokensOfJoin(TextsInRow(words, k));
  }

  lemma {:induction false} TextsAreWords(words: seq<Word>, k: int)
    requires forall i :: 0 <= i < |words| ==> IsWord(words[i].text)
    ensures forall m :: 0 <= m < |TextsInRow(words, k)| ==> IsWord(TextsInRow(words, k)[m])
  {
    if words != [] {
      TextsAreWords(words[..|words| - 1], k);
    }
  }
}
