/**
  The plate-marker patterns. IP, Q8 and Tamoil search a line for a marker word,
  whitespace and an Italian plate (`TARGA\s+`, `TARGA/NOME\s+`, `Targa\s+`
  followed by `[A-Z]{2}\d{3}[A-Z]{2}`); Esso searches for
  `Carta:\s*\d+\s+` followed by a plate. These are searched on the raw line with
  `re.search`, so the leftmost occurrence that completes a match wins.
 */
module Plates {
  import opened Wrappers
  import opened Text

  /** `[A-Z]{2}\d{3}[A-Z]{2}`: two capitals, three digits, two capitals. */
  predicate PlateShape(p: string) {
    && |p| == 7
    && IsUpper(p[0]) && IsUpper(p[1])
    && IsDigit(p[2]) && IsDigit(p[3]) && IsDigit(p[4])
    && IsUpper(p[5]) && IsUpper(p[6])
  }

  /**
    `\s+([A-Z]{2}\d{3}[A-Z]{2})` at position `i`: the greedy whitespace run may
    not give back a character, since a plate never starts with whitespace.
   */
  function PlateAfterSpace(s: string, i: nat): (r: Option<string>)
    requires i <= |s|
    ensures r.Some? ==> PlateShape(r.value)
  {
    var j := RunEnd(s, i, Space);
    if j > i && j + 7 <= |s| && PlateShape(s[j..j + 7]) then Some(s[j..j + 7]) else None
  }

  /** The marker occurs at `i` and a plate follows it after whitespace. */
  predicate MarkerHit(s: string, marker: string, i: nat) {
    StartsAt(s, marker, i) && PlateAfterSpace(s, i + |marker|).Some?
  }

  /**
    The leftmost position at or after `i` where the marker is hit, or `|s| + 1`
    when there is none: where `re.search` finds its match.
   */
  function MarkerIndex(s: string, marker: string, i: nat): (j: nat)
    requires i <= |s|
    ensures i <= j <= |s| + 1
    ensures j <= |s| ==> MarkerHit(s, marker, j)
    ensures forall j' :: i <= j' < j && j' <= |s| ==> !MarkerHit(s, marker, j')
    decreases |s| - i
  {
    if MarkerHit(s, marker, i) then i
    else if i == |s| then |s| + 1
    else MarkerIndex(s, marker, i + 1)
  }

  /** `re.search(marker + r"\s+([A-Z]{2}\d{3}[A-Z]{2})", line)`, group 1. */
  function MarkerPlate(line: string, marker: string): (r: Option<string>)
    ensures r.Some? ==> PlateShape(r.value)
  {
    var j := MarkerIndex(line, marker, 0);
    if j <= |line| then PlateAfterSpace(line, j + |marker|) else None
  }

  /** A line holding the marker, a space and a plate is a plate line. */
  lemma MarkerPlateFound(pre: string, marker: string, p: string, post: string)
    requires PlateShape(p)
    ensures MarkerPlate(pre + marker + " " + p + post, marker).Some?
  {
    var s := pre + marker + " " + p + post;
    MarkerLayout(s, pre, marker, p, post);
    PlateAfterMarker(s, |pre| + |marker|, p);
    MarkerPlateHit(s, marker, |pre|);
  }

  lemma MarkerLayout(s: string, pre: string, marker: string, p: string, post: string)
    requires |p| == 7 && s == pre + marker + " " + p + post
    ensures |pre| + |marker| + 8 <= |s| && StartsAt(s, marker, |pre|)
    ensures s[|pre| + |marker|] == ' ' && s[|pre| + |marker| + 1..|pre| + |marker| + 8] == p
  {
    assert s[|pre|..|pre| + |marker|] == marker;
  }

  /** A hit anywhere makes the search succeed. */
  lemma MarkerPlateHit(s: string, marker: string, i: nat)
    requires i <= |s| && MarkerHit(s, marker, i)
    ensures MarkerPlate(s, marker).Some?
  {
  }

  /** A line that begins with the marker, a space and a plate yields that plate. */
  lemma MarkerPlateLeading(marker: string, p: string, post: string)
    requires PlateShape(p)
    ensures MarkerPlate(marker + " " + p + post, marker) == Some(p)
  {
    var s := marker + " " + p + post;
    assert s[..|marker|] == marker;
    PlateAfterMarker(s, |marker|, p);
  }

  lemma PlateAfterMarker(s: string, i: nat, p: string)
    requires PlateShape(p)
    requires i + 8 <= |s| && s[i] == ' ' && s[i + 1..i + 8] == p
    ensures PlateAfterSpace(s, i) == Some(p)
  {
    assert s[i + 1] == p[0];
    RunEndIs(s, i, i + 1, Space);
  }

  // ---------------------------------------------------------------- Esso

  /** `Carta:\s*\d+\s+` then a plate, at position `i`. */
  function CartaAt(s: string, i: nat): (r: Option<string>)
    requires i <= |s|
    ensures r.Some? ==> PlateShape(r.value)
  {
    if !StartsAt(s, "Carta:", i) then None
    else
      var a := RunEnd(s, i + 6, Space);
      var b := RunEnd(s, a, Digit);
      if b == a then None else PlateAfterSpace(s, b)
  }

  /** The leftmost position at or after `i` where the card pattern matches, or `|s| + 1`. */
  function CartaIndex(s: string, i: nat): (j: nat)
    requires i <= |s|
    ensures i <= j <= |s| + 1
    ensures j <= |s| ==> CartaAt(s, j).Some?
    ensures forall j' :: i <= j' < j && j' <= |s| ==> CartaAt(s, j').None?
    decreases |s| - i
  {
    if CartaAt(s, i).Some? then i
    else if i == |s| then |s| + 1
    else CartaIndex(s, i + 1)
  }

  /** `re.search(r"Carta:\s*\d+\s+([A-Z]{2}\d{3}[A-Z]{2})", line)`, group 1. */
  function CartaPlate(line: string): (r: Option<string>)
    ensures r.Some? ==> PlateShape(r.value)
  {
    var j := CartaIndex(line, 0);
    if j <= |line| then CartaAt(line, j) else None
  }

  /** A card header line "Carta: <digits> <plate> ..." yields its plate. */
  lemma CartaLine(d: string, p: string, post: string)
    requires Number(d) && PlateShape(p)
    ensures CartaPlate("Carta: " + d + " " + p + post) == Some(p)
  {
    var s := "Carta: " + d + " " + p + post;
    assert s[..6] == "Carta:";
    assert s[6] == ' ' && s[7] == d[0];
    assert !IsSpace(d[0]) by { assert InClass(d[0], Digit); }
    RunEndIs(s, 6, 7, Space);
    assert forall m :: 7 <= m < 7 + |d| ==> s[m] == d[m - 7];
    assert s[7 + |d|] == ' ';
    RunEndIs(s, 7, 7 + |d|, Digit);
    assert s[7 + |d| + 1..7 + |d| + 8] == p;
    PlateAfterMarker(s, 7 + |d|, p);
  }
}
