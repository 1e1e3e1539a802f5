/**
  Character classes and string operations of the Python runtime that the
  extractors rely on: `str.isspace`, `str.strip`, `str.rstrip(c)`,
  `str.replace`, `in` on strings, `" ".join`, `str.split()` and `int()` on
  a string of ASCII digits.
 */
module Text {

  /** Python's `str.isspace()`, which is also what `\s` matches in a `str` pattern. */
  predicate IsSpace(c: char) {
    || c == ' '
    || ('\t' <= c <= '\r')
    || ('\U{1C}' <= c <= '\U{1F}')
    || c == '\U{85}' || c == '\U{A0}' || c == '\U{1680}'
    || ('\U{2000}' <= c <= '\U{200A}')
    || c == '\U{2028}' || c == '\U{2029}' || c == '\U{202F}' || c == '\U{205F}' || c == '\U{3000}'
  }

  predicate IsDigit(c: char) { '0' <= c <= '9' }
  predicate IsUpper(c: char) { 'A' <= c <= 'Z' }
  predicate IsLetter(c: char) { 'A' <= c <= 'Z' || 'a' <= c <= 'z' }
  /** The class `[\d,]` of the numeric-run patterns. */
  predicate IsDigitOrComma(c: char) { IsDigit(c) || c == ',' }

  /** The character classes the extractors' patterns use. */
  datatype Class = Space | NonSpace | Digit | DigitOrComma | Upper | Letter | UpperOrParen

  predicate InClass(c: char, k: Class) {
    match k
    case Space => IsSpace(c)
    case NonSpace => !IsSpace(c)
    case Digit => IsDigit(c)
    case DigitOrComma => IsDigitOrComma(c)
    case Upper => IsUpper(c)
    case Letter => IsLetter(c)
    case UpperOrParen => IsUpper(c) || c == '(' || c == ')'
  }

  /** Every character of `s` is in class `k`. */
  predicate AllIn(s: string, k: Class) {
    forall i :: 0 <= i < |s| ==> InClass(s[i], k)
  }

  predicate AllDigits(s: string) { AllIn(s, Digit) }

  /** `s` is exactly `n` ASCII digits (a regex `\d{n}` that must fill a whole token). */
  predicate DigitsN(s: string, n: nat) { |s| == n && AllDigits(s) }

  /** `s` is one or more ASCII digits (`\d+` filling a whole token). */
  predicate Number(s: string) { |s| > 0 && AllDigits(s) }

  /** `\d{2}<sep>\d{2}<sep>\d{y}` filling a whole token: a date such as 07.10.25 or 01/10/2025. */
  predicate DateToken(t: string, sep: char, y: nat) {
    && |t| == 6 + y
    && IsDigit(t[0]) && IsDigit(t[1]) && t[2] == sep
    && IsDigit(t[3]) && IsDigit(t[4]) && t[5] == sep
    && AllDigits(t[6..])
  }

  /** `\d{2}:\d{2}` filling a whole token. */
  predicate ClockToken(t: string) {
    |t| == 5 && IsDigit(t[0]) && IsDigit(t[1]) && t[2] == ':' && IsDigit(t[3]) && IsDigit(t[4])
  }

  /** The first index at or after `i` whose character is not in class `k` (or `|s|`). */
  function RunEnd(s: string, i: nat, k: Class): (j: nat)
    requires i <= |s|
    ensures i <= j <= |s|
    ensures forall m :: i <= m < j ==> InClass(s[m], k)
    ensures j < |s| ==> !InClass(s[j], k)
    decreases |s| - i
  {
    if i == |s| || !InClass(s[i], k) then i else RunEnd(s, i + 1, k)
  }

  /** A run of class `k` from `i` that stops at `e` ends at `e`. */
  lemma RunEndIs(s: string, i: nat, e: nat, k: Class)
    requires i <= e <= |s|
    requires forall m :: i <= m < e ==> InClass(s[m], k)
    requires e < |s| ==> !InClass(s[e], k)
    ensures RunEnd(s, i, k) == e
  {
  }

  /** A run of class `k` over the copy of `w` at `i` ends where `w` ends, when the next character is outside `k`. */
  lemma RunOver(s: string, i: nat, w: string, k: Class)
    requires i + |w| <= |s| && s[i..i + |w|] == w && AllIn(w, k)
    requires i + |w| < |s| ==> !InClass(s[i + |w|], k)
    ensures RunEnd(s, i, k) == i + |w|
  {
    forall m | i <= m < i + |w| ensures InClass(s[m], k) {
      assert s[m] == s[i..i + |w|][m - i];
    }
    RunEndIs(s, i, i + |w|, k);
  }

  /** The longest prefix of `s` in class `k`: what a greedy `[...]+` anchored at `s[0]` takes. */
  function RunPrefix(s: string, k: Class): (r: string)
    ensures r <= s && AllIn(r, k)
    ensures |r| < |s| ==> !InClass(s[|r|], k)
  {
    s[..RunEnd(s, 0, k)]
  }

  /** A string wholly in class `k` is its own longest `k` prefix. */
  lemma RunPrefixAll(s: string, k: Class)
    requires AllIn(s, k)
    ensures RunPrefix(s, k) == s
  {
    assert s[0..|s|] == s;
    RunOver(s, 0, s, k);
  }

  /** Characters of every class but `Space` are not whitespace. */
  lemma ClassNotSpace(c: char, k: Class)
    requires k != Space && InClass(c, k)
    ensures !IsSpace(c)
  {
  }

  /** A non-empty string of one class other than `Space` is a word. */
  lemma ClassWord(w: string, k: Class)
    requires k != Space && w != [] && AllIn(w, k)
    ensures IsWord(w)
  {
    forall i | 0 <= i < |w| ensures !IsSpace(w[i]) {
      ClassNotSpace(w[i], k);
    }
  }

  lemma DateWord(t: string, sep: char, y: nat)
    requires DateToken(t, sep, y) && !IsSpace(sep)
    ensures IsWord(t)
  {
    forall i | 0 <= i < |t| ensures !IsSpace(t[i]) {
      if 6 <= i { assert t[6..][i - 6] == t[i]; }
    }
  }

  lemma ClockWord(t: string)
    requires ClockToken(t)
    ensures IsWord(t)
  {
  }

  // ---------------------------------------------------------------- strip

  /** The first index at or before `j` from which `s[..j]` ends with characters of class `k` only. */
  function RunStart(s: string, j: nat, k: Class): (i: nat)
    requires j <= |s|
    ensures i <= j
    ensures forall m :: i <= m < j ==> InClass(s[m], k)
    ensures i > 0 ==> !InClass(s[i - 1], k)
  {
    if j == 0 || !InClass(s[j - 1], k) then j else RunStart(s, j - 1, k)
  }

  /** `s` without its leading whitespace. */
  function TrimLeft(s: string): string {
    s[RunEnd(s, 0, Space)..]
  }

  /** `s` without its trailing whitespace. */
  function TrimRight(s: string): string {
    s[..RunStart(s, |s|, Space)]
  }

  /** Python's `str.strip()`. */
  function Strip(s: string): string {
    TrimRight(TrimLeft(s))
  }

  /** `str.strip()` leaves no whitespace at either end, and changes nothing else. */
  lemma StripSpec(s: string)
    ensures var r := Strip(s);
      && (r == [] || (!IsSpace(r[0]) && !IsSpace(r[|r| - 1])))
      && (r == [] <==> AllIn(s, Space))
      && ((s == [] || (!IsSpace(s[0]) && !IsSpace(s[|s| - 1]))) ==> r == s)
  {
    var i := RunEnd(s, 0, Space);
    var l := s[i..];
    var j := RunStart(l, |l|, Space);
    var r := l[..j];
    assert r == Strip(s);
    if r != [] {
      assert r[0] == l[0];
      assert r[|r| - 1] == l[j - 1];
    }
    if AllIn(s, Space) {
      assert i == |s|;
    }
    if s != [] && !IsSpace(s[0]) && !IsSpace(s[|s| - 1]) {
      assert i == 0;
      assert l == s;
      assert j == |l|;
    }
  }

  /** Python's `str.rstrip(c)` for a single character `c`. */
  function RStripChar(s: string, c: char): (r: string)
    ensures r <= s
    ensures r == [] || r[|r| - 1] != c
    ensures forall k :: |r| <= k < |s| ==> s[k] == c
  {
    if s != [] && s[|s| - 1] == c then RStripChar(s[..|s| - 1], c) else s
  }

  // ---------------------------------------------------------------- replace

  /** Python's `s.replace(c, "")`. */
  function DeleteChar(s: string, c: char): (r: string)
    ensures c !in r
    ensures |r| <= |s|
  {
    if s == [] then [] else (if s[0] == c then [] else [s[0]]) + DeleteChar(s[1..], c)
  }

  /** Python's `s.replace(a, b)` for single characters. */
  function ReplaceChar(s: string, a: char, b: char): (r: string)
    ensures |r| == |s|
    ensures forall i :: 0 <= i < |s| ==> r[i] == if s[i] == a then b else s[i]
  {
    seq(|s|, i requires 0 <= i < |s| => if s[i] == a then b else s[i])
  }

  lemma {:induction false} DeleteCharAppend(x: string, y: string, c: char)
    ensures DeleteChar(x + y, c) == DeleteChar(x, c) + DeleteChar(y, c)
  {
    if x == [] {
      assert x + y == y;
    } else {
      assert (x + y)[0] == x[0];
      assert (x + y)[1..] == x[1..] + y;
      DeleteCharAppend(x[1..], y, c);
    }
  }

  /** Deleting `c` leaves any other single character in place. */
  lemma DeleteCharOther(d: char, c: char)
    requires d != c
    ensures DeleteChar([d], c) == [d]
  {
    assert [d][1..] == [];
  }

  /** Deleting a character the string does not contain changes nothing. */
  lemma {:induction false} DeleteCharAbsent(s: string, c: char)
    requires c !in s
    ensures DeleteChar(s, c) == s
  {
    if s != [] {
      DeleteCharAbsent(s[1..], c);
    }
  }

  // ---------------------------------------------------------------- substring

  predicate StartsAt(s: string, sub: string, i: nat) {
    i + |sub| <= |s| && s[i..i + |sub|] == sub
  }

  /** Python's `sub in s`. */
  predicate Contains(s: string, sub: string) {
    exists i: nat | i <= |s| :: StartsAt(s, sub, i)
  }

  /** Every string that contains `big` contains each prefix of `big`. */
  lemma ContainsPrefix(s: string, big: string, small: string)
    requires small <= big
    requires Contains(s, big)
    ensures Contains(s, small)
  {
    var i: nat :| i <= |s| && StartsAt(s, big, i);
    assert s[i..i + |small|] == big[..|small|];
    assert StartsAt(s, small, i);
  }

  /** A string contains what it is built around. */
  lemma ContainsMiddle(pre: string, sub: string, post: string)
    ensures Contains(pre + sub + post, sub)
  {
    var s := pre + sub + post;
    assert s[|pre|..|pre| + |sub|] == sub;
    assert StartsAt(s, sub, |pre|);
  }

  /**
    A string without the character `sep` found in `a + [sep] + b` lies wholly in `a`
    or wholly in `b`.
   */
  lemma ContainsAcrossSeparator(a: string, sep: char, b: string, sub: string)
    requires sep !in sub && sub != []
    requires Contains(a + [sep] + b, sub)
    ensures Contains(a, sub) || Contains(b, sub)
  {
    var s := a + [sep] + b;
    var i: nat :| i <= |s| && StartsAt(s, sub, i);
    if i + |sub| <= |a| {
      assert a[i..i + |sub|] == s[i..i + |sub|];
      assert StartsAt(a, sub, i);
    } else if i > |a| {
      var j: nat := i - |a| - 1;
      var inB, inS := b[j..j + |sub|], s[i..i + |sub|];
      forall m | 0 <= m < |sub| ensures inB[m] == inS[m] {
        assert s[i + m] == b[j + m];
      }
      assert inB == inS;
      assert StartsAt(b, sub, j);
    } else {
      CharOfMatch(s, sub, i, |a| - i);
      assert false;
    }
  }

  lemma CharOfMatch(s: string, sub: string, i: nat, m: nat)
    requires StartsAt(s, sub, i) && m < |sub|
    ensures s[i + m] == sub[m]
  {
  }

  lemma ContainsLeft(a: string, b: string, sub: string)
    requires Contains(a, sub)
    ensures Contains(a + b, sub)
  {
    var i: nat :| i <= |a| && StartsAt(a, sub, i);
    assert (a + b)[i..i + |sub|] == a[i..i + |sub|];
    assert StartsAt(a + b, sub, i);
  }

  lemma ContainsRight(a: string, b: string, sub: string)
    requires Contains(b, sub)
    ensures Contains(a + b, sub)
  {
    var i: nat :| i <= |b| && StartsAt(b, sub, i);
    assert (a + b)[|a| + i..|a| + i + |sub|] == b[i..i + |sub|];
    assert StartsAt(a + b, sub, |a| + i);
  }

  /** Python's `any(m in s for m in markers)`. */
  predicate ContainsAny(s: string, markers: seq<string>) {
    exists i :: 0 <= i < |markers| && Contains(s, markers[i])
  }

  // ---------------------------------------------------------------- case

  function LowerChar(c: char): char {
    if 'A' <= c <= 'Z' then (c as int + 32) as char else c
  }

  /** Equality under a case-insensitive regex (ASCII letters only). */
  predicate EqualsIgnoreCase(a: string, b: string) {
    |a| == |b| && forall i :: 0 <= i < |a| ==> LowerChar(a[i]) == LowerChar(b[i])
  }

  // ---------------------------------------------------------------- join and split

  /** Python's `" ".join(ws)`. */
  function Join(ws: seq<string>): string {
    if |ws| == 0 then "" else if |ws| == 1 then ws[0] else ws[0] + " " + Join(ws[1..])
  }

  lemma JoinNonEmpty(ws: seq<string>)
    requires |ws| > 0 && ws[0] != []
    ensures Join(ws) != []
  {
  }

  /** Joining one more word appends a space and the word. */
  lemma {:induction false} JoinSnoc(ws: seq<string>, w: string)
    requires |ws| > 0
    ensures Join(ws + [w]) == Join(ws) + " " + w
    decreases |ws|
  {
    if |ws| > 1 {
      assert (ws + [w])[1..] == ws[1..] + [w];
      JoinSnoc(ws[1..], w);
    } else {
      assert (ws + [w])[1..] == [w];
    }
  }

  /** Joining two non-empty runs of words puts one space between them. */
  lemma {:induction false} JoinAppend(a: seq<string>, b: seq<string>)
    requires |a| > 0 && |b| > 0
    ensures Join(a + b) == Join(a) + " " + Join(b)
    decreases |a|
  {
    if |a| == 1 {
      assert (a + b)[1..] == b;
    } else {
      assert (a + b)[1..] == a[1..] + b;
      JoinAppend(a[1..], b);
    }
  }

  /** A character other than the space that no word holds is not in their join. */
  lemma {:induction false} JoinWithout(ws: seq<string>, c: char)
    requires c != ' '
    requires forall k :: 0 <= k < |ws| ==> c !in ws[k]
    ensures c !in Join(ws)
    decreases |ws|
  {
    if |ws| > 1 {
      JoinWithout(ws[1..], c);
    }
  }

  /** A word as the layout collaborator emits it: non-empty, without whitespace. */
  predicate IsWord(w: string) { w != [] && AllIn(w, NonSpace) }

  /** Python's `s.split()`: the maximal runs of non-whitespace characters, in order. */
  function Tokens(s: string): (ts: seq<string>)
    ensures forall k :: 0 <= k < |ts| ==> IsWord(ts[k])
    decreases |s|
  {
    var t := TrimLeft(s);
    if t == [] then []
    else
      assert !InClass(t[0], Space);
      var n := RunEnd(t, 0, NonSpace);
      [t[..n]] + Tokens(t[n..])
  }

  lemma {:induction false} RunEndOverWord(w: string, rest: string, i: nat)
    requires i <= |w| && AllIn(w, NonSpace)
    requires rest == [] || IsSpace(rest[0])
    ensures RunEnd(w + rest, i, NonSpace) == |w|
    decreases |w| - i
  {
    if i < |w| {
      RunEndOverWord(w, rest, i + 1);
    } else if rest != [] {
      assert (w + rest)[i] == rest[0];
    }
  }

  lemma TokensLeadingSpace(s: string)
    ensures Tokens(" " + s) == Tokens(s)
  {
    assert (" " + s)[1..] == s;
    assert TrimLeft(" " + s) == TrimLeft(s);
  }

  /** Splitting a space-joined line of words gives back the words. */
  lemma {:induction false} TokensOfJoin(ws: seq<string>)
    requires forall k :: 0 <= k < |ws| ==> IsWord(ws[k])
    ensures Tokens(Join(ws)) == ws
    decreases |ws|
  {
    if |ws| == 1 {
      TokensOfWordThen(ws[0], "");
      assert ws[0] + "" == ws[0];
    } else if |ws| > 1 {
      TokensOfJoin(ws[1..]);
      TokensOfJoinStep(ws);
    }
  }

  lemma TokensOfJoinStep(ws: seq<string>)
    requires |ws| > 1 && IsWord(ws[0])
    requires Tokens(Join(ws[1..])) == ws[1..]
    ensures Tokens(Join(ws)) == ws
  {
    var tail := Join(ws[1..]);
    assert Join(ws) == ws[0] + (" " + tail);
    TokensOfWordThen(ws[0], " " + tail);
    TokensLeadingSpace(tail);
    assert ws == [ws[0]] + ws[1..];
  }

  /** A word followed by nothing or by whitespace is the first token. */
  lemma TokensOfWordThen(w: string, rest: string)
    requires IsWord(w)
    requires rest == [] || IsSpace(rest[0])
    ensures Tokens(w + rest) == [w] + Tokens(rest)
  {
    var s := w + rest;
    assert TrimLeft(s) == s by { assert s[0] == w[0]; }
    RunEndOverWord(w, rest, 0);
    assert s[..|w|] == w;
    assert s[|w|..] == rest;
  }

  /** A space-joined line of words needs no stripping. */
  lemma {:induction false} StripJoin(ws: seq<string>)
    requires forall k :: 0 <= k < |ws| ==> IsWord(ws[k])
    ensures Strip(Join(ws)) == Join(ws)
    ensures Join(ws) == [] <==> ws == []
    decreases |ws|
  {
    if |ws| > 0 {
      var s := Join(ws);
      assert s[0] == ws[0][0];
      assert TrimLeft(s) == s;
      if |ws| == 1 {
        assert s[|s| - 1] == ws[0][|ws[0]| - 1];
      } else {
        StripJoin(ws[1..]);
        var t := Join(ws[1..]);
        assert s == ws[0] + " " + t;
        assert s[|s| - 1] == t[|t| - 1];
      }
    }
  }

  // ---------------------------------------------------------------- digits

  function DigitOf(c: char): nat {
    if IsDigit(c) then (c as int) - ('0' as int) else 0
  }

  /** Python's `int(s)` on a string of ASCII digits (callers check `AllDigits(s)`). */
  function Val(s: string): nat {
    if s == [] then 0 else 10 * Val(s[..|s| - 1]) + DigitOf(s[|s| - 1])
  }

  function Pow10(n: nat): (r: nat)
    ensures r >= 1
  {
    if n == 0 then 1 else 10 * Pow10(n - 1)
  }

  lemma AllDigitsAppend(a: string, b: string)
    requires AllDigits(a) && AllDigits(b)
    ensures AllDigits(a + b)
  {
    forall i | 0 <= i < |a + b| ensures IsDigit((a + b)[i]) {
      if i < |a| { assert (a + b)[i] == a[i]; } else { assert (a + b)[i] == b[i - |a|]; }
    }
  }

  lemma ShiftDigit(x: int, p: int, y: int, d: int)
    ensures 10 * (x * p + y) + d == x * (10 * p) + (10 * y + d)
  {
  }

  /** The value of a digit string is read most significant digit first. */
  lemma {:induction false} ValAppend(a: string, b: string)
    ensures Val(a + b) == Val(a) * Pow10(|b|) + Val(b)
    decreases |b|
  {
    if b == [] {
      assert a + b == a;
    } else {
      var b' := b[..|b| - 1];
      var d := DigitOf(b[|b| - 1]);
      assert (a + b)[..|a + b| - 1] == a + b';
      assert (a + b)[|a + b| - 1] == b[|b| - 1];
      ValAppend(a, b');
      ShiftDigit(Val(a), Pow10(|b'|), Val(b'), d);
    }
  }

  /** The value of `n` digits is below `10^n`. */
  lemma {:induction false} ValBound(s: string)
    ensures Val(s) < Pow10(|s|)
  {
    if s != [] {
      ValBound(s[..|s| - 1]);
    }
  }
}
