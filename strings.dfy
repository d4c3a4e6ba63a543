/** The parts of Python's `str` that the lottery client relies on, over `seq<char>`. */
module Strings {

  // ---------------------------------------------------------------- whitespace

  /** Python's `str.isspace` for one character; `strip()`, `split()` and the regex class `\s` use this set. */
  predicate IsSpace(c: char) {
    c == ' ' || ('\t' <= c <= '\r') || ('\U{1C}' <= c <= '\U{1F}') || c == '\U{85}' || c == '\U{A0}'
    || c == '\U{1680}' || ('\U{2000}' <= c <= '\U{200A}') || c == '\U{2028}' || c == '\U{2029}'
    || c == '\U{202F}' || c == '\U{205F}' || c == '\U{3000}'
  }

  /** `s.lstrip()`: drops the leading whitespace and nothing else. */
  function LStrip(s: string): (r: string)
    ensures |r| <= |s|
    ensures r != [] ==> !IsSpace(r[0])
    ensures forall i :: 0 <= i < |s| - |r| ==> IsSpace(s[i])
  {
    if |s| > 0 && IsSpace(s[0]) then LStrip(s[1..]) else s
  }

  /** `s.rstrip()`: drops the trailing whitespace and nothing else. */
  function RStrip(s: string): (r: string)
    ensures |r| <= |s| && r == s[..|r|]
    ensures r != [] ==> !IsSpace(r[|r| - 1])
    ensures forall i :: |r| <= i < |s| ==> IsSpace(s[i])
  {
    if |s| > 0 && IsSpace(s[|s| - 1]) then RStrip(s[..|s| - 1]) else s
  }

  /** `s.strip()`. */
  function Strip(s: string): string {
    RStrip(LStrip(s))
  }

  /** A non-empty run of non-whitespace characters. */
  predicate IsWord(w: string) {
    w != [] && forall i :: 0 <= i < |w| ==> !IsSpace(w[i])
  }

  /** The longest prefix of `s` that holds no whitespace. */
  function TakeWord(s: string): (w: string)
    ensures |w| <= |s| && w == s[..|w|]
    ensures forall i :: 0 <= i < |w| ==> !IsSpace(w[i])
    ensures |w| < |s| ==> IsSpace(s[|w|])
  {
    if s == [] || IsSpace(s[0]) then [] else [s[0]] + TakeWord(s[1..])
  }

  /** `s.split()` with no argument: the maximal runs of non-whitespace, in order. */
  function Words(s: string): (ws: seq<string>)
    ensures forall k :: 0 <= k < |ws| ==> IsWord(ws[k])
    decreases |s|
  {
    var t := LStrip(s);
    if t == [] then [] else
    var w := TakeWord(t);
    [w] + Words(t[|w|..])
  }

  /** `" ".join(s.split())`: every run of whitespace becomes one space, and the ends are trimmed. */
  function CollapseSpaces(s: string): string {
    Join(Words(s), " ")
  }

  /** The shape `CollapseSpaces` produces: no whitespace at either end, and every whitespace
      character is a single space between two non-whitespace characters. */
  predicate SingleSpaced(r: string) {
    forall i :: 0 <= i < |r| && IsSpace(r[i]) ==>
      r[i] == ' ' && 0 < i < |r| - 1 && !IsSpace(r[i - 1]) && !IsSpace(r[i + 1])
  }

  /** What `lstrip` leaves is a suffix of its input. */
  lemma {:induction false} LStripSuffix(s: string)
    ensures LStrip(s) == s[|s| - |LStrip(s)|..]
  {
    if |s| > 0 && IsSpace(s[0]) {
      LStripSuffix(s[1..]);
      assert s[1..][|s| - 1 - |LStrip(s)|..] == s[|s| - |LStrip(s)|..];
    }
  }

  lemma LStripIdempotent(s: string)
    ensures LStrip(LStrip(s)) == LStrip(s)
  {
  }

  lemma TakeWordOfWord(w: string, rest: string)
    requires forall i :: 0 <= i < |w| ==> !IsSpace(w[i])
    requires rest == [] || IsSpace(rest[0])
    ensures TakeWord(w + rest) == w
  {
    if w != [] {
      assert (w + rest)[1..] == w[1..] + rest;
      TakeWordOfWord(w[1..], rest);
    }
  }

  lemma WordsAfterSpace(j: string)
    requires j != [] && !IsSpace(j[0])
    ensures Words(" " + j) == Words(j)
  {
    assert (" " + j)[1..] == j;
    assert LStrip(" " + j) == j;
  }

  /** A word followed by whitespace (or nothing) is the first word. */
  lemma WordsCons(w: string, rest: string)
    requires IsWord(w)
    requires rest == [] || IsSpace(rest[0])
    ensures Words(w + rest) == [w] + Words(rest)
  {
    var s := w + rest;
    assert s[0] == w[0];
    assert LStrip(s) == s;
    TakeWordOfWord(w, rest);
    assert s[|w|..] == rest;
  }

  lemma WordsOfSpaced(w: string, j: string)
    requires IsWord(w) && j != [] && !IsSpace(j[0])
    ensures Words(w + " " + j) == [w] + Words(j)
  {
    assert w + " " + j == w + (" " + j);
    WordsCons(w, " " + j);
    WordsAfterSpace(j);
  }

  /** Splitting words that were joined by single spaces gives the words back. */
  lemma {:induction false} WordsOfJoin(ws: seq<string>)
    requires forall k :: 0 <= k < |ws| ==> IsWord(ws[k])
    ensures Words(Join(ws, " ")) == ws
  {
    if |ws| <= 1 {
      WordsOfJoinShort(ws);
    } else {
      WordsOfJoin(ws[1..]);
      WordsOfJoinStep(ws);
    }
  }

  lemma WordsOfEmpty()
    ensures Words([]) == []
  {
    assert LStrip([]) == [];
  }

  lemma WordsOfWordThenNothing(w: string)
    requires IsWord(w)
    ensures Words(w + []) == [w]
  {
    WordsCons(w, []);
    WordsOfEmpty();
  }

  /** A single word splits into itself. */
  lemma WordsOfWord(w: string)
    requires IsWord(w)
    ensures Words(w) == [w]
  {
    WordsOfWordThenNothing(w);
    assert w + [] == w;
  }

  lemma WordsOfJoinShort(ws: seq<string>)
    requires |ws| <= 1 && forall k :: 0 <= k < |ws| ==> IsWord(ws[k])
    ensures Words(Join(ws, " ")) == ws
  {
    if |ws| == 0 {
      WordsOfEmpty();
    } else {
      WordsOfWord(ws[0]);
      assert [ws[0]] == ws;
    }
  }

  lemma WordsOfJoinStep(ws: seq<string>)
    requires |ws| > 1 && forall k :: 0 <= k < |ws| ==> IsWord(ws[k])
    requires Words(Join(ws[1..], " ")) == ws[1..]
    ensures Words(Join(ws, " ")) == ws
  {
    JoinOfWordsStartsWithWord(ws[1..]);
    WordsOfSpaced(ws[0], Join(ws[1..], " "));
    assert [ws[0]] + ws[1..] == ws;
  }

  lemma {:induction false} JoinOfWordsStartsWithWord(ws: seq<string>)
    requires |ws| > 0
    requires forall k :: 0 <= k < |ws| ==> IsWord(ws[k])
    ensures Join(ws, " ") != [] && !IsSpace(Join(ws, " ")[0])
  {
    if |ws| > 1 {
      assert Join(ws, " ") == ws[0] + " " + Join(ws[1..], " ");
      assert Join(ws, " ")[0] == ws[0][0];
    }
  }

  /** Collapsing whitespace twice changes nothing more. */
  lemma CollapseSpacesIdempotent(s: string)
    ensures CollapseSpaces(CollapseSpaces(s)) == CollapseSpaces(s)
  {
    WordsOfJoin(Words(s));
  }

  /** Collapsed text has only single spaces between words. */
  lemma {:induction false} JoinOfWordsSingleSpaced(ws: seq<string>)
    requires forall k :: 0 <= k < |ws| ==> IsWord(ws[k])
    ensures SingleSpaced(Join(ws, " "))
  {
    if |ws| > 1 {
      var w, j := ws[0], Join(ws[1..], " ");
      JoinOfWordsSingleSpaced(ws[1..]);
      JoinOfWordsStartsWithWord(ws[1..]);
      var r := w + " " + j;
      assert Join(ws, " ") == r;
      forall i | 0 <= i < |r|
        ensures IsSpace(r[i]) ==> r[i] == ' ' && 0 < i < |r| - 1 && !IsSpace(r[i - 1]) && !IsSpace(r[i + 1])
      {
        if i < |w| {
          assert r[i] == w[i];
        } else if i == |w| {
          assert r[i - 1] == w[|w| - 1];
          assert r[i + 1] == j[0];
        } else {
          var k := i - |w| - 1;
          assert r[i] == j[k];
          if IsSpace(r[i]) {
            assert k > 0 && k < |j| - 1;
            assert r[i - 1] == j[k - 1] && r[i + 1] == j[k + 1];
          }
        }
      }
    }
  }

  lemma CollapseSpacesSingleSpaced(s: string)
    ensures SingleSpaced(CollapseSpaces(s))
  {
    JoinOfWordsSingleSpaced(Words(s));
  }

  // ---------------------------------------------------------------- split and join

  /** `s.split(sep)` for a one-character separator: always at least one piece. */
  function Split(s: string, sep: char): (r: seq<string>)
    ensures |r| >= 1
    ensures forall k :: 0 <= k < |r| ==> sep !in r[k]
    decreases |s|
  {
    if s == [] then [""]
    else if s[0] == sep then [""] + Split(s[1..], sep)
    else
      var rest := Split(s[1..], sep);
      [[s[0]] + rest[0]] + rest[1..]
  }

  /** `sep.join(parts)`. */
  function Join(parts: seq<string>, sep: string): string {
    if |parts| == 0 then ""
    else if |parts| == 1 then parts[0]
    else parts[0] + sep + Join(parts[1..], sep)
  }

  lemma {:induction false} SplitOfPiece(w: string, sep: char)
    requires sep !in w
    ensures Split(w, sep) == [w]
  {
    if w != [] {
      SplitOfPiece(w[1..], sep);
      assert [w[0]] + w[1..] == w;
    }
  }

  lemma {:induction false} SplitOfPieceThenSep(w: string, sep: char, rest: string)
    requires sep !in w
    ensures Split(w + [sep] + rest, sep) == [w] + Split(rest, sep)
  {
    if w == [] {
      assert ([] + [sep] + rest)[1..] == rest;
    } else {
      assert (w + [sep] + rest)[1..] == w[1..] + [sep] + rest;
      SplitOfPieceThenSep(w[1..], sep, rest);
      assert [w[0]] + w[1..] == w;
    }
  }

  /** Joining pieces that hold no separator and splitting again gives the pieces back. */
  lemma {:induction false} SplitJoin(parts: seq<string>, sep: char)
    requires |parts| >= 1
    requires forall k :: 0 <= k < |parts| ==> sep !in parts[k]
    ensures Split(Join(parts, [sep]), sep) == parts
  {
    if |parts| == 1 {
      SplitOfPiece(parts[0], sep);
    } else {
      SplitJoin(parts[1..], sep);
      SplitOfPieceThenSep(parts[0], sep, Join(parts[1..], [sep]));
      assert [parts[0]] + parts[1..] == parts;
    }
  }

  lemma JoinConsChar(a: char, p: string, q: seq<string>, sep: string)
    ensures Join([[a] + p] + q, sep) == [a] + Join([p] + q, sep)
  {
    if |q| > 0 {
      assert ([[a] + p] + q)[1..] == q;
      assert ([p] + q)[1..] == q;
    }
  }

  /** Splitting and joining with the same separator gives the text back. */
  lemma {:induction false} JoinSplit(s: string, sep: char)
    ensures Join(Split(s, sep), [sep]) == s
    decreases |s|
  {
    if s == [] {
    } else if s[0] == sep {
      JoinSplit(s[1..], sep);
      assert ([""] + Split(s[1..], sep))[1..] == Split(s[1..], sep);
      assert [s[0]] + s[1..] == s;
    } else {
      var rest := Split(s[1..], sep);
      JoinSplit(s[1..], sep);
      JoinConsChar(s[0], rest[0], rest[1..], [sep]);
      assert [rest[0]] + rest[1..] == rest;
      assert [s[0]] + s[1..] == s;
    }
  }

  // ---------------------------------------------------------------- search

  /** `s.startswith(p)`. */
  predicate StartsWith(s: string, p: string) {
    |p| <= |s| && s[..|p|] == p
  }

  /** Python's `p in s` on strings. */
  predicate Contains(s: string, p: string)
    decreases |s|
  {
    StartsWith(s, p) || (|s| > 0 && Contains(s[1..], p))
  }

  /** `p` occurs in `s` starting at position `k`. */
  predicate OccursAt(s: string, p: string, k: int) {
    0 <= k && k + |p| <= |s| && s[k..k + |p|] == p
  }

  /** `p in s` holds exactly when `p` occurs at some position of `s`. */
  lemma {:induction false} ContainsIff(s: string, p: string)
    ensures Contains(s, p) <==> exists k :: OccursAt(s, p, k)
    decreases |s|
  {
    if StartsWith(s, p) {
      assert OccursAt(s, p, 0);
    } else if |s| > 0 {
      ContainsIff(s[1..], p);
      if exists k :: OccursAt(s, p, k) {
        var k :| OccursAt(s, p, k);
        assert k != 0;
        assert OccursAt(s[1..], p, k - 1) by { assert s[1..][k - 1..k - 1 + |p|] == s[k..k + |p|]; }
      }
      if Contains(s[1..], p) {
        var k :| OccursAt(s[1..], p, k);
        assert OccursAt(s, p, k + 1) by { assert s[1..][k..k + |p|] == s[k + 1..k + 1 + |p|]; }
      }
    }
  }

  /** A text that has `p` somewhere inside contains `p`. */
  lemma ContainsInside(a: string, p: string, b: string)
    ensures Contains(a + p + b, p)
  {
    var s := a + p + b;
    assert OccursAt(s, p, |a|) by { assert s[|a|..|a| + |p|] == p; }
    ContainsIff(s, p);
  }

  /** A text in the suffix `s[i..]` is in `s`. */
  lemma ContainsInSuffix(s: string, i: nat, p: string)
    requires i <= |s| && Contains(s[i..], p)
    ensures Contains(s, p)
  {
    ContainsIff(s[i..], p);
    var k :| OccursAt(s[i..], p, k);
    assert s[i..][k..k + |p|] == s[i + k..i + k + |p|];
    assert OccursAt(s, p, i + k);
    ContainsIff(s, p);
  }

  /** `in` is transitive. */
  lemma ContainsTrans(t: string, w: string, p: string)
    requires Contains(t, w) && Contains(w, p)
    ensures Contains(t, p)
  {
    ContainsIff(t, w);
    ContainsIff(w, p);
    var i :| OccursAt(t, w, i);
    var k :| OccursAt(w, p, k);
    assert t[i + k..i + k + |p|] == p by {
      forall x | 0 <= x < |p|
        ensures t[i + k + x] == p[x]
      {
        assert p[x] == w[k + x] == t[i + k + x];
      }
    }
    assert OccursAt(t, p, i + k);
    ContainsIff(t, p);
  }

  /** Every word `split()` returns is a piece of the text. */
  lemma {:induction false} WordsInside(t: string)
    ensures forall k :: 0 <= k < |Words(t)| ==> Contains(t, Words(t)[k])
    decreases |t|
  {
    var u := LStrip(t);
    if u != [] {
      var w := TakeWord(u);
      var rest := u[|w|..];
      var ws := Words(t);
      assert ws == [w] + Words(rest);
      LStripSuffix(t);
      var a := |t| - |u|;
      assert t[a..a + |w|] == w;
      assert OccursAt(t, w, a);
      ContainsIff(t, w);
      WordsInside(rest);
      assert rest == t[a + |w|..];
      forall k | 1 <= k < |ws|
        ensures Contains(t, ws[k])
      {
        assert ws[k] == Words(rest)[k - 1];
        ContainsInSuffix(t, a + |w|, ws[k]);
      }
    }
  }

  /** Where a space-free text occurs in words joined by single spaces, it occurs inside one word. */
  lemma {:induction false} JoinOccurrence(ws: seq<string>, p: string)
    requires IsWord(p)
    ensures Contains(Join(ws, " "), p) ==> exists k :: 0 <= k < |ws| && Contains(ws[k], p)
  {
    if |ws| == 1 {
      assert Join(ws, " ") == ws[0];
    } else if |ws| > 1 {
      var w, j := ws[0], Join(ws[1..], " ");
      assert Join(ws, " ") == w + " " + j;
      if Contains(w + " " + j, p) {
        SpacedOccurrence(w, j, p);
        if !Contains(w, p) {
          JoinOccurrence(ws[1..], p);
          var k :| 0 <= k < |ws[1..]| && Contains(ws[1..][k], p);
          assert ws[k + 1] == ws[1..][k];
        }
      }
    }
  }

  /** A space-free text found in `w + " " + j` lies inside `w` or inside `j`. */
  lemma SpacedOccurrence(w: string, j: string, p: string)
    requires IsWord(p) && Contains(w + " " + j, p)
    ensures Contains(w, p) || Contains(j, p)
  {
    var s := w + " " + j;
    ContainsIff(s, p);
    var m :| OccursAt(s, p, m);
    assert s[|w|] == ' ';
    assert forall i :: m <= i < m + |p| ==> s[i] == p[i - m];
    if m + |p| <= |w| {
      assert s[m..m + |p|] == w[m..m + |p|];
      assert OccursAt(w, p, m);
      ContainsIff(w, p);
    } else {
      assert m > |w|;
      assert s[m..m + |p|] == j[m - |w| - 1..m - |w| - 1 + |p|];
      assert OccursAt(j, p, m - |w| - 1);
      ContainsIff(j, p);
    }
  }

  /** Collapsing whitespace creates no occurrence of a space-free text. */
  lemma CollapseKeepsAbsent(t: string, p: string)
    requires IsWord(p) && !Contains(t, p)
    ensures !Contains(CollapseSpaces(t), p)
  {
    var ws := Words(t);
    JoinOccurrence(ws, p);
    WordsInside(t);
    if Contains(CollapseSpaces(t), p) {
      var k :| 0 <= k < |ws| && Contains(ws[k], p);
      ContainsTrans(t, ws[k], p);
    }
  }

  // ---------------------------------------------------------------- replace

  /** `s.replace(p, q)`: every non-overlapping occurrence of `p`, scanning from the left. */
  function Replace(s: string, p: string, q: string): string
    requires |p| > 0
    decreases |s|
  {
    if StartsWith(s, p) then q + Replace(s[|p|..], p, q)
    else if s == [] then []
    else [s[0]] + Replace(s[1..], p, q)
  }

  lemma {:induction false} ReplaceHead(s: string, p: string, q: string)
    requires |p| > 0 && |q| > 0
    ensures Replace(s, p, q) != [] ==> s != []
    ensures s != [] ==> (Replace(s, p, q) != [] &&
      Replace(s, p, q)[0] == (if StartsWith(s, p) then q[0] else s[0]))
  {
  }

  /** After replacing a two-character word by a non-empty text in which neither of its
      characters appears, the word no longer occurs. */
  lemma {:induction false} ReplaceRemoves(s: string, p: string, q: string)
    requires |p| == 2 && |q| > 0 && p[0] !in q && p[1] !in q
    ensures !Contains(Replace(s, p, q), p)
    decreases |s|
  {
    var r := Replace(s, p, q);
    if StartsWith(s, p) {
      var tail := Replace(s[|p|..], p, q);
      ReplaceRemoves(s[|p|..], p, q);
      NotContainsPrefixed(q, tail, p);
    } else if s != [] {
      var tail := Replace(s[1..], p, q);
      ReplaceRemoves(s[1..], p, q);
      assert r == [s[0]] + tail;
      ReplaceHead(s[1..], p, q);
      assert r[1..] == tail;
      assert |s| >= 2 ==> s[..2] == [s[0], s[1]];
    }
  }

  /** Replacing a text that does not occur changes nothing. */
  lemma {:induction false} ReplaceAbsent(s: string, p: string, q: string)
    requires |p| > 0 && !Contains(s, p)
    ensures Replace(s, p, q) == s
    decreases |s|
  {
    if s != [] {
      ReplaceAbsent(s[1..], p, q);
      assert [s[0]] + s[1..] == s;
    }
  }

  lemma {:induction false} NotContainsPrefixed(q: string, tail: string, p: string)
    requires |p| > 0 && p[0] !in q && !Contains(tail, p)
    ensures !Contains(q + tail, p)
    decreases |q|
  {
    if q != [] {
      assert (q + tail)[0] == q[0];
      assert !StartsWith(q + tail, p);
      assert (q + tail)[1..] == q[1..] + tail;
      NotContainsPrefixed(q[1..], tail, p);
    } else {
      assert q + tail == tail;
    }
  }

  // ---------------------------------------------------------------- decimal numbers

  predicate IsDigit(c: char) {
    '0' <= c <= '9'
  }

  predicate IsDigits(s: string) {
    forall i :: 0 <= i < |s| ==> IsDigit(s[i])
  }

  function DigitChar(d: nat): (c: char)
    requires d < 10
    ensures IsDigit(c)
  {
    (48 + d) as char
  }

  function DigitValue(c: char): (d: nat)
    requires IsDigit(c)
    ensures d < 10
  {
    c as int - 48
  }

  /** Python's `str(n)` for a non-negative integer: digits with no leading zero. */
  function NatToDecimal(n: nat): (s: string)
    ensures |s| >= 1 && IsDigits(s)
    ensures |s| > 1 ==> s[0] != '0'
  {
    if n < 10 then [DigitChar(n)] else NatToDecimal(n / 10) + [DigitChar(n % 10)]
  }

  /** The number a string of decimal digits denotes (`int(s)`; the empty string gives 0). */
  function DecimalValue(s: string): nat
    requires IsDigits(s)
  {
    if s == [] then 0 else DecimalValue(s[..|s| - 1]) * 10 + DigitValue(s[|s| - 1])
  }

  /** Reading back the digits `str` wrote gives the number. */
  lemma {:induction false} DecimalRoundTrip(n: nat)
    ensures DecimalValue(NatToDecimal(n)) == n
  {
    if n >= 10 {
      DecimalRoundTrip(n / 10);
      var s := NatToDecimal(n);
      assert s[..|s| - 1] == NatToDecimal(n / 10);
    }
  }

  /** `str(i)` for any integer. */
  function IntToDecimal(i: int): string {
    if i < 0 then "-" + NatToDecimal(-i) else NatToDecimal(i)
  }

  /** `int(s)` for an optional minus sign followed by digits. */
  function IntValue(s: string): int
    requires s != [] && (IsDigits(s) || (s[0] == '-' && IsDigits(s[1..])))
  {
    if s[0] == '-' then 0 - DecimalValue(s[1..]) else DecimalValue(s)
  }

  lemma IntRoundTrip(i: int)
    ensures var s := IntToDecimal(i); s != [] && (IsDigits(s) || (s[0] == '-' && IsDigits(s[1..])))
    ensures IntValue(IntToDecimal(i)) == i
  {
    if i < 0 {
      assert ("-" + NatToDecimal(-i))[1..] == NatToDecimal(-i);
      DecimalRoundTrip(-i);
    } else {
      DecimalRoundTrip(i);
    }
  }

  function Zeros(n: nat): (s: string)
    ensures |s| == n && IsDigits(s)
    ensures forall i :: 0 <= i < n ==> s[i] == '0'
  {
    if n == 0 then [] else Zeros(n - 1) + "0"
  }

  /** `f"{n:0{width}d}"`: the decimal digits of `n`, left-padded with zeros to at least `width`. */
  function ZeroPad(n: nat, width: nat): (s: string)
    ensures IsDigits(s)
    ensures |s| == if |NatToDecimal(n)| < width then width else |NatToDecimal(n)|
  {
    var d := NatToDecimal(n);
    if |d| < width then Zeros(width - |d|) + d else d
  }

  function Pow10(k: nat): (p: nat)
    ensures p >= 1
  {
    if k == 0 then 1 else 10 * Pow10(k - 1)
  }

  lemma ShiftDigit(x: int, p: int, y: int, d: int)
    ensures (x * p + y) * 10 + d == x * (10 * p) + (y * 10 + d)
  {
  }

  /** The value of concatenated digit strings. */
  lemma {:induction false} DecimalValueConcat(a: string, b: string)
    requires IsDigits(a) && IsDigits(b)
    ensures IsDigits(a + b)
    ensures DecimalValue(a + b) == DecimalValue(a) * Pow10(|b|) + DecimalValue(b)
    decreases |b|
  {
    if b == [] {
      assert a + b == a;
    } else {
      var b' := b[..|b| - 1];
      assert (a + b)[..|a + b| - 1] == a + b';
      DecimalValueConcat(a, b');
      assert b[..|b| - 1] == b';
      ShiftDigit(DecimalValue(a), Pow10(|b'|), DecimalValue(b'), DigitValue(b[|b| - 1]));
    }
  }

  lemma {:induction false} ZerosValue(n: nat)
    ensures DecimalValue(Zeros(n)) == 0
  {
    if n > 0 {
      ZerosValue(n - 1);
      assert Zeros(n)[..n - 1] == Zeros(n - 1);
    }
  }

  /** Zero padding does not change the number the digits denote. */
  lemma {:induction false} ZeroPadValue(n: nat, width: nat)
    ensures DecimalValue(ZeroPad(n, width)) == n
  {
    var d := NatToDecimal(n);
    DecimalRoundTrip(n);
    if |d| < width {
      ZerosValue(width - |d|);
      LeadingZeros(Zeros(width - |d|), d);
    }
  }

  lemma LeadingZeros(z: string, d: string)
    requires IsDigits(z) && IsDigits(d) && DecimalValue(z) == 0
    ensures IsDigits(z + d) && DecimalValue(z + d) == DecimalValue(d)
  {
    DecimalValueConcat(z, d);
    assert DecimalValue(z) * Pow10(|d|) == 0;
  }

  lemma {:induction false} DecimalValueBound(s: string)
    requires IsDigits(s)
    ensures DecimalValue(s) < Pow10(|s|)
  {
    if s != [] {
      DecimalValueBound(s[..|s| - 1]);
    }
  }

  /** Python's `<` on strings: lexicographic by code point, a proper prefix first. */
  predicate StrLess(s: string, t: string)
    decreases |s|
  {
    if s == [] then t != []
    else t != [] && (s[0] < t[0] || (s[0] == t[0] && StrLess(s[1..], t[1..])))
  }

  /** The value of a digit string, read from its first digit. */
  lemma DecimalValueFront(s: string)
    requires IsDigits(s) && s != []
    ensures DecimalValue(s) == DigitValue(s[0]) * Pow10(|s| - 1) + DecimalValue(s[1..])
  {
    var c := [s[0]];
    assert c[..0] == [];
    assert DecimalValue(c) == DigitValue(s[0]);
    assert s == c + s[1..];
    DecimalValueConcat(c, s[1..]);
  }

  lemma LeadingDigitDecides(a: nat, x: nat, b: nat, y: nat, p: nat)
    requires a < b && x < p && y < p
    ensures a * p + x < b * p + y
  {
    var k := b - a - 1;
    Distribute(a, k, p);
    assert k * p >= 0;
  }

  lemma Distribute(a: int, k: int, p: int)
    ensures (a + 1 + k) * p == a * p + p + k * p
  {
  }

  /** For digit strings of one length, string order is numeric order. */
  lemma {:induction false} StrLessDigits(s: string, t: string)
    requires IsDigits(s) && IsDigits(t) && |s| == |t|
    ensures StrLess(s, t) <==> DecimalValue(s) < DecimalValue(t)
    decreases |s|
  {
    if s != [] {
      var p := Pow10(|s| - 1);
      DecimalValueFront(s);
      DecimalValueFront(t);
      DecimalValueBound(s[1..]);
      DecimalValueBound(t[1..]);
      var a, b := DigitValue(s[0]), DigitValue(t[0]);
      var x, y := DecimalValue(s[1..]), DecimalValue(t[1..]);
      if a < b {
        LeadingDigitDecides(a, x, b, y, p);
      } else if b < a {
        LeadingDigitDecides(b, y, a, x, p);
      } else {
        StrLessDigits(s[1..], t[1..]);
      }
    }
  }

  // ---------------------------------------------------------------- case

  /** Python's `str.upper` on one character, for ASCII letters and for the other characters
      whose full upper case holds an ASCII letter: ı, ſ, ß, the Latin ligatures, and ŉ, ǰ, ẖ, ẗ,
      ẘ, ẙ and ẚ, whose capital is an ASCII letter with a modifier or combining mark that has no
      case of its own; all other characters are left as they are. */
  function UpperChar(c: char): string {
    if 'a' <= c <= 'z' then [(c as int - 32) as char]
    else if c == '\U{131}' then "I"     // dotless i
    else if c == '\U{17F}' then "S"     // long s
    else if c == '\U{DF}' then "SS"     // sharp s
    else if c == '\U{FB00}' then "FF"
    else if c == '\U{FB01}' then "FI"
    else if c == '\U{FB02}' then "FL"
    else if c == '\U{FB03}' then "FFI"
    else if c == '\U{FB04}' then "FFL"
    else if c == '\U{FB05}' || c == '\U{FB06}' then "ST"
    else if c == '\U{149}' then "\U{2BC}N"
    else if c == '\U{1F0}' then "J\U{30C}"
    else if c == '\U{1E96}' then "H\U{331}"
    else if c == '\U{1E97}' then "T\U{308}"
    else if c == '\U{1E98}' then "W\U{30A}"
    else if c == '\U{1E99}' then "Y\U{30A}"
    else if c == '\U{1E9A}' then "A\U{2BE}"
    else [c]
  }

  /** `s.upper()`. */
  function Upper(s: string): string {
    if s == [] then [] else UpperChar(s[0]) + Upper(s[1..])
  }

  /** A character `UpperChar` leaves alone. */
  predicate UpperFixed(c: char) {
    UpperChar(c) == [c]
  }

  lemma {:induction false} UpperConcat(a: string, b: string)
    ensures Upper(a + b) == Upper(a) + Upper(b)
  {
    if a != [] {
      assert (a + b)[1..] == a[1..] + b;
      UpperConcat(a[1..], b);
    } else {
      assert a + b == b;
    }
  }

  /** Text in which every character is already upper case is its own upper case. */
  lemma {:induction false} UpperOfFixed(s: string)
    requires forall i :: 0 <= i < |s| ==> UpperFixed(s[i])
    ensures Upper(s) == s
  {
    if s != [] {
      UpperOfFixed(s[1..]);
      assert [s[0]] + s[1..] == s;
    }
  }

  /** Every character of a capital is its own upper case. */
  lemma UpperCharFixed(c: char)
    ensures forall i :: 0 <= i < |UpperChar(c)| ==> UpperFixed(UpperChar(c)[i])
  {
  }

  /** Upper-casing twice is upper-casing once. */
  lemma {:induction false} UpperIdempotent(s: string)
    ensures Upper(Upper(s)) == Upper(s)
  {
    if s != [] {
      var u := UpperChar(s[0]);
      UpperCharFixed(s[0]);
      UpperOfFixed(u);
      UpperConcat(u, Upper(s[1..]));
      UpperIdempotent(s[1..]);
    }
  }

  predicate IsAsciiLetter(c: char) {
    'a' <= c <= 'z' || 'A' <= c <= 'Z'
  }

  function AsciiUpper(c: char): char {
    if 'a' <= c <= 'z' then (c as int - 32) as char else c
  }

  /** On ASCII letters `upper` maps each character to its capital, one for one. */
  lemma {:induction false} UpperOfAscii(s: string)
    requires forall i :: 0 <= i < |s| ==> IsAsciiLetter(s[i])
    ensures |Upper(s)| == |s| && forall i :: 0 <= i < |s| ==> Upper(s)[i] == AsciiUpper(s[i])
  {
    if s != [] {
      UpperOfAscii(s[1..]);
      assert UpperChar(s[0]) == [AsciiUpper(s[0])];
      forall i | 1 <= i < |s|
        ensures Upper(s)[i] == AsciiUpper(s[i])
      {
        assert Upper(s)[i] == Upper(s[1..])[i - 1];
      }
    }
  }
}
