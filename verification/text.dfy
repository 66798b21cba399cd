/**
  Character classes and string helpers with Python's meaning, restricted to
  ASCII: `\d`, `\w`, `\s`, `str.upper`, `str.lower`, `str.split()`,
  `' '.join(...)`, `in` on strings and decimal rendering of integers.
  Non-ASCII characters never match `\d`, `\w` or `\s` here and are left
  unchanged by case mapping.
*/
module Text {

  predicate IsDigit(c: char) { '0' <= c <= '9' }
  predicate IsUpperLetter(c: char) { 'A' <= c <= 'Z' }
  predicate IsLowerLetter(c: char) { 'a' <= c <= 'z' }

  /** `\w` on ASCII: letters, digits and the underscore. */
  predicate IsWordChar(c: char) {
    IsDigit(c) || IsUpperLetter(c) || IsLowerLetter(c) || c == '_'
  }

  /** `\s` and `str.isspace` on ASCII: space, tab to carriage return, and the
      four separators 0x1C to 0x1F. */
  predicate IsSpace(c: char) {
    c == ' ' || (9 <= c as int <= 13) || (28 <= c as int <= 31)
  }

  predicate AllDigits(s: string) {
    forall i :: 0 <= i < |s| ==> IsDigit(s[i])
  }

  predicate AllUpperLetters(s: string) {
    forall i :: 0 <= i < |s| ==> IsUpperLetter(s[i])
  }

  // ---------------------------------------------------------------------
  // Case mapping

  function UpperChar(c: char): char {
    if IsLowerLetter(c) then (c as int - 32) as char else c
  }

  function LowerChar(c: char): char {
    if IsUpperLetter(c) then (c as int + 32) as char else c
  }

  /** `s.upper()` */
  function Upper(s: string): (r: string)
    ensures |r| == |s|
    ensures forall i :: 0 <= i < |s| ==> r[i] == UpperChar(s[i])
  {
    seq(|s|, i requires 0 <= i < |s| => UpperChar(s[i]))
  }

  /** `s.lower()` */
  function Lower(s: string): (r: string)
    ensures |r| == |s|
    ensures forall i :: 0 <= i < |s| ==> r[i] == LowerChar(s[i])
  {
    seq(|s|, i requires 0 <= i < |s| => LowerChar(s[i]))
  }

  /** `needle` occurs in `hay` starting at index `i`. */
  predicate OccursAt(hay: string, needle: string, i: int) {
    0 <= i && i + |needle| <= |hay| && hay[i..i + |needle|] == needle
  }

  /** `needle in hay` for two strings. */
  predicate Contains(hay: string, needle: string) {
    exists i :: 0 <= i <= |hay| - |needle| && OccursAt(hay, needle, i)
  }

  lemma ContainsEmpty(hay: string)
    ensures Contains(hay, "")
  {
    assert OccursAt(hay, "", 0);
  }

  // ---------------------------------------------------------------------
  // Decimal numbers

  function DigitChar(d: int): (c: char)
    requires 0 <= d < 10
    ensures IsDigit(c)
  {
    ('0' as int + d) as char
  }

  function DigitValue(c: char): (d: int)
    requires IsDigit(c)
    ensures 0 <= d < 10
  {
    c as int - '0' as int
  }

  function Pow10(k: nat): (p: nat)
    ensures p >= 1
  {
    if k == 0 then 1 else 10 * Pow10(k - 1)
  }

  /** `str(n)` for a natural number. */
  function NatToString(n: nat): (s: string)
    ensures |s| >= 1 && AllDigits(s)
    decreases n
  {
    if n < 10 then [DigitChar(n)] else NatToString(n / 10) + [DigitChar(n % 10)]
  }

  /** `str(i)` for any integer. */
  function IntToString(i: int): string {
    if i < 0 then "-" + NatToString(-i) else NatToString(i)
  }

  /** The value of a string of decimal digits (`int(s)` on ASCII digits). */
  function DigitsValue(s: string): nat
    requires AllDigits(s)
    decreases |s|
  {
    if s == [] then 0 else DigitsValue(s[..|s| - 1]) * 10 + DigitValue(s[|s| - 1])
  }

  lemma {:induction false} DigitsValueOfNatToString(n: nat)
    ensures DigitsValue(NatToString(n)) == n
    decreases n
  {
    if n >= 10 {
      var s := NatToString(n);
      assert s[..|s| - 1] == NatToString(n / 10);
      DigitsValueOfNatToString(n / 10);
    }
  }

  lemma {:induction false} DigitsValueBound(s: string)
    requires AllDigits(s)
    ensures DigitsValue(s) < Pow10(|s|)
    decreases |s|
  {
    if s != [] {
      DigitsValueBound(s[..|s| - 1]);
    }
  }

  lemma {:induction false} NatToStringShort(n: nat, k: nat)
    requires 1 <= k && n < Pow10(k)
    ensures |NatToString(n)| <= k
    decreases k
  {
    if n >= 10 {
      assert k >= 2;
      NatToStringShort(n / 10, k - 1);
    }
  }

  function Repeat(c: char, n: nat): (s: string)
    ensures |s| == n && forall i :: 0 <= i < n ==> s[i] == c
  {
    seq(n, _ => c)
  }

  /** `n` rendered in decimal and padded with zeros on the left to `width`. */
  function ZeroPad(n: nat, width: nat): (s: string)
    ensures AllDigits(s) && |s| >= width
  {
    var d := NatToString(n);
    if |d| < width then Repeat('0', width - |d|) + d else d
  }

  lemma {:induction false} DigitsValueOfZeros(k: nat)
    ensures DigitsValue(Repeat('0', k)) == 0
    decreases k
  {
    if k > 0 {
      assert Repeat('0', k)[..k - 1] == Repeat('0', k - 1);
      DigitsValueOfZeros(k - 1);
    }
  }

  lemma {:induction false} DigitsValueLeadingZeros(k: nat, s: string)
    requires AllDigits(s)
    ensures AllDigits(Repeat('0', k) + s)
    ensures DigitsValue(Repeat('0', k) + s) == DigitsValue(s)
    decreases |s|
  {
    var t := Repeat('0', k) + s;
    if s == [] {
      assert t == Repeat('0', k);
      DigitsValueOfZeros(k);
    } else {
      assert t[..|t| - 1] == Repeat('0', k) + s[..|s| - 1];
      DigitsValueLeadingZeros(k, s[..|s| - 1]);
    }
  }

  /** Reading a zero-padded number back gives the number. */
  lemma ZeroPadValue(n: nat, width: nat)
    ensures DigitsValue(ZeroPad(n, width)) == n
  {
    var d := NatToString(n);
    DigitsValueOfNatToString(n);
    if |d| < width {
      ZeroPadValuePadded(n, width);
    }
  }

  lemma ZeroPadValuePadded(n: nat, width: nat)
    requires |NatToString(n)| < width
    ensures DigitsValue(ZeroPad(n, width)) == DigitsValue(NatToString(n))
  {
    DigitsValueLeadingZeros(width - |NatToString(n)|, NatToString(n));
  }

  lemma ZeroPadExact(n: nat, width: nat)
    requires 1 <= width && n < Pow10(width)
    ensures |ZeroPad(n, width)| == width
  {
    NatToStringShort(n, width);
  }

  // ---------------------------------------------------------------------
  // Words: `str.split()` with no argument, and `' '.join(...)`

  /** A word of `str.split()`: non-empty and free of whitespace. */
  predicate IsWord(w: string) {
    |w| > 0 && forall i :: 0 <= i < |w| ==> !IsSpace(w[i])
  }

  /** Length of the leading whitespace run. */
  function SpanSpaces(s: string): (k: nat)
    ensures k <= |s|
    ensures forall i :: 0 <= i < k ==> IsSpace(s[i])
    ensures k < |s| ==> !IsSpace(s[k])
  {
    if s == [] || !IsSpace(s[0]) then 0 else 1 + SpanSpaces(s[1..])
  }

  /** Length of the leading non-whitespace run. */
  function SpanWord(s: string): (k: nat)
    ensures k <= |s|
    ensures forall i :: 0 <= i < k ==> !IsSpace(s[i])
    ensures k < |s| ==> IsSpace(s[k])
  {
    if s == [] || IsSpace(s[0]) then 0 else 1 + SpanWord(s[1..])
  }

  /** A character of a suffix is a character of the whole. */
  lemma SuffixChar(s: string, j: nat, c: char)
    requires j <= |s| && c in s[j..]
    ensures c in s
  {
    var i :| 0 <= i < |s[j..]| && s[j..][i] == c;
    assert s[j + i] == c;
  }

  /** `s.split()`: the maximal whitespace-free runs of `s`, in order. */
  function Words(s: string): (ws: seq<string>)
    ensures forall k :: 0 <= k < |ws| ==> IsWord(ws[k])
    decreases |s|
  {
    var a := SpanSpaces(s);
    if a == |s| then []
    else
      var rest := s[a..];
      var w := SpanWord(rest);
      assert w >= 1 && IsWord(rest[..w]);
      [rest[..w]] + Words(rest[w..])
  }

  /** Every character of a word of `s` is a character of `s`. */
  lemma {:induction false} WordsChars(s: string)
    ensures forall k, i :: 0 <= k < |Words(s)| && 0 <= i < |Words(s)[k]| ==> Words(s)[k][i] in s
    decreases |s|
  {
    var a := SpanSpaces(s);
    if a < |s| {
      var rest := s[a..];
      var w := SpanWord(rest);
      var tail := Words(rest[w..]);
      WordsChars(rest[w..]);
      assert rest[w..] == s[a + w..];
      assert Words(s) == [rest[..w]] + tail;
      forall k, i | 0 <= k < |Words(s)| && 0 <= i < |Words(s)[k]|
        ensures Words(s)[k][i] in s
      {
        if k == 0 {
          assert Words(s)[0][i] == s[a + i];
        } else {
          assert Words(s)[k] == tail[k - 1];
          SuffixChar(s, a + w, tail[k - 1][i]);
        }
      }
    }
  }

  /** `' '.join(ws)` */
  function Join(ws: seq<string>): string {
    if |ws| == 0 then "" else if |ws| == 1 then ws[0] else ws[0] + " " + Join(ws[1..])
  }

  /** No whitespace at either end, every whitespace character is a plain space,
      and no two spaces are adjacent. */
  predicate SingleSpaced(s: string) {
    && (|s| > 0 ==> !IsSpace(s[0]) && !IsSpace(s[|s| - 1]))
    && (forall i :: 0 <= i < |s| && IsSpace(s[i]) ==> s[i] == ' ')
    && (forall i :: 0 <= i < |s| - 1 ==> !(IsSpace(s[i]) && IsSpace(s[i + 1])))
  }

  lemma {:induction false} JoinSingleSpaced(ws: seq<string>)
    requires forall k :: 0 <= k < |ws| ==> IsWord(ws[k])
    ensures SingleSpaced(Join(ws))
    ensures |ws| > 0 ==> |Join(ws)| > 0
    decreases |ws|
  {
    if |ws| >= 2 {
      var j := Join(ws[1..]);
      JoinSingleSpaced(ws[1..]);
      var w := ws[0];
      var s := w + " " + j;
      assert Join(ws) == s;
      forall i | 0 <= i < |s| - 1
        ensures !(IsSpace(s[i]) && IsSpace(s[i + 1]))
      {
        if i < |w| - 1 {
          assert s[i] == w[i];
        } else if i == |w| - 1 {
          assert s[i] == w[i];
        } else if i == |w| {
          assert s[i + 1] == j[0];
        } else {
          assert s[i] == j[i - |w| - 1] && s[i + 1] == j[i + 1 - |w| - 1];
        }
      }
      forall i | 0 <= i < |s| && IsSpace(s[i])
        ensures s[i] == ' '
      {
        if i > |w| {
          assert s[i] == j[i - |w| - 1];
        }
      }
      assert s[|s| - 1] == j[|j| - 1];
    }
  }

  /** Every character of `' '.join(ws)` is a space or a character of one of the words. */
  lemma {:induction false} JoinChars(ws: seq<string>, i: nat)
    requires i < |Join(ws)|
    ensures Join(ws)[i] == ' ' || exists k, p :: 0 <= k < |ws| && 0 <= p < |ws[k]| && ws[k][p] == Join(ws)[i]
    decreases |ws|
  {
    if |ws| == 1 {
      assert ws[0][i] == Join(ws)[i];
    } else if |ws| >= 2 {
      var w := ws[0];
      if i < |w| {
        assert w[i] == Join(ws)[i];
      } else if i > |w| {
        JoinChars(ws[1..], i - |w| - 1);
        var s := Join(ws[1..]);
        assert Join(ws)[i] == s[i - |w| - 1];
        if s[i - |w| - 1] != ' ' {
          var k, p :| 0 <= k < |ws[1..]| && 0 <= p < |ws[1..][k]| && ws[1..][k][p] == s[i - |w| - 1];
          assert ws[k + 1][p] == Join(ws)[i];
        }
      }
    }
  }

  lemma {:induction false} SpanWordOfWord(w: string, t: string)
    requires IsWord(w)
    requires t == [] || IsSpace(t[0])
    ensures SpanWord(w + t) == |w|
    decreases |w|
  {
    if |w| > 1 {
      assert (w + t)[1..] == w[1..] + t;
      SpanWordOfWord(w[1..], t);
    } else {
      assert (w + t)[1..] == t;
    }
  }

  /** One leading space does not change the words. */
  lemma WordsAfterSpace(j: string)
    requires j == [] || !IsSpace(j[0])
    ensures Words(" " + j) == Words(j)
  {
    var s := " " + j;
    assert s[1..] == j;
    assert SpanSpaces(j) == 0;
    assert SpanSpaces(s) == 1;
    assert j[0..] == j;
  }

  /** A string that starts with a word splits into that word and the
      words of what follows it. */
  lemma WordsUnfold(s: string)
    requires s != [] && !IsSpace(s[0])
    ensures Words(s) == [s[..SpanWord(s)]] + Words(s[SpanWord(s)..])
  {
    assert SpanSpaces(s) == 0;
    assert s[0..] == s;
  }

  /** The first word of `w + " " + j` is `w`. */
  lemma WordsOfWordThenRest(w: string, j: string)
    requires IsWord(w)
    requires j == [] || !IsSpace(j[0])
    ensures Words(w + " " + j) == [w] + Words(" " + j)
  {
    var t := " " + j;
    var s := w + t;
    assert s == w + " " + j;
    assert s[0] == w[0];
    SpanWordOfWord(w, t);
    WordsUnfold(s);
    assert s[..|w|] == w;
    assert s[|w|..] == t;
  }

  /** A single word splits into itself. */
  lemma WordsOfWord(w: string)
    requires IsWord(w)
    ensures Words(w) == [w]
  {
    SpanWordOfWord(w, "");
    assert w + "" == w;
    WordsUnfold(w);
    assert w[|w|..] == "";
  }

  /** A word put in front of a join whose words read back also reads back. */
  lemma WordsOfJoinStep(w: string, rest: seq<string>)
    requires IsWord(w) && |rest| > 0
    requires forall k :: 0 <= k < |rest| ==> IsWord(rest[k])
    requires Words(Join(rest)) == rest
    ensures Words(w + " " + Join(rest)) == [w] + rest
  {
    var j := Join(rest);
    JoinSingleSpaced(rest);
    WordsOfWordThenRest(w, j);
    WordsAfterSpace(j);
  }

  /** Splitting a single-space join of words gives back the words. */
  lemma {:induction false} WordsOfJoin(ws: seq<string>)
    requires forall k :: 0 <= k < |ws| ==> IsWord(ws[k])
    ensures Words(Join(ws)) == ws
    decreases |ws|
  {
    if |ws| == 1 {
      WordsOfWord(ws[0]);
    } else if |ws| >= 2 {
      var rest := ws[1..];
      assert Join(ws) == ws[0] + " " + Join(rest);
      WordsOfJoin(rest);
      WordsOfJoinStep(ws[0], rest);
      assert [ws[0]] + rest == ws;
    }
  }

  /** `str.capitalize` on ASCII: first character upper case, the rest lower case. */
  function Capitalize(w: string): (r: string)
    ensures |r| == |w|
    ensures |w| > 0 ==> r[0] == UpperChar(w[0])
    ensures forall i :: 0 < i < |w| ==> r[i] == LowerChar(w[i])
  {
    if w == [] then [] else [UpperChar(w[0])] + Lower(w[1..])
  }

  lemma CapitalizeIdempotent(w: string)
    ensures Capitalize(Capitalize(w)) == Capitalize(w)
  {
  }

  lemma CapitalizeKeepsWord(w: string)
    requires IsWord(w)
    ensures IsWord(Capitalize(w))
  {
  }
}
