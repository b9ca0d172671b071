/**
 * The JavaScript string primitives the core relies on, written out:
 * `trim()`, `split(/\s+/)`, ASCII `toLowerCase()`, `Number.prototype.toString()`
 * on non-negative integers and `padStart(2, '0')`.
 */
module Text {

  /** The characters that `String.prototype.trim` removes and that the regular
      expression class `\s` matches: ECMAScript WhiteSpace and LineTerminator. */
  predicate IsWhite(c: char) {
    c == '\t' || c == '\n' || c == '\U{000B}' || c == '\U{000C}' || c == '\r' || c == ' '
    || c == '\U{00A0}' || c == '\U{1680}' || ('\U{2000}' <= c <= '\U{200A}')
    || c == '\U{2028}' || c == '\U{2029}' || c == '\U{202F}' || c == '\U{205F}'
    || c == '\U{3000}' || c == '\U{FEFF}'
  }

  predicate NoWhite(s: string) {
    forall i :: 0 <= i < |s| ==> !IsWhite(s[i])
  }

  /** A token as `split(/\s+/)` yields it from a trimmed, non-empty string. */
  predicate IsWord(w: string) {
    w != [] && NoWhite(w)
  }

  /** Neither starts nor ends with whitespace (the empty string qualifies). */
  predicate IsTrimmed(s: string) {
    s == [] || (!IsWhite(s[0]) && !IsWhite(s[|s| - 1]))
  }

  // ---------------------------------------------------------------------------
  // trim()

  /** The end of the run of whitespace that starts at index `i` of `s`. */
  function SkipWhite(s: string, i: nat): (j: nat)
    requires i <= |s|
    ensures i <= j <= |s| && (j == |s| || !IsWhite(s[j]))
    ensures forall k :: i <= k < j ==> IsWhite(s[k])
    decreases |s| - i
  {
    if i < |s| && IsWhite(s[i]) then SkipWhite(s, i + 1) else i
  }

  /** The start of the run of whitespace that ends just before index `j` of `s`. */
  function SkipWhiteBack(s: string, j: nat): (i: nat)
    requires j <= |s|
    ensures i <= j && (i == 0 || !IsWhite(s[i - 1]))
    ensures forall k :: i <= k < j ==> IsWhite(s[k])
  {
    if j > 0 && IsWhite(s[j - 1]) then SkipWhiteBack(s, j - 1) else j
  }

  /** `s` without its leading whitespace: a suffix of `s`, and everything cut off was whitespace. */
  function TrimStart(s: string): (r: string)
    ensures |r| <= |s| && r == s[|s| - |r|..]
    ensures r == [] || !IsWhite(r[0])
    ensures forall i :: 0 <= i < |s| - |r| ==> IsWhite(s[i])
  {
    s[SkipWhite(s, 0)..]
  }

  /** `s` without its trailing whitespace: a prefix of `s`, and everything cut off was whitespace. */
  function TrimEnd(s: string): (r: string)
    ensures |r| <= |s| && r == s[..|r|]
    ensures r == [] || !IsWhite(r[|r| - 1])
    ensures forall i :: |r| <= i < |s| ==> IsWhite(s[i])
  {
    s[..SkipWhiteBack(s, |s|)]
  }

  /** `String.prototype.trim`. The result is the slice of `s` left once the
      whitespace on either side is cut off; it is trimmed, and it is empty
      exactly when `s` consists of whitespace only. */
  function Trim(s: string): (r: string)
    ensures IsTrimmed(r) && |r| <= |s|
    ensures r == [] <==> forall i :: 0 <= i < |s| ==> IsWhite(s[i])
    ensures exists a, b ::
              && 0 <= a <= b <= |s| && r == s[a..b]
              && (forall i :: 0 <= i < a ==> IsWhite(s[i]))
              && (forall i :: b <= i < |s| ==> IsWhite(s[i]))
  {
    var t := TrimStart(s);
    var r := TrimEnd(t);
    assert r == [] ==> t == [];
    var a := |s| - |t|;
    var b := a + |r|;
    assert r == s[a..b];
    assert forall i :: b <= i < |s| ==> IsWhite(s[i]) by {
      forall i | b <= i < |s|
        ensures IsWhite(s[i])
      {
        assert s[i] == t[i - a];
      }
    }
    r
  }

  lemma TrimStartOfTrimmed(s: string)
    requires s == [] || !IsWhite(s[0])
    ensures TrimStart(s) == s
  {
  }

  lemma TrimEndOfTrimmed(s: string)
    requires s == [] || !IsWhite(s[|s| - 1])
    ensures TrimEnd(s) == s
  {
  }

  /** Trimming leaves an already trimmed string alone; in particular it is idempotent. */
  lemma TrimOfTrimmed(s: string)
    requires IsTrimmed(s)
    ensures Trim(s) == s
  {
    TrimStartOfTrimmed(s);
    TrimEndOfTrimmed(s);
  }

  lemma TrimIdempotent(s: string)
    ensures Trim(Trim(s)) == Trim(s)
  {
    TrimOfTrimmed(Trim(s));
  }

  /** A single trailing space after a trimmed, non-empty string is exactly what trim() removes. */
  lemma TrimDropsTrailingSpace(s: string)
    requires s != [] && IsTrimmed(s)
    ensures Trim(s + " ") == s
  {
    var t := s + " ";
    assert TrimStart(t) == t;
    assert t[..|t| - 1] == s;
    TrimEndOfTrimmed(s);
  }

  // ---------------------------------------------------------------------------
  // split(/\s+/)

  /** Index of the first whitespace character of `s`, or |s| when it has none. */
  function FirstWhite(s: string): (i: nat)
    ensures i <= |s|
    ensures i < |s| ==> IsWhite(s[i])
    ensures NoWhite(s[..i])
  {
    if s == [] || IsWhite(s[0]) then 0
    else
      var j := FirstWhite(s[1..]);
      assert s[..j + 1] == [s[0]] + s[1..][..j];
      j + 1
  }

  /** `s.split(/\s+/)`: the pieces between maximal runs of whitespace. A leading
      (trailing) run yields an empty first (last) piece and `""` yields `[""]`,
      as in JavaScript. */
  function SplitOnWhite(s: string): (r: seq<string>)
    ensures |r| >= 1
    ensures forall k :: 0 <= k < |r| ==> NoWhite(r[k])
    decreases |s|
  {
    var i := FirstWhite(s);
    if i == |s| then
      assert s[..i] == s;
      [s]
    else
      [s[..i]] + SplitOnWhite(TrimStart(s[i + 1..]))
  }

  /** The pieces joined back with single spaces. */
  function JoinWithSpace(ws: seq<string>): string
    requires |ws| >= 1
  {
    if |ws| == 1 then ws[0] else ws[0] + " " + JoinWithSpace(ws[1..])
  }

  lemma {:induction false} JoinWithSpaceSnoc(ws: seq<string>, w: string)
    requires |ws| >= 1
    ensures JoinWithSpace(ws + [w]) == JoinWithSpace(ws) + " " + w
    decreases |ws|
  {
    if |ws| == 1 {
      assert (ws + [w])[1..] == [w];
    } else {
      assert (ws + [w])[1..] == ws[1..] + [w];
      JoinWithSpaceSnoc(ws[1..], w);
    }
  }

  /** Words joined by single spaces start and end with a word character. */
  lemma {:induction false} JoinOfWordsIsTrimmed(ws: seq<string>)
    requires |ws| >= 1 && forall k :: 0 <= k < |ws| ==> IsWord(ws[k])
    ensures JoinWithSpace(ws) != [] && IsTrimmed(JoinWithSpace(ws))
    ensures JoinWithSpace(ws)[0] == ws[0][0]
    decreases |ws|
  {
    if |ws| > 1 {
      JoinOfWordsIsTrimmed(ws[1..]);
    }
  }

  /** Splitting undoes joining: `split(/\s+/)` of words joined by single spaces
      gives back exactly those words. */
  lemma {:induction false} SplitJoin(ws: seq<string>)
    requires |ws| >= 1 && forall k :: 0 <= k < |ws| ==> IsWord(ws[k])
    ensures SplitOnWhite(JoinWithSpace(ws)) == ws
    decreases |ws|
  {
    if |ws| == 1 {
      SplitOfWord(ws[0]);
    } else {
      assert ws == [ws[0]] + ws[1..];
      var rest := JoinWithSpace(ws[1..]);
      JoinOfWordsIsTrimmed(ws[1..]);
      SplitWordThenRest(ws[0], rest);
      SplitJoin(ws[1..]);
    }
  }

  /** One step of SplitJoin: a word, a space, then text starting with a non-space. */
  lemma SplitWordThenRest(w: string, rest: string)
    requires IsWord(w) && rest != [] && !IsWhite(rest[0])
    ensures SplitOnWhite(w + " " + rest) == [w] + SplitOnWhite(rest)
  {
    var s := w + " " + rest;
    FirstWhiteOfWord(w, " " + rest);
    assert s == w + (" " + rest);
    assert s[..|w|] == w;
    assert s[|w| + 1..] == rest;
    TrimStartOfTrimmed(rest);
  }

  lemma SplitOfWord(w: string)
    requires NoWhite(w)
    ensures SplitOnWhite(w) == [w]
  {
    FirstWhiteOfWord(w, "");
    assert w + "" == w;
  }

  lemma FirstWhiteOfWord(w: string, tail: string)
    requires NoWhite(w)
    requires tail == [] || IsWhite(tail[0])
    ensures FirstWhite(w + tail) == |w|
    decreases |w|
  {
    if w != [] {
      assert (w + tail)[1..] == w[1..] + tail;
      FirstWhiteOfWord(w[1..], tail);
    }
  }

  // ---------------------------------------------------------------------------
  // toLowerCase(), ASCII letters only

  function LowerChar(c: char): char {
    if 'A' <= c <= 'Z' then (c as int + 32) as char else c
  }

  function Lower(s: string): (r: string)
    ensures |r| == |s|
    ensures forall i :: 0 <= i < |s| ==> r[i] == LowerChar(s[i])
  {
    seq(|s|, i requires 0 <= i < |s| => LowerChar(s[i]))
  }

  /** Case-insensitive equality as the source tests it: `a.toLowerCase() === b.toLowerCase()`. */
  predicate SameIgnoringCase(a: string, b: string) {
    Lower(a) == Lower(b)
  }

  // ---------------------------------------------------------------------------
  // Decimal rendering of non-negative integers and padStart(2, '0')

  predicate IsDigit(c: char) {
    '0' <= c <= '9'
  }

  predicate AllDigits(s: string) {
    forall i :: 0 <= i < |s| ==> IsDigit(s[i])
  }

  function DigitChar(d: nat): (c: char)
    requires d < 10
    ensures IsDigit(c)
  {
    ('0' as int + d) as char
  }

  function DigitValue(c: char): nat
    requires IsDigit(c)
  {
    c as int - '0' as int
  }

  /** `n.toString()` for a non-negative integer: no sign, no leading zero. */
  function DecimalString(n: nat): (r: string)
    ensures |r| >= 1 && AllDigits(r)
    ensures |r| > 1 ==> r[0] != '0'
  {
    if n < 10 then [DigitChar(n)] else DecimalString(n / 10) + [DigitChar(n % 10)]
  }

  /** The value a string of decimal digits denotes; a partner of DecimalString. */
  function ParseDecimal(s: string): nat
    requires AllDigits(s)
  {
    if s == [] then 0 else 10 * ParseDecimal(s[..|s| - 1]) + DigitValue(s[|s| - 1])
  }

  lemma {:induction false} ParseDecimalString(n: nat)
    ensures ParseDecimal(DecimalString(n)) == n
  {
    if n >= 10 {
      var s := DecimalString(n);
      assert s[..|s| - 1] == DecimalString(n / 10);
      ParseDecimalString(n / 10);
    }
  }

  /** Leading zeros do not change the value of a digit string. */
  lemma {:induction false} ParseDecimalLeadingZeros(z: string, s: string)
    requires AllDigits(s) && forall i :: 0 <= i < |z| ==> z[i] == '0'
    ensures AllDigits(z + s) && ParseDecimal(z + s) == ParseDecimal(s)
    decreases |s|
  {
    if s == [] {
      assert z + s == z;
      ParseZeros(z);
    } else {
      assert (z + s)[..|z + s| - 1] == z + s[..|s| - 1];
      ParseDecimalLeadingZeros(z, s[..|s| - 1]);
    }
  }

  lemma {:induction false} ParseZeros(z: string)
    requires forall i :: 0 <= i < |z| ==> z[i] == '0'
    ensures AllDigits(z) && ParseDecimal(z) == 0
    decreases |z|
  {
    if z != [] {
      ParseZeros(z[..|z| - 1]);
    }
  }

  /** `s.padStart(2, '0')`. */
  function PadStart2(s: string): (r: string)
    ensures |r| == if |s| >= 2 then |s| else 2
    ensures r[|r| - |s|..] == s
    ensures forall i :: 0 <= i < |r| - |s| ==> r[i] == '0'
  {
    if |s| >= 2 then s else seq(2 - |s|, _ => '0') + s
  }

}
