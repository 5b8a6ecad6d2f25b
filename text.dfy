/**
 * The string operations the scripts rely on (`str.lower`, `str.strip`,
 * `str.split`, `str.isdigit`, `str.find`, `file.readline` and decimal
 * formatting of an integer), restricted to ASCII.
 */
module Text {

  /** The characters Python's `str.isspace` accepts in ASCII: space, \t, \n, \v, \f, \r. */
  predicate IsSpace(c: char) {
    c == ' ' || '\t' <= c <= '\r'
  }

  predicate IsDigit(c: char) {
    '0' <= c <= '9'
  }

  /** `str.isdigit()`: non-empty and made only of digits. */
  predicate IsDigits(s: string) {
    |s| > 0 && forall i :: 0 <= i < |s| ==> IsDigit(s[i])
  }

  predicate NoSpace(s: string) {
    forall i :: 0 <= i < |s| ==> !IsSpace(s[i])
  }

  function LowerChar(c: char): (r: char)
    ensures 'A' <= c <= 'Z' ==> 'a' <= r <= 'z'
    ensures !('A' <= c <= 'Z') ==> r == c
  {
    if 'A' <= c <= 'Z' then (c as int + 32) as char else c
  }

  /** `str.lower()` on ASCII text. */
  function Lower(s: string): (r: string)
    ensures |r| == |s|
    ensures forall i :: 0 <= i < |s| ==> r[i] == LowerChar(s[i])
  {
    if s == [] then [] else [LowerChar(s[0])] + Lower(s[1..])
  }

  function LStrip(s: string): (r: string)
    ensures |r| <= |s| && r == s[|s| - |r|..]
    ensures r != [] ==> !IsSpace(r[0])
  {
    if s != [] && IsSpace(s[0]) then LStrip(s[1..]) else s
  }

  function RStrip(s: string): (r: string)
    ensures |r| <= |s| && r == s[..|r|]
    ensures r != [] ==> !IsSpace(r[|r| - 1])
  {
    if s != [] && IsSpace(s[|s| - 1]) then RStrip(s[..|s| - 1]) else s
  }

  /** `str.strip()`: leading and trailing whitespace removed. */
  function Strip(s: string): string {
    LStrip(RStrip(s))
  }

  /** `file.readline()` on a file holding `s`: everything up to and including the first newline. */
  function FirstLine(s: string): (r: string)
    ensures |r| <= |s| && r == s[..|r|]
  {
    if s == [] then []
    else if s[0] == '\n' then "\n"
    else [s[0]] + FirstLine(s[1..])
  }

  /** The longest prefix of `s` without whitespace. */
  function Word(s: string): (r: string)
    ensures |r| <= |s| && r == s[..|r|]
    ensures NoSpace(r)
    ensures |r| < |s| ==> IsSpace(s[|r|])
    ensures s != [] && !IsSpace(s[0]) ==> r != []
  {
    if s == [] || IsSpace(s[0]) then [] else [s[0]] + Word(s[1..])
  }

  /** `str.split()` with no separator: the maximal runs of non-whitespace, in order. */
  function Split(s: string): (r: seq<string>)
    ensures forall i :: 0 <= i < |r| ==> r[i] != [] && NoSpace(r[i])
    decreases |s|
  {
    if s == [] then []
    else if IsSpace(s[0]) then Split(s[1..])
    else
      var w := Word(s);
      [w] + Split(s[|w|..])
  }

  /** Words separated by single spaces (the usual way to write an id list). */
  function JoinWords(ws: seq<string>): string {
    if ws == [] then ""
    else if |ws| == 1 then ws[0]
    else ws[0] + " " + JoinWords(ws[1..])
  }

  /** The tokens that pass `str.isdigit`, in their original order. */
  function FilterDigits(ts: seq<string>): (r: seq<string>)
    ensures forall t :: t in r ==> IsDigits(t) && t in ts
    ensures forall t :: t in ts && IsDigits(t) ==> t in r
    ensures |r| <= |ts|
  {
    if ts == [] then []
    else (if IsDigits(ts[0]) then [ts[0]] else []) + FilterDigits(ts[1..])
  }

  predicate StartsWith(s: string, p: string) {
    |p| <= |s| && s[..|p|] == p
  }

  /** `s.find(p) > -1`. */
  predicate Contains(s: string, p: string)
    decreases |s|
  {
    StartsWith(s, p) || (s != [] && Contains(s[1..], p))
  }

  function DigitChar(d: nat): char
    requires d < 10
  {
    ('0' as int + d) as char
  }

  /** `'{}'.format(n)`: the decimal text of a natural number, no leading zeros. */
  function DecimalText(n: nat): (r: string)
    ensures IsDigits(r)
  {
    if n < 10 then [DigitChar(n)] else DecimalText(n / 10) + [DigitChar(n % 10)]
  }

  /** `int(s)` for a string of digits. */
  function DecimalValue(s: string): nat
    requires forall i :: 0 <= i < |s| ==> IsDigit(s[i])
  {
    if s == [] then 0
    else
      assert IsDigit(s[|s| - 1]);
      DecimalValue(s[..|s| - 1]) * 10 + (s[|s| - 1] as int - '0' as int)
  }

  /** Reading back a formatted number gives the number. */
  lemma {:induction false} DecimalRoundTrip(n: nat)
    ensures DecimalValue(DecimalText(n)) == n
  {
    if n >= 10 {
      var s := DecimalText(n);
      assert s[..|s| - 1] == DecimalText(n / 10);
      DecimalRoundTrip(n / 10);
    }
  }

  /** A line of text without a newline is read back by `readline` up to its newline. */
  lemma {:induction false} FirstLineOfLine(w: string, rest: string)
    requires '\n' !in w
    ensures FirstLine(w + "\n" + rest) == w + "\n"
  {
    if w != [] {
      assert (w + "\n" + rest)[1..] == w[1..] + "\n" + rest;
      FirstLineOfLine(w[1..], rest);
    }
  }

  /** Stripping a digit string followed by a newline leaves the digits. */
  lemma StripDigitsLine(w: string)
    requires IsDigits(w)
    ensures Strip(w + "\n") == w
  {
    var s := w + "\n";
    assert IsSpace(s[|s| - 1]) && s[..|s| - 1] == w;
    assert RStrip(s) == RStrip(w);
    assert RStrip(w) == w;
    assert LStrip(w) == w;
  }

  lemma {:induction false} WordOf(w: string, rest: string)
    requires NoSpace(w)
    requires rest == [] || IsSpace(rest[0])
    ensures Word(w + rest) == w
  {
    if w != [] {
      assert (w + rest)[1..] == w[1..] + rest;
      WordOf(w[1..], rest);
    }
  }

  /** Splitting words written with single spaces gives the words back. */
  lemma {:induction false} SplitJoinWords(ws: seq<string>)
    requires forall i :: 0 <= i < |ws| ==> ws[i] != [] && NoSpace(ws[i])
    ensures Split(JoinWords(ws)) == ws
  {
    if ws == [] {
    } else if |ws| == 1 {
      var w := ws[0];
      assert w + [] == w;
      WordOf(w, []);
      assert w[|w|..] == [];
    } else {
      var w := ws[0];
      var tail := " " + JoinWords(ws[1..]);
      var s := JoinWords(ws);
      assert s == w + tail;
      WordOf(w, tail);
      assert s[|w|..] == tail;
      assert Split(tail) == Split(JoinWords(ws[1..]));
      SplitJoinWords(ws[1..]);
    }
  }

  lemma {:induction false} FilterAllDigits(ts: seq<string>)
    requires forall i :: 0 <= i < |ts| ==> IsDigits(ts[i])
    ensures FilterDigits(ts) == ts
  {
    if ts != [] {
      FilterAllDigits(ts[1..]);
    }
  }
}
