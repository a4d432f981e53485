/** Numbers and words as text: %d and Integer.parseInt, words joined by single spaces and String.split(" "). */
module Text {

  datatype Option<T> = None | Some(value: T)

  predicate IsDigit(c: char) {
    '0' <= c <= '9'
  }

  function Digit(d: nat): (c: char)
    requires d < 10
    ensures IsDigit(c)
  {
    '0' + d as char
  }

  function DigitValue(c: char): (d: int)
    requires IsDigit(c)
    ensures 0 <= d < 10
  {
    c as int - '0' as int
  }

  /** %d of a number that is not negative. */
  function Decimal(n: nat): (s: string)
    ensures |s| > 0 && forall i :: 0 <= i < |s| ==> IsDigit(s[i])
  {
    if n < 10 then [Digit(n)] else Decimal(n / 10) + [Digit(n % 10)]
  }

  /** %d */
  function PrintInt(n: int): (s: string)
    ensures |s| > 0
  {
    if n < 0 then "-" + Decimal(-n) else Decimal(n)
  }

  function DigitsValue(s: string): nat
    requires forall i :: 0 <= i < |s| ==> IsDigit(s[i])
  {
    if s == "" then 0 else DigitsValue(s[..|s| - 1]) * 10 + DigitValue(s[|s| - 1])
  }

  predicate AllDigits(s: string) {
    s != "" && forall i :: 0 <= i < |s| ==> IsDigit(s[i])
  }

  const INT_MIN := -0x8000_0000
  const INT_MAX := 0x7fff_ffff

  /** Integer.parseInt on ASCII text; None is a NumberFormatException. */
  function ParseInt(s: string): Option<int> {
    var negative := s != "" && s[0] == '-';
    var digits := if s != "" && (s[0] == '-' || s[0] == '+') then s[1..] else s;
    if !AllDigits(digits) then None
    else
      var v: int := DigitsValue(digits);
      var n := if negative then -v else v;
      if INT_MIN <= n <= INT_MAX then Some(n) else None
  }

  lemma {:induction false} DecimalValue(n: nat)
    ensures DigitsValue(Decimal(n)) == n
  {
    if n < 10 {
      assert Decimal(n)[..0] == "";
    } else {
      DecimalValue(n / 10);
      assert Decimal(n)[..|Decimal(n)| - 1] == Decimal(n / 10);
    }
  }

  /** Reading back what was printed. */
  lemma ParsePrint(n: int)
    requires INT_MIN <= n <= INT_MAX
    ensures ParseInt(PrintInt(n)) == Some(n)
  {
    if n < 0 {
      DecimalValue(-n);
      ParseNegative(Decimal(-n));
    } else {
      DecimalValue(n);
      ParseDigits(Decimal(n));
    }
  }

  lemma ParseDigits(s: string)
    requires AllDigits(s) && DigitsValue(s) <= INT_MAX
    ensures ParseInt(s) == Some(DigitsValue(s))
  {
    assert s != "" ==> IsDigit(s[0]);
  }

  lemma ParseNegative(s: string)
    requires AllDigits(s) && INT_MIN + DigitsValue(s) <= 0
    ensures ParseInt("-" + s).Some? && ParseInt("-" + s).value + DigitsValue(s) == 0
  {
    assert ("-" + s)[1..] == s;
  }

  predicate NoSpace(s: string) {
    forall i :: 0 <= i < |s| ==> s[i] != ' '
  }

  lemma PrintNoSpace(n: int)
    ensures NoSpace(PrintInt(n))
  {
  }

  lemma DecimalLength(n: nat)
    ensures n < 10 ==> |Decimal(n)| == 1
    ensures n < 100 ==> |Decimal(n)| <= 2
  {
  }

  /** Words with single spaces between them. */
  function Joined(words: seq<string>): string
    requires words != []
  {
    var n := |words| - 1;
    if n == 0 then words[0] else Joined(words[..n]) + " " + words[n]
  }

  /** The pieces between spaces, empty ones included. */
  function Pieces(s: string): (ws: seq<string>)
    ensures ws != []
  {
    if s == "" then [""]
    else
      var n := |s| - 1;
      var before := Pieces(s[..n]);
      if s[n] == ' ' then before + [""]
      else before[..|before| - 1] + [before[|before| - 1] + [s[n]]]
  }

  function DropEmptyTail(ws: seq<string>): seq<string> {
    if ws != [] && ws[|ws| - 1] == "" then DropEmptyTail(ws[..|ws| - 1]) else ws
  }

  /** String.split(" "): trailing empty pieces are dropped, except that the empty text is one empty word. */
  function Split(s: string): seq<string> {
    if s == "" then [""] else DropEmptyTail(Pieces(s))
  }

  lemma {:induction false} PiecesAppend(s: string, w: string)
    requires NoSpace(w)
    ensures Pieces(s + " " + w) == Pieces(s) + [w]
    decreases |w|
  {
    var t := s + " " + w;
    if w == "" {
      assert t[..|t| - 1] == s;
    } else {
      var v := w[..|w| - 1];
      PiecesAppend(s, v);
      assert t[..|t| - 1] == s + " " + v;
      assert v + [w[|w| - 1]] == w;
    }
  }

  lemma {:induction false} PiecesWord(w: string)
    requires NoSpace(w)
    ensures Pieces(w) == [w]
  {
    if w != "" {
      var v := w[..|w| - 1];
      PiecesWord(v);
      assert v + [w[|w| - 1]] == w;
    }
  }

  lemma {:induction false} PiecesJoined(words: seq<string>)
    requires words != [] && forall k :: 0 <= k < |words| ==> NoSpace(words[k])
    ensures Pieces(Joined(words)) == words
  {
    var n := |words| - 1;
    JoinedLast(words);
    if n == 0 {
      PiecesWord(words[0]);
      assert words == [words[0]];
    } else {
      PiecesJoined(words[..n]);
      PiecesAppend(Joined(words[..n]), words[n]);
      assert words == words[..n] + [words[n]];
    }
  }

  lemma JoinedLast(words: seq<string>)
    requires words != []
    ensures var n := |words| - 1;
            Joined(words) == if n == 0 then words[0] else Joined(words[..n]) + " " + words[n]
  {
  }

  /** Splitting what was joined gives the words back when the last one is not empty. */
  lemma SplitJoined(words: seq<string>)
    requires words != [] && words[|words| - 1] != ""
    requires forall k :: 0 <= k < |words| ==> NoSpace(words[k])
    ensures Split(Joined(words)) == words
  {
    PiecesJoined(words);
  }

  lemma JoinedAppend(words: seq<string>, w: string)
    requires words != []
    ensures Joined(words + [w]) == Joined(words) + " " + w
  {
    assert (words + [w])[..|words|] == words;
  }
}
