/**
 * The text handling the mesh reader and writer get from the C++ streams:
 * splitting a line into whitespace-separated words (what successive
 * `stringstream >> std::string` extractions read), reading a C++ `int`
 * with `>>`, and writing one with `<<`.
 */
module Text {
  import opened Wrappers

  /** The value range of the source's (32-bit) `int`. */
  type Int32 = x: int | -0x8000_0000 <= x < 0x8000_0000

  /** The characters `isspace` accepts in the "C" locale. */
  predicate IsSpace(c: char) {
    c == ' ' || c == '\t' || c == '\n' || c == '\r' || c as int == 11 || c as int == 12
  }

  /** A word: a non-empty run of non-whitespace characters. */
  predicate IsToken(t: string) {
    |t| > 0 && forall i :: 0 <= i < |t| ==> !IsSpace(t[i])
  }

  /** Length of the longest run of non-whitespace characters at the start of `s`. */
  function RunLength(s: string): (n: nat)
    ensures n <= |s|
    ensures forall i :: 0 <= i < n ==> !IsSpace(s[i])
    ensures n < |s| ==> IsSpace(s[n])
  {
    if s == [] || IsSpace(s[0]) then 0 else 1 + RunLength(s[1..])
  }

  /** The words of `s`, in order: leading whitespace is skipped, then a maximal run is taken. */
  function Tokens(s: string): seq<string>
    decreases |s|
  {
    if s == [] then []
    else if IsSpace(s[0]) then Tokens(s[1..])
    else
      var n := RunLength(s);
      [s[..n]] + Tokens(s[n..])
  }

  /** Every word extracted is non-empty and holds no whitespace. */
  lemma {:induction false} TokensAreWords(s: string)
    ensures forall k :: 0 <= k < |Tokens(s)| ==> IsToken(Tokens(s)[k])
    decreases |s|
  {
    if s != [] {
      if IsSpace(s[0]) {
        TokensAreWords(s[1..]);
      } else {
        TokensAreWords(s[RunLength(s)..]);
      }
    }
  }

  /** What `ss >> first` leaves in an initially empty `first`: the first word, or "" if there is none. */
  function FirstToken(s: string): string {
    if s == [] then ""
    else if IsSpace(s[0]) then FirstToken(s[1..])
    else s[..RunLength(s)]
  }

  /** One extraction reads the first of the words that successive extractions read. */
  lemma {:induction false} FirstTokenIsFirstWord(s: string)
    ensures FirstToken(s) == if Tokens(s) == [] then "" else Tokens(s)[0]
  {
    if s != [] && IsSpace(s[0]) {
      FirstTokenIsFirstWord(s[1..]);
    }
  }

  lemma {:induction false} RunLengthOfToken(t: string, rest: string)
    requires IsToken(t)
    requires rest == [] || IsSpace(rest[0])
    ensures RunLength(t + rest) == |t|
  {
    if |t| > 1 {
      assert (t + rest)[1..] == t[1..] + rest;
      RunLengthOfToken(t[1..], rest);
    } else {
      assert (t + rest)[1..] == rest;
    }
  }

  /** A word followed by whitespace (or by nothing) is read back as that word. */
  lemma TokensOfToken(t: string, rest: string)
    requires IsToken(t)
    requires rest == [] || IsSpace(rest[0])
    ensures Tokens(t + rest) == [t] + Tokens(rest)
  {
    RunLengthOfToken(t, rest);
    assert (t + rest)[..|t|] == t;
    assert (t + rest)[|t|..] == rest;
  }

  lemma FirstTokenOf(t: string, rest: string)
    requires IsToken(t)
    requires rest == [] || IsSpace(rest[0])
    ensures FirstToken(t + rest) == t
  {
    RunLengthOfToken(t, rest);
    assert (t + rest)[..|t|] == t;
  }

  /** Words written one after another with a single space between them. */
  function Unwords(ws: seq<string>): string {
    if ws == [] then ""
    else if |ws| == 1 then ws[0]
    else ws[0] + " " + Unwords(ws[1..])
  }

  /** A line written as words separated by single spaces is read back as those words. */
  lemma {:induction false} TokensOfUnwords(ws: seq<string>)
    requires forall k :: 0 <= k < |ws| ==> IsToken(ws[k])
    ensures Tokens(Unwords(ws)) == ws
  {
    if |ws| == 1 {
      TokensOfToken(ws[0], "");
      assert ws[0] + "" == ws[0];
    } else if |ws| > 1 {
      var rest := Unwords(ws[1..]);
      assert Unwords(ws) == ws[0] + (" " + rest);
      TokensOfToken(ws[0], " " + rest);
      assert (" " + rest)[1..] == rest;
      TokensOfUnwords(ws[1..]);
    }
  }

  predicate IsDigit(c: char) {
    '0' <= c <= '9'
  }

  predicate AllDigits(s: string) {
    forall i :: 0 <= i < |s| ==> IsDigit(s[i])
  }

  function DigitChar(d: nat): (c: char)
    requires d < 10
    ensures IsDigit(c) && c as int - '0' as int == d
  {
    ('0' as int + d) as char
  }

  /** Decimal text of a natural number, without leading zeros. */
  function ShowNat(n: nat): (s: string)
    ensures |s| > 0 && AllDigits(s)
  {
    if n < 10 then [DigitChar(n)] else ShowNat(n / 10) + [DigitChar(n % 10)]
  }

  /** What `out << n` writes for an `int` n. */
  function ShowInt(n: int): (s: string)
    ensures IsToken(s)
  {
    if n < 0 then "-" + ShowNat(-n) else ShowNat(n)
  }

  /** The value of a string of decimal digits. */
  function DigitsValue(s: string): nat
    requires AllDigits(s)
  {
    if s == [] then 0
    else DigitsValue(s[..|s| - 1]) * 10 + (s[|s| - 1] as int - '0' as int)
  }

  /**
   * What `in >> n` makes of one word for an `int` n: an optional sign and at
   * least one decimal digit, whose value must fit the type; anything else
   * (including overflow, where the stream sets its failbit) is `None`.
   */
  function ParseInt(t: string): Option<Int32> {
    var signed := |t| > 0 && (t[0] == '-' || t[0] == '+');
    var digits := if signed then t[1..] else t;
    if |digits| == 0 || !AllDigits(digits) then None
    else
      var v: int := if signed && t[0] == '-' then -(DigitsValue(digits) as int) else DigitsValue(digits);
      if -0x8000_0000 <= v < 0x8000_0000 then Some(v as Int32) else None
  }

  lemma {:induction false} DigitsValueOfShowNat(n: nat)
    ensures DigitsValue(ShowNat(n)) == n
  {
    if n >= 10 {
      var s := ShowNat(n);
      assert s[..|s| - 1] == ShowNat(n / 10);
      DigitsValueOfShowNat(n / 10);
    }
  }

  /** Writing an `int` and reading it back gives the same value. */
  lemma ParseShowInt(n: Int32)
    ensures ParseInt(ShowInt(n)) == Some(n)
  {
    var t := ShowInt(n);
    if n < 0 {
      var d := ShowNat(-(n as int));
      DigitsValueOfShowNat(-(n as int));
      assert t == "-" + d;
      assert t[0] == '-' && t[1..] == d;
    } else {
      var d := ShowNat(n);
      DigitsValueOfShowNat(n);
      assert t == d && IsDigit(t[0]);
    }
  }
}
