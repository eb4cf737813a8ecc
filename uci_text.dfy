/**
 * Text helpers the test engine relies on: splitting on single spaces
 * (`str_tok` with the delimiter " "), building space-terminated lists
 * (`str_push(str_cat(s, token), ' ')`), C's `atoi` and printf's `%d`.
 */
module UciText {

  /** The characters C's `isspace` accepts in the "C" locale: ' ', '\t', '\n', '\v', '\f', '\r'. */
  predicate IsSpace(c: char) {
    c == ' ' || '\t' <= c <= '\r'
  }

  predicate IsDigit(c: char) {
    '0' <= c <= '9'
  }

  /** Each token followed by one space, in order: what repeated `str_push(str_cat(s, t), ' ')` builds. */
  function SpaceTerminated(tokens: seq<string>): string
  {
    if tokens == [] then ""
    else SpaceTerminated(tokens[..|tokens| - 1]) + tokens[|tokens| - 1] + " "
  }

  /** Appending a token appends that token and its space. */
  lemma SpaceTerminatedSnoc(tokens: seq<string>, t: string)
    ensures SpaceTerminated(tokens + [t]) == SpaceTerminated(tokens) + t + " "
  {
    assert (tokens + [t])[..|tokens|] == tokens;
  }

  /** Prepending a token prepends that token and its space. */
  lemma {:induction false} SpaceTerminatedCons(t: string, rest: seq<string>)
    ensures SpaceTerminated([t] + rest) == t + " " + SpaceTerminated(rest)
    decreases |rest|
  {
    if rest != [] {
      var init := rest[..|rest| - 1];
      assert ([t] + rest)[..|rest|] == [t] + init;
      SpaceTerminatedCons(t, init);
    }
  }

  /** The longest prefix of `s` that holds no ' '. */
  function Word(s: string): (w: string)
    ensures |w| <= |s| && w == s[..|w|]
    ensures ' ' !in w
    ensures |w| < |s| ==> s[|w|] == ' '
  {
    if s == [] || s[0] == ' ' then "" else [s[0]] + Word(s[1..])
  }

  /** How many spaces `s` starts with. */
  function LeadingSpaces(s: string): (k: nat)
    ensures k <= |s|
    ensures forall i | 0 <= i < k :: s[i] == ' '
    ensures k < |s| ==> s[k] != ' '
  {
    if s != [] && s[0] == ' ' then 1 + LeadingSpaces(s[1..]) else 0
  }

  /**
   * The token `str_tok(s, &token, " ")` stores: leading spaces are skipped, then
   * everything up to the next space; the empty string when only spaces are left.
   */
  function FirstToken(s: string): (t: string)
    ensures ' ' !in t
    ensures t == "" <==> forall i | 0 <= i < |s| :: s[i] == ' '
    ensures t == Word(s[LeadingSpaces(s)..])
  {
    if s == [] then ""
    else if s[0] == ' ' then FirstToken(s[1..])
    else Word(s)
  }

  lemma {:induction false} WordOfSpaced(a: string, rest: string)
    requires ' ' !in a
    ensures Word(a + " " + rest) == a
    decreases |a|
  {
    if a != [] {
      assert (a + " " + rest)[1..] == a[1..] + " " + rest;
      WordOfSpaced(a[1..], rest);
    } else {
      assert (a + " " + rest)[0] == ' ';
    }
  }

  /** A word is its own first token, and so is a word followed by a space and more text. */
  lemma {:induction false} FirstTokenOfWord(a: string, rest: string)
    requires a != "" && ' ' !in a
    ensures FirstToken(a) == a
    ensures FirstToken(a + " " + rest) == a
    decreases |a|
  {
    assert (a + " " + rest)[0] == a[0];
    WordOfSpaced(a, rest);
    if |a| > 1 {
      FirstTokenOfWord(a[1..], rest);
      assert a == [a[0]] + a[1..];
    }
  }

  /**
   * The first token of a space-terminated list is its first element, provided that
   * element is a non-empty word; an empty list has the empty first token.
   */
  lemma FirstTokenOfList(tokens: seq<string>)
    requires tokens != [] ==> tokens[0] != "" && ' ' !in tokens[0]
    ensures FirstToken(SpaceTerminated(tokens)) == if tokens == [] then "" else tokens[0]
  {
    if tokens != [] {
      var s := SpaceTerminated(tokens);
      SpaceTerminatedCons(tokens[0], tokens[1..]);
      assert [tokens[0]] + tokens[1..] == tokens;
      assert s == tokens[0] + " " + SpaceTerminated(tokens[1..]);
      assert s[0] == tokens[0][0];
      WordOfSpaced(tokens[0], SpaceTerminated(tokens[1..]));
    }
  }

  /** The longest prefix of decimal digits. */
  function DigitPrefix(s: string): (d: string)
    ensures |d| <= |s| && d == s[..|d|]
    ensures forall i | 0 <= i < |d| :: IsDigit(d[i])
    ensures |d| < |s| ==> !IsDigit(s[|d|])
  {
    if s == [] || !IsDigit(s[0]) then "" else [s[0]] + DigitPrefix(s[1..])
  }

  function DigitValue(c: char): (v: nat)
    requires IsDigit(c)
    ensures v < 10
  {
    c as int - '0' as int
  }

  /** The value of a string of decimal digits, most significant first. */
  function DigitsValue(d: string): nat
    requires forall i | 0 <= i < |d| :: IsDigit(d[i])
  {
    if d == [] then 0 else DigitsValue(d[..|d| - 1]) * 10 + DigitValue(d[|d| - 1])
  }

  /** `s` without its leading `isspace` characters. */
  function SkipSpace(s: string): (r: string)
    ensures |r| <= |s| && r == s[|s| - |r|..]
    ensures r != [] ==> !IsSpace(r[0])
    ensures forall i | 0 <= i < |s| - |r| :: IsSpace(s[i])
  {
    if s != [] && IsSpace(s[0]) then SkipSpace(s[1..]) else s
  }

  /**
   * C's `atoi`: leading white space, an optional sign, then the longest run of decimal
   * digits; 0 when there is none. The value is not reduced to the width of `int`.
   */
  function Atoi(s: string): (n: int)
    ensures var t := SkipSpace(s);
      var unsigned := if t != [] && (t[0] == '-' || t[0] == '+') then t[1..] else t;
      DigitPrefix(unsigned) == [] ==> n == 0
    ensures n < 0 ==> SkipSpace(s) != [] && SkipSpace(s)[0] == '-'
  {
    var t := SkipSpace(s);
    if t != [] && (t[0] == '-' || t[0] == '+') then
      var magnitude: int := DigitsValue(DigitPrefix(t[1..]));
      if t[0] == '-' then -magnitude else magnitude
    else DigitsValue(DigitPrefix(t))
  }

  function DigitChar(d: nat): (c: char)
    requires d < 10
    ensures IsDigit(c)
  {
    '0' + d as char
  }

  /** The decimal digits of `n`, most significant first, without leading zeros. */
  function Digits(n: nat): (d: string)
    ensures d != [] && forall i | 0 <= i < |d| :: IsDigit(d[i])
  {
    if n < 10 then [DigitChar(n)] else Digits(n / 10) + [DigitChar(n % 10)]
  }

  /** printf's `%d`: a minus sign for negative numbers, then the digits of the magnitude. */
  function Dec(n: int): (d: string)
  {
    if n < 0 then "-" + Digits(-n) else Digits(n)
  }

  lemma {:induction false} DigitsValueOfDigits(n: nat)
    ensures DigitsValue(Digits(n)) == n
  {
    if n >= 10 {
      var d := Digits(n);
      assert d[..|d| - 1] == Digits(n / 10);
      DigitsValueOfDigits(n / 10);
    }
  }

  lemma {:induction false} DigitPrefixOfDigits(d: string)
    requires forall i | 0 <= i < |d| :: IsDigit(d[i])
    ensures DigitPrefix(d) == d
  {
    if d != [] {
      DigitPrefixOfDigits(d[1..]);
    }
  }

  /** What `%d` prints, `atoi` reads back: the two conversions are inverse. */
  lemma AtoiOfDec(n: int)
    ensures Atoi(Dec(n)) == n
  {
    var m: nat := if n < 0 then -n else n;
    var d := Digits(m);
    DigitPrefixOfDigits(d);
    DigitsValueOfDigits(m);
    var s := Dec(n);
    assert !IsSpace(s[0]);
    assert SkipSpace(s) == s;
    if n < 0 {
      assert s == "-" + d && s[1..] == d;
    } else {
      assert s == d && s[0] != '-' && s[0] != '+';
    }
  }
}
