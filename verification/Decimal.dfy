/** Decimal numerals as Go prints them: `strconv.Itoa` and the format verb `%03d`. */
module Decimal {
  import opened Basics

  predicate IsDigit(c: char) {
    '0' <= c <= '9'
  }

  predicate AllDigits(s: string) {
    forall i | 0 <= i < |s| :: IsDigit(s[i])
  }

  function Digit(d: nat): char
    requires d < 10
  {
    '0' + d as char
  }

  function Digits(n: nat): (s: string)
    ensures s != []
    ensures AllDigits(s)
  {
    if n < 10 then [Digit(n)] else Digits(n / 10) + [Digit(n % 10)]
  }

  function DigitValue(c: char): nat
    requires IsDigit(c)
  {
    c as nat - '0' as nat
  }

  /** The number a digit string denotes. */
  function Value(s: string): nat
    requires AllDigits(s)
  {
    if s == [] then 0 else 10 * Value(s[..|s| - 1]) + DigitValue(s[|s| - 1])
  }

  function Zeros(k: nat): (s: string)
    ensures |s| == k
    ensures forall i | 0 <= i < |s| :: s[i] == '0'
  {
    if k == 0 then [] else Zeros(k - 1) + ['0']
  }

  /** `strconv.Itoa(n)`. */
  function Itoa(n: int): string {
    if n < 0 then ['-'] + Digits(-n) else Digits(n)
  }

  function Abs(n: int): nat {
    if n < 0 then -n else n
  }

  function Sign(n: int): string {
    if n < 0 then "-" else ""
  }

  function Padding(n: int): nat {
    var width := |Sign(n)| + |Digits(Abs(n))|;
    if width < 3 then 3 - width else 0
  }

  /** `fmt.Sprintf("%03d", n)`: zeros go after the sign, and the sign counts towards the width. */
  function Format03(n: int): string {
    Sign(n) + (Zeros(Padding(n)) + Digits(Abs(n)))
  }

  predicate IsNumeral(s: string) {
    s != [] && AllDigits(if s[0] == '-' then s[1..] else s)
  }

  /** Reads a numeral back. */
  function Parse(s: string): int
    requires IsNumeral(s)
  {
    if s[0] == '-' then 0 - Value(s[1..]) as int else Value(s)
  }

  lemma {:induction false} ValueOfDigits(n: nat)
    ensures Value(Digits(n)) == n
  {
    if n >= 10 {
      ValueOfDigits(n / 10);
      assert Digits(n)[..|Digits(n)| - 1] == Digits(n / 10);
    }
  }

  lemma {:induction false} ValueOfPadded(k: nat, s: string)
    requires AllDigits(s)
    ensures AllDigits(Zeros(k) + s) && Value(Zeros(k) + s) == Value(s)
    decreases |s|, k
  {
    var t := Zeros(k) + s;
    if s != [] {
      assert t[..|t| - 1] == Zeros(k) + s[..|s| - 1];
      ValueOfPadded(k, s[..|s| - 1]);
    } else if k > 0 {
      assert t == Zeros(k);
      assert t[..|t| - 1] == Zeros(k - 1) == Zeros(k - 1) + [];
      ValueOfPadded(k - 1, []);
    }
  }

  lemma ParseSigned(n: int, body: string)
    requires body != [] && AllDigits(body)
    requires Value(body) == Abs(n)
    ensures IsNumeral(Sign(n) + body) && Parse(Sign(n) + body) == n
  {
    assert ("-" + body)[1..] == body;
    assert "" + body == body;
  }

  /** A padded numeral determines its number, negative ones included. */
  lemma ParseFormat03(n: int)
    ensures IsNumeral(Format03(n)) && Parse(Format03(n)) == n
  {
    ValueOfDigits(Abs(n));
    ValueOfPadded(Padding(n), Digits(Abs(n)));
    ParseSigned(n, Zeros(Padding(n)) + Digits(Abs(n)));
  }

  /** `strconv.Itoa` is read back the same way. */
  lemma ParseItoa(n: int)
    ensures IsNumeral(Itoa(n)) && Parse(Itoa(n)) == n
  {
    ValueOfDigits(Abs(n));
    ParseSigned(n, Digits(Abs(n)));
    assert Itoa(n) == Sign(n) + Digits(Abs(n));
  }

  lemma {:induction false} NoLeadingZero(n: nat)
    ensures n > 0 ==> Digits(n)[0] != '0'
    ensures n == 0 ==> Digits(n) == "0"
  {
    if n >= 10 {
      NoLeadingZero(n / 10);
    }
  }

  /** The padded numeral has at least three characters; padding is added to a shorter numeral only, and only up to three. */
  lemma Format03Width(n: int)
    ensures |Format03(n)| >= 3
    ensures |Itoa(n)| >= 3 ==> Format03(n) == Itoa(n)
    ensures |Itoa(n)| < 3 ==> |Format03(n)| == 3
  {
    assert Itoa(n) == Sign(n) + Digits(Abs(n));
    if |Itoa(n)| >= 3 {
      assert Zeros(0) + Digits(Abs(n)) == Digits(Abs(n));
    }
  }

  // ---- A name and a numeral behind a separator

  /** What stands before and after the last `sep`. */
  function SplitLast(s: string, sep: char): Option<(string, string)> {
    if s == [] then None
    else
      var front, last := s[..|s| - 1], s[|s| - 1];
      if last == sep then Some((front, ""))
      else
        match SplitLast(front, sep)
        case None => None
        case Some(p) => Some((p.0, p.1 + [last]))
  }

  function NumberedOf(s: string, sep: char): Option<(string, int)> {
    match SplitLast(s, sep)
    case Some((name, numeral)) => if IsNumeral(numeral) then Some((name, Parse(numeral))) else None
    case None => None
  }

  lemma {:induction false} SplitLastOf(front: string, sep: char, last: string)
    requires sep !in last
    ensures SplitLast(front + [sep] + last, sep) == Some((front, last))
    decreases |last|
  {
    var s := front + [sep] + last;
    if last == [] {
      assert s[..|s| - 1] == front;
    } else {
      var init := last[..|last| - 1];
      assert s[..|s| - 1] == front + [sep] + init;
      SplitLastOf(front, sep, init);
      assert init + [last[|last| - 1]] == last;
    }
  }

  /** A numeral holds nothing but digits and a sign. */
  lemma NoSeparator(s: string, sep: char)
    requires IsNumeral(s) && !IsDigit(sep) && sep != '-'
    ensures sep !in s
  {
    forall i | 0 <= i < |s|
      ensures s[i] != sep
    {
      if s[0] == '-' && i > 0 {
        assert s[1..][i - 1] == s[i];
      }
    }
  }

  /** Name and number can be read back, whatever separators the name has itself. */
  lemma NumberedRoundTrip(name: string, sep: char, numeral: string)
    requires IsNumeral(numeral) && !IsDigit(sep) && sep != '-'
    ensures NumberedOf(name + [sep] + numeral, sep) == Some((name, Parse(numeral)))
  {
    NoSeparator(numeral, sep);
    SplitLastOf(name, sep, numeral);
  }
}
