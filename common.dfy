/**
 * Values shared by the whole model: JavaScript's "a value or null" and
 * "a value or a thrown error", and the decimal text a template literal
 * produces for an integer (`${n}`, `String(n)`).
 */
module Common {

  /** A value that may be `null` or `undefined` (None). */
  datatype Option<+T> = None | Some(value: T) {
    function GetOr(default: T): T {
      match this
      case Some(v) => v
      case None => default
    }
  }

  /** The outcome of an operation that may throw: Err carries the error message. */
  datatype Result<+T> = Ok(value: T) | Err(message: string)

  predicate IsDigit(c: char) {
    '0' <= c <= '9'
  }

  predicate AllDigits(s: string) {
    forall i :: 0 <= i < |s| ==> IsDigit(s[i])
  }

  function DigitChar(d: nat): (c: char)
    requires d < 10
    ensures IsDigit(c)
  {
    "0123456789"[d]
  }

  function DigitValue(c: char): (d: nat)
    requires IsDigit(c)
    ensures d < 10 && DigitChar(d) == c
  {
    (c as int) - ('0' as int)
  }

  /** The decimal digits of a non-negative integer, without leading zeros. */
  function NatDigits(n: nat): (s: string)
    ensures |s| >= 1 && AllDigits(s)
    ensures |s| > 1 ==> s[0] != '0'
    ensures n < 10 <==> |s| == 1
    decreases n
  {
    if n < 10 then [DigitChar(n)] else NatDigits(n / 10) + [DigitChar(n % 10)]
  }

  /** Reads a non-empty string of decimal digits back as a number. */
  function ParseNat(s: string): nat
    requires |s| >= 1 && AllDigits(s)
    decreases |s|
  {
    if |s| == 1 then DigitValue(s[0])
    else 10 * ParseNat(s[..|s| - 1]) + DigitValue(s[|s| - 1])
  }

  /** `String(n)` for an integer: a '-' before the digits of a negative number. */
  function Decimal(n: int): (s: string)
    ensures |s| >= 1
    ensures n < 0 <==> s[0] == '-'
    ensures n >= 0 ==> AllDigits(s)
    ensures n < 0 ==> |s| >= 2 && AllDigits(s[1..])
    ensures n >= 0 && |s| > 1 ==> s[0] != '0'
    ensures n < 0 ==> s[1] != '0'
  {
    if n < 0 then "-" + NatDigits(-n) else NatDigits(n)
  }

  /** Reads the text written by Decimal back as a number. */
  function ParseDecimal(s: string): int
    requires |s| >= 1
    requires if s[0] == '-' then |s| >= 2 && AllDigits(s[1..]) else AllDigits(s)
  {
    if s[0] == '-' then -(ParseNat(s[1..]) as int) else ParseNat(s)
  }

  /** Digits read back give the number they were written from. */
  lemma {:induction false} ParseNatDigits(n: nat)
    ensures ParseNat(NatDigits(n)) == n
    decreases n
  {
    if n >= 10 {
      var init, last := NatDigits(n / 10), [DigitChar(n % 10)];
      var s := init + last;
      assert s == NatDigits(n);
      assert s[..|s| - 1] == init && s[|s| - 1] == last[0];
      ParseNatDigits(n / 10);
      assert ParseNat(s) == 10 * (n / 10) + n % 10;
    }
  }

  /** Decimal text is a faithful rendering: reading it back gives the integer. */
  lemma DecimalRoundTrip(n: int)
    ensures ParseDecimal(Decimal(n)) == n
  {
    if n < 0 {
      var digits := NatDigits(-n);
      assert Decimal(n) == "-" + digits;
      assert ("-" + digits)[1..] == digits;
      ParseNatDigits(-n);
    } else {
      ParseNatDigits(n);
    }
  }

  /** Different integers are written differently. */
  lemma DecimalInjective(a: int, b: int)
    requires Decimal(a) == Decimal(b)
    ensures a == b
  {
    DecimalRoundTrip(a);
    DecimalRoundTrip(b);
  }

  /** `indexOf(x)`: the first position of `x` in `s`, or -1. */
  function IndexOf<T(==)>(s: seq<T>, x: T): (k: int)
    ensures -1 <= k < |s|
    ensures k == -1 <==> forall i :: 0 <= i < |s| ==> s[i] != x
    ensures k >= 0 ==> s[k] == x && forall i :: 0 <= i < k ==> s[i] != x
    decreases |s|
  {
    if |s| == 0 then -1
    else if s[0] == x then 0
    else
      var k := IndexOf(s[1..], x);
      if k == -1 then -1 else k + 1
  }

  /** A text without a newline character. */
  predicate OneLine(s: string) {
    '\n' !in s
  }

  /** The length of the first line: the position of the first newline, or the whole length. */
  function LineEnd(s: string): (k: nat)
    ensures k <= |s|
    decreases |s|
  {
    if |s| == 0 || s[0] == '\n' then 0 else 1 + LineEnd(s[1..])
  }

  /** The lines of a text: the pieces between newline characters, as `split('\n')` gives them. */
  function Lines(s: string): seq<string>
    decreases |s|
  {
    var k := LineEnd(s);
    if k == |s| then [s] else [s[..k]] + Lines(s[k + 1..])
  }

  /** The first line ends at the first newline. */
  lemma {:induction false} LineEndCons(a: string, b: string)
    requires OneLine(a)
    ensures LineEnd(a + "\n" + b) == |a|
    decreases |a|
  {
    if |a| > 0 {
      assert (a + "\n" + b)[1..] == a[1..] + "\n" + b;
      LineEndCons(a[1..], b);
    }
  }

  /** A text without a newline is all first line. */
  lemma {:induction false} LineEndWhole(s: string)
    requires OneLine(s)
    ensures LineEnd(s) == |s|
    decreases |s|
  {
    if |s| > 0 {
      LineEndWhole(s[1..]);
    }
  }

  /** A newline-free line, a newline, then the rest: the line comes first. */
  lemma LinesCons(s: string, a: string, b: string)
    requires OneLine(a) && s == a + "\n" + b
    ensures Lines(s) == [a] + Lines(b)
  {
    LineEndCons(a, b);
    assert s[..|a|] == a && s[|a| + 1..] == b;
  }

  /** A newline-free text is one line. */
  lemma SingleLine(s: string)
    requires OneLine(s)
    ensures Lines(s) == [s]
  {
    LineEndWhole(s);
  }

  /** Four newline-free pieces joined by newlines split back into those four lines. */
  lemma FourLines(a: string, b: string, c: string, d: string)
    requires OneLine(a) && OneLine(b) && OneLine(c) && OneLine(d)
    ensures Lines(a + "\n" + b + "\n" + c + "\n" + d) == [a, b, c, d]
  {
    var cd := c + "\n" + d;
    var bcd := b + "\n" + cd;
    var s := a + "\n" + b + "\n" + c + "\n" + d;
    assert s == a + "\n" + bcd;
    SingleLine(d);
    LinesCons(cd, c, d);
    LinesCons(bcd, b, cd);
    LinesCons(s, a, bcd);
  }
}
