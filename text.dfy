/**
 * String building used by the conversation: the decimal rendering of an
 * agent's position inside an f-string, `str.join`, and writing entries one
 * after another.
 */
module Text {

  predicate IsDigit(c: char) {
    '0' <= c <= '9'
  }

  predicate AllDigits(s: string) {
    forall i :: 0 <= i < |s| ==> IsDigit(s[i])
  }

  function Digit(d: nat): (c: char)
    requires d < 10
    ensures IsDigit(c)
  {
    ('0' as int + d) as char
  }

  function DigitValue(c: char): (d: nat)
    requires IsDigit(c)
    ensures d < 10
  {
    c as int - '0' as int
  }

  /** The text that `f"{n}"` produces for a non-negative integer n. */
  function DecimalString(n: nat): (s: string)
    ensures |s| >= 1 && AllDigits(s)
    ensures s[0] == '0' ==> n == 0
  {
    if n < 10 then [Digit(n)] else DecimalString(n / 10) + [Digit(n % 10)]
  }

  /** Reads a string of decimal digits back as a number. */
  function ParseDecimal(s: string): nat
    requires AllDigits(s)
  {
    if s == [] then 0 else ParseDecimal(s[..|s| - 1]) * 10 + DigitValue(s[|s| - 1])
  }

  /** The rendering of a position loses nothing: reading it back gives the position. */
  lemma {:induction false} ParseDecimalString(n: nat)
    ensures ParseDecimal(DecimalString(n)) == n
  {
    var s := DecimalString(n);
    if n >= 10 {
      ParseDecimalString(n / 10);
      assert s[..|s| - 1] == DecimalString(n / 10);
    }
  }

  /** Two different positions are never rendered the same way. */
  lemma DecimalStringInjective(m: nat, n: nat)
    requires DecimalString(m) == DecimalString(n)
    ensures m == n
  {
    ParseDecimalString(m);
    ParseDecimalString(n);
  }

  /** `sep.join(parts)`. */
  function Join(sep: string, parts: seq<string>): string
  {
    if |parts| == 0 then ""
    else if |parts| == 1 then parts[0]
    else Join(sep, parts[..|parts| - 1]) + sep + parts[|parts| - 1]
  }

  /** Joining the first j parts gives a prefix of joining them all. */
  lemma {:induction false} JoinPrefix(sep: string, parts: seq<string>, j: nat)
    requires 1 <= j <= |parts|
    ensures Join(sep, parts[..j]) <= Join(sep, parts)
    decreases |parts|
  {
    if j == |parts| {
      assert parts[..j] == parts;
    } else {
      var front := parts[..|parts| - 1];
      JoinPrefix(sep, front, j);
      assert front[..j] == parts[..j];
      assert Join(sep, parts) == Join(sep, front) + (sep + parts[|parts| - 1]);
    }
  }

  /** The parts written one after another, with nothing between them. */
  function Concat(parts: seq<string>): string
  {
    if parts == [] then "" else Concat(parts[..|parts| - 1]) + parts[|parts| - 1]
  }

  function TotalLength(parts: seq<string>): nat
  {
    if parts == [] then 0 else TotalLength(parts[..|parts| - 1]) + |parts[|parts| - 1]|
  }

  lemma {:induction false} ConcatLength(parts: seq<string>)
    ensures |Concat(parts)| == TotalLength(parts)
  {
    if parts != [] {
      ConcatLength(parts[..|parts| - 1]);
    }
  }

  /** Concatenation regroups freely; stated once so that larger proofs need not rediscover it. */
  lemma AppendAssociative<T>(a: seq<T>, b: seq<T>, c: seq<T>)
    ensures (a + b) + c == a + (b + c)
  {
  }
}
