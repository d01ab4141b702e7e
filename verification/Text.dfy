/** Decimal printing as `%d` does it, and reading it back. */
module Text {
  import opened GoErrors

  predicate IsDigit(c: char) {
    '0' <= c <= '9'
  }

  function Digit(d: nat): char
    requires d < 10
  {
    '0' + d as char
  }

  function DigitValue(c: char): nat
    requires IsDigit(c)
  {
    (c - '0') as nat
  }

  /** `%d` of a natural number. */
  function Decimal(n: nat): (s: string)
    ensures s != [] && forall c <- s :: IsDigit(c)
  {
    if n < 10 then [Digit(n)] else Decimal(n / 10) + [Digit(n % 10)]
  }

  /** `%d` of an integer. */
  function DecimalInt(n: int): string {
    if n < 0 then "-" + Decimal(-n) else Decimal(n)
  }

  /** Reads digits from the left, starting from `acc`. */
  function ReadDigits(s: string, acc: nat): nat
    requires forall c <- s :: IsDigit(c)
  {
    if s == [] then acc else ReadDigits(s[1..], 10 * acc + DigitValue(s[0]))
  }

  lemma {:induction false} ReadDigitsLast(s: string, c: char, acc: nat)
    requires IsDigit(c) && forall x <- s :: IsDigit(x)
    ensures ReadDigits(s + [c], acc) == 10 * ReadDigits(s, acc) + DigitValue(c)
    decreases |s|
  {
    if s == [] {
      assert s + [c] == [c] && [c][1..] == [];
    } else {
      assert (s + [c])[1..] == s[1..] + [c];
      ReadDigitsLast(s[1..], c, 10 * acc + DigitValue(s[0]));
    }
  }

  /** Printing and reading a number gives it back. */
  lemma {:induction false} DecimalReadsBack(n: nat)
    ensures ReadDigits(Decimal(n), 0) == n
  {
    if n < 10 {
      assert [Digit(n)][1..] == [];
    } else {
      DecimalReadsBack(n / 10);
      ReadDigitsLast(Decimal(n / 10), Digit(n % 10), 0);
    }
  }

  /** Reads an integer with an optional minus sign, or nothing. */
  function ReadInt(s: string): Option<int> {
    if s != "" && s[0] == '-' then
      if forall c <- s[1..] :: IsDigit(c) then (var n: int := ReadDigits(s[1..], 0); Some(-n)) else None
    else
      if forall c <- s :: IsDigit(c) then Some(ReadDigits(s, 0)) else None
  }

  lemma IntReadsBack(n: int)
    ensures ReadInt(DecimalInt(n)) == Some(n)
  {
    var s := DecimalInt(n);
    if n < 0 {
      assert s[1..] == Decimal(-n);
      DecimalReadsBack(-n);
    } else {
      assert IsDigit(s[0]);
      DecimalReadsBack(n);
    }
  }
}
