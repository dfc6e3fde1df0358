/** Decimal printing and reading of natural numbers. */
module Decimal {

  predicate IsDigit(c: char) {
    '0' <= c <= '9'
  }

  predicate AllDigits(text: string) {
    forall i :: 0 <= i < |text| ==> IsDigit(text[i])
  }

  function DigitValue(c: char): nat
    requires IsDigit(c)
  {
    c as int - '0' as int
  }

  function Digit(d: nat): (c: char)
    requires d < 10
    ensures IsDigit(c) && DigitValue(c) == d
  {
    ('0' as int + d) as char
  }

  /** `str(n)`. */
  function Print(n: nat): (text: string)
    ensures text != "" && AllDigits(text)
  {
    if n < 10 then [Digit(n)] else Print(n / 10) + [Digit(n % 10)]
  }

  /** `int(text)` on a string of digits. */
  function Read(text: string): nat
    requires AllDigits(text)
  {
    if text == "" then 0 else Read(text[..|text| - 1]) * 10 + DigitValue(text[|text| - 1])
  }

  lemma {:induction false} ReadPrint(n: nat)
    ensures Read(Print(n)) == n
  {
    if n >= 10 {
      ReadPrint(n / 10);
      assert Print(n)[..|Print(n)| - 1] == Print(n / 10);
    } else {
      assert [Digit(n)][..0] == "";
    }
  }

  function Zeros(n: nat): (text: string)
    ensures |text| == n && AllDigits(text)
  {
    seq(n, _ => '0')
  }

  /** `f"{n:0{width}d}"`: padded with zeros, and wider when the number needs it. */
  function Padded(n: nat, width: nat): (text: string)
    ensures text != "" && AllDigits(text) && |text| >= width
  {
    var text := Print(n);
    if |text| < width then Zeros(width - |text|) + text else text
  }

  lemma {:induction false} LeadingZeros(n: nat, text: string)
    requires AllDigits(text)
    ensures Read(Zeros(n) + text) == Read(text)
  {
    if text != "" {
      var all := Zeros(n) + text;
      assert all[..|all| - 1] == Zeros(n) + text[..|text| - 1];
      LeadingZeros(n, text[..|text| - 1]);
    } else if n > 0 {
      assert (Zeros(n) + text)[..n - 1] == Zeros(n - 1) + text;
      LeadingZeros(n - 1, text);
    } else {
      assert Zeros(n) + text == text;
    }
  }

  lemma ReadPadded(n: nat, width: nat)
    ensures Read(Padded(n, width)) == n
  {
    ReadPrint(n);
    var text := Print(n);
    if |text| < width {
      LeadingZeros(width - |text|, text);
    }
  }
}
