/** Numbers as digits, most significant first, as `printf` writes them with `%d`, `%0nd`, `%lu` and `%x`. */
module Numerals {

  type Digit = d: nat | d < 16

  function DigitChar(d: Digit): char {
    if d < 10 then '0' + (d as char) else 'a' + ((d - 10) as char)
  }

  function DigitValue(c: char): nat {
    if '0' <= c <= '9' then (c - '0') as nat else if 'a' <= c <= 'f' then (c - 'a') as nat + 10 else 0
  }

  /** Decimal or hexadecimal. */
  datatype Radix = Ten | Sixteen

  function Quotient(n: nat, base: Radix): nat { if base.Ten? then n / 10 else n / 16 }

  function Remainder(n: nat, base: Radix): Digit { if base.Ten? then n % 10 else n % 16 }

  function Shifted(n: nat, base: Radix): nat { if base.Ten? then n * 10 else n * 16 }

  function Numeral(n: nat, base: Radix): (d: string)
    ensures d != []
    decreases n
  {
    (if Quotient(n, base) == 0 then [] else Numeral(Quotient(n, base), base)) + [DigitChar(Remainder(n, base))]
  }

  /** The number whose digits these are. */
  function Reading(d: string, base: Radix): nat {
    if d == [] then 0 else Shifted(Reading(d[..|d| - 1], base), base) + DigitValue(d[|d| - 1])
  }

  lemma DigitReads(d: Digit)
    ensures DigitValue(DigitChar(d)) == d
  {
  }

  lemma ReadingSnoc(d: string, c: char, base: Radix)
    ensures Reading(d + [c], base) == Shifted(Reading(d, base), base) + DigitValue(c)
  {
    assert (d + [c])[..|d|] == d;
  }

  lemma {:induction false} NumeralReads(n: nat, base: Radix)
    ensures Reading(Numeral(n, base), base) == n
    decreases n
  {
    var q := Quotient(n, base);
    var front := if q == 0 then [] else Numeral(q, base);
    DigitReads(Remainder(n, base));
    ReadingSnoc(front, DigitChar(Remainder(n, base)), base);
    if q > 0 { NumeralReads(q, base); }
  }

  lemma NumeralsDiffer(m: nat, n: nat, base: Radix)
    requires Numeral(m, base) == Numeral(n, base)
    ensures m == n
  {
    NumeralReads(m, base);
    NumeralReads(n, base);
  }

  /** In decimal, with zeros in front up to a width. */
  function Padded(n: nat, width: nat): string {
    var d := Numeral(n, Ten);
    if |d| < width then seq(width - |d|, _ => '0') + d else d
  }

  lemma {:induction false} ZerosReadNothing(k: nat, d: string)
    ensures Reading(seq(k, _ => '0') + d, Ten) == Reading(d, Ten)
  {
    var zeros := seq(k, _ => '0');
    if d != [] {
      var n := |d| - 1;
      ZerosReadNothing(k, d[..n]);
      assert zeros + d == zeros + d[..n] + [d[n]];
      ReadingSnoc(zeros + d[..n], d[n], Ten);
    } else if k > 0 {
      ZerosReadNothing(k - 1, []);
      assert zeros + d == (seq(k - 1, _ => '0') + []) + ['0'];
      ReadingSnoc(seq(k - 1, _ => '0') + [], '0', Ten);
    }
  }

  /** What is padded reads as the number still, and is as wide as it should be, or wider without padding. */
  lemma PaddedReads(n: nat, width: nat)
    ensures Reading(Padded(n, width), Ten) == n
    ensures |Padded(n, width)| >= width
    ensures |Padded(n, width)| > width ==> Padded(n, width) == Numeral(n, Ten)
  {
    NumeralReads(n, Ten);
    if |Numeral(n, Ten)| < width { ZerosReadNothing(width - |Numeral(n, Ten)|, Numeral(n, Ten)); }
  }
}
