/** Positional printing, as Rust's `format!` does it for `{}`, `{:0w}` and `{:04x}`. */
module Digits {
  import opened Text

  function DigitChar(d: nat): char
    requires d < 16
  {
    "0123456789abcdef"[d]
  }

  lemma DigitCharIncreasing(a: nat, b: nat)
    requires a < b < 16
    ensures DigitChar(a) < DigitChar(b)
  {}

  datatype Base = Decimal | Hex

  function Shift(n: nat, base: Base): nat {
    if base.Decimal? then n / 10 else n / 16
  }

  function Last(n: nat, base: Base): (d: nat)
    ensures d < 16
  {
    if base.Decimal? then n % 10 else n % 16
  }

  function Append(n: nat, d: nat, base: Base): nat {
    if base.Decimal? then 10 * n + d else 16 * n + d
  }

  // The shortest representation of `n`, most significant digit first.
  function Print(n: nat, base: Base): (s: string)
    ensures s != []
  {
    if Shift(n, base) == 0 then [DigitChar(n)] else Print(Shift(n, base), base) + [DigitChar(Last(n, base))]
  }

  // `{:0w}` (base 10) and `{:0wx}` (base 16).
  function PadTo(s: string, w: nat): string
    decreases w - |s|
  {
    if |s| >= w then s else PadTo(['0'] + s, w)
  }

  function PrintPadded(n: nat, base: Base, w: nat): string
  {
    PadTo(Print(n, base), w)
  }

  function PrintInt(n: int): string {
    if n < 0 then "-" + Print(-n, Decimal) else Print(n, Decimal)
  }

  // The value a digit string denotes; the inverse of printing.
  function DigitValue(c: char): nat {
    if '0' <= c <= '9' then c as int - '0' as int
    else if 'a' <= c <= 'f' then c as int - 'a' as int + 10
    else 0
  }

  function Parse(s: string, base: Base): nat {
    if s == [] then 0 else Append(Parse(s[..|s| - 1], base), DigitValue(s[|s| - 1]), base)
  }

  predicate IsDigits(s: string) {
    forall i :: 0 <= i < |s| ==> '0' <= s[i] <= '9' || 'a' <= s[i] <= 'f'
  }

  lemma DigitOfChar(d: nat)
    requires d < 16
    ensures DigitValue(DigitChar(d)) == d && IsDigits([DigitChar(d)])
  {}

  lemma {:induction false} ParsePrint(n: nat, base: Base)
    ensures Parse(Print(n, base), base) == n && IsDigits(Print(n, base))
  {
    var s := Print(n, base);
    DigitOfChar(Last(n, base));
    if Shift(n, base) == 0 {
      DigitOfChar(n);
      assert s[..|s| - 1] == [];
    } else {
      ParsePrint(Shift(n, base), base);
      assert s[..|s| - 1] == Print(Shift(n, base), base);
    }
  }

  lemma {:induction false} ParseLeadingZero(s: string, base: Base)
    ensures Parse(['0'] + s, base) == Parse(s, base)
  {
    var z := ['0'] + s;
    if s == [] {
      assert z[..|z| - 1] == [];
    } else {
      assert z[..|z| - 1] == ['0'] + s[..|s| - 1];
      ParseLeadingZero(s[..|s| - 1], base);
    }
  }

  lemma {:induction false} ParsePadded(s: string, w: nat, base: Base)
    requires IsDigits(s)
    ensures Parse(PadTo(s, w), base) == Parse(s, base) && IsDigits(PadTo(s, w))
    decreases w - |s|
  {
    if |s| < w {
      ParseLeadingZero(s, base);
      ParsePadded(['0'] + s, w, base);
    }
  }

  /** Padding loses nothing: the printed number can be read back, so printing is injective. */
  lemma PrintPaddedRoundTrip(n: nat, base: Base, w: nat)
    ensures Parse(PrintPadded(n, base, w), base) == n && IsDigits(PrintPadded(n, base, w))
  {
    ParsePrint(n, base);
    ParsePadded(Print(n, base), w, base);
  }

  lemma PrintIntSign(n: int)
    ensures PrintInt(n) != [] && (PrintInt(n)[0] == '-' <==> n < 0)
  {
    ParsePrint(if n < 0 then -n else n, Decimal);
    assert n >= 0 ==> PrintInt(n)[0] == Print(n, Decimal)[0];
  }

  lemma PrintIntInjective(a: int, b: int)
    requires PrintInt(a) == PrintInt(b)
    ensures a == b
  {
    PrintIntSign(a);
    PrintIntSign(b);
    ParsePrint(if a < 0 then -a else a, Decimal);
    ParsePrint(if b < 0 then -b else b, Decimal);
    if a < 0 {
      assert PrintInt(a)[1..] == Print(-a, Decimal) && PrintInt(b)[1..] == Print(-b, Decimal);
    }
  }

  // Exactly `w` digits; what `{:0w}` prints while the number fits.
  function Fixed(n: nat, w: nat): (s: string)
    ensures |s| == w
  {
    if w == 0 then [] else Fixed(n / 10, w - 1) + [DigitChar(n % 10)]
  }

  function Pow10(w: nat): nat {
    if w == 0 then 1 else 10 * Pow10(w - 1)
  }

  lemma {:induction false} FixedZero(w: nat)
    ensures Fixed(0, w) == seq(w, _ => '0')
  {
    if w > 0 {
      FixedZero(w - 1);
    }
  }

  lemma {:induction false} PadAppends(s: string, w: nat, c: char)
    ensures PadTo(s + [c], w + 1) == PadTo(s, w) + [c]
    decreases w - |s|
  {
    if |s| < w {
      assert ['0'] + (s + [c]) == (['0'] + s) + [c];
      PadAppends(['0'] + s, w, c);
    }
  }

  lemma {:induction false} PadZeros(c: char, w: nat)
    requires w > 0
    ensures PadTo([c], w) == seq(w - 1, _ => '0') + [c]
  {
    if w == 1 {
    } else {
      PadZerosFrom([c], w);
    }
  }

  lemma {:induction false} PadZerosFrom(s: string, w: nat)
    requires |s| <= w
    ensures PadTo(s, w) == seq(w - |s|, _ => '0') + s
    decreases w - |s|
  {
    if |s| < w {
      PadZerosFrom(['0'] + s, w);
    }
  }

  lemma {:induction false} PaddedIsFixed(n: nat, w: nat)
    requires w > 0 && n < Pow10(w)
    ensures PrintPadded(n, Decimal, w) == Fixed(n, w)
  {
    if n < 10 {
      PadZeros(DigitChar(n), w);
      FixedZero(w - 1);
    } else {
      assert w > 1;
      PaddedIsFixed(n / 10, w - 1);
      PadAppends(Print(n / 10, Decimal), w - 1, DigitChar(n % 10));
    }
  }

  /** Fixed-width decimal text orders like the numbers it prints. */
  lemma {:induction false} FixedIncreasing(a: nat, b: nat, w: nat)
    requires a < b < Pow10(w)
    ensures Before(Fixed(a, w), Fixed(b, w))
  {
    if a / 10 < b / 10 {
      FixedIncreasing(a / 10, b / 10, w - 1);
      BeforeExtends(Fixed(a / 10, w - 1), Fixed(b / 10, w - 1), [DigitChar(a % 10)], [DigitChar(b % 10)]);
    } else {
      DigitCharIncreasing(a % 10, b % 10);
      BeforeExtends(Fixed(a / 10, w - 1), Fixed(b / 10, w - 1), [DigitChar(a % 10)], [DigitChar(b % 10)]);
    }
  }
}
