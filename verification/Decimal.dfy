/** Plain decimal text of natural numbers, as printf and the integer conversions use it. */
module Decimal {
  import opened Wrappers

  const UINT64_LIMIT: nat := 0x1_0000_0000_0000_0000
  const INT32_LIMIT: nat := 0x8000_0000

  predicate IsDigit(c: char) {
    '0' <= c <= '9'
  }

  predicate AllDigits(s: string) {
    forall i | 0 <= i < |s| :: IsDigit(s[i])
  }

  function DigitOf(d: nat): char
    requires d < 10
  {
    '0' + d as char
  }

  /** "%llu" of n. */
  function Show(n: nat): string {
    if n < 10 then [DigitOf(n)] else Show(n / 10) + [DigitOf(n % 10)]
  }

  function Value(s: string): nat
    requires AllDigits(s)
  {
    if s == "" then 0 else 10 * Value(s[..|s| - 1]) + (s[|s| - 1] - '0') as nat
  }

  /** The integer conversions: a digit string whose value is below the limit of the type. */
  function Parse(s: string, limit: nat): Option<nat> {
    if s != "" && AllDigits(s) && Value(s) < limit then Some(Value(s)) else None
  }

  function Zeros(k: nat): string {
    seq(k, _ => '0')
  }

  /** "%0<width>d" of a natural number. */
  function ShowPadded(n: nat, width: nat): string {
    var s := Show(n);
    if |s| < width then Zeros(width - |s|) + s else s
  }

  function Pow10(k: nat): (p: nat)
    ensures p >= 1
  {
    if k == 0 then 1 else 10 * Pow10(k - 1)
  }

  lemma {:induction false} ShowDigits(n: nat)
    ensures Show(n) != "" && AllDigits(Show(n)) && Value(Show(n)) == n
  {
    if n < 10 {
      assert Show(n)[..0] == "";
    } else {
      ShowDigits(n / 10);
      var s := Show(n);
      assert s[..|s| - 1] == Show(n / 10);
      assert s[|s| - 1] == DigitOf(n % 10);
    }
  }

  /** Parsing undoes printing exactly when the type can hold the number. */
  lemma ParseShow(n: nat, limit: nat)
    ensures Parse(Show(n), limit) == if n < limit then Some(n) else None
  {
    ShowDigits(n);
  }

  lemma {:induction false} ValueOfZeros(k: nat)
    ensures AllDigits(Zeros(k)) && Value(Zeros(k)) == 0
  {
    if k > 0 {
      ValueOfZeros(k - 1);
      assert Zeros(k)[..k - 1] == Zeros(k - 1);
    }
  }

  lemma ValueSnoc(s: string, c: char)
    requires AllDigits(s) && IsDigit(c)
    ensures AllDigits(s + [c]) && Value(s + [c]) == 10 * Value(s) + (c - '0') as nat
  {
    assert (s + [c])[..|s|] == s;
  }

  lemma Shifted(x: nat, p: nat, y: nat, d: nat)
    ensures 10 * (x * p + y) + d == x * (10 * p) + (10 * y + d)
  {
  }

  /** Reading a concatenation: the left part is shifted by the length of the right part. */
  lemma {:induction false} ValueConcat(a: string, b: string)
    requires AllDigits(a) && AllDigits(b)
    ensures AllDigits(a + b) && Value(a + b) == Value(a) * Pow10(|b|) + Value(b)
  {
    if b == "" {
      assert a + b == a;
    } else {
      var b', c := b[..|b| - 1], b[|b| - 1];
      var d := (c - '0') as nat;
      assert Pow10(|b|) == 10 * Pow10(|b'|);
      hide Value, Pow10;
      assert b == b' + [c] && a + b == (a + b') + [c];
      ValueConcat(a, b');
      ValueSnoc(b', c);
      ValueSnoc(a + b', c);
      Shifted(Value(a), Pow10(|b'|), Value(b'), d);
    }
  }

  lemma ZeroTimes(p: nat)
    ensures 0 * p == 0
  {
  }

  lemma ShowPaddedDigits(n: nat, width: nat)
    ensures ShowPadded(n, width) != "" && AllDigits(ShowPadded(n, width)) && Value(ShowPadded(n, width)) == n
    ensures |ShowPadded(n, width)| >= width
  {
    ShowDigits(n);
    var s := Show(n);
    hide Value, Pow10, Show, AllDigits;
    if |s| < width {
      ValueOfZeros(width - |s|);
      ValueConcat(Zeros(width - |s|), s);
      ZeroTimes(Pow10(|s|));
    }
  }

  lemma {:induction false} ShowLength(n: nat, k: nat)
    requires k >= 1 && n < Pow10(k)
    ensures |Show(n)| <= k
  {
    if n >= 10 {
      assert k >= 2;
      ShowLength(n / 10, k - 1);
    }
  }

  lemma ShowInjective(a: nat, b: nat)
    requires Show(a) == Show(b)
    ensures a == b
  {
    ShowDigits(a);
    ShowDigits(b);
  }
}
