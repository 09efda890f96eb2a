/**
 * Decimal rendering of unsigned integers (Rust's `u64::to_string`), used for the
 * `size_in_bytes` column of an object, and the parse that inverts it.
 */
module Decimal {
  import opened Outcomes

  predicate IsDigit(c: char) { '0' <= c <= '9' }

  function DigitValue(c: char): (d: nat)
    requires IsDigit(c)
    ensures d < 10
  {
    c as int - '0' as int
  }

  function DigitChar(d: nat): (c: char)
    requires d < 10
    ensures IsDigit(c) && DigitValue(c) == d
  {
    ['0', '1', '2', '3', '4', '5', '6', '7', '8', '9'][d]
  }

  /** The shortest decimal numeral of `n`, most significant digit first. */
  function Render(n: nat): (s: string)
    decreases n
  {
    if n < 10 then [DigitChar(n)] else Render(n / 10) + [DigitChar(n % 10)]
  }

  function DigitsValue(s: string): nat
    requires forall i :: 0 <= i < |s| ==> IsDigit(s[i])
  {
    if s == [] then 0
    else DigitsValue(s[..|s| - 1]) * 10 + DigitValue(s[|s| - 1])
  }

  /** Reads back a numeral: a non-empty string of digits. */
  function Parse(s: string): Option<nat> {
    if s != [] && forall i :: 0 <= i < |s| ==> IsDigit(s[i]) then Some(DigitsValue(s)) else None
  }

  /** A rendered size is a canonical numeral: digits only, no leading zero unless it is "0". */
  lemma {:induction false} RenderIsCanonical(n: nat)
    ensures |Render(n)| > 0
    ensures forall i :: 0 <= i < |Render(n)| ==> IsDigit(Render(n)[i])
    ensures Render(n)[0] == '0' <==> n == 0
  {
    if n >= 10 {
      RenderIsCanonical(n / 10);
      var s := Render(n / 10);
      assert Render(n) == s + [DigitChar(n % 10)];
      assert Render(n)[0] == s[0];
    }
  }

  /** Parsing a rendered size gives the size back. */
  lemma {:induction false} ParseRender(n: nat)
    ensures Parse(Render(n)) == Some(n)
  {
    RenderIsCanonical(n);
    DigitsValueRender(n);
  }

  lemma {:induction false} DigitsValueRender(n: nat)
    ensures forall i :: 0 <= i < |Render(n)| ==> IsDigit(Render(n)[i])
    ensures DigitsValue(Render(n)) == n
  {
    RenderIsCanonical(n);
    if n >= 10 {
      DigitsValueRender(n / 10);
      var s := Render(n);
      assert s[..|s| - 1] == Render(n / 10);
    }
  }

  /** Rendering is injective: two sizes with the same column value are equal. */
  lemma RenderInjective(m: nat, n: nat)
    requires Render(m) == Render(n)
    ensures m == n
  {
    ParseRender(m);
    ParseRender(n);
  }
}
