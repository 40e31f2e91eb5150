/** Decimal renderings of natural numbers, as fmt's %d writes them. */
module Decimal {

  const DIGITS: string := "0123456789"

  function Render(n: nat): (s: string)
    ensures s != ""
    ensures forall i :: 0 <= i < |s| ==> s[i] in DIGITS
    ensures n > 0 ==> s[0] != '0'
  {
    if n < 10 then [DIGITS[n]] else Render(n / 10) + [DIGITS[n % 10]]
  }

  function DigitValue(c: char): nat {
    if '0' <= c <= '9' then (c - '0') as nat else 0
  }

  function Parse(s: string): nat {
    if s == "" then 0 else 10 * Parse(s[..|s| - 1]) + DigitValue(s[|s| - 1])
  }

  lemma {:induction false} ParseRender(n: nat)
    ensures Parse(Render(n)) == n
  {
    if n < 10 {
      assert Render(n)[..0] == "";
    } else {
      ParseRender(n / 10);
      assert Render(n)[..|Render(n)| - 1] == Render(n / 10);
    }
  }

  /** Different numbers are written differently. */
  lemma {:induction false} RenderIsInjective(m: nat, n: nat)
    requires Render(m) == Render(n)
    ensures m == n
  {
    ParseRender(m);
    ParseRender(n);
  }
}
