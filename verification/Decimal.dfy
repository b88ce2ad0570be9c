/** Decimal printing of natural numbers, as the formatting macros do it. */
module Decimal {
  const DIGITS := "0123456789"

  function Print(n: nat): (s: string)
    ensures s != ""
  {
    if n < 10 then [DIGITS[n]] else Print(n / 10) + [DIGITS[n % 10]]
  }

  /** The number a string of digits stands for, the first digit counting most. */
  function Read(s: string): int {
    if s == "" then 0 else 10 * Read(s[..|s| - 1]) + (s[|s| - 1] as int - '0' as int)
  }

  /** What is printed reads back, and has no leading zero. */
  lemma {:induction false} PrintReadsBack(n: nat)
    ensures Read(Print(n)) == n && (n > 0 ==> Print(n)[0] != '0')
  {
    assert DIGITS[n % 10] as int == '0' as int + n % 10;
    if n < 10 {
      assert Print(n)[..0] == "";
    } else {
      PrintReadsBack(n / 10);
      assert Print(n)[..|Print(n)| - 1] == Print(n / 10);
    }
  }

  /** Different numbers print differently. */
  lemma {:induction false} PrintInjective(m: nat, n: nat)
    requires Print(m) == Print(n)
    ensures m == n
    decreases m + n
  {
    var s := Print(m);
    assert s[|s| - 1] == DIGITS[m % 10] == DIGITS[n % 10];
    if m >= 10 && n >= 10 {
      assert Print(m / 10) == s[..|s| - 1] == Print(n / 10);
      PrintInjective(m / 10, n / 10);
    }
  }

  lemma {:induction false} PrintedDigits(n: nat, i: nat)
    requires i < |Print(n)|
    ensures Print(n)[i] in DIGITS
  {
    if n >= 10 && i < |Print(n)| - 1 {
      PrintedDigits(n / 10, i);
    }
  }

  function Pow10(k: nat): nat { if k == 0 then 1 else 10 * Pow10(k - 1) }

  lemma {:induction false} PrintedLength(n: nat, k: nat)
    requires k > 0 && n < Pow10(k)
    ensures |Print(n)| <= k
  {
    if n >= 10 {
      assert k > 1;
      PrintedLength(n / 10, k - 1);
    }
  }

  /** A port number has at most five digits. */
  lemma {:induction false} PortLength(n: nat)
    requires n < 0x10000
    ensures |Print(n)| <= 5
  {
    assert Pow10(3) == 1000;
    assert Pow10(5) == 100000;
    PrintedLength(n, 5);
  }
}
