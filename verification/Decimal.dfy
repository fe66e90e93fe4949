// Decimal printing of natural numbers, as template strings and printf("%llu") do it.

module Decimal {
  function Digit(n: nat): char
    requires n < 10
  {
    '0' + n as char
  }

  function Dec(n: nat): (s: string)
    ensures s != "" && forall i :: 0 <= i < |s| ==> '0' <= s[i] <= '9'
  {
    if n < 10 then [Digit(n)] else Dec(n / 10) + [Digit(n % 10)]
  }

  function Value(s: string): nat
    requires forall i :: 0 <= i < |s| ==> '0' <= s[i] <= '9'
  {
    if s == "" then 0 else Value(s[..|s| - 1]) * 10 + (s[|s| - 1] as nat - '0' as nat)
  }

  lemma {:induction false} ReadBack(n: nat)
    ensures Value(Dec(n)) == n
  {
    if n >= 10 {
      ReadBack(n / 10);
      assert Dec(n)[..|Dec(n)| - 1] == Dec(n / 10);
    } else {
      assert Dec(n)[..0] == "";
    }
  }

  lemma Injective(a: nat, b: nat)
    requires Dec(a) == Dec(b)
    ensures a == b
  {
    ReadBack(a);
    ReadBack(b);
  }

  function Pow10(d: nat): nat {
    if d == 0 then 1 else 10 * Pow10(d - 1)
  }

  lemma {:induction false} Width(n: nat, d: nat)
    requires d > 0 && n < Pow10(d)
    ensures |Dec(n)| <= d
  {
    assert Pow10(1) == 10;
    if n >= 10 {
      assert d > 1;
      Width(n / 10, d - 1);
    }
  }

  // ----- the fallback half of GenerateClientId -----

  const TWO_64: nat := 0x1_0000_0000_0000_0000

  function FallbackId(time: nat, counter: nat): string {
    Dec(time) + "-" + Dec(counter)
  }

  // A dash ends the digits before it, so the two numbers can be read off again.
  lemma SplitAtDash(a: string, b: string, c: string, d: string)
    requires '-' !in b && '-' !in d
    requires a + "-" + b == c + "-" + d
    ensures a == c && b == d
  {
    var s := a + "-" + b;
    assert s[|a|] == '-' && s[|c|] == '-';
    assert forall k :: |a| < k < |s| ==> s[k] == b[k - |a| - 1];
    assert forall k :: |c| < k < |s| ==> s[k] == d[k - |c| - 1];
    assert |a| == |c|;
    assert a == s[..|a|] && c == s[..|c|] && b == s[|a| + 1..] && d == s[|c| + 1..];
  }

  lemma NoDash(n: nat)
    ensures '-' !in Dec(n)
  {
  }

  // Ids made by different counter values differ whatever the clock says, and always fit.
  lemma FallbackIds(t: nat, c: nat, u: nat, d: nat)
    requires t < TWO_64 && c < TWO_64 && u < TWO_64 && d < TWO_64
    ensures FallbackId(t, c) == FallbackId(u, d) <==> t == u && c == d
    ensures 3 <= |FallbackId(t, c)| <= 41 < 96
    ensures var id, n := FallbackId(t, c), |Dec(t)|;
            && id[n] == '-' && id[..n] == Dec(t) && id[n + 1..] == Dec(c)
            && Value(id[..n]) == t && Value(id[n + 1..]) == c
  {
    if FallbackId(t, c) == FallbackId(u, d) {
      NoDash(c);
      NoDash(d);
      SplitAtDash(Dec(t), Dec(c), Dec(u), Dec(d));
      Injective(t, u);
      Injective(c, d);
    }
    ReadBack(t);
    ReadBack(c);
    TwentyDigits();
    Width(t, 20);
    Width(c, 20);
  }

  lemma TwentyDigits()
    ensures TWO_64 < Pow10(20)
  {
    assert Pow10(4) == 10_000;
    assert Pow10(8) == 100_000_000;
    assert Pow10(12) == 1_000_000_000_000;
    assert Pow10(16) == 10_000_000_000_000_000;
  }
}
