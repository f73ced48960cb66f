/** Python's `str(n)` for an `int` (decimal digits, a leading '-' when negative). */
module PyStr {

  function DigitChar(d: nat): (c: char)
    requires d < 10
    ensures '0' <= c <= '9'
  {
    (('0' as int) + d) as char
  }

  function NatStr(n: nat): (s: string)
    ensures |s| >= 1
    ensures forall i :: 0 <= i < |s| ==> '0' <= s[i] <= '9'
    decreases n
  {
    if n < 10 then [DigitChar(n)] else NatStr(n / 10) + [DigitChar(n % 10)]
  }

  function IntStr(i: int): (s: string)
    decreases if i < 0 then 1 else 0
  {
    if i < 0 then "-" + IntStr(-i) else NatStr(i)
  }

  /** The number a string of decimal digits denotes; the inverse of `NatStr`. */
  function DecimalValue(s: string): int {
    if s == [] then 0 else DecimalValue(s[..|s| - 1]) * 10 + (s[|s| - 1] as int - '0' as int)
  }

  lemma {:induction false} NatStrRoundTrip(n: nat)
    ensures DecimalValue(NatStr(n)) == n
  {
    if n >= 10 {
      var s := NatStr(n);
      assert s[..|s| - 1] == NatStr(n / 10);
      NatStrRoundTrip(n / 10);
    }
  }

  lemma NatStrInjective(m: nat, n: nat)
    requires NatStr(m) == NatStr(n)
    ensures m == n
  {
    NatStrRoundTrip(m);
    NatStrRoundTrip(n);
  }

  /** The printed form starts with '-' exactly for negative numbers. */
  lemma IntStrSign(i: int)
    ensures IntStr(i)[0] == '-' <==> i < 0
  {
    if i >= 0 {
      assert '0' <= NatStr(i)[0];
    }
  }

  /** Different integers print differently. */
  lemma IntStrInjective(i: int, j: int)
    requires IntStr(i) == IntStr(j)
    ensures i == j
  {
    IntStrSign(i);
    IntStrSign(j);
    if i < 0 && j < 0 {
      assert IntStr(i)[1..] == NatStr(-i);
      assert IntStr(j)[1..] == NatStr(-j);
      NatStrInjective(-i, -j);
    } else if i >= 0 && j >= 0 {
      NatStrInjective(i, j);
    }
  }
}
