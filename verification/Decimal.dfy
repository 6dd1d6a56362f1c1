/** Decimal numerals, as the crate renders and parses them. */
module Decimal {
  import opened Wrappers

  predicate IsDigit(c: char) {
    '0' <= c <= '9'
  }

  predicate AllDigits(s: string) {
    forall i :: 0 <= i < |s| ==> IsDigit(s[i])
  }

  function DigitOf(d: nat): (c: char)
    requires d < 10
    ensures IsDigit(c) && c as int - '0' as int == d
  {
    '0' + d as char
  }

  function ValueOf(c: char): (d: nat)
    requires IsDigit(c)
    ensures d < 10 && DigitOf(d) == c
  {
    c as int - '0' as int
  }

  /** The number a string of digits stands for. */
  function Number(s: string): nat
    requires AllDigits(s)
  {
    if s == "" then 0 else Number(s[..|s| - 1]) * 10 + ValueOf(s[|s| - 1])
  }

  function Pow10(width: nat): (p: nat)
    ensures p > 0
  {
    if width == 0 then 1 else Pow10(width - 1) * 10
  }

  /** A number padded with zeros to a fixed width; digits past the width are dropped. */
  function Padded(n: nat, width: nat): (s: string)
    ensures |s| == width && AllDigits(s)
  {
    if width == 0 then "" else Padded(n / 10, width - 1) + [DigitOf(n % 10)]
  }

  /** A number as it stands, without leading zeros. */
  function Unpadded(n: nat): (s: string)
    ensures |s| > 0 && AllDigits(s)
  {
    if n < 10 then [DigitOf(n)] else Unpadded(n / 10) + [DigitOf(n % 10)]
  }

  lemma {:induction false} PaddedReadsBack(n: nat, width: nat)
    requires n < Pow10(width)
    ensures Number(Padded(n, width)) == n
  {
    if width > 0 {
      PaddedReadsBack(n / 10, width - 1);
      assert Padded(n, width)[..width - 1] == Padded(n / 10, width - 1);
    }
  }

  lemma {:induction false} DigitsWriteBack(s: string)
    requires AllDigits(s)
    ensures Number(s) < Pow10(|s|) && Padded(Number(s), |s|) == s
  {
    if s != "" {
      DigitsWriteBack(s[..|s| - 1]);
      assert s == s[..|s| - 1] + [s[|s| - 1]];
    }
  }

  lemma {:induction false} UnpaddedReadsBack(n: nat)
    ensures Number(Unpadded(n)) == n
  {
    if n < 10 {
      assert Number(Unpadded(n)[..0]) == 0;
    } else {
      UnpaddedReadsBack(n / 10);
      assert Unpadded(n)[..|Unpadded(n)| - 1] == Unpadded(n / 10);
    }
  }

  /** The order of strings as text. */
  predicate LexLess(a: string, b: string) {
    b != "" && (a == "" || a[0] < b[0] || (a[0] == b[0] && LexLess(a[1..], b[1..])))
  }

  lemma {:induction false} LexLessAfterPrefix(prefix: string, a: string, b: string)
    ensures LexLess(prefix + a, prefix + b) <==> LexLess(a, b)
  {
    if prefix == "" {
      assert prefix + a == a && prefix + b == b;
    } else {
      LexLessAfterPrefix(prefix[1..], a, b);
      assert (prefix + a)[1..] == prefix[1..] + a && (prefix + b)[1..] == prefix[1..] + b;
    }
  }

  lemma {:induction false} LexLessByLast(a: string, b: string)
    requires |a| == |b| > 0
    ensures var n := |a| - 1;
            LexLess(a, b) <==> LexLess(a[..n], b[..n]) || (a[..n] == b[..n] && a[n] < b[n])
  {
    var n := |a| - 1;
    if n == 0 {
      assert a[1..] == "" && b[1..] == "";
    } else {
      LexLessByLast(a[1..], b[1..]);
      assert a[1..][..n - 1] == a[..n][1..] && b[1..][..n - 1] == b[..n][1..];
      assert a[..n] == [a[0]] + a[..n][1..] && b[..n] == [b[0]] + b[..n][1..];
    }
  }

  /** At one width, text order is number order. */
  lemma {:induction false} OrdersAgree(a: string, b: string)
    requires AllDigits(a) && AllDigits(b) && |a| == |b|
    ensures LexLess(a, b) <==> Number(a) < Number(b)
  {
    if |a| > 0 {
      var n := |a| - 1;
      LexLessByLast(a, b);
      OrdersAgree(a[..n], b[..n]);
      DigitsWriteBack(a[..n]);
      DigitsWriteBack(b[..n]);
    }
  }
}
