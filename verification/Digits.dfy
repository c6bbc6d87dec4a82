/**
 Digit strings and powers of ten.  Multiplying by 10^k is `Shift`, and quotient and
 remainder by 10^k are `Drop` and `Low`; `ShiftIsProduct` and `DropIsQuotient` say so.
 */
module Digits {
  /** n · 10^k */
  function Shift(n: nat, k: nat): nat {
    if k == 0 then n else 10 * Shift(n, k - 1)
  }

  /** n / 10^k */
  function Drop(n: nat, k: nat): nat {
    if k == 0 then n else Drop(n / 10, k - 1)
  }

  /** n % 10^k */
  function Low(n: nat, k: nat): nat {
    if k == 0 then 0 else 10 * Low(n / 10, k - 1) + n % 10
  }

  predicate IsDigit(c: char) {
    '0' <= c <= '9'
  }

  predicate DigitAt(s: string, i: nat) {
    i < |s| && IsDigit(s[i])
  }

  predicate AllDigits(s: string) {
    forall i: nat :: i < |s| ==> DigitAt(s, i)
  }

  lemma ConcatIsDigits(a: string, b: string)
    requires AllDigits(a) && AllDigits(b)
    ensures AllDigits(a + b)
  {
    forall i: nat | i < |a + b| ensures DigitAt(a + b, i) {
      assert if i < |a| then DigitAt(a, i) else DigitAt(b, i - |a|);
    }
  }

  function DigitChar(d: nat): (c: char)
    requires d < 10
    ensures IsDigit(c) && (c - '0') as nat == d
  {
    '0' + d as char
  }

  /** The number the first k digits of s read as */
  function ValueUpTo(s: string, k: nat): nat
    requires AllDigits(s) && k <= |s|
  {
    if k == 0 then 0 else
      assert DigitAt(s, k - 1);
      10 * ValueUpTo(s, k - 1) + (s[k - 1] - '0') as nat
  }

  /** The number a digit string reads as; the empty string reads as 0, as BigInt("") does. */
  function Value(s: string): nat
    requires AllDigits(s)
  {
    ValueUpTo(s, |s|)
  }

  /** BigInt's toString on a non-negative number. */
  function Print(n: nat): (s: string)
    ensures AllDigits(s) && |s| > 0 && (s[0] == '0' ==> s == "0")
  {
    if n < 10 then [DigitChar(n)] else
      ConcatIsDigits(Print(n / 10), [DigitChar(n % 10)]);
      Print(n / 10) + [DigitChar(n % 10)]
  }

  function Zeros(k: nat): (s: string)
    ensures |s| == k && AllDigits(s)
  {
    seq(k, _ => '0')
  }

  function PadStart(s: string, k: nat): string {
    if |s| >= k then s else Zeros(k - |s|) + s
  }

  function PadEnd(s: string, k: nat): string {
    if |s| >= k then s else s + Zeros(k - |s|)
  }

  function TrimmedLength(s: string, k: nat): (t: nat)
    requires k <= |s|
    ensures t <= k && (t > 0 ==> s[t - 1] != '0')
  {
    if k > 0 && s[k - 1] == '0' then TrimmedLength(s, k - 1) else k
  }

  /** replace(/0+$/, '') */
  function TrimZeros(s: string): string {
    s[..TrimmedLength(s, |s|)]
  }

  // ------------------------------------------------------- powers of ten

  function Pow10(k: nat): nat {
    if k == 0 then 1 else 10 * Pow10(k - 1)
  }

  lemma {:induction false} ShiftIsProduct(n: nat, k: nat)
    ensures Shift(n, k) == n * Pow10(k)
  {
    if k > 0 {
      ShiftIsProduct(n, k - 1);
      assert 10 * (n * Pow10(k - 1)) == n * (10 * Pow10(k - 1));
    }
  }

  lemma {:induction false} ShiftAdds(m: nat, n: nat, k: nat)
    ensures Shift(m + n, k) == Shift(m, k) + Shift(n, k)
  {
    if k > 0 {
      ShiftAdds(m, n, k - 1);
    }
  }

  lemma {:induction false} ShiftTwice(n: nat, j: nat, k: nat)
    ensures Shift(Shift(n, j), k) == Shift(n, j + k)
  {
    if k > 0 {
      ShiftTwice(n, j, k - 1);
    }
  }

  lemma {:induction false} DropTwice(n: nat, j: nat, k: nat)
    ensures Drop(Drop(n, j), k) == Drop(n, j + k)
  {
    if j > 0 {
      DropTwice(n / 10, j - 1, k);
    }
  }

  /** Quotient and remainder recompose the number. */
  lemma {:induction false} DropAndLow(n: nat, k: nat)
    ensures n == Shift(Drop(n, k), k) + Low(n, k) && Low(n, k) < Shift(1, k)
  {
    if k > 0 {
      DropAndLow(n / 10, k - 1);
    }
  }

  /** And they are the only ones that do. */
  lemma {:induction false} DropOfShift(a: nat, b: nat, k: nat)
    ensures Drop(Shift(a, k) + b, k) == a + Drop(b, k)
    ensures Low(Shift(a, k) + b, k) == Low(b, k)
  {
    if k > 0 {
      assert (Shift(a, k) + b) / 10 == Shift(a, k - 1) + b / 10;
      DropOfShift(a, b / 10, k - 1);
    }
  }

  lemma {:induction false} DropOfSmall(n: nat, k: nat)
    requires n < Shift(1, k)
    ensures Drop(n, k) == 0 && Low(n, k) == n
  {
    if k > 0 {
      DropOfSmall(n / 10, k - 1);
    }
  }

  /** `Drop` is the quotient and `Low` the remainder by a power of ten. */
  lemma DropIsQuotient(n: nat, k: nat)
    ensures Pow10(k) > 0 && Drop(n, k) == n / Pow10(k) && Low(n, k) == n % Pow10(k)
  {
    DropAndLow(n, k);
    ShiftIsProduct(Drop(n, k), k);
    ShiftIsProduct(1, k);
    QuotientIs(n, Pow10(k), Drop(n, k), Low(n, k));
  }

  lemma MultipleExceeds(d: int, y: int)
    requires y > 0
    ensures d >= 1 ==> d * y >= y
    ensures d <= -1 ==> d * y <= -y
  {
  }

  lemma QuotientIs(x: int, y: int, q: int, r: int)
    requires 0 <= r < y && x == q * y + r
    ensures y > 0 && x / y == q && x % y == r
  {
    var d := x / y - q;
    assert d * y == (x / y) * y - q * y;
    MultipleExceeds(d, y);
  }

  /** Scaling up by 10^p and down by 10^k cancels as far as it can. */
  lemma {:induction false} DropAfterShift(n: nat, p: nat, k: nat)
    ensures k <= p ==> Drop(Shift(n, p), k) == Shift(n, p - k)
    ensures k > p ==> Drop(Shift(n, p), k) == Drop(n, k - p)
  {
    if k > 0 && p > 0 {
      DropAfterShift(n, p - 1, k - 1);
    }
  }

  // -------------------------------------------------------- digit strings

  lemma {:induction false} SamePrefix(s: string, t: string, k: nat)
    requires AllDigits(s) && AllDigits(t) && k <= |s| && k <= |t| && s[..k] == t[..k]
    ensures ValueUpTo(s, k) == ValueUpTo(t, k)
  {
    if k > 0 {
      assert s[k - 1] == s[..k][k - 1] == t[k - 1];
      assert s[..k - 1] == s[..k][..k - 1] == t[..k - 1];
      SamePrefix(s, t, k - 1);
    }
  }

  lemma PrefixIsDigits(s: string, k: nat)
    requires AllDigits(s) && k <= |s|
    ensures AllDigits(s[..k]) && Value(s[..k]) == ValueUpTo(s, k)
  {
    forall i: nat | i < k ensures DigitAt(s[..k], i) {
      assert DigitAt(s, i);
    }
    SamePrefix(s[..k], s, k);
  }

  lemma {:induction false} PrintReadsBack(n: nat)
    ensures Value(Print(n)) == n
  {
    if n >= 10 {
      PrintReadsBack(n / 10);
      var k := |Print(n / 10)|;
      assert Print(n)[..k] == Print(n / 10) == Print(n / 10)[..k];
      SamePrefix(Print(n), Print(n / 10), k);
      assert Print(n)[k] == DigitChar(n % 10);
    } else {
      assert Print(n)[0] == DigitChar(n);
      assert ValueUpTo(Print(n), 0) == 0;
    }
  }

  lemma {:induction false} ValueUpToOfConcat(a: string, b: string, k: nat)
    requires AllDigits(a) && AllDigits(b) && AllDigits(a + b) && k <= |b|
    ensures ValueUpTo(a + b, |a| + k) == Shift(Value(a), k) + ValueUpTo(b, k)
  {
    if k == 0 {
      assert (a + b)[..|a|] == a[..|a|];
      SamePrefix(a + b, a, |a|);
    } else {
      ValueUpToOfConcat(a, b, k - 1);
    }
  }

  lemma ValueOfConcat(a: string, b: string)
    requires AllDigits(a) && AllDigits(b)
    ensures AllDigits(a + b) && Value(a + b) == Shift(Value(a), |b|) + Value(b)
  {
    ConcatIsDigits(a, b);
    ValueUpToOfConcat(a, b, |b|);
  }

  lemma {:induction false} ValueUpToOfZeros(n: nat, k: nat)
    requires k <= n
    ensures ValueUpTo(Zeros(n), k) == 0
  {
    if k > 0 {
      ValueUpToOfZeros(n, k - 1);
    }
  }

  lemma {:induction false} ShiftOfZero(k: nat)
    ensures Shift(0, k) == 0
  {
    if k > 0 {
      ShiftOfZero(k - 1);
    }
  }

  lemma ValueOfPadStart(s: string, k: nat)
    requires AllDigits(s)
    ensures AllDigits(PadStart(s, k)) && Value(PadStart(s, k)) == Value(s)
  {
    if |s| < k {
      ValueUpToOfZeros(k - |s|, k - |s|);
      ValueOfConcat(Zeros(k - |s|), s);
      ShiftOfZero(|s|);
    }
  }

  /** A number below 10^k prints in at most k digits. */
  lemma {:induction false} PrintLength(n: nat, k: nat)
    requires k > 0 && n < Shift(1, k)
    ensures |Print(n)| <= k
  {
    if n >= 10 && k > 1 {
      PrintLength(n / 10, k - 1);
    }
  }

  lemma {:induction false} TrimmedScales(s: string, k: nat)
    requires AllDigits(s) && k <= |s|
    ensures ValueUpTo(s, k) == Shift(ValueUpTo(s, TrimmedLength(s, k)), k - TrimmedLength(s, k))
  {
    if k > 0 && s[k - 1] == '0' {
      TrimmedScales(s, k - 1);
    }
  }

  lemma TrimZerosScales(s: string)
    requires AllDigits(s)
    ensures AllDigits(TrimZeros(s)) && |TrimZeros(s)| <= |s|
    ensures Value(s) == Shift(Value(TrimZeros(s)), |s| - |TrimZeros(s)|)
  {
    TrimmedScales(s, |s|);
    PrefixIsDigits(s, TrimmedLength(s, |s|));
  }

  lemma {:induction false} DroppedDigits(s: string, k: nat, n: nat)
    requires AllDigits(s) && k <= n <= |s|
    ensures ValueUpTo(s, k) == Drop(ValueUpTo(s, n), n - k)
  {
    if k < n {
      DroppedDigits(s, k, n - 1);
      assert DigitAt(s, n - 1);
      assert ValueUpTo(s, n) / 10 == ValueUpTo(s, n - 1);
    }
  }

  /** Keeping the first k digits of a digit string drops the others. */
  lemma PrefixDrops(s: string, k: nat)
    requires AllDigits(s) && k <= |s|
    ensures AllDigits(s[..k]) && Value(s[..k]) == Drop(Value(s), |s| - k)
  {
    PrefixIsDigits(s, k);
    DroppedDigits(s, k, |s|);
  }

  lemma {:induction false} ValueIsBounded(s: string, k: nat)
    requires AllDigits(s) && k <= |s|
    ensures ValueUpTo(s, k) < Shift(1, k)
  {
    if k > 0 {
      assert DigitAt(s, k - 1);
      ValueIsBounded(s, k - 1);
    }
  }

  /** Digit strings of one length are told apart by the numbers they read as. */
  lemma {:induction false} ValueDetermines(a: string, b: string, k: nat)
    requires AllDigits(a) && AllDigits(b) && k <= |a| && k <= |b| && ValueUpTo(a, k) == ValueUpTo(b, k)
    ensures a[..k] == b[..k]
  {
    if k > 0 {
      assert DigitAt(a, k - 1) && DigitAt(b, k - 1);
      ValueDetermines(a, b, k - 1);
      assert a[..k] == a[..k - 1] + [a[k - 1]] && b[..k] == b[..k - 1] + [b[k - 1]];
    }
  }

  /** Printing what k digits read as and padding back to k restores them, leading zeros included. */
  lemma PadRestores(s: string)
    requires AllDigits(s) && |s| > 0
    ensures PadStart(Print(Value(s)), |s|) == s
  {
    var t := PadStart(Print(Value(s)), |s|);
    ValueIsBounded(s, |s|);
    PrintLength(Value(s), |s|);
    PrintReadsBack(Value(s));
    ValueOfPadStart(Print(Value(s)), |s|);
    ValueDetermines(t, s, |s|);
  }
}
