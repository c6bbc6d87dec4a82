/**
 The three decimal codecs on strings: `decimalAddSimple` of the in-memory pool, the ledger's
 exact decimals, and the normalisation of raw on-chain amounts, which feeds both.
 Amounts carry no surrounding white space; `p` is the precision, eighteen in the program.
 */
module Decimals {
  import opened Options
  import opened Digits

  const PRECISION: nat := 18

  // ------------------------------------------------- BigInt and split('.')

  function Signed(negative: bool, n: int): int {
    if negative then -n else n
  }

  /** BigInt division by 10^k, toward zero. */
  function Quotient(v: int, k: nat): int {
    if v >= 0 then Drop(v, k) else -(Drop(-v, k) as int)
  }

  function Remainder(v: int, k: nat): int {
    if v >= 0 then Low(v, k) else -(Low(-v, k) as int)
  }

  function PrintInt(v: int): string {
    if v < 0 then "-" + Print(-v) else Print(v)
  }

  /** BigInt(text); None where it throws. */
  function ParseBig(s: string): Option<int> {
    if |s| > 0 && (s[0] == '-' || s[0] == '+') then
      if |s[1..]| > 0 && AllDigits(s[1..]) then Some(Signed(s[0] == '-', Value(s[1..]))) else None
    else if AllDigits(s) then Some(Value(s))
    else None
  }

  /** The first dot of s at or after k, or the end of s */
  function Dot(s: string, k: nat): (d: nat)
    requires k <= |s|
    ensures k <= d <= |s|
    decreases |s| - k
  {
    if k < |s| && s[k] != '.' then Dot(s, k + 1) else k
  }

  /** split('.')[0] */
  function Head(s: string): string {
    s[..Dot(s, 0)]
  }

  /** split('.')[1], or the empty string when there is none */
  function Second(s: string): string {
    var d := Dot(s, 0);
    if d < |s| then s[d + 1..Dot(s, d + 1)] else s[d..]
  }

  /** padEnd(p, '0').slice(0, p) */
  function Fraction(f: string, p: nat): string {
    PadEnd(f, p)[..p]
  }

  // ------------------------------------------------------- decimalAddSimple

  /** BigInt(i || '0') · 10^p + BigInt(f) */
  function ParseParts(i: string, f: string, p: nat): Option<int> {
    var x, y := ParseBig(if |i| == 0 then [DigitChar(0)] else i), ParseBig(f);
    if x.Some? && y.Some? then Some(Signed(x.value < 0, Shift(Abs(x.value), p)) + y.value) else None
  }

  function ParseSimple(s: string, p: nat): Option<int> {
    ParseParts(Head(s), Fraction(Second(s), p), p)
  }

  function Abs(v: int): nat {
    if v < 0 then -v else v
  }

  function FormatSimple(v: int, p: nat): string {
    PrintInt(Quotient(v, p)) + "." + PadStart(PrintInt(Remainder(v, p)), p)
  }

  function AddSimple(a: string, b: string, p: nat): Option<string> {
    var x, y := ParseSimple(a, p), ParseSimple(b, p);
    if x.Some? && y.Some? then Some(FormatSimple(x.value + y.value, p)) else None
  }

  // ------------------------------------------------- the ledger's decimals

  /** \d+(\.\d+)? */
  predicate UnsignedDecimal(s: string) {
    && |Head(s)| > 0 && AllDigits(Head(s))
    && (Dot(s, 0) < |s| ==> |Second(s)| > 0 && AllDigits(Second(s)) && s == Head(s) + "." + Second(s))
  }

  predicate Negative(s: string) {
    |s| > 0 && s[0] == '-'
  }

  function Magnitude(s: string): string {
    if Negative(s) then s[1..] else s
  }

  predicate ValidDecimal(s: string) {
    UnsignedDecimal(Magnitude(s))
  }

  lemma PartsAreDigits(s: string, p: nat)
    requires UnsignedDecimal(s)
    ensures AllDigits(Second(s)) && AllDigits(Fraction(Second(s), p))
  {
  }

  function ReadUnsigned(s: string, p: nat): nat
    requires UnsignedDecimal(s)
  {
    PartsAreDigits(s, p);
    Shift(Value(Head(s)), p) + Value(Fraction(Second(s), p))
  }

  /** toBigInt; None where it throws. */
  function ToScaled(s: string, p: nat): Option<int> {
    if ValidDecimal(s) then Some(Signed(Negative(s), ReadUnsigned(Magnitude(s), p))) else None
  }

  function PlainText(n: nat, p: nat): string {
    Print(Drop(n, p)) + "." + PadStart(Print(Low(n, p)), p)
  }

  /** fromBigInt */
  function FromScaled(v: int, p: nat): string {
    if v < 0 then "-" + PlainText(-v, p) else PlainText(v, p)
  }

  function DecimalAdd(a: string, b: string, p: nat): Option<string> {
    var x, y := ToScaled(a, p), ToScaled(b, p);
    if x.Some? && y.Some? then Some(FromScaled(x.value + y.value, p)) else None
  }

  function DecimalSubtract(a: string, b: string, p: nat): Option<string> {
    var x, y := ToScaled(a, p), ToScaled(b, p);
    if x.Some? && y.Some? then Some(FromScaled(x.value - y.value, p)) else None
  }

  // ---------------------------------------------- on-chain amount normalisation

  /** normalizeBlockchainAmount: the catch branch hands back text that is no number. */
  function Normalize(rawText: string, decimals: nat): string {
    match ParseBig(rawText)
    case None => rawText
    case Some(raw) =>
      if Remainder(raw, decimals) == 0 then PrintInt(Quotient(raw, decimals))
      else PrintInt(Quotient(raw, decimals)) + "." + TrimZeros(PadStart(PrintInt(Remainder(raw, decimals)), decimals))
  }

  // -------------------------------------------------------- splitting lemmas

  lemma {:induction false} DotIs(s: string, k: nat, d: nat)
    requires k <= d <= |s| && (d < |s| ==> s[d] == '.')
    requires forall i: nat :: k <= i < d ==> DigitAt(s, i)
    ensures Dot(s, k) == d
    decreases d - k
  {
    if k < d {
      assert DigitAt(s, k);
      DotIs(s, k + 1, d);
    }
  }

  /** A text i.f of digits is an unsigned decimal and splits into i and f. */
  lemma DottedSplits(i: string, f: string)
    requires AllDigits(i) && AllDigits(f) && |i| > 0 && |f| > 0
    ensures Head(i + "." + f) == i && Second(i + "." + f) == f
    ensures UnsignedDecimal(i + "." + f) && !Negative(i + "." + f)
  {
    var s := i + "." + f;
    assert s[..|i|] == i && s[|i| + 1..] == f;
    forall k: nat | k < |i| ensures DigitAt(s, k) {
      assert DigitAt(i, k);
    }
    forall k: nat | |i| < k < |s| ensures DigitAt(s, k) {
      assert DigitAt(f, k - |i| - 1);
    }
    DotIs(s, 0, |i|);
    DotIs(s, |i| + 1, |s|);
    assert DigitAt(s, 0);
  }

  lemma PlainSplits(i: string)
    requires AllDigits(i) && |i| > 0
    ensures Head(i) == i && |Second(i)| == 0 && UnsignedDecimal(i) && !Negative(i)
  {
    DotIs(i, 0, |i|);
    assert DigitAt(i, 0);
  }

  // -------------------------------------------------- what the parsers read

  /** Padding multiplies a short fraction, slicing divides a long one. */
  lemma FractionReads(f: string, p: nat)
    requires AllDigits(f)
    ensures AllDigits(Fraction(f, p))
    ensures Value(Fraction(f, p)) == if |f| <= p then Shift(Value(f), p - |f|) else Drop(Value(f), |f| - p)
  {
    if |f| <= p {
      ValueUpToOfZeros(p - |f|, p - |f|);
      ValueOfConcat(f, Zeros(p - |f|));
      assert Fraction(f, p) == f + Zeros(p - |f|);
    } else {
      assert Fraction(f, p) == f[..p];
      PrefixDrops(f, p);
    }
  }

  lemma FloorOfParts(i: nat, f: nat, j: nat, p: nat, whole: nat, fraction: nat)
    requires whole == Shift(i, j) + f
    requires fraction == if j <= p then Shift(f, p - j) else Drop(f, j - p)
    ensures Shift(i, p) + fraction == Drop(Shift(whole, p), j)
  {
    DropAfterShift(whole, p, j);
    if j <= p {
      ShiftAdds(Shift(i, j), f, p - j);
      ShiftTwice(i, j, p - j);
    } else {
      ShiftTwice(i, p, j - p);
      DropOfShift(Shift(i, p), f, j - p);
    }
  }

  /** The decimal i.f in units of 10^-p, rounded down: (i·10^|f| + f)·10^p / 10^|f|. */
  lemma PartsReadFloor(i: string, f: string, p: nat)
    requires AllDigits(i) && AllDigits(f)
    ensures AllDigits(i + f) && AllDigits(Fraction(f, p))
    ensures Shift(Value(i), p) + Value(Fraction(f, p)) == Drop(Shift(Value(i + f), p), |f|)
  {
    ValueOfConcat(i, f);
    FractionReads(f, p);
    FloorOfParts(Value(i), Value(f), |f|, p, Value(i + f), Value(Fraction(f, p)));
  }

  /** On every valid non-negative decimal i.f the ledger parser reads floor(i.f · 10^p). */
  lemma LedgerParserReadsFloor(i: string, f: string, p: nat)
    requires AllDigits(i) && AllDigits(f) && |i| > 0 && |f| > 0
    ensures AllDigits(i + f)
    ensures ToScaled(i + "." + f, p) == Some(Drop(Shift(Value(i + f), p), |f|))
  {
    DottedSplits(i, f);
    PartsReadFloor(i, f, p);
  }

  lemma EmptyFraction(f: string, p: nat)
    requires |f| == 0
    ensures AllDigits(Fraction(f, p)) && Value(Fraction(f, p)) == 0
  {
    ValueUpToOfZeros(p, p);
    assert Fraction(f, p) == Zeros(p);
  }

  lemma ReadsParts(s: string, h: string, q: string, p: nat)
    requires UnsignedDecimal(s) && !Negative(s) && Head(s) == h && Fraction(Second(s), p) == q
    ensures AllDigits(h) && AllDigits(q) && ToScaled(s, p) == Some(Shift(Value(h), p) + Value(q))
  {
  }

  lemma LedgerParserReadsWhole(i: string, p: nat)
    requires AllDigits(i) && |i| > 0
    ensures ToScaled(i, p) == Some(Shift(Value(i), p))
  {
    PlainSplits(i);
    EmptyFraction(Second(i), p);
    ReadsParts(i, i, Fraction(Second(i), p), p);
  }

  lemma {:induction false} DotOfRest(s: string, k: nat)
    requires k < |s|
    ensures Dot(s, k + 1) == Dot(s[1..], k) + 1
    decreases |s| - k
  {
    if k + 1 < |s| && s[k + 1] != '.' {
      DotOfRest(s, k + 1);
    }
  }

  /** A minus sign stays with the integer part. */
  lemma NegativeParts(s: string)
    requires Negative(s)
    ensures Head(s) == "-" + Head(s[1..]) && Second(s) == Second(s[1..])
  {
    DotOfRest(s, 0);
    if Dot(s, 0) < |s| {
      DotOfRest(s, Dot(s, 0));
    }
  }

  lemma PartsParse(negative: bool, h: string, q: string, p: nat)
    requires AllDigits(h) && |h| > 0 && AllDigits(q)
    ensures ParseParts(if negative then "-" + h else h, q, p) == Some(Signed(negative, Shift(Value(h), p)) + Value(q))
  {
    assert DigitAt(h, 0) && (|q| > 0 ==> DigitAt(q, 0));
    ShiftOfZero(p);
    if negative {
      assert ("-" + h)[1..] == h;
    }
  }

  lemma HeadOfMagnitude(s: string)
    ensures Head(s) == (if Negative(s) then "-" + Head(Magnitude(s)) else Head(Magnitude(s)))
    ensures Second(s) == Second(Magnitude(s))
  {
    if Negative(s) {
      NegativeParts(s);
    }
  }

  lemma PoolReads(s: string, p: nat)
    requires ValidDecimal(s)
    ensures AllDigits(Head(Magnitude(s))) && AllDigits(Fraction(Second(Magnitude(s)), p))
    ensures ParseSimple(s, p)
         == Some(Signed(Negative(s), Shift(Value(Head(Magnitude(s))), p)) + Value(Fraction(Second(Magnitude(s)), p)))
  {
    hide ParseParts, Head, Second, Fraction, AllDigits, Value, Shift, Signed;
    HeadOfMagnitude(s);
    PartsAreDigits(Magnitude(s), p);
    PartsParse(Negative(s), Head(Magnitude(s)), Fraction(Second(Magnitude(s)), p), p);
  }

  lemma SignedSums(negative: bool, whole: nat, fraction: nat)
    ensures Signed(negative, whole) + fraction
         == Signed(negative, whole + fraction) + (if negative then 2 * fraction else 0)
  {
  }

  /** Below zero the pool's parser adds the fraction instead of subtracting it: twice the fraction too much. */
  lemma PoolReadsOff(s: string, p: nat)
    requires ValidDecimal(s)
    ensures ParseSimple(s, p).Some? && ToScaled(s, p).Some? && AllDigits(Fraction(Second(Magnitude(s)), p))
    ensures ParseSimple(s, p).value
         == ToScaled(s, p).value + (if Negative(s) then 2 * Value(Fraction(Second(Magnitude(s)), p)) else 0)
  {
    PoolReads(s, p);
    SignedSums(Negative(s), Shift(Value(Head(Magnitude(s))), p), Value(Fraction(Second(Magnitude(s)), p)));
  }

  /**
   The pool's parser agrees with the ledger's on a valid decimal exactly when the decimal is not
   negative with a non-zero fraction.
   */
  lemma PoolParserAgreesIff(s: string, p: nat)
    requires ValidDecimal(s)
    ensures AllDigits(Fraction(Second(Magnitude(s)), p))
    ensures ParseSimple(s, p) == ToScaled(s, p) <==> !(Negative(s) && Value(Fraction(Second(Magnitude(s)), p)) != 0)
  {
    hide ParseSimple, ToScaled, Fraction, Second, Magnitude, Value, AllDigits, UnsignedDecimal, ValidDecimal, Negative;
    PoolReadsOff(s, p);
  }

  lemma NegativeText(i: string, f: string, p: nat)
    requires AllDigits(i) && AllDigits(f) && |i| > 0 && 0 < |f| <= p
    ensures var s := "-" + (i + "." + f);
      && ValidDecimal(s) && Negative(s) && Head(Magnitude(s)) == i
      && AllDigits(Fraction(Second(Magnitude(s)), p))
      && Value(Fraction(Second(Magnitude(s)), p)) == Shift(Value(f), p - |f|)
  {
    var s := "-" + (i + "." + f);
    assert Magnitude(s) == i + "." + f;
    DottedSplits(i, f);
    FractionReads(f, p);
  }

  /** -1.5 in particular is read as -0.5, so -1.5 and 1.5 sum to 1. */
  lemma MinusOneAndAHalfErrs()
    ensures var s := "-" + ("1" + "." + "5");
      && ParseSimple(s, PRECISION).Some? && ToScaled(s, PRECISION).Some?
      && ParseSimple(s, PRECISION).value == ToScaled(s, PRECISION).value + 2 * Shift(5, 17)
  {
    var one, five := "1", "5";
    assert ValueUpTo(five, 0) == 0 && five[0] - '0' == 5 as char;
    assert Value(five) == 5;
    NegativeText(one, five, PRECISION);
    PoolReadsOff("-" + (one + "." + five), PRECISION);
  }

  // ---------------------------------------------------------- round trips

  lemma PlainTextReadsBack(n: nat, p: nat)
    requires p > 0
    ensures UnsignedDecimal(PlainText(n, p)) && !Negative(PlainText(n, p))
    ensures ReadUnsigned(PlainText(n, p), p) == n
  {
    var i, f := Print(Drop(n, p)), PadStart(Print(Low(n, p)), p);
    DropAndLow(n, p);
    PrintReadsBack(Drop(n, p));
    PrintReadsBack(Low(n, p));
    PrintLength(Low(n, p), p);
    ValueOfPadStart(Print(Low(n, p)), p);
    DottedSplits(i, f);
    assert Fraction(f, p) == f;
  }

  /** The ledger's printer and parser are inverse on every integer, of either sign. */
  lemma LedgerRoundTrip(v: int, p: nat)
    requires p > 0
    ensures ToScaled(FromScaled(v, p), p) == Some(v)
  {
    PlainTextReadsBack(Abs(v), p);
    if v < 0 {
      assert FromScaled(v, p)[1..] == PlainText(-v, p);
    }
  }

  /** Exact arithmetic: parsing what was added or subtracted is adding or subtracting what was parsed. */
  lemma LedgerArithmeticIsExact(a: string, b: string, x: int, y: int, p: nat)
    requires p > 0 && ToScaled(a, p) == Some(x) && ToScaled(b, p) == Some(y)
    ensures DecimalAdd(a, b, p).Some? && ToScaled(DecimalAdd(a, b, p).value, p) == Some(x + y)
    ensures DecimalSubtract(a, b, p).Some? && ToScaled(DecimalSubtract(a, b, p).value, p) == Some(x - y)
  {
    hide ToScaled, FromScaled;
    LedgerRoundTrip(x + y, p);
    LedgerRoundTrip(x - y, p);
  }

  /** The pool's printer and parser are inverse on every non-negative integer. */
  lemma PoolRoundTrip(v: nat, p: nat)
    requires p > 0
    ensures ValidDecimal(FormatSimple(v, p)) && !Negative(FormatSimple(v, p))
    ensures ParseSimple(FormatSimple(v, p), p) == Some(v)
  {
    assert FormatSimple(v, p) == PlainText(v, p);
    PlainTextReadsBack(v, p);
    PoolParserAgreesIff(PlainText(v, p), p);
  }

  // --------------------------------------------------- negative aggregates

  /** Division toward zero, as BigInt divides: the remainder has the sign of the number, and less than 10^k. */
  lemma DivisionTruncates(v: int, k: nat)
    ensures var q, r := Quotient(v, k), Remainder(v, k);
      && v == q * Pow10(k) + r && -(Pow10(k) as int) < r < Pow10(k)
      && (v >= 0 ==> q >= 0 && r >= 0) && (v <= 0 ==> q <= 0 && r <= 0)
  {
    hide Drop, Low;
    DropIsQuotient(Abs(v), k);
    var q, r := Drop(Abs(v), k), Low(Abs(v), k);
    assert v < 0 ==> -(q * Pow10(k)) == (-q) * Pow10(k);
  }

  /** BigInt's toString on a number that is not positive. */
  function MinusText(n: nat): string {
    PrintInt(-(n as int))
  }

  /** The fraction of a negative aggregate: a minus sign before the digits, behind the zeros that pad both. */
  function NegativeFraction(r: nat, p: nat): string {
    PadStart(MinusText(r), p)
  }

  /** Printed to one place less than the precision it reads back, with fewer it is no number, with more it loses one. */
  lemma NegativeFractionReads(r: nat, p: nat)
    requires p > 0 && |Print(r)| <= p
    ensures var f := NegativeFraction(r, p);
      |f| >= p && (ParseBig(f[..p]) == Some(-(r as int)) <==> r == 0 || |Print(r)| == p - 1)
  {
    var f, digits := NegativeFraction(r, p), Print(r);
    if r == 0 {
      PadsZero(p);
      assert f[..p] == f;
    } else if |digits| < p - 1 {
      assert f[0] == '0' && f[p - 1 - |digits|] == '-' && f[..p] == f;
      assert !DigitAt(f, p - 1 - |digits|);
    } else if |digits| == p - 1 {
      assert f[..p] == f == "-" + digits && f[1..] == digits;
      PrintReadsBack(r);
    } else {
      assert f == "-" + digits && f[..p][1..] == digits[..p - 1];
      LosesLastDigit(r, p);
    }
  }

  lemma PadsZero(p: nat)
    requires p > 0
    ensures NegativeFraction(0, p) == Zeros(p) && ParseBig(Zeros(p)) == Some(0)
  {
    ValueUpToOfZeros(p, p);
    var zeros := Zeros(p);
    assert DigitAt(zeros, 0);
    assert NegativeFraction(0, p) == zeros;
  }

  /** Without its last digit a positive number reads smaller. */
  lemma LosesLastDigit(r: nat, p: nat)
    requires p > 0 && r > 0 && |Print(r)| == p
    ensures AllDigits(Print(r)[..p - 1]) && Value(Print(r)[..p - 1]) < r
  {
    PrintReadsBack(r);
    PrefixIsDigits(Print(r), p - 1);
    PrefixDrops(Print(r), p - 1);
    assert Value(Print(r)[..p - 1]) == r / 10;
  }

  lemma NegativeSplits(q: nat, f: string)
    requires forall k :: 0 <= k < |f| ==> f[k] != '.'
    ensures Head(MinusText(q) + "." + f) == MinusText(q) && Second(MinusText(q) + "." + f) == f
  {
    var i := MinusText(q);
    var s := i + "." + f;
    forall k | 0 <= k < |i| ensures s[k] != '.' {
      assert i[k] != '.' by {
        if q > 0 && k > 0 {
          assert DigitAt(Print(q), k - 1);
        } else if q == 0 {
          assert DigitAt(i, k);
        }
      }
    }
    DotAt(s, 0, |i|);
    DotAt(s, |i| + 1, |s|);
    assert s[..|i|] == i && s[|i| + 1..] == f;
  }

  lemma {:induction false} DotAt(s: string, k: nat, d: nat)
    requires k <= d <= |s| && (d < |s| ==> s[d] == '.')
    requires forall i :: k <= i < d ==> s[i] != '.'
    ensures Dot(s, k) == d
    decreases d - k
  {
    if k < d {
      DotAt(s, k + 1, d);
    }
  }

  lemma NegativeWholeReads(q: nat)
    ensures |MinusText(q)| > 0 && ParseBig(MinusText(q)) == Some(-(q as int))
  {
    PrintReadsBack(q);
    if q > 0 {
      assert MinusText(q)[1..] == Print(q);
    } else {
      assert DigitAt(Print(0), 0);
    }
  }

  lemma NegativeFractionHasNoDot(r: nat, p: nat)
    ensures forall k :: 0 <= k < |NegativeFraction(r, p)| ==> NegativeFraction(r, p)[k] != '.'
  {
    var f, printed := NegativeFraction(r, p), MinusText(r);
    var pad := |f| - |printed|;
    forall k | 0 <= k < |f| ensures f[k] != '.' {
      if k >= pad && r > 0 && k > pad {
        assert DigitAt(Print(r), k - pad - 1);
      } else if k >= pad && r == 0 {
        assert DigitAt(Print(r), k - pad);
      }
    }
  }

  lemma NegativeAggregateParts(v: int, p: nat)
    requires p > 0 && v < 0
    ensures var q, f := Drop(-v, p), NegativeFraction(Low(-v, p), p);
      |f| >= p && ParseSimple(FormatSimple(v, p), p) == ParseParts(MinusText(q), f[..p], p)
  {
    var q, f := Drop(-v, p), NegativeFraction(Low(-v, p), p);
    assert FormatSimple(v, p) == MinusText(q) + "." + f;
    hide FormatSimple, PrintInt, Dot, Print, Drop, Low, MinusText, ParseParts;
    NegativeFractionHasNoDot(Low(-v, p), p);
    NegativeSplits(q, f);
    assert Fraction(f, p) == f[..p];
  }

  lemma NegativePartsSum(q: nat, f: string, r: nat, p: nat)
    ensures ParseParts(MinusText(q), f, p) == Some(-((Shift(q, p) + r) as int)) <==> ParseBig(f) == Some(-(r as int))
  {
    NegativeWholeReads(q);
    ShiftOfZero(p);
    hide ParseBig, MinusText;
  }

  /**
   Below zero the pool's printer and parser are inverse exactly when the fraction is zero or has one
   digit less than the precision: with fewer digits the padding puts zeros before its minus sign, and
   the text is no number; with all of them the slice cuts the last one off.
   */
  lemma PoolRoundTripIff(v: int, p: nat)
    requires p > 0 && v < 0
    ensures ParseSimple(FormatSimple(v, p), p) == Some(v)
       <==> Low(-v, p) == 0 || |Print(Low(-v, p))| == p - 1
  {
    hide ParseSimple, FormatSimple, ParseParts, ParseBig, Print, Drop, Low, NegativeFraction, MinusText;
    var q, r := Drop(-v, p), Low(-v, p);
    DropAndLow(-v, p);
    PrintLength(r, p);
    NegativeAggregateParts(v, p);
    NegativeFractionReads(r, p);
    NegativePartsSum(q, NegativeFraction(r, p)[..p], r, p);
  }

  // ------------------------------------------------------ valid decimals

  /** A text is a decimal of the ledger exactly when it is digits, or digits, one dot and digits. */
  lemma UnsignedIff(s: string)
    ensures UnsignedDecimal(s)
       <==> (AllDigits(s) && |s| > 0)
            || exists i, f :: AllDigits(i) && AllDigits(f) && |i| > 0 && |f| > 0 && s == i + "." + f
  {
    if AllDigits(s) && |s| > 0 {
      PlainSplits(s);
    }
    if i, f :| AllDigits(i) && AllDigits(f) && |i| > 0 && |f| > 0 && s == i + "." + f {
      DottedSplits(i, f);
    }
    if UnsignedDecimal(s) && Dot(s, 0) == |s| {
      assert Head(s) == s;
    }
  }

  lemma PlainTextOfParts(whole: nat, q: string, p: nat)
    requires AllDigits(q) && |q| == p > 0
    ensures PlainText(Shift(whole, p) + Value(q), p) == Print(whole) + "." + q
  {
    ValueIsBounded(q, p);
    DropOfSmall(Value(q), p);
    DropOfShift(whole, Value(q), p);
    PadRestores(q);
  }

  lemma PoolReadsParts(i: string, f: string, p: nat)
    requires AllDigits(i) && AllDigits(f) && |i| > 0 && |f| > 0
    ensures AllDigits(Fraction(f, p))
    ensures ParseSimple(i + "." + f, p) == Some(Shift(Value(i), p) + Value(Fraction(f, p)))
  {
    hide ParseSimple, Fraction, Value, Shift, AllDigits, UnsignedDecimal, Dot, Head, Second;
    DottedSplits(i, f);
    PoolReads(i + "." + f, p);
  }

  lemma PlainFormat(v: nat, p: nat)
    ensures FormatSimple(v, p) == PlainText(v, p)
  {
  }

  lemma FormatsParts(whole: nat, q: string, v: nat, p: nat)
    requires AllDigits(q) && |q| == p > 0 && v == Shift(whole, p) + Value(q)
    ensures FormatSimple(v, p) == Print(whole) + "." + q
  {
    PlainFormat(v, p);
    PlainTextOfParts(whole, q, p);
  }

  /** Parsing i.f and printing it again cuts f to p digits, or pads it: nothing else changes. */
  lemma PoolFormatTruncates(i: string, f: string, p: nat, v: nat)
    requires AllDigits(i) && AllDigits(f) && |i| > 0 && |f| > 0 && p > 0
    requires ParseSimple(i + "." + f, p) == Some(v)
    ensures FormatSimple(v, p) == Print(Value(i)) + "." + Fraction(f, p)
  {
    PoolReadsParts(i, f, p);
    FormatsParts(Value(i), Fraction(f, p), v, p);
  }

  lemma AddSimpleFormats(a: string, b: string, x: nat, y: nat, p: nat)
    requires ParseSimple(a, p) == Some(x) && ParseSimple(b, p) == Some(y)
    ensures AddSimple(a, b, p) == Some(FormatSimple(x + y, p))
  {
    hide ParseSimple, FormatSimple;
  }

  /** Adding and parsing back is adding what the parser read, for non-negative readings. */
  lemma PoolAdditionIsExact(a: string, b: string, sum: string, x: nat, y: nat, p: nat)
    requires p > 0 && ParseSimple(a, p) == Some(x) && ParseSimple(b, p) == Some(y)
    requires AddSimple(a, b, p) == Some(sum)
    ensures ParseSimple(sum, p) == Some(x + y)
  {
    hide AddSimple, ParseSimple, FormatSimple;
    AddSimpleFormats(a, b, x, y, p);
    PoolRoundTrip(x + y, p);
  }

  // ------------------------------------------------- composed exactness

  lemma PrintParses(n: nat)
    ensures ParseBig(Print(n)) == Some(n) && PrintInt(n) == Print(n)
  {
    PrintReadsBack(n);
    assert DigitAt(Print(n), 0);
  }

  /** The fraction of a normalised amount: trimmed, but of the same value. */
  lemma TrimmedFraction(n: nat, d: nat) returns (f: string)
    requires 0 < n < Shift(1, d)
    ensures f == TrimZeros(PadStart(Print(n), d))
    ensures AllDigits(f) && 0 < |f| <= d && f[|f| - 1] != '0'
    ensures Shift(Value(f), d - |f|) == n
  {
    var padded := PadStart(Print(n), d);
    PrintLength(n, d);
    ValueOfPadStart(Print(n), d);
    PrintReadsBack(n);
    TrimZerosScales(padded);
    f := TrimZeros(padded);
    ShiftOfZero(d - |f|);
  }

  lemma NormalizedText(raw: nat, d: nat, f: string)
    requires Low(raw, d) != 0 && f == TrimZeros(PadStart(Print(Low(raw, d)), d))
    ensures Normalize(Print(raw), d) == Print(Drop(raw, d)) + "." + f
  {
    PrintParses(raw);
    PrintParses(Drop(raw, d));
    PrintParses(Low(raw, d));
  }

  lemma NormalizedWhole(raw: nat, d: nat)
    requires Low(raw, d) == 0
    ensures Normalize(Print(raw), d) == Print(Drop(raw, d))
  {
    PrintParses(raw);
    PrintParses(Drop(raw, d));
  }

  /** The parts of a normalised amount recompose the raw amount. */
  lemma PartsRecompose(raw: nat, d: nat, f: string)
    requires AllDigits(f) && |f| <= d && Shift(Value(f), d - |f|) == Low(raw, d)
    ensures AllDigits(Print(Drop(raw, d)) + f)
    ensures Shift(Value(Print(Drop(raw, d)) + f), d - |f|) == raw
  {
    var i := Print(Drop(raw, d));
    PrintReadsBack(Drop(raw, d));
    DropAndLow(raw, d);
    ValueOfConcat(i, f);
    ShiftAdds(Shift(Value(i), |f|), Value(f), d - |f|);
    ShiftTwice(Value(i), |f|, d - |f|);
  }

  lemma WholeReads(whole: nat, d: nat, p: nat)
    ensures ToScaled(Print(whole), p) == Some(Drop(Shift(Shift(whole, d), p), d)) && !Negative(Print(whole))
  {
    LedgerParserReadsWhole(Print(whole), p);
    PlainSplits(Print(whole));
    PrintReadsBack(whole);
    ShiftTwice(whole, d, p);
    ShiftTwice(whole, p, d);
    DropAfterShift(Shift(whole, p), d, d);
  }

  lemma FractionalReads(raw: nat, d: nat, p: nat, f: string)
    requires AllDigits(f) && 0 < |f| <= d && Shift(Value(f), d - |f|) == Low(raw, d)
    ensures ToScaled(Print(Drop(raw, d)) + "." + f, p) == Some(Drop(Shift(raw, p), d))
    ensures !Negative(Print(Drop(raw, d)) + "." + f)
  {
    hide ToScaled, Print, Drop, Low;
    var i := Print(Drop(raw, d));
    DottedSplits(i, f);
    LedgerParserReadsFloor(i, f, p);
    PartsRecompose(raw, d, f);
    CommonScale(Value(i + f), |f|, d - |f|, p);
  }

  /** What the ledger reads from a normalised on-chain amount: floor(raw · 10^p / 10^d), for every d. */
  lemma NormalizeThenParse(raw: nat, d: nat, p: nat)
    ensures ToScaled(Normalize(Print(raw), d), p) == Some(Drop(Shift(raw, p), d))
    ensures !Negative(Normalize(Print(raw), d))
  {
    DropAndLow(raw, d);
    if Low(raw, d) == 0 {
      NormalizedWhole(raw, d);
      WholeReads(Drop(raw, d), d, p);
    } else {
      var f := TrimmedFraction(Low(raw, d), d);
      NormalizedText(raw, d, f);
      FractionalReads(raw, d, p, f);
    }
  }

  /** floor(v·10^p / 10^j) is unchanged when v is scaled by 10^m and divided by 10^m more. */
  lemma CommonScale(v: nat, j: nat, m: nat, p: nat)
    ensures Drop(Shift(Shift(v, m), p), j + m) == Drop(Shift(v, p), j)
  {
    ShiftTwice(v, m, p);
    ShiftTwice(v, p, m);
    DropTwice(Shift(Shift(v, p), m), m, j);
    DropAfterShift(Shift(v, p), m, m);
  }

  /** Up to p decimals nothing is lost: both parsers read exactly raw · 10^(p-d). */
  lemma NormalizeIsExact(raw: nat, d: nat, p: nat)
    requires d <= p
    ensures ToScaled(Normalize(Print(raw), d), p) == Some(Shift(raw, p - d))
    ensures ParseSimple(Normalize(Print(raw), d), p) == Some(Shift(raw, p - d))
  {
    NormalizeThenParse(raw, d, p);
    DropAfterShift(raw, p, d);
    PoolParserAgreesIff(Normalize(Print(raw), d), p);
  }

  lemma DropIsExactIff(raw: nat, k: nat)
    ensures Shift(Drop(raw, k), k) == raw <==> Low(raw, k) == 0
  {
    DropAndLow(raw, k);
  }

  /** Beyond p decimals the ledger drops the last d - p digits: exact exactly when they are zero. */
  lemma NormalizeIsExactIff(raw: nat, d: nat, p: nat, credited: nat)
    requires d > p && ToScaled(Normalize(Print(raw), d), p) == Some(credited)
    ensures Shift(credited, d - p) == raw <==> Low(raw, d - p) == 0
  {
    hide ToScaled, Normalize, Print, Shift, Drop, Low;
    NormalizeThenParse(raw, d, p);
    DropAfterShift(raw, p, d);
    DropIsExactIff(raw, d - p);
  }

  lemma {:induction false} ShiftIsInjective(a: nat, b: nat, k: nat)
    requires Shift(a, k) == Shift(b, k)
    ensures a == b
  {
    if k > 0 {
      ShiftIsInjective(a, b, k - 1);
    }
  }

  /** The printed amount determines the raw amount. */
  lemma NormalizeIsInjective(a: nat, b: nat, d: nat)
    requires Normalize(Print(a), d) == Normalize(Print(b), d)
    ensures a == b
  {
    NormalizeIsExact(a, d, d);
    NormalizeIsExact(b, d, d);
  }

  lemma EndsInDigit(i: string, f: string)
    requires AllDigits(f) && |f| > 0 && f[|f| - 1] != '0'
    ensures var s := i + "." + f; |s| > 0 && '1' <= s[|s| - 1] <= '9'
  {
    assert DigitAt(f, |f| - 1);
  }

  /** A whole amount prints without a dot; any other ends in a non-zero digit. */
  lemma NormalizeHasNoTrailingZero(raw: nat, d: nat)
    ensures Low(raw, d) == 0 ==> Normalize(Print(raw), d) == Print(Drop(raw, d))
    ensures Low(raw, d) != 0 ==> |Normalize(Print(raw), d)| > 0
                                 && '1' <= Normalize(Print(raw), d)[|Normalize(Print(raw), d)| - 1] <= '9'
  {
    DropAndLow(raw, d);
    if Low(raw, d) == 0 {
      NormalizedWhole(raw, d);
    } else {
      var f := TrimmedFraction(Low(raw, d), d);
      EndsInDigit(Print(Drop(raw, d)), f);
      NormalizedText(raw, d, f);
    }
  }
}
