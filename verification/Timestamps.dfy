/** Consensus timestamps: `seconds.nanos` strings and the integers they are compared as. */
module Timestamps {
  import opened Wrappers

  predicate IsDigit(c: char) {
    '0' <= c <= '9'
  }

  predicate Digits(s: string) {
    s != "" && forall i | 0 <= i < |s| :: IsDigit(s[i])
  }

  function Parse(s: string): nat
    requires forall i | 0 <= i < |s| :: IsDigit(s[i])
  {
    if s == "" then 0
    else
      assert IsDigit(s[|s| - 1]);
      Parse(s[..|s| - 1]) * 10 + (s[|s| - 1] as int - '0' as int)
  }

  function Print(n: nat): (s: string)
    ensures Digits(s)
  {
    var last := [((n % 10) + '0' as int) as char];
    if n < 10 then last else Print(n / 10) + last
  }

  function Zeros(k: nat): (s: string)
    ensures |s| == k && forall i | 0 <= i < k :: s[i] == '0'
  {
    if k == 0 then "" else Zeros(k - 1) + "0"
  }

  function PadStart(s: string, width: nat): string {
    if |s| >= width then s else Zeros(width - |s|) + s
  }

  function Power10(k: nat): (p: nat)
    ensures p > 0
  {
    if k == 0 then 1 else 10 * Power10(k - 1)
  }

  // ---- Reading and printing ----

  /** The text before the first dot, and what follows it. */
  function SplitAtDot(s: string): (string, Option<string>) {
    if s == "" then ("", None)
    else if s[0] == '.' then ("", Some(s[1..]))
    else
      var (head, tail) := SplitAtDot(s[1..]);
      ([s[0]] + head, tail)
  }

  const NINE_ZEROS := "000000000"

  /** `NotDecimal`: a part that is not a plain run of digits. */
  datatype Reading = Null | NotDecimal | Value(nanos: nat)

  function ToConsensus(ts: Option<string>): Reading {
    if ts.None? || ts.value == "" then Null
    else
      match SplitAtDot(ts.value)
      case (_, None) => Null
      case (sec, Some(rest)) =>
        var nano := SplitAtDot(rest).0;
        if sec == "" || nano == "" then Null
        else if !Digits(sec) || !Digits(nano) then NotDecimal
        else
          var padded := (nano + NINE_ZEROS)[..9];
          Value(Parse(sec) * 1_000_000_000 + Parse(padded))
  }

  /** What is printed for a start of `startMs` milliseconds since the epoch. */
  function InitialTimestamp(startMs: nat): string {
    Print(startMs / 1000) + "." + PadStart(Print((startMs % 1000) * 1_000_000), 9)
  }

  // ---- Digits ----

  lemma OneMoreDigit(x: nat, p: nat, y: nat, digit: nat)
    ensures (x * p + y) * 10 + digit == x * (10 * p) + (y * 10 + digit)
  {
    assert x * p * 10 == x * (10 * p);
  }

  lemma {:induction false} ParseAppend(a: string, b: string)
    requires forall i | 0 <= i < |a| :: IsDigit(a[i])
    requires forall i | 0 <= i < |b| :: IsDigit(b[i])
    ensures forall i | 0 <= i < |a + b| :: IsDigit((a + b)[i])
    ensures Parse(a + b) == Parse(a) * Power10(|b|) + Parse(b)
    decreases |b|
  {
    if b == "" {
      assert a + b == a;
    } else {
      var n := |b| - 1;
      assert (a + b)[..|a + b| - 1] == a + b[..n];
      ParseAppend(a, b[..n]);
      OneMoreDigit(Parse(a), Power10(n), Parse(b[..n]), b[n] as int - '0' as int);
    }
  }

  lemma {:induction false} ZerosParse(k: nat)
    ensures forall i | 0 <= i < k :: IsDigit(Zeros(k)[i])
    ensures Parse(Zeros(k)) == 0
  {
    if k == 0 {
    } else {
      ZerosParse(k - 1);
      assert Zeros(k)[..k - 1] == Zeros(k - 1);
    }
  }

  lemma {:induction false} PrintParses(n: nat)
    ensures Parse(Print(n)) == n
  {
    if n < 10 {
      assert Print(n)[..0] == "";
    } else {
      PrintParses(n / 10);
      assert Print(n)[..|Print(n)| - 1] == Print(n / 10);
    }
  }

  lemma {:induction false} PrintWidth(n: nat, k: nat)
    requires k >= 1 && n < Power10(k)
    ensures |Print(n)| <= k
    decreases k
  {
    if n < 10 {
    } else {
      assert Power10(k) == 10 * Power10(k - 1);
      assert k > 1;
      PrintWidth(n / 10, k - 1);
    }
  }

  lemma {:induction false} SplitOfDotted(a: string, b: string)
    requires forall i | 0 <= i < |a| :: a[i] != '.'
    ensures SplitAtDot(a + "." + b) == (a, Some(b))
    decreases |a|
  {
    var s := a + "." + b;
    if a == "" {
      assert s[1..] == b;
    } else {
      assert s[1..] == a[1..] + "." + b;
      SplitOfDotted(a[1..], b);
      assert [a[0]] + a[1..] == a;
    }
  }

  lemma {:induction false} SplitWithoutDot(a: string)
    requires forall i | 0 <= i < |a| :: a[i] != '.'
    ensures SplitAtDot(a) == (a, None)
  {
    if a == "" {
    } else {
      SplitWithoutDot(a[1..]);
      assert [a[0]] + a[1..] == a;
    }
  }

  // ---- Order ----

  /** The decimal number that a timestamp denotes. */
  function Decimal(sec: string, frac: string): real
    requires Digits(sec) && Digits(frac)
  {
    Parse(sec) as real + Parse(frac) as real / Power10(|frac|) as real
  }

  lemma Power10Splits(k: nat)
    requires k <= 9
    ensures Power10(k) * Power10(9 - k) == 1_000_000_000
  {
    assert Power10(3) == 1000 && Power10(6) == 1_000_000;
  }

  lemma {:induction false} ZerosPrefix(k: nat)
    requires k <= 9
    ensures NINE_ZEROS[..k] == Zeros(k)
  {
    if k == 0 {
    } else {
      ZerosPrefix(k - 1);
      assert NINE_ZEROS[..k] == NINE_ZEROS[..k - 1] + [NINE_ZEROS[k - 1]];
    }
  }

  lemma PaddedFraction(frac: string)
    requires Digits(frac) && |frac| <= 9
    ensures Digits((frac + NINE_ZEROS)[..9])
    ensures Parse((frac + NINE_ZEROS)[..9]) == Parse(frac) * Power10(9 - |frac|)
  {
    var k := 9 - |frac|;
    ZerosPrefix(k);
    assert (frac + NINE_ZEROS)[..9] == frac + NINE_ZEROS[..k];
    ZerosParse(k);
    ParseAppend(frac, Zeros(k));
  }

  lemma SplitsInTwo(sec: string, frac: string)
    requires Digits(sec) && Digits(frac)
    ensures SplitAtDot(sec + "." + frac) == (sec, Some(frac)) && SplitAtDot(frac) == (frac, None)
  {
    assert forall i | 0 <= i < |sec| :: IsDigit(sec[i]) && sec[i] != '.';
    assert forall i | 0 <= i < |frac| :: IsDigit(frac[i]) && frac[i] != '.';
    SplitOfDotted(sec, frac);
    SplitWithoutDot(frac);
  }

  lemma ReadsParts(ts: string, sec: string, frac: string)
    requires ts != "" && Digits(sec) && Digits(frac)
    requires SplitAtDot(ts) == (sec, Some(frac)) && SplitAtDot(frac) == (frac, None)
    ensures ToConsensus(Some(ts)) == Value(Parse(sec) * 1_000_000_000 + Parse((frac + NINE_ZEROS)[..9]))
  {
  }

  lemma ReadsNanos(sec: string, frac: string)
    requires Digits(sec) && Digits(frac) && |frac| <= 9
    ensures ToConsensus(Some(sec + "." + frac)) == Value(Parse(sec) * 1_000_000_000 + Parse(frac) * Power10(9 - |frac|))
  {
    SplitsInTwo(sec, frac);
    ReadsParts(sec + "." + frac, sec, frac);
    PaddedFraction(frac);
  }

  /** What has no dot, or nothing on one side of its first dot, is no timestamp. */
  lemma ReadsAsNull(head: string, tail: string)
    requires forall i | 0 <= i < |head| :: head[i] != '.'
    ensures ToConsensus(None) == Null && ToConsensus(Some(head)) == Null
    ensures head == "" || tail == "" || tail[0] == '.' ==> ToConsensus(Some(head + "." + tail)) == Null
  {
    SplitWithoutDot(head);
    SplitOfDotted(head, tail);
  }

  /** Digits after the ninth are cut off. */
  lemma LongFractionIsCut(sec: string, frac: string)
    requires Digits(sec) && Digits(frac) && |frac| > 9
    ensures ToConsensus(Some(sec + "." + frac)) == Value(Parse(sec) * 1_000_000_000 + Parse(frac[..9]))
  {
    SplitsInTwo(sec, frac);
    ReadsParts(sec + "." + frac, sec, frac);
    assert (frac + NINE_ZEROS)[..9] == frac[..9];
  }

  lemma ScaledFraction(n: real, p: real, q: real, scale: real)
    requires p > 0.0 && p * q == scale
    ensures n / p * scale == n * q
  {
    assert n / p * p == n;
    assert n / p * (p * q) == (n / p * p) * q;
  }

  lemma ProductAsReal(a: nat, b: nat)
    ensures (a * b) as real == a as real * b as real
  {
  }

  lemma DecimalInNanos(s: nat, n: nat, p: nat, q: nat)
    requires p > 0 && p * q == 1_000_000_000
    ensures (s as real + n as real / p as real) * 1_000_000_000.0 == (s * 1_000_000_000 + n * q) as real
  {
    ProductAsReal(p, q);
    ProductAsReal(n, q);
    ScaledFraction(n as real, p as real, q as real, 1_000_000_000.0);
  }

  /** A timestamp with a fraction of at most nine digits reads as its decimal value in nanos,
      exactly. */
  lemma ReadsDecimalValue(sec: string, frac: string)
    requires Digits(sec) && Digits(frac) && |frac| <= 9
    ensures var r := ToConsensus(Some(sec + "." + frac));
            r.Value? && r.nanos as real == Decimal(sec, frac) * 1_000_000_000.0
  {
    ReadsNanos(sec, frac);
    Power10Splits(|frac|);
    DecimalInNanos(Parse(sec), Parse(frac), Power10(|frac|), Power10(9 - |frac|));
  }

  /** Comparing the integers is comparing the decimals. */
  lemma OrderIsDecimalOrder(sec1: string, frac1: string, sec2: string, frac2: string)
    requires Digits(sec1) && Digits(frac1) && |frac1| <= 9
    requires Digits(sec2) && Digits(frac2) && |frac2| <= 9
    ensures var a, b := ToConsensus(Some(sec1 + "." + frac1)), ToConsensus(Some(sec2 + "." + frac2));
            && a.Value? && b.Value?
            && (a.nanos < b.nanos <==> Decimal(sec1, frac1) < Decimal(sec2, frac2))
            && (a.nanos == b.nanos <==> Decimal(sec1, frac1) == Decimal(sec2, frac2))
  {
    ReadsDecimalValue(sec1, frac1);
    ReadsDecimalValue(sec2, frac2);
  }

  lemma PaddedNanos(nanos: nat)
    requires nanos < 1_000_000_000
    ensures var frac := PadStart(Print(nanos), 9);
            |frac| == 9 && Digits(frac) && Parse(frac) == nanos
  {
    Power10Splits(9);
    PrintWidth(nanos, 9);
    PrintParses(nanos);
    var k := 9 - |Print(nanos)|;
    ZerosParse(k);
    ParseAppend(Zeros(k), Print(nanos));
    if k == 0 {
      assert Zeros(k) + Print(nanos) == Print(nanos);
    }
  }

  /** Reading back the initial timestamp gives the start time, in nanos. */
  lemma InitialTimestampReadsBack(startMs: nat)
    ensures ToConsensus(Some(InitialTimestamp(startMs))) == Value(startMs * 1_000_000)
  {
    var nanos := (startMs % 1000) * 1_000_000;
    PaddedNanos(nanos);
    PrintParses(startMs / 1000);
    ReadsNanos(Print(startMs / 1000), PadStart(Print(nanos), 9));
    assert Power10(0) == 1;
  }
}
