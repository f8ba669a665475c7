/** Printing and parsing amounts: `xrp` and `to_drops`. */
module Amounts {
  import opened Options

  const DROPS := 1_000_000
  const MAX_DROPS := 100_000_000_000_000_000   // 100 billion XRP

  function Digit(d: nat): (c: char)
    requires d < 10
    ensures '0' <= c <= '9' && c as int - '0' as int == d
  {
    '0' + d as char
  }

  /** Decimal digits without leading zeros. */
  function Digits(n: nat): string {
    if n < 10 then [Digit(n)] else Digits(n / 10) + [Digit(n % 10)]
  }

  /** Exactly `w` digits, with leading zeros. */
  function Padded(n: nat, w: nat): (s: string)
    ensures |s| == w
  {
    if w == 0 then "" else Padded(n / 10, w - 1) + [Digit(n % 10)]
  }

  /** The format `.6f` of a number of drops. */
  function Fixed(drops: int): string {
    if drops < 0 then "-" + Plain(-drops) else Plain(drops)
  }

  function Plain(drops: nat): string {
    Digits(drops / DROPS) + "." + Padded(drops % DROPS, 6)
  }

  function StripRight(s: string, c: char): string
    decreases |s|
  {
    if s != "" && s[|s| - 1] == c then StripRight(s[..|s| - 1], c) else s
  }

  /** `xrp`; the result of a redeem may print a negative amount. */
  function Xrp(drops: int): string {
    var s := StripRight(StripRight(Fixed(drops), '0'), '.');
    if s == "" || s == "-0" then "0" else s
  }

  predicate AllDigits(s: string) {
    forall i | 0 <= i < |s| :: '0' <= s[i] <= '9'
  }

  function Number(s: string): nat
    requires AllDigits(s)
    decreases |s|
  {
    if s == "" then 0 else Number(s[..|s| - 1]) * 10 + (s[|s| - 1] as int - '0' as int)
  }

  function Pow10(k: nat): (p: nat)
    ensures p > 0
  {
    if k == 0 then 1 else 10 * Pow10(k - 1)
  }

  function PointAt(s: string): (i: nat)
    ensures i <= |s|
  {
    if s == "" || s[0] == '.' then 0 else 1 + PointAt(s[1..])
  }

  /** The digits before the point and after it. */
  function Cut(s: string): (string, string) {
    var p := PointAt(s);
    (s[..p], if p < |s| then s[p + 1..] else "")
  }

  function Value(whole: string, fraction: string): nat
    requires AllDigits(whole) && AllDigits(fraction) && |fraction| <= 6
  {
    Number(whole) * DROPS + Number(fraction) * Pow10(6 - |fraction|)
  }

  /** The number of drops that a plain decimal stands for, that is digits with at most
      one point. None stands for an exception, because of a minus sign, a fraction of a
      drop or more than there is, or for a form that is not modelled, such as "+1" and
      "1E3". */
  function ToDrops(s: string): Option<nat> {
    var (whole, fraction) := Cut(s);
    if |whole| + |fraction| == 0 || !AllDigits(whole) || !AllDigits(fraction) || |fraction| > 6 then None
    else
      var drops := Value(whole, fraction);
      if drops > MAX_DROPS then None else Some(drops)
  }

  lemma {:induction false} DigitsAreRight(n: nat)
    ensures Digits(n) != "" && AllDigits(Digits(n)) && Number(Digits(n)) == n
    decreases n
  {
    if n < 10 {
      assert [Digit(n)][..0] == "";
    } else {
      DigitsAreRight(n / 10);
      assert Digits(n)[..|Digits(n)| - 1] == Digits(n / 10);
    }
  }

  lemma {:induction false} PaddedIsRight(n: nat, w: nat)
    requires n < Pow10(w)
    ensures AllDigits(Padded(n, w)) && Number(Padded(n, w)) == n
    decreases w
  {
    if w > 0 {
      PaddedIsRight(n / 10, w - 1);
      assert Padded(n, w)[..w - 1] == Padded(n / 10, w - 1);
    }
  }

  /** Stripping zeros stops at the latest at the point. */
  lemma {:induction false} StripStops(a: string, b: string)
    requires a != "" && a[|a| - 1] != '0'
    ensures StripRight(a + b, '0') == a + StripRight(b, '0')
    decreases |b|
  {
    if b == "" {
      assert a + b == a;
    } else if b[|b| - 1] == '0' {
      StripStops(a, b[..|b| - 1]);
      assert (a + b)[..|a + b| - 1] == a + b[..|b| - 1];
    }
  }

  /** Zeros at the end of a fraction only shift it. */
  lemma {:induction false} StripKeepsValue(f: string)
    requires AllDigits(f)
    ensures var g := StripRight(f, '0');
            && |g| <= |f| && AllDigits(g) && (g != "" ==> g[|g| - 1] != '0')
            && Number(g) * Pow10(|f| - |g|) == Number(f)
    decreases |f|
  {
    if f != "" && f[|f| - 1] == '0' {
      var f' := f[..|f| - 1];
      StripKeepsValue(f');
      var g := StripRight(f, '0');
      var p := Pow10(|f'| - |g|);
      assert Pow10(|f| - |g|) == 10 * p;
      assert Number(g) * (10 * p) == 10 * (Number(g) * p);
    }
  }

  lemma {:induction false} PointFound(a: string, b: string)
    requires AllDigits(a) && (b == "" || b[0] == '.')
    ensures PointAt(a + b) == |a|
    decreases |a|
  {
    if a == "" {
      assert a + b == b;
    } else {
      assert (a + b)[1..] == a[1..] + b;
      PointFound(a[1..], b);
    }
  }

  lemma Strip(a: string, c: char)
    requires a != "" && a[|a| - 1] != c
    ensures StripRight(a, c) == a && StripRight(a + [c], c) == a
  {
    assert (a + [c])[..|a|] == a;
  }

  /** The whole part, and the stripped fraction if there is one. */
  function Compact(drops: nat): string {
    Digits(drops / DROPS) + Tail(StripRight(Padded(drops % DROPS, 6), '0'))
  }

  lemma Grouped(a: string, b: string, c: string)
    ensures (a + b) + c == a + (b + c) && a + "" == a && "" + a == a
  {
  }

  lemma EndsLike(a: string, b: string)
    requires b != ""
    ensures a + b != "" && (a + b)[|a + b| - 1] == b[|b| - 1]
  {
  }

  function Tail(fraction: string): string {
    if fraction == "" then "" else "." + fraction
  }

  lemma StripPoint(whole: string, fraction: string)
    requires whole != "" && whole[|whole| - 1] != '.'
    requires fraction != "" ==> fraction[|fraction| - 1] != '.'
    ensures StripRight((whole + ".") + fraction, '.') == whole + Tail(fraction)
  {
    Grouped(whole, ".", fraction);
    if fraction == "" {
      Grouped(whole + ".", "", "");
      Grouped(whole, "", "");
      Strip(whole, '.');
    } else {
      EndsLike(whole + ".", fraction);
      Strip((whole + ".") + fraction, '.');
    }
  }

  /** Stripping zeros and then a point removes an empty fraction and nothing else. */
  lemma StripBoth(whole: string, six: string)
    requires whole != "" && whole[|whole| - 1] != '.' && AllDigits(six)
    ensures StripRight(StripRight((whole + ".") + six, '0'), '.') == whole + Tail(StripRight(six, '0'))
  {
    StripStops(whole + ".", six);
    StripKeepsValue(six);
    StripPoint(whole, StripRight(six, '0'));
  }

  /** Stripping does not reach a sign in front. */
  lemma StripPlain(sign: string, drops: nat)
    ensures StripRight(StripRight(sign + Plain(drops), '0'), '.') == sign + Compact(drops)
  {
    var whole := Digits(drops / DROPS);
    var six := Padded(drops % DROPS, 6);
    SixZeros();
    DigitsAreRight(drops / DROPS);
    PaddedIsRight(drops % DROPS, 6);
    EndsLike(sign, whole);
    StripBoth(sign + whole, six);
    Grouped(sign, whole, ".");
    Grouped(sign, whole + ".", six);
    Grouped(sign, whole, Tail(StripRight(six, '0')));
  }

  lemma CompactStarts(drops: nat)
    ensures Compact(drops) != "" && '0' <= Compact(drops)[0] <= '9'
  {
    DigitsAreRight(drops / DROPS);
  }

  /** What `xrp` prints: a minus sign for a negative amount, and then the whole part and
      the stripped fraction, if there is one. */
  lemma XrpPrints(drops: int)
    ensures Xrp(drops) == if drops < 0 then "-" + Compact(-drops) else Compact(drops)
  {
    if drops < 0 {
      PrintsMinus(-drops);
    } else {
      PrintsPlain(drops);
    }
  }

  lemma PrintsMinus(n: int)
    requires n > 0
    ensures Xrp(-n) == "-" + Compact(n)
  {
    assert Fixed(-n) == "-" + Plain(n);
    StripPlain("-", n);
    NotZero(n);
    CompactStarts(n);
    EndsLike("-", Compact(n));
  }

  lemma PrintsPlain(drops: nat)
    ensures Xrp(drops) == Compact(drops)
  {
    StripPlain("", drops);
    Grouped(Plain(drops), "", "");
    Grouped(Compact(drops), "", "");
    CompactStarts(drops);
  }

  lemma NotZero(drops: nat)
    requires drops > 0
    ensures "-" + Compact(drops) != "-0"
  {
    CompactValue(drops);
    CutParts("0", "");
    assert Number("0") == 0 by { assert "0"[..0] == ""; }
    assert ("-" + Compact(drops))[1..] == Compact(drops) && "-0"[1..] == "0";
  }

  lemma CutParts(whole: string, fraction: string)
    requires AllDigits(whole)
    ensures Cut(whole) == (whole, "")
    ensures Cut((whole + ".") + fraction) == (whole, fraction)
  {
    var s := (whole + ".") + fraction;
    assert whole + "" == whole && s == whole + ("." + fraction);
    PointFound(whole, "");
    PointFound(whole, "." + fraction);
    assert whole[..|whole|] == whole && s[..|whole|] == whole && s[|whole| + 1..] == fraction;
  }

  lemma SixZeros()
    ensures Pow10(6) == DROPS
  {
    assert Pow10(3) == 1000;
    assert Pow10(5) == 100_000;
  }

  /** Parsing undoes printing for every amount the ledger can hold. It refuses what is
      printed for a negative amount, as it does a larger one; nothing prints as an
      empty string. */
  lemma RoundTrip(drops: int)
    ensures Xrp(drops) != ""
    ensures ToDrops(Xrp(drops)) == if 0 <= drops <= 100_000_000_000_000_000 then Some(drops) else None
  {
    XrpPrints(drops);
    if drops < 0 {
      NoSignAllowed("-" + Compact(-drops));
    } else {
      CompactStarts(drops);
      CompactValue(drops);
    }
  }

  lemma NoSignAllowed(s: string)
    requires s != "" && s[0] == '-'
    ensures ToDrops(s) == None
  {
    assert PointAt(s) > 0;
    assert Cut(s).0[0] == '-';
  }

  /** The printed digits stand for the amount. */
  lemma CompactValue(drops: nat)
    ensures var (whole, fraction) := Cut(Compact(drops));
            && whole != "" && AllDigits(whole) && AllDigits(fraction) && |fraction| <= 6
            && Value(whole, fraction) == drops
  {
    var whole := Digits(drops / DROPS);
    var six := Padded(drops % DROPS, 6);
    var fraction := StripRight(six, '0');
    DigitsAreRight(drops / DROPS);
    SixZeros();
    PaddedIsRight(drops % DROPS, 6);
    StripKeepsValue(six);
    CutParts(whole, fraction);
    assert Compact(drops) == if fraction == "" then whole else (whole + ".") + fraction;
    assert Value(whole, fraction) == drops;
  }

  lemma TenTimes(x: int, p: int, y: int, d: int)
    ensures (x * p + y) * 10 + d == x * (10 * p) + (y * 10 + d)
  {
  }

  lemma Shifted(x: int, p: int, y: int, q: int, pq: int)
    requires p * q == pq
    ensures (x * p + y) * q == x * pq + y * q
  {
    assert (x * p) * q == x * (p * q);
  }

  lemma {:induction false} NumberOfBoth(a: string, b: string)
    requires AllDigits(a) && AllDigits(b)
    ensures AllDigits(a + b) && Number(a + b) == Number(a) * Pow10(|b|) + Number(b)
    decreases |b|
  {
    if b == "" {
      assert a + b == a;
    } else {
      var n := |b| - 1;
      NumberOfBoth(a, b[..n]);
      assert (a + b)[..|a + b| - 1] == a + b[..n];
      TenTimes(Number(a), Pow10(n), Number(b[..n]), b[n] as int - '0' as int);
    }
  }

  lemma {:induction false} PowSum(a: nat, b: nat)
    ensures Pow10(a) * Pow10(b) == Pow10(a + b)
    decreases a
  {
    if a > 0 {
      PowSum(a - 1, b);
    }
  }

  /** The value of every plain decimal with at most six digits after the point, leading
      and trailing zeros or not: the digits without the point, shifted by six places. So
      "1.50", "01.5" and "1.500000" mean the same, and ".5" and "5." are numbers. */
  lemma ParsesPlainDecimal(whole: string, fraction: string)
    requires AllDigits(whole) && AllDigits(fraction) && |whole| + |fraction| > 0 && |fraction| <= 6
    ensures AllDigits(whole + fraction)
    ensures var drops := Number(whole + fraction) * Pow10(6 - |fraction|);
            && ToDrops((whole + ".") + fraction) == (if drops > MAX_DROPS then None else Some(drops))
            && (fraction == "" ==> ToDrops(whole) == ToDrops((whole + ".") + fraction))
  {
    CutParts(whole, fraction);
    NumberOfBoth(whole, fraction);
    ValueIsShifted(whole, fraction);
  }

  lemma ValueIsShifted(whole: string, fraction: string)
    requires AllDigits(whole) && AllDigits(fraction) && |fraction| <= 6 && AllDigits(whole + fraction)
    ensures Value(whole, fraction) == Number(whole + fraction) * Pow10(6 - |fraction|)
  {
    NumberOfBoth(whole, fraction);
    PowSum(|fraction|, 6 - |fraction|);
    SixZeros();
    Shifted(Number(whole), Pow10(|fraction|), Number(fraction), Pow10(6 - |fraction|), DROPS);
  }

  /** More digits after the point than drops have are refused. */
  lemma RefusesFinerThanDrops(whole: string, fraction: string)
    requires AllDigits(whole) && AllDigits(fraction) && |fraction| > 6
    ensures ToDrops((whole + ".") + fraction) == None
  {
    CutParts(whole, fraction);
  }

  /** Two different amounts are never printed alike. */
  lemma XrpInjective(a: int, b: int)
    requires Xrp(a) == Xrp(b)
    ensures a == b
  {
    XrpPrints(a);
    XrpPrints(b);
    var m, n := if a < 0 then -a else a, if b < 0 then -b else b;
    CompactStarts(m);
    CompactStarts(n);
    assert ("-" + Compact(m))[1..] == Compact(m) && ("-" + Compact(n))[1..] == Compact(n);
    CompactValue(m);
    CompactValue(n);
  }
}
