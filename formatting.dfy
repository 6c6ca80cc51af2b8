/** The dashboard's number formatters `format_currency_chf_m` and
    `format_pct` (data.py:180-185): fixed-point with one or two decimals,
    rounded half to even on the exact value, the integer part grouped by
    thousands with a space. A parser is the partner that reads the figure
    back. */
module Formatting {
  import opened Wrappers

  function Pow10(n: nat): (r: nat)
    ensures r >= 1
  {
    if n == 0 then 1 else 10 * Pow10(n - 1)
  }

  function Abs(x: real): real {
    if x < 0.0 then -x else x
  }

  /** Rounding to the nearest integer, ties to the even neighbour. */
  function RoundHalfEven(x: real): int {
    var fl := x.Floor;
    var frac := x - fl as real;
    if frac < 0.5 then fl
    else if frac > 0.5 then fl + 1
    else if fl % 2 == 0 then fl
    else fl + 1
  }

  /** `r` is an integer nearest to `x`, and the even one on a tie. */
  predicate NearestEven(r: int, x: real) {
    && -0.5 <= r as real - x <= 0.5
    && (r as real - x == 0.5 || x - r as real == 0.5 ==> r % 2 == 0)
  }

  lemma RoundHalfEvenNearest(x: real)
    ensures NearestEven(RoundHalfEven(x), x)
    ensures x >= 0.0 ==> RoundHalfEven(x) >= 0
  {
    var fl := x.Floor;
    assert fl as real <= x < fl as real + 1.0;
  }

  /** The magnitude of `value` in units of the last shown decimal place. */
  function Units(value: real, places: nat): nat {
    RoundHalfEvenNearest(Abs(value) * Pow10(places) as real);
    RoundHalfEven(Abs(value) * Pow10(places) as real) as nat
  }

  predicate IsDigit(c: char) {
    '0' <= c <= '9'
  }

  predicate AllDigits(s: string) {
    forall i :: 0 <= i < |s| ==> IsDigit(s[i])
  }

  function DigitChar(d: nat): (c: char)
    requires d < 10
    ensures IsDigit(c)
  {
    ('0' as int + d) as char
  }

  /** The decimal numeral of `n`, without leading zeros. */
  function Digits(n: nat): (s: string)
    ensures |s| >= 1 && AllDigits(s)
    ensures s[0] == '0' ==> n == 0 && |s| == 1
  {
    if n < 10 then [DigitChar(n)] else Digits(n / 10) + [DigitChar(n % 10)]
  }

  /** The `width` digits of `n`, with leading zeros. */
  function Padded(n: nat, width: nat): (s: string)
    requires n < Pow10(width)
    ensures |s| == width && AllDigits(s)
  {
    if width == 0 then [] else Padded(n / 10, width - 1) + [DigitChar(n % 10)]
  }

  /** The number a string of digits denotes. */
  function DigitsValue(s: string): nat
    requires AllDigits(s)
  {
    if |s| == 0 then 0
    else DigitsValue(s[..|s| - 1]) * 10 + (s[|s| - 1] as int - '0' as int)
  }

  lemma {:induction false} DigitsRoundTrip(n: nat)
    ensures DigitsValue(Digits(n)) == n
    decreases n
  {
    if n >= 10 {
      var s := Digits(n);
      assert s[..|s| - 1] == Digits(n / 10);
      DigitsRoundTrip(n / 10);
    }
  }

  lemma {:induction false} PaddedRoundTrip(n: nat, width: nat)
    requires n < Pow10(width)
    ensures DigitsValue(Padded(n, width)) == n
    decreases width
  {
    if width > 0 {
      var s := Padded(n, width);
      assert s[..|s| - 1] == Padded(n / 10, width - 1);
      PaddedRoundTrip(n / 10, width - 1);
    }
  }

  /** Python's thousands separator, already replaced by a space: a space
      before every third digit counted from the right. */
  function Group(s: string): string
    decreases |s|
  {
    if |s| <= 3 then s else Group(s[..|s| - 3]) + " " + s[|s| - 3..]
  }

  /** The string without its spaces. */
  function Ungroup(s: string): string {
    if |s| == 0 then []
    else Ungroup(s[..|s| - 1]) + (if s[|s| - 1] == ' ' then [] else [s[|s| - 1]])
  }

  lemma {:induction false} UngroupAppend(a: string, b: string)
    ensures Ungroup(a + b) == Ungroup(a) + Ungroup(b)
    decreases |b|
  {
    if |b| > 0 {
      var c := b[|b| - 1];
      var kept: string := if c == ' ' then [] else [c];
      assert (a + b)[..|a + b| - 1] == a + b[..|b| - 1];
      assert (a + b)[|a + b| - 1] == c;
      assert Ungroup(a + b) == Ungroup(a + b[..|b| - 1]) + kept;
      assert Ungroup(b) == Ungroup(b[..|b| - 1]) + kept;
      UngroupAppend(a, b[..|b| - 1]);
    } else {
      assert a + b == a;
    }
  }

  lemma {:induction false} UngroupDigits(s: string)
    requires AllDigits(s)
    ensures Ungroup(s) == s
    decreases |s|
  {
    if |s| > 0 {
      UngroupDigits(s[..|s| - 1]);
    }
  }

  /** Removing the separators gives back the digits. */
  lemma {:induction false} UngroupGroup(s: string)
    requires AllDigits(s)
    ensures Ungroup(Group(s)) == s
    decreases |s|
  {
    if |s| <= 3 {
      UngroupDigits(s);
    } else {
      var p, t := s[..|s| - 3], s[|s| - 3..];
      UngroupGroup(p);
      UngroupAppend(Group(p) + " ", t);
      UngroupAppend(Group(p), " ");
      assert Ungroup(" ") == [];
      UngroupDigits(t);
      assert p + t == s;
    }
  }

  /** Digits, with a space at exactly every fourth place counted from the
      right end. */
  predicate SpacedInFours(g: string) {
    forall i :: 0 <= i < |g| ==> (g[i] == ' ' <==> (|g| - i) % 4 == 0) && (g[i] != ' ' ==> IsDigit(g[i]))
  }

  lemma SpacedInFoursStep(g: string, t: string)
    requires SpacedInFours(g) && |t| == 3 && AllDigits(t)
    ensures SpacedInFours(g + " " + t)
  {
    var h := g + " " + t;
    forall i | 0 <= i < |h|
      ensures (h[i] == ' ' <==> (|h| - i) % 4 == 0) && (h[i] != ' ' ==> IsDigit(h[i]))
    {
      if i < |g| {
        assert h[i] == g[i];
        assert (|h| - i) % 4 == (|g| - i) % 4;
      } else if i > |g| {
        assert h[i] == t[i - |g| - 1];
        assert 1 <= |h| - i <= 3;
      }
    }
  }

  /** Every group but the first has three digits: one separator for every
      three digits after the first. */
  lemma {:induction false} GroupShape(s: string)
    requires |s| >= 1 && AllDigits(s)
    ensures |Group(s)| == |s| + (|s| - 1) / 3
    ensures SpacedInFours(Group(s))
    decreases |s|
  {
    if |s| > 3 {
      var p, t := s[..|s| - 3], s[|s| - 3..];
      GroupShape(p);
      SpacedInFoursStep(Group(p), t);
    } else {
      forall i | 0 <= i < |s| ensures (s[i] == ' ' <==> (|s| - i) % 4 == 0) && (s[i] != ' ' ==> IsDigit(s[i])) {
        assert 1 <= |s| - i <= 3;
      }
    }
  }

  /** Euclidean division of a natural number, stated apart from `Pow10` so
      that the solver does not unfold the power while dividing by it. */
  lemma DivMod(n: nat, p: nat)
    requires p > 0
    ensures n / p >= 0 && 0 <= n % p < p && (n / p) * p + n % p == n
  {
  }

  /** The text of a figure from its sign and its magnitude in units of the
      last of `places` decimals. */
  function FixedText(negative: bool, units: nat, places: nat): string {
    DivMod(units, Pow10(places));
    (if negative then "-" else "")
      + Group(Digits(units / Pow10(places))) + "." + Padded(units % Pow10(places), places)
  }

  /** `f"{value:,.{places}f}".replace(",", " ")` for a finite value and one
      or more decimals (with none Python prints no point): a minus sign for a
      negative value, even one that rounds to zero. */
  function FormatFixed(value: real, places: nat): string
    requires places >= 1
  {
    FixedText(value < 0.0, Units(value, places), places)
  }

  /** `format_currency_chf_m`: one decimal, between "CHF " and " m". */
  function FormatCurrency(value: real): string {
    "CHF " + FormatFixed(value, 1) + " m"
  }

  /** `format_pct`: two decimals, followed by "%". */
  function FormatPct(value: real): string {
    FormatFixed(value, 2) + "%"
  }

  /** The magnitude, in units of the last of `places` decimals, of a whole
      part and a fraction of `places` digits. */
  function Compose(whole: nat, frac: nat, places: nat): nat {
    whole * Pow10(places) + frac
  }

  /** Reads an unsigned figure with `places` decimals in units of the last
      decimal. */
  function ParseUnsigned(body: string, places: nat): Option<nat> {
    if |body| <= places then None
    else
      var dot := |body| - places - 1;
      var whole := Ungroup(body[..dot]);
      var frac := body[dot + 1..];
      if body[dot] == '.' && |whole| > 0 && AllDigits(whole) && AllDigits(frac)
      then Some(Compose(DigitsValue(whole), DigitsValue(frac), places))
      else None
  }

  /** Reads a fixed-point figure back: its sign and its magnitude in units
      of the last decimal place. */
  function ParseFixed(s: string, places: nat): Option<(bool, nat)> {
    var negative := |s| > 0 && s[0] == '-';
    match ParseUnsigned(if negative then s[1..] else s, places)
    case None => None
    case Some(units) => Some((negative, units))
  }

  function ParseCurrency(s: string): Option<(bool, nat)> {
    if |s| >= 6 && s[..4] == "CHF " && s[|s| - 2..] == " m"
    then ParseFixed(s[4..|s| - 2], 1)
    else None
  }

  function ParsePct(s: string): Option<(bool, nat)> {
    if |s| >= 1 && s[|s| - 1] == '%' then ParseFixed(s[..|s| - 1], 2) else None
  }

  /** The grouped whole part, the point and the padded decimals read back
      as the number they were made from. */
  lemma UnsignedRoundTrip(w: nat, f: nat, places: nat)
    requires f < Pow10(places)
    ensures ParseUnsigned(Group(Digits(w)) + "." + Padded(f, places), places) == Some(Compose(w, f, places))
  {
    var g := Group(Digits(w));
    var frac := Padded(f, places);
    var body := g + "." + frac;
    var dot := |body| - places - 1;
    assert body[..dot] == g && body[dot] == '.' && body[dot + 1..] == frac;
    UngroupGroup(Digits(w));
    DigitsRoundTrip(w);
    PaddedRoundTrip(f, places);
    var whole := Ungroup(body[..dot]);
    assert whole == Digits(w) && DigitsValue(whole) == w && DigitsValue(frac) == f;
  }

  /** Every sign and magnitude is read back from its text. */
  lemma FixedTextRoundTrip(negative: bool, units: nat, places: nat)
    ensures ParseFixed(FixedText(negative, units, places), places) == Some((negative, units))
  {
    var P := Pow10(places);
    DivMod(units, P);
    var w, f := units / P, units % P;
    var body := Group(Digits(w)) + "." + Padded(f, places);
    GroupShape(Digits(w));
    assert body[0] != '-' by {
      assert body[0] == Group(Digits(w))[0];
      assert Group(Digits(w))[0] == ' ' || IsDigit(Group(Digits(w))[0]);
    }
    var s := FixedText(negative, units, places);
    assert s == (if negative then "-" else "") + body;
    assert (if negative then s[1..] else s) == body;
    UnsignedRoundTrip(w, f, places);
    assert Compose(w, f, places) == units;
  }

  /** Reading a formatted figure gives back its sign and its rounded
      magnitude, which is an integer nearest to the value scaled to units of
      the last place, and the even one on a tie. */
  lemma FixedRoundTrip(value: real, places: nat)
    requires places >= 1
    ensures ParseFixed(FormatFixed(value, places), places) == Some((value < 0.0, Units(value, places)))
    ensures NearestEven(Units(value, places), Abs(value) * Pow10(places) as real)
  {
    FixedTextRoundTrip(value < 0.0, Units(value, places), places);
    RoundHalfEvenNearest(Abs(value) * Pow10(places) as real);
  }

  lemma CurrencyRoundTrip(value: real)
    ensures ParseCurrency(FormatCurrency(value)) == Some((value < 0.0, Units(value, 1)))
  {
    var s := FormatCurrency(value);
    var inner := FormatFixed(value, 1);
    assert s[..4] == "CHF " && s[|s| - 2..] == " m" && s[4..|s| - 2] == inner;
    FixedRoundTrip(value, 1);
  }

  lemma PctRoundTrip(value: real)
    ensures ParsePct(FormatPct(value)) == Some((value < 0.0, Units(value, 2)))
  {
    var s := FormatPct(value);
    assert s[..|s| - 1] == FormatFixed(value, 2);
    FixedRoundTrip(value, 2);
  }

  /** A negative amount: sign, thousands space, one decimal rounded up. */
  lemma CurrencyExample()
    ensures FormatCurrency(-1234.56) == "CHF -1 234.6 m"
  {
    assert (12345.6).Floor == 12345;
    assert Abs(-1234.56) * Pow10(1) as real == 12345.6;
    assert Units(-1234.56, 1) == 12346;
    assert 12346 / Pow10(1) == 1234 && 12346 % Pow10(1) == 6;
    assert Digits(1234) == "1234";
    assert Group("1234") == "1 234";
    assert Padded(6, 1) == "6";
    assert FixedText(true, 12346, 1) == "-" + "1 234" + "." + "6";
    assert FormatFixed(-1234.56, 1) == "-1 234.6";
  }

  /** A tie on the last place goes to the even neighbour. */
  lemma PctTieExample()
    ensures FormatPct(0.125) == "0.12%"
  {
    assert (12.5).Floor == 12;
    assert Abs(0.125) * Pow10(2) as real == 12.5;
    assert Units(0.125, 2) == 12;
    assert 12 / Pow10(2) == 0 && 12 % Pow10(2) == 12;
    assert Digits(0) == "0";
    assert Group("0") == "0";
    assert Padded(12, 2) == "12";
    assert FixedText(false, 12, 2) == "" + "0" + "." + "12";
    assert FormatFixed(0.125, 2) == "0.12";
  }
}
