/** Exact decimal money: parsing, printing, and the arithmetic of a document's lines. */
module Money {
  import opened Basics

  datatype Currency = UZS | USD | EUR | RUB

  const MAX_LINE_ITEMS := 200
  const MAX_WHOLE_DIGITS := 15
  const MAX_FRACTION_DIGITS := 6

  /** Decimal digits of a currency's minor unit. */
  function Digits(c: Currency): nat { if c == UZS then 0 else 2 }

  function Factor(c: Currency): nat { if c == UZS then 1 else 100 }

  function Pow10(n: nat): (p: nat)
    ensures p >= 1
  {
    if n == 0 then 1 else 10 * Pow10(n - 1)
  }

  const MAX_AMOUNT := 1_000_000_000_000_000

  // ------------------------------------------------------------------------ digits

  predicate IsDigit(c: char) { '0' <= c <= '9' }

  predicate AllDigits(s: string) { forall i :: 0 <= i < |s| ==> IsDigit(s[i]) }

  function DigitValue(c: char): nat
    requires IsDigit(c)
  {
    c as int - '0' as int
  }

  function DigitChar(d: nat): (c: char)
    requires d < 10
    ensures IsDigit(c) && DigitValue(c) == d
  {
    ('0' as int + d) as char
  }

  /** `int(s)`; the empty string counts as zero. */
  function Value(s: string): nat
    requires AllDigits(s)
  {
    if s == "" then 0 else 10 * Value(s[..|s| - 1]) + DigitValue(s[|s| - 1])
  }

  lemma {:induction false} ValueBound(s: string)
    requires AllDigits(s)
    ensures Value(s) < Pow10(|s|)
  {
    if s != "" {
      ValueBound(s[..|s| - 1]);
    }
  }

  lemma {:induction false} ValueConcat(a: string, b: string)
    requires AllDigits(a) && AllDigits(b)
    ensures AllDigits(a + b) && Value(a + b) == Value(a) * Pow10(|b|) + Value(b)
    decreases |b|
  {
    if b == "" {
      assert a + b == a;
    } else {
      hide Value, Pow10;
      var init := b[..|b| - 1];
      ValueConcat(a, init);
      assert (a + b)[..|a + b| - 1] == a + init;
      LastDigit(a + b);
      LastDigit(b);
      assert Pow10(|b|) == 10 * Pow10(|init|) by { NextPower(|init|); }
      TenTimes(Value(a), Pow10(|init|));
    }
  }

  lemma LastDigit(s: string)
    requires AllDigits(s) && s != ""
    ensures Value(s) == 10 * Value(s[..|s| - 1]) + DigitValue(s[|s| - 1])
  {
  }

  lemma NextPower(n: nat)
    ensures Pow10(n + 1) == 10 * Pow10(n)
  {
  }

  lemma TenTimes(a: nat, b: nat)
    ensures a * (10 * b) == 10 * (a * b)
  {
  }

  /** `str(n)`. */
  function Decimal(n: nat): (s: string)
    ensures AllDigits(s) && s != "" && Value(s) == n
  {
    if n < 10 then [DigitChar(n)] else Decimal(n / 10) + [DigitChar(n % 10)]
  }

  lemma {:induction false} DecimalLength(n: nat, k: nat)
    requires k >= 1
    ensures |Decimal(n)| <= k <==> n < Pow10(k)
  {
    if n < 10 {
      assert Pow10(k) >= 10 by { PowersGrow(1, k); }
    } else if k == 1 {
      assert |Decimal(n / 10)| >= 1;
    } else {
      DecimalLength(n / 10, k - 1);
    }
  }

  lemma {:induction false} PowersGrow(j: nat, k: nat)
    requires j <= k
    ensures Pow10(j) <= Pow10(k)
  {
    if j < k {
      PowersGrow(j, k - 1);
    }
  }

  lemma {:induction false} PowersMultiply(j: nat, k: nat)
    ensures Pow10(j + k) == Pow10(j) * Pow10(k)
  {
    if j > 0 {
      PowersMultiply(j - 1, k);
    }
  }

  // ----------------------------------------------------------------------- parsing

  function StripLeft(s: string): string {
    if s != "" && IsSpace(s[0]) then StripLeft(s[1..]) else s
  }

  function StripRight(s: string): string {
    if s != "" && IsSpace(s[|s| - 1]) then StripRight(s[..|s| - 1]) else s
  }

  function Strip(s: string): string { StripRight(StripLeft(s)) }

  /** Where the first dot is, or the length. */
  function Dot(s: string): (i: nat)
    ensures i <= |s| && (i < |s| ==> s[i] == '.') && forall j :: 0 <= j < i ==> s[j] != '.'
  {
    if s == "" || s[0] == '.' then 0 else 1 + Dot(s[1..])
  }

  /** The two sides of `partition('.')`. */
  function Whole(s: string): string { s[..Dot(s)] }
  function Fraction(s: string): string { if Dot(s) < |s| then s[Dot(s) + 1..] else "" }

  /** `[0-9]{1,15}(\.[0-9]{1,6})?`. */
  predicate WellFormed(s: string) {
    && AllDigits(Whole(s)) && 1 <= |Whole(s)| <= MAX_WHOLE_DIGITS
    && (Dot(s) < |s| ==> AllDigits(Fraction(s)) && 1 <= |Fraction(s)| <= MAX_FRACTION_DIGITS)
  }

  function Zeros(n: nat): (z: string)
    ensures |z| == n && AllDigits(z) && Value(z) == 0
  {
    if n == 0 then "" else Zeros(n - 1) + "0"
  }

  /** The fraction, padded and cut to the currency's own precision. */
  function Cents(fraction: string, digits: nat): (f: string)
    requires AllDigits(fraction)
    ensures |f| == digits && AllDigits(f)
  {
    (fraction + Zeros(digits))[..digits]
  }

  /** The string branch of `_amount_minor`. */
  function AmountMinor(value: string, c: Currency): Result<nat> {
    var text := Strip(value);
    if !WellFormed(text) then Err(Invalid)
    else
      var minor := Value(Whole(text)) * Factor(c)
                   + (if Digits(c) > 0 then Value(Cents(Fraction(text), Digits(c))) else 0);
      if minor > MAX_AMOUNT * Factor(c) then Err(Invalid) else Ok(minor)
  }

  lemma FactorIsPower(c: Currency)
    ensures Factor(c) == Pow10(Digits(c))
  {
    assert Pow10(2) == 10 * Pow10(1) && Pow10(1) == 10 * Pow10(0);
  }

  /** Cutting or padding a fraction of `k` digits to `d` digits rounds it down. */
  lemma CentsFloor(fraction: string, d: nat)
    requires AllDigits(fraction)
    ensures Value(Cents(fraction, d)) * Pow10(|fraction|) <= Value(fraction) * Pow10(d)
    ensures Value(fraction) * Pow10(d) < (Value(Cents(fraction, d)) + 1) * Pow10(|fraction|)
  {
    hide Pow10, Value, Cents;
    if |fraction| >= d {
      CentsCut(fraction, d);
    } else {
      CentsPadded(fraction, d);
    }
  }

  lemma CentsCut(fraction: string, d: nat)
    requires AllDigits(fraction) && |fraction| >= d
    ensures Value(Cents(fraction, d)) * Pow10(|fraction|) <= Value(fraction) * Pow10(d)
    ensures Value(fraction) * Pow10(d) < (Value(Cents(fraction, d)) + 1) * Pow10(|fraction|)
  {
    hide Pow10, Value;
    var k := |fraction|;
    var head, rest := fraction[..d], fraction[d..];
    assert fraction == head + rest && Cents(fraction, d) == head;
    ValueConcat(head, rest);
    ValueBound(rest);
    PowersMultiply(k - d, d);
    Scaled(Value(head), Value(rest), Pow10(k - d), Pow10(d));
  }

  lemma CentsPadded(fraction: string, d: nat)
    requires AllDigits(fraction) && |fraction| < d
    ensures Value(Cents(fraction, d)) * Pow10(|fraction|) <= Value(fraction) * Pow10(d)
    ensures Value(fraction) * Pow10(d) < (Value(Cents(fraction, d)) + 1) * Pow10(|fraction|)
  {
    hide Pow10, Value, Zeros;
    var k := |fraction|;
    assert Cents(fraction, d) == fraction + Zeros(d)[..d - k];
    ZerosPrefix(d, d - k);
    ValueConcat(fraction, Zeros(d - k));
    PowersMultiply(d - k, k);
    Padded(Value(fraction), Pow10(d - k), Pow10(k), Pow10(d));
  }

  lemma ZerosPrefix(n: nat, k: nat)
    requires k <= n
    ensures Zeros(n)[..k] == Zeros(k)
  {
    hide Zeros;
    OnlyZeros(n);
    OnlyZeros(k);
  }

  lemma {:induction false} OnlyZeros(n: nat)
    ensures forall i :: 0 <= i < n ==> Zeros(n)[i] == '0'
  {
    hide Value, AllDigits;
    if n > 0 {
      OnlyZeros(n - 1);
    }
  }

  lemma Scaled(head: nat, rest: nat, tail: nat, unit: nat)
    requires rest < tail && unit >= 1
    ensures head * (tail * unit) <= (head * tail + rest) * unit < (head + 1) * (tail * unit)
  {
    assert (head * tail + rest) * unit == head * (tail * unit) + rest * unit;
    assert rest * unit < tail * unit;
    assert (head + 1) * (tail * unit) == head * (tail * unit) + tail * unit;
  }

  lemma Padded(f: nat, pad: nat, k: nat, d: nat)
    requires d == pad * k && k >= 1
    ensures (f * pad) * k <= f * d < (f * pad + 1) * k
  {
    assert (f * pad) * k == f * (pad * k);
    assert (f * pad + 1) * k == (f * pad) * k + k;
  }

  /** Main result: an amount is accepted exactly when it is well formed, and then it is the
      floor of the written value times the currency's factor, with no rounding up and no
      range error: with k fraction digits and all digits read as one number n, the written
      value is n / 10^k. */
  lemma AmountIsFloor(value: string, c: Currency)
    ensures var r, text := AmountMinor(value, c), Strip(value);
            && (r.Ok? <==> WellFormed(text))
            && (r.Ok? ==>
                  var n, scale := Value(Whole(text) + Fraction(text)), Pow10(|Fraction(text)|);
                  r.value * scale <= n * Factor(c) < (r.value + 1) * scale)
  {
    hide Pow10, Value, Strip, Dot, Cents;
    var text := Strip(value);
    if WellFormed(text) {
      var whole, fraction := Whole(text), Fraction(text);
      var cents := Cents(fraction, Digits(c));
      FactorIsPower(c);
      ValueConcat(whole, fraction);
      CentsFloor(fraction, Digits(c));
      NoCents(fraction);
      Combined(Value(whole), Value(fraction), Value(cents), Pow10(|fraction|), Factor(c));
      ValueBound(whole);
      PowersGrow(|whole|, MAX_WHOLE_DIGITS);
      FifteenDigits();
      ValueBound(cents);
      InRange(Value(whole), Value(cents), Factor(c), MAX_AMOUNT);
    }
  }

  predicate AllSpace(s: string) { forall i :: 0 <= i < |s| ==> IsSpace(s[i]) }

  /** The amount as it is written: some white space, up to fifteen digits, possibly a dot and
      up to six more, and some white space. */
  predicate Written(value: string, left: string, whole: string, fraction: string, right: string) {
    && value == left + (if fraction == "" then whole else whole + "." + fraction) + right
    && AllSpace(left) && AllSpace(right)
    && 1 <= |whole| <= 15 && |fraction| <= 6
    && (forall i :: 0 <= i < |whole| ==> '0' <= whole[i] <= '9')
    && (forall i :: 0 <= i < |fraction| ==> '0' <= fraction[i] <= '9')
  }

  lemma {:induction false} StripLeftIs(left: string, s: string)
    requires AllSpace(left) && (s != "" ==> !IsSpace(s[0]))
    ensures StripLeft(left + s) == s
  {
    if left != "" {
      assert (left + s)[1..] == left[1..] + s;
      StripLeftIs(left[1..], s);
    } else {
      assert left + s == s;
    }
  }

  lemma {:induction false} StripRightIs(s: string, right: string)
    requires AllSpace(right) && (s != "" ==> !IsSpace(s[|s| - 1]))
    ensures StripRight(s + right) == s
    decreases |right|
  {
    if right != "" {
      assert (s + right)[..|s + right| - 1] == s + right[..|right| - 1];
      StripRightIs(s, right[..|right| - 1]);
    } else {
      assert s + right == s;
    }
  }

  lemma {:induction false} StrippedLeft(s: string) returns (left: string)
    ensures s == left + StripLeft(s) && AllSpace(left)
    ensures StripLeft(s) != "" ==> !IsSpace(StripLeft(s)[0])
  {
    left := "";
    if s != "" && IsSpace(s[0]) {
      var rest := StrippedLeft(s[1..]);
      left := [s[0]] + rest;
    }
  }

  lemma {:induction false} StrippedRight(s: string) returns (right: string)
    ensures s == StripRight(s) + right && AllSpace(right)
    decreases |s|
  {
    right := "";
    if s != "" && IsSpace(s[|s| - 1]) {
      var rest := StrippedRight(s[..|s| - 1]);
      right := rest + [s[|s| - 1]];
    }
  }

  /** Main result: an amount is accepted if and only if it is written as an amount, and is then
      what is written times the currency's factor, rounded down. */
  lemma AmountByCause(value: string, c: Currency)
    ensures AmountMinor(value, c).Ok? <==>
              exists left, whole, fraction, right :: Written(value, left, whole, fraction, right)
    ensures forall left, whole, fraction, right :: Written(value, left, whole, fraction, right) ==>
              && AllDigits(whole + fraction) && AmountMinor(value, c).Ok?
              && var n, scale := Value(whole + fraction), Pow10(|fraction|);
                 AmountMinor(value, c).value * scale <= n * Factor(c) < (AmountMinor(value, c).value + 1) * scale
  {
    hide Value, Pow10, AmountMinor, Strip, Whole, Fraction, WellFormed, Written;
    AmountIsFloor(value, c);
    forall left, whole, fraction, right | Written(value, left, whole, fraction, right)
      ensures WellFormed(Strip(value)) && Whole(Strip(value)) == whole && Fraction(Strip(value)) == fraction
      ensures AllDigits(whole + fraction)
    {
      WrittenIsWellFormed(value, left, whole, fraction, right);
    }
    if AmountMinor(value, c).Ok? {
      var left, right := WellFormedIsWritten(value);
      assert Written(value, left, Whole(Strip(value)), Fraction(Strip(value)), right);
    }
  }

  lemma WrittenIsWellFormed(value: string, left: string, whole: string, fraction: string, right: string)
    requires Written(value, left, whole, fraction, right)
    ensures WellFormed(Strip(value)) && Whole(Strip(value)) == whole && Fraction(Strip(value)) == fraction
    ensures AllDigits(whole + fraction)
  {
    hide Dot;
    var text := if fraction == "" then whole else whole + "." + fraction;
    assert value == left + (text + right);
    StripLeftIs(left, text + right);
    StripRightIs(text, right);
    DotOf(whole, fraction);
  }

  lemma WellFormedIsWritten(value: string) returns (left: string, right: string)
    requires WellFormed(Strip(value))
    ensures Written(value, left, Whole(Strip(value)), Fraction(Strip(value)), right)
  {
    hide StripLeft, StripRight;
    left := StrippedLeft(value);
    right := StrippedRight(StripLeft(value));
    var text := Strip(value);
    assert value == left + text + right;
    assert Dot(text) < |text| ==> text == Whole(text) + "." + Fraction(text);
    assert Dot(text) == |text| ==> text == Whole(text);
  }

  lemma NoCents(fraction: string)
    requires AllDigits(fraction)
    ensures Value(Cents(fraction, 0)) == 0
  {
  }

  lemma FifteenDigits()
    ensures Pow10(15) == MAX_AMOUNT
  {
    assert Pow10(5) == 100000 by {
      assert Pow10(2) == 100 && Pow10(3) == 1000 && Pow10(4) == 10000;
    }
    PowersMultiply(5, 5);
    PowersMultiply(10, 5);
  }

  lemma InRange(whole: nat, cents: nat, factor: nat, max: nat)
    requires whole < max && cents < factor
    ensures whole * factor + cents <= max * factor
  {
    OneMore(whole, factor);
    Monotone(whole + 1, max, factor);
  }

  lemma OneMore(a: nat, b: nat)
    ensures (a + 1) * b == a * b + b
  {
  }

  lemma Monotone(a: nat, b: nat, c: nat)
    requires a <= b
    ensures a * c <= b * c
  {
  }

  lemma Combined(whole: nat, fraction: nat, cents: nat, scale: nat, factor: nat)
    requires cents * scale <= fraction * factor < (cents + 1) * scale
    ensures (whole * factor + cents) * scale <= (whole * scale + fraction) * factor
    ensures (whole * scale + fraction) * factor < (whole * factor + cents + 1) * scale
  {
    assert (whole * factor + cents) * scale == whole * factor * scale + cents * scale;
    assert (whole * scale + fraction) * factor == whole * factor * scale + fraction * factor;
    assert (whole * factor + cents + 1) * scale == whole * factor * scale + (cents + 1) * scale;
  }

  // ---------------------------------------------------------------------- printing

  /** `str(n).zfill(width)`, for a number that fits. */
  function Padding(n: nat, width: nat): (s: string)
    ensures AllDigits(s)
  {
    var s := Decimal(n);
    if |s| >= width then s else Zeros(width - |s|) + s
  }

  /** `format_amount`. */
  function FormatAmount(minor: nat, c: Currency): string {
    if Factor(c) == 1 then Decimal(minor)
    else Decimal(minor / Factor(c)) + "." + Padding(minor % Factor(c), Digits(c))
  }

  lemma {:induction false} NothingToStrip(s: string)
    requires s != "" && !IsSpace(s[0]) && !IsSpace(s[|s| - 1])
    ensures Strip(s) == s
  {
  }

  lemma {:induction false} DotOf(a: string, b: string)
    requires AllDigits(a)
    ensures Dot(a) == |a| && Dot(a + "." + b) == |a|
    decreases |a|
  {
    if a != "" {
      assert (a + "." + b)[1..] == a[1..] + "." + b;
      DotOf(a[1..], b);
    }
  }

  lemma PaddingIsTwoDigits(n: nat)
    requires n < 100
    ensures |Padding(n, 2)| == 2 && Value(Padding(n, 2)) == n
  {
    DecimalLength(n, 2);
    assert Pow10(2) == 100 by { FactorIsPower(USD); }
    var s := Decimal(n);
    if |s| < 2 {
      ValueConcat(Zeros(2 - |s|), s);
    }
  }

  /** Main result: printing an amount and reading it back gives the same amount exactly when
      its whole part has at most fifteen digits; otherwise the printed form is refused. */
  lemma FormatRoundTrip(minor: nat, c: Currency)
    ensures if minor / Factor(c) < MAX_AMOUNT
            then AmountMinor(FormatAmount(minor, c), c) == Ok(minor)
            else AmountMinor(FormatAmount(minor, c), c) == Err(Invalid)
  {
    hide Strip, Value, Pow10, Decimal, AmountMinor, Dot, Cents, FormatAmount;
    var text := FormatAmount(minor, c);
    FormatParts(minor, c);
    FifteenDigits();
    DecimalLength(minor / Factor(c), MAX_WHOLE_DIGITS);
    AmountOfParts(text, c);
  }

  /** What printing writes on the two sides of the dot. */
  lemma FormatParts(minor: nat, c: Currency)
    ensures var text := FormatAmount(minor, c);
            && Strip(text) == text && Whole(text) == Decimal(minor / Factor(c))
            && (Digits(c) == 0 <==> Dot(text) == |text|)
            && (Digits(c) > 0 ==>
                  && AllDigits(Fraction(text)) && |Fraction(text)| == 2
                  && Value(Fraction(text)) == minor % Factor(c))
  {
    hide Strip, Value, Pow10, Decimal, Padding;
    var text := FormatAmount(minor, c);
    var whole := Decimal(minor / Factor(c));
    if Factor(c) == 1 {
      NothingToStrip(text);
      DotOf(whole, "");
    } else {
      var cents := Padding(minor % 100, 2);
      PaddingIsTwoDigits(minor % 100);
      NothingToStrip(text);
      DotOf(whole, cents);
      assert Whole(text) == whole && Fraction(text) == cents;
    }
  }

  /** Reading a text that already has exactly the currency's fraction digits. */
  lemma AmountOfParts(text: string, c: Currency)
    requires Strip(text) == text && AllDigits(Whole(text)) && Whole(text) != ""
    requires Digits(c) == 0 <==> Dot(text) == |text|
    requires Digits(c) > 0 ==> AllDigits(Fraction(text)) && |Fraction(text)| == 2
    ensures var r := AmountMinor(text, c);
            if |Whole(text)| <= MAX_WHOLE_DIGITS
            then r == Ok(Value(Whole(text)) * Factor(c) + (if Digits(c) > 0 then Value(Fraction(text)) else 0))
            else r == Err(Invalid)
  {
    hide Strip, Value, Pow10, Dot;
    AmountIsFloor(text, c);
    assert Digits(c) > 0 ==> Cents(Fraction(text), 2) == Fraction(text);
  }

  // -------------------------------------------------------------------- line items

  /** A line as submitted: the amount is the unit price, as text. */
  datatype Line = Line(description: string, quantity: int, amount: string)

  datatype Item = Item(description: string, quantity: nat, amount: nat, lineTotal: nat)

  predicate LineOk(line: Line, c: Currency) {
    |line.description| <= 200 && line.quantity >= 0 && AmountMinor(line.amount, c).Ok?
  }

  /** Quantity times unit amount. */
  function LineTotal(line: Line, c: Currency): nat
    requires LineOk(line, c)
  {
    Times(line.quantity, AmountMinor(line.amount, c).value)
  }

  function Times(quantity: nat, amount: nat): nat { quantity * amount }

  /** The sum of quantity times unit amount. */
  function Owed(lines: seq<Line>, c: Currency): nat
    requires forall k :: 0 <= k < |lines| ==> LineOk(lines[k], c)
  {
    if lines == [] then 0
    else
      Owed(lines[..|lines| - 1], c) + LineTotal(lines[|lines| - 1], c)
  }

  /** `_line_items`. */
  method LineItems(lines: seq<Line>, c: Currency) returns (r: Result<seq<Item>>)
    ensures r.Ok? <==> |lines| <= MAX_LINE_ITEMS && forall k :: 0 <= k < |lines| ==> LineOk(lines[k], c)
    ensures r.Ok? ==> |r.value| == |lines| && forall k :: 0 <= k < |lines| ==>
              && r.value[k].quantity == lines[k].quantity
              && Ok(r.value[k].amount) == AmountMinor(lines[k].amount, c)
              && r.value[k].lineTotal == LineTotal(lines[k], c)
  {
    hide AmountMinor;
    if |lines| > MAX_LINE_ITEMS { return Err(Invalid); }
    var items: seq<Item> := [];
    for k := 0 to |lines|
      invariant |items| == k
      invariant forall j :: 0 <= j < k ==>
                  && LineOk(lines[j], c) && items[j].quantity == lines[j].quantity
                  && Ok(items[j].amount) == AmountMinor(lines[j].amount, c)
                  && items[j].lineTotal == LineTotal(lines[j], c)
    {
      if |lines[k].description| > 200 || lines[k].quantity < 0 { return Err(Invalid); }
      var amount := AmountMinor(lines[k].amount, c);
      if amount.Err? { return Err(Invalid); }
      items := items + [Item(lines[k].description, lines[k].quantity, amount.value, lines[k].quantity * amount.value)];
    }
    return Ok(items);
  }

  /** `line_items_total`. */
  method LineItemsTotal(items: seq<Item>, ghost lines: seq<Line>, ghost c: Currency) returns (total: nat)
    requires |items| == |lines| && forall k :: 0 <= k < |lines| ==> LineOk(lines[k], c)
    requires forall k :: 0 <= k < |lines| ==> items[k].lineTotal == LineTotal(lines[k], c)
    ensures total == Owed(lines, c)
  {
    hide AmountMinor, LineOk, LineTotal;
    total := 0;
    for k := 0 to |items|
      invariant total == Owed(lines[..k], c)
    {
      assert lines[..k + 1][..k] == lines[..k];
      total := total + items[k].lineTotal;
    }
    assert lines[..|lines|] == lines;
  }

  /** The arithmetic of `normalize`. Main result: a document is accepted exactly when its
      amounts are well formed and, if it has line items, its stated total is the sum of
      quantity times unit amount. */
  method NormalizeAmounts(total: string, lines: seq<Line>, c: Currency) returns (r: Result<nat>)
    ensures r.Ok? <==>
              && AmountMinor(total, c).Ok? && |lines| <= MAX_LINE_ITEMS
              && (forall k :: 0 <= k < |lines| ==> LineOk(lines[k], c))
              && (lines != [] ==> Owed(lines, c) == AmountMinor(total, c).value)
    ensures r.Ok? ==> r == AmountMinor(total, c)
  {
    hide AmountMinor, Owed, LineOk;
    var stated := AmountMinor(total, c);
    if stated.Err? { return stated; }
    var items := LineItems(lines, c);
    if items.Err? { return Err(Invalid); }
    if items.value != [] {
      var summed := LineItemsTotal(items.value, lines, c);
      if summed != stated.value { return Err(Invalid); }
    }
    return stated;
  }
}
