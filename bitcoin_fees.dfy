/** Fee tiers and amount formatting (src/services/bitcoinFees.ts). The fee advisor's HTTP
    answer is an input; rounding is exact. */
module BitcoinFees {
  import opened JsBuiltins

  /** Recommended fee rates in sat/vB. */
  datatype FeeRates = FeeRates(fastestFee: int, halfHourFee: int, hourFee: int, economyFee: int, minimumFee: int)

  /** The tuple returned when the request or its parsing throws. */
  function DefaultRates(): FeeRates
  {
    FeeRates(20, 10, 5, 2, 1)
  }

  /** One number of the advisor's JSON; `Missing` stands for a field whose value is not a
      number (undefined gives NaN under Math.round). */
  datatype FeeField = Missing | Value(x: real)

  /** What the GET to the fee advisor gives. `FeeRequestThrew` also stands for an ok answer
      whose body is not JSON, or is JSON null: reading a field of null throws a TypeError,
      which the same catch turns into the defaults. */
  datatype FeeResponse =
    | FeeRequestThrew
    | FeeNotOk(status: int)
    | FeeOk(fastest: FeeField, halfHour: FeeField, hour: FeeField, economy: FeeField, minimum: FeeField)

  /** `Math.round(x) || d`: the rounded value unless it is NaN or 0. */
  function RoundOr(field: FeeField, d: int): (r: int)
    ensures field.Missing? ==> r == d
    ensures field.Value? && RoundHalfUp(field.x) != 0 ==> r == RoundHalfUp(field.x)
    ensures field.Value? && RoundHalfUp(field.x) == 0 ==> r == d
    ensures d != 0 ==> r != 0
  {
    match field
    case Missing => d
    case Value(x) => if RoundHalfUp(x) != 0 then RoundHalfUp(x) else d
  }

  /** getCurrentFeeRates: None (null) for a non-ok answer, the defaults when anything threw,
      otherwise each field rounded and defaulted on its own. */
  function GetCurrentFeeRates(response: FeeResponse): (r: Option<FeeRates>)
    ensures r.None? <==> response.FeeNotOk?
    ensures response.FeeRequestThrew? ==> r == Some(DefaultRates())
    ensures response.FeeOk? ==>
              && r.value.fastestFee == RoundOr(response.fastest, 20)
              && r.value.halfHourFee == RoundOr(response.halfHour, 10)
              && r.value.hourFee == RoundOr(response.hour, 5)
              && r.value.economyFee == RoundOr(response.economy, 2)
              && r.value.minimumFee == RoundOr(response.minimum, 1)
  {
    match response
    case FeeRequestThrew => Some(DefaultRates())
    case FeeNotOk(_) => None
    case FeeOk(fastest, halfHour, hour, economy, minimum) =>
      Some(FeeRates(RoundOr(fastest, 20), RoundOr(halfHour, 10), RoundOr(hour, 5), RoundOr(economy, 2), RoundOr(minimum, 1)))
  }

  predicate NoZeroTier(r: FeeRates)
  {
    r.fastestFee != 0 && r.halfHourFee != 0 && r.hourFee != 0 && r.economyFee != 0 && r.minimumFee != 0
  }

  /** No tier of a non-null answer is ever 0. */
  lemma RatesNeverZero(response: FeeResponse)
    requires GetCurrentFeeRates(response).Some?
    ensures NoZeroTier(GetCurrentFeeRates(response).value)
  {
  }

  /** A field only takes its own default: the others keep their advisor values. */
  lemma MissingFieldDefaultsAlone(halfHour: real, hour: real, economy: real, minimum: real)
    requires RoundHalfUp(halfHour) != 0 && RoundHalfUp(hour) != 0 && RoundHalfUp(economy) != 0 && RoundHalfUp(minimum) != 0
    ensures GetCurrentFeeRates(FeeOk(Missing, Value(halfHour), Value(hour), Value(economy), Value(minimum)))
            == Some(FeeRates(20, RoundHalfUp(halfHour), RoundHalfUp(hour), RoundHalfUp(economy), RoundHalfUp(minimum)))
  {
  }

  // ---------------------------------------------------------------- formatSats

  /** A digit appended to a text of digits multiplies its value by ten and adds the digit. */
  lemma DigitsValueAppend(a: string, c: char)
    requires forall i :: 0 <= i < |a| ==> IsDigit(a[i])
    requires IsDigit(c)
    ensures DigitsValue(a + [c]) == DigitsValue(a) * 10 + DigitValue(c)
  {
    assert (a + [c])[..|a|] == a;
  }

  /** Three digits appended to a text of digits multiply its value by a thousand and add
      their own value. */
  lemma DigitsValueAppend3(a: string, b: string)
    requires forall i :: 0 <= i < |a| ==> IsDigit(a[i])
    requires |b| == 3 && forall i :: 0 <= i < 3 ==> IsDigit(b[i])
    ensures DigitsValue(a + b) == DigitsValue(a) * 1000 + DigitsValue(b)
  {
    DigitsValueAppend(a, b[0]);
    DigitsValueAppend(a + [b[0]], b[1]);
    DigitsValueAppend(a + [b[0]] + [b[1]], b[2]);
    assert a + b == a + [b[0]] + [b[1]] + [b[2]];
    DigitsValueAppend([], b[0]);
    DigitsValueAppend([b[0]], b[1]);
    DigitsValueAppend([b[0]] + [b[1]], b[2]);
    assert b == [] + [b[0]] + [b[1]] + [b[2]];
  }

  /** Three digits with leading zeros; they read back as the number. */
  function Pad3(n: nat): (r: string)
    requires n < 1000
    ensures |r| == 3
    ensures forall i :: 0 <= i < 3 ==> IsDigit(r[i])
    ensures DigitsValue(r) == n
  {
    var r := [DigitChar(n / 100), DigitChar(n / 10 % 10), DigitChar(n % 10)];
    DigitsValueAppend([], r[0]);
    DigitsValueAppend([r[0]], r[1]);
    DigitsValueAppend([r[0], r[1]], r[2]);
    assert [] + [r[0]] == [r[0]] && [r[0]] + [r[1]] == [r[0], r[1]] && [r[0], r[1]] + [r[2]] == r;
    assert DigitValue(r[0]) == n / 100 && DigitValue(r[1]) == n / 10 % 10 && DigitValue(r[2]) == n % 10;
    assert n == n / 100 * 100 + n / 10 % 10 * 10 + n % 10;
    r
  }

  /** Six digits with leading zeros; they read back as the number. */
  function Pad6(n: nat): (r: string)
    requires n < 1000000
    ensures |r| == 6
    ensures forall i :: 0 <= i < 6 ==> IsDigit(r[i])
    ensures DigitsValue(r) == n
  {
    var high, low := Pad3(n / 1000), Pad3(n % 1000);
    DigitsValueAppend3(high, low);
    high + low
  }

  /** `n.toLocaleString()` in the en-US locale: digits grouped by three with commas. */
  function Grouped(n: nat): (r: string)
    ensures |r| >= 1
  {
    if n < 1000 then NatToString(n) else Grouped(n / 1000) + "," + Pad3(n % 1000)
  }

  function LocaleString(i: int): string
  {
    if i < 0 then "-" + Grouped(-i) else Grouped(i)
  }

  /** `(sats / 100000000).toFixed(6)` for a positive amount: the number of micro-bitcoins
      nearest `sats / 100`, halves up, written as whole bitcoins, '.', and six places. The
      text reads back as that count: the whole part times a million plus the six places. */
  function BtcFixed6(sats: nat): (r: string)
    ensures var micro := RoundHalfUp(sats as real / 100.0);
            && micro >= 0
            && r == NatToString(micro / 1000000) + "." + Pad6(micro % 1000000)
    ensures |r| >= 8 && r[|r| - 7] == '.'
    ensures forall i :: 0 <= i < |r| && i != |r| - 7 ==> IsDigit(r[i])
    ensures DigitsValue(r[..|r| - 7]) * 1000000 + DigitsValue(r[|r| - 6..]) == RoundHalfUp(sats as real / 100.0)
  {
    var micro := (sats + 50) / 100;
    MicroIsRounded(sats);
    var whole, places := NatToString(micro / 1000000), Pad6(micro % 1000000);
    var r := whole + "." + places;
    assert r[..|r| - 7] == whole && r[|r| - 6..] == places;
    DigitsValueOfNat(micro / 1000000);
    r
  }

  /** The integer count `(sats + 50) / 100` is `sats / 100` rounded half up. */
  lemma MicroIsRounded(sats: nat)
    ensures RoundHalfUp(sats as real / 100.0) == (sats + 50) / 100
  {
    var q := (sats + 50) / 100;
    var m := RoundHalfUp(sats as real / 100.0);
    assert 100 * q <= sats + 50 < 100 * q + 100;
    assert q as real - 0.5 <= sats as real / 100.0 < q as real + 0.5;
    assert m as real - 0.5 <= sats as real / 100.0 < m as real + 0.5;
  }

  /** formatSats: from 100000 sats on, bitcoins with six decimals; below, grouped sats. */
  function FormatSats(sats: int): (r: string)
    ensures sats >= 100000 ==> r == BtcFixed6(sats) + " BTC"
    ensures sats < 100000 ==> r == LocaleString(sats) + " sats"
  {
    if sats >= 100000 then BtcFixed6(sats) + " BTC" else LocaleString(sats) + " sats"
  }

  function EndsWith(s: string, suffix: string): bool
  {
    |suffix| <= |s| && s[|s| - |suffix|..] == suffix
  }

  /** The unit is BTC exactly from the threshold on, and sats exactly below it. */
  lemma FormatSatsUnit(sats: int)
    ensures EndsWith(FormatSats(sats), " BTC") <==> sats >= 100000
    ensures EndsWith(FormatSats(sats), " sats") <==> sats < 100000
  {
    var r := FormatSats(sats);
    if sats >= 100000 {
      assert r[|r| - 4..] == " BTC";
      assert r[|r| - 1] == 'C';
    } else {
      assert r[|r| - 5..] == " sats";
      assert r[|r| - 1] == 's';
    }
  }

  function RemoveCommas(s: string): (r: string)
  {
    if |s| == 0 then "" else (if s[0] == ',' then "" else [s[0]]) + RemoveCommas(s[1..])
  }

  lemma {:induction false} RemoveCommasAppend(a: string, b: string)
    ensures RemoveCommas(a + b) == RemoveCommas(a) + RemoveCommas(b)
    decreases |a|
  {
    if |a| == 0 {
      assert a + b == b;
    } else {
      assert (a + b)[1..] == a[1..] + b;
      RemoveCommasAppend(a[1..], b);
      var h := if a[0] == ',' then "" else [a[0]];
      assert RemoveCommas(a + b) == h + (RemoveCommas(a[1..]) + RemoveCommas(b));
    }
  }

  lemma {:induction false} RemoveCommasOfDigits(s: string)
    requires forall i :: 0 <= i < |s| ==> IsDigit(s[i])
    ensures RemoveCommas(s) == s
    decreases |s|
  {
    if |s| > 0 {
      RemoveCommasOfDigits(s[1..]);
      assert [s[0]] + s[1..] == s;
    }
  }

  /** Appending one digit to a positive number appends its character. */
  lemma NatToStringShift(a: nat, d: nat)
    requires a >= 1 && d < 10
    ensures NatToString(a * 10 + d) == NatToString(a) + [DigitChar(d)]
  {
    assert (a * 10 + d) / 10 == a && (a * 10 + d) % 10 == d;
  }

  /** Appending three digits to a positive number appends their padded text. */
  lemma NatToStringThousands(a: nat, b: nat)
    requires a >= 1 && b < 1000
    ensures NatToString(a * 1000 + b) == NatToString(a) + Pad3(b)
  {
    NatToStringShift(a, b / 100);
    NatToStringShift(a * 10 + b / 100, b / 10 % 10);
    assert (a * 10 + b / 100) * 10 + b / 10 % 10 == a * 100 + b / 10;
    NatToStringShift(a * 100 + b / 10, b % 10);
    assert (a * 100 + b / 10) * 10 + b % 10 == a * 1000 + b;
  }

  /** The grouped text with its commas taken out is `String(n)`: grouping only adds commas. */
  lemma {:induction false} GroupedDigits(n: nat)
    ensures RemoveCommas(Grouped(n)) == NatToString(n)
  {
    if n < 1000 {
      RemoveCommasOfDigits(NatToString(n));
    } else {
      GroupedDigits(n / 1000);
      RemoveCommasAppend(Grouped(n / 1000) + ",", Pad3(n % 1000));
      RemoveCommasAppend(Grouped(n / 1000), ",");
      RemoveCommasOfDigits(Pad3(n % 1000));
      NatToStringThousands(n / 1000, n % 1000);
      assert RemoveCommas(",") == "";
    }
  }

  /** The catalogue price: 5000 sats is shown as '5,000 sats'. */
  lemma CataloguePriceShown()
    ensures FormatSats(5000) == "5,000 sats"
  {
    assert Grouped(5000) == Grouped(5) + "," + Pad3(0);
  }
}
