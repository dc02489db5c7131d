/** The `format_market_cap` helper: picks a tier (T, B, M) for a market
    capitalisation, or falls back to the plain decimal text of the integer. */
module MarketCapFormat {
  import opened Schema

  const Million: int := 1_000_000
  const Billion: int := 1_000_000_000
  const Trillion: int := 1_000_000_000_000

  /** What the helper renders: the value divided by the tier's unit followed
      by the tier's suffix, or the value's own decimal text. The two-decimal
      rounding of `amount` is not modelled: it is the exact quotient. */
  datatype Display = Scaled(amount: real, suffix: char) | Plain(text: string)

  function DigitChar(d: nat): (c: char)
    requires d < 10
    ensures '0' <= c <= '9' && c as int - '0' as int == d
  {
    ('0' as int + d) as char
  }

  predicate AllDigits(s: string)
  {
    forall k :: 0 <= k < |s| ==> '0' <= s[k] <= '9'
  }

  /** The decimal digits of `n`, most significant first, without leading zeros. */
  function Digits(n: nat): (s: string)
    ensures |s| >= 1 && AllDigits(s)
    ensures s[0] == '0' ==> n == 0
    decreases n
  {
    if n < 10 then [DigitChar(n)] else Digits(n / 10) + [DigitChar(n % 10)]
  }

  /** The number a string of decimal digits denotes. */
  function DigitsValue(s: string): nat
    requires AllDigits(s)
  {
    if s == [] then 0 else DigitsValue(s[..|s| - 1]) * 10 + (s[|s| - 1] as int - '0' as int)
  }

  /** Python's `str` of an integer: a minus sign for negatives, then the digits. */
  function DecimalText(v: int): string
  {
    if v < 0 then "-" + Digits(-v) else Digits(v)
  }

  /** The shape `str` gives an integer: an optional minus sign, then at least
      one digit, no leading zero, and no "-0". */
  predicate IsDecimalText(s: string)
  {
    if |s| > 0 && s[0] == '-' then
      |s| > 1 && AllDigits(s[1..]) && s[1] != '0'
    else
      |s| > 0 && AllDigits(s) && (s[0] == '0' ==> |s| == 1)
  }

  /** Reads back the integer a decimal text denotes. */
  function ParseDecimal(s: string): int
    requires IsDecimalText(s)
  {
    if s[0] == '-' then -(DigitsValue(s[1..]) as int) else DigitsValue(s)
  }

  lemma {:induction false} DigitsRoundTrip(n: nat)
    ensures DigitsValue(Digits(n)) == n
    decreases n
  {
    if n >= 10 {
      var s := Digits(n);
      assert s[..|s| - 1] == Digits(n / 10);
      DigitsRoundTrip(n / 10);
    }
  }

  /** The plain rendering is well-formed decimal text that reads back as the value. */
  lemma DecimalTextRoundTrip(v: int)
    ensures IsDecimalText(DecimalText(v))
    ensures ParseDecimal(DecimalText(v)) == v
  {
    var n: nat := if v < 0 then -v else v;
    DigitsRoundTrip(n);
    if v < 0 {
      assert DecimalText(v)[1..] == Digits(n);
    }
  }

  /** format_market_cap: None stays None; values of at least a trillion,
      a billion or a million get the suffix T, B or M with the value divided
      by that unit; everything smaller, negatives included, is the plain text. */
  function FormatMarketCap(value: Option<int>): (r: Option<Display>)
    ensures value.None? <==> r.None?
    ensures value.Some? && value.value >= Trillion ==>
      r.Some? && r.value.Scaled? && r.value.suffix == 'T' &&
      r.value.amount * Trillion as real == value.value as real && r.value.amount >= 1.0
    ensures value.Some? && Billion <= value.value < Trillion ==>
      r.Some? && r.value.Scaled? && r.value.suffix == 'B' &&
      r.value.amount * Billion as real == value.value as real && 1.0 <= r.value.amount < 1000.0
    ensures value.Some? && Million <= value.value < Billion ==>
      r.Some? && r.value.Scaled? && r.value.suffix == 'M' &&
      r.value.amount * Million as real == value.value as real && 1.0 <= r.value.amount < 1000.0
    ensures value.Some? && value.value < Million ==>
      r.Some? && r.value.Plain? && IsDecimalText(r.value.text) && ParseDecimal(r.value.text) == value.value
  {
    match value
    case None => None
    case Some(v) =>
      if v >= Trillion then Some(Scaled(v as real / Trillion as real, 'T'))
      else if v >= Billion then Some(Scaled(v as real / Billion as real, 'B'))
      else if v >= Million then Some(Scaled(v as real / Million as real, 'M'))
      else
        DecimalTextRoundTrip(v);
        Some(Plain(DecimalText(v)))
  }
}
