/** Rust's `i64::from_str` (decimal): an optional single `+` or `-`, then one
    or more ASCII digits and nothing else; a value outside the `i64` range is
    an error. */
module IntParse {
  import opened Outcomes

  const I64Min: int := -0x8000_0000_0000_0000
  const I64Max: int := 0x7FFF_FFFF_FFFF_FFFF

  predicate IsDigit(c: char)
  {
    '0' <= c <= '9'
  }

  function DigitValue(c: char): (d: nat)
    requires IsDigit(c)
    ensures d < 10
  {
    c as int - '0' as int
  }

  predicate AllDigits(s: string)
  {
    forall i :: 0 <= i < |s| ==> IsDigit(s[i])
  }

  /** Reference meaning of a digit string, most significant digit first. */
  function DigitsValue(ds: string): nat
    requires AllDigits(ds)
    decreases |ds|
  {
    if |ds| == 0 then 0
    else 10 * DigitsValue(ds[..|ds| - 1]) + DigitValue(ds[|ds| - 1])
  }

  /** The digits of a literal: everything after an optional leading sign. */
  function Unsigned(s: string): string
  {
    if |s| > 0 && (s[0] == '+' || s[0] == '-') then s[1..] else s
  }

  /** Reference: the texts that denote an integer. */
  predicate IsIntLiteral(s: string)
  {
    |Unsigned(s)| > 0 && AllDigits(Unsigned(s))
  }

  /** Reference: the integer such a text denotes. */
  function LiteralValue(s: string): int
    requires IsIntLiteral(s)
  {
    var v: int := DigitsValue(Unsigned(s));
    if s[0] == '-' then -v else v
  }

  /** The digit loop of `from_str`: left to right, `acc * 10 + digit`, stopping
      with an error at the first char that is not a digit. */
  function Accumulate(ds: string, acc: nat): Option<nat>
    decreases |ds|
  {
    if |ds| == 0 then Some(acc)
    else if !IsDigit(ds[0]) then None
    else Accumulate(ds[1..], 10 * acc + DigitValue(ds[0]))
  }

  /** Accumulating `ds` onto the value of `pre` is the value of `pre + ds`. */
  lemma {:induction false} AccumulateValue(pre: string, ds: string)
    requires AllDigits(pre)
    ensures AllDigits(ds) ==> Accumulate(ds, DigitsValue(pre)) == Some(DigitsValue(pre + ds))
    ensures !AllDigits(ds) ==> Accumulate(ds, DigitsValue(pre)) == None
    decreases |ds|
  {
    if |ds| == 0 {
      assert pre + ds == pre;
    } else if !IsDigit(ds[0]) {
    } else {
      var pre' := pre + [ds[0]];
      assert pre'[..|pre'| - 1] == pre;
      assert DigitsValue(pre') == 10 * DigitsValue(pre) + DigitValue(ds[0]);
      AccumulateValue(pre', ds[1..]);
      assert pre' + ds[1..] == pre + ds;
      assert AllDigits(ds) <==> AllDigits(ds[1..]) by {
        if AllDigits(ds[1..]) {
          forall i | 0 <= i < |ds| ensures IsDigit(ds[i]) {
            if i > 0 { assert ds[i] == ds[1..][i - 1]; }
          }
        }
      }
    }
  }

  /** `str::parse::<i64>` without the range check: the sign is read first,
      a lone sign and the empty text are errors, then the digit loop runs. */
  function ParseInt(s: string): (r: Option<int>)
    ensures r.Some? <==> IsIntLiteral(s)
    ensures r.Some? ==> r.value == LiteralValue(s)
  {
    AccumulateValue("", Unsigned(s));
    assert "" + Unsigned(s) == Unsigned(s);
    if |s| == 0 then None
    else if (s[0] == '+' || s[0] == '-') && |s| == 1 then None
    else if s[0] == '+' || s[0] == '-' then
      match Accumulate(s[1..], 0)
      case None => None
      case Some(n) =>
        var v: int := n;
        Some(if s[0] == '-' then -v else v)
    else
      match Accumulate(s, 0)
      case None => None
      case Some(n) => Some(n)
  }

  /** `str::parse::<i64>`: values that do not fit in 64 bits are errors. */
  function ParseI64(s: string): (r: Option<int>)
    ensures r.Some? ==> I64Min <= r.value <= I64Max && ParseInt(s) == r
    ensures ParseInt(s).Some? && I64Min <= ParseInt(s).value <= I64Max ==> r == ParseInt(s)
  {
    match ParseInt(s)
    case Some(x) => if I64Min <= x <= I64Max then Some(x) else None
    case None => None
  }

  /** The `(lo..=hi).contains(&x)` test applied to a parse result, with a
      parse error reading as false (`unwrap_or(false)`). */
  predicate ParsesInRange(s: string, lo: int, hi: int)
  {
    match ParseI64(s)
    case Some(x) => lo <= x <= hi
    case None => false
  }

  /** For ranges inside `i64`, the 64-bit limit makes no difference. */
  lemma InRangeIgnoresWidth(s: string, lo: int, hi: int)
    requires I64Min <= lo && hi <= I64Max
    ensures ParsesInRange(s, lo, hi) <==> IsIntLiteral(s) && lo <= LiteralValue(s) <= hi
  {
  }

  function DigitChar(d: nat): (c: char)
    requires d < 10
    ensures IsDigit(c) && DigitValue(c) == d
  {
    ('0' as int + d) as char
  }

  /** Decimal rendering of a natural number, as Rust's `Display` prints it. */
  function NatToString(n: nat): (s: string)
    ensures |s| > 0 && AllDigits(s)
    ensures DigitsValue(s) == n
    ensures n > 0 ==> s[0] != '0'
    decreases n
  {
    if n < 10 then [DigitChar(n)]
    else
      var init := NatToString(n / 10);
      var s := init + [DigitChar(n % 10)];
      assert s[..|s| - 1] == init;
      s
  }

  /** Parsing a rendered number gives it back, with or without an explicit
      sign. */
  lemma ParseRendered(n: nat)
    ensures ParseInt(NatToString(n)) == Some(n)
    ensures ParseInt("+" + NatToString(n)) == Some(n)
    ensures ParseInt("-" + NatToString(n)) == Some(-(n as int))
  {
    var s := NatToString(n);
    assert s[0] != '+' && s[0] != '-';
    assert Unsigned("+" + s) == s;
    assert Unsigned("-" + s) == s;
  }

  /** Leading zeros do not change the value (`"02002"` parses as 2002). */
  lemma {:induction false} LeadingZero(ds: string)
    requires AllDigits(ds)
    ensures AllDigits("0" + ds) && DigitsValue("0" + ds) == DigitsValue(ds)
    decreases |ds|
  {
    var z := "0" + ds;
    if |ds| > 0 {
      var init := ds[..|ds| - 1];
      LeadingZero(init);
      assert z[..|z| - 1] == "0" + init;
    }
  }

  /** One more digit at the end: ten times the value, plus the digit. */
  lemma DigitsSnoc(init: string, d: char)
    requires AllDigits(init) && IsDigit(d)
    ensures AllDigits(init + [d]) && DigitsValue(init + [d]) == 10 * DigitsValue(init) + DigitValue(d)
  {
    assert (init + [d])[..|init|] == init;
  }

  /** A digit string without a sign is a literal of its digits' value. */
  lemma DigitsLiteral(s: string)
    requires |s| > 0 && AllDigits(s)
    ensures IsIntLiteral(s) && LiteralValue(s) == DigitsValue(s)
  {
    assert Unsigned(s) == s;
  }

  lemma TwoDigits(a: char, b: char)
    requires IsDigit(a) && IsDigit(b)
    ensures IsIntLiteral([a, b]) && LiteralValue([a, b]) == 10 * DigitValue(a) + DigitValue(b)
  {
    DigitsSnoc([], a);
    assert [] + [a] == [a];
    DigitsSnoc([a], b);
    assert [a] + [b] == [a, b];
    DigitsLiteral([a, b]);
  }

  lemma ThreeDigits(a: char, b: char, c: char)
    requires IsDigit(a) && IsDigit(b) && IsDigit(c)
    ensures IsIntLiteral([a, b, c])
    ensures LiteralValue([a, b, c]) == 100 * DigitValue(a) + 10 * DigitValue(b) + DigitValue(c)
  {
    TwoDigits(a, b);
    DigitsSnoc([a, b], c);
    assert [a, b] + [c] == [a, b, c];
    DigitsLiteral([a, b, c]);
  }

  lemma FourDigits(a: char, b: char, c: char, d: char)
    requires IsDigit(a) && IsDigit(b) && IsDigit(c) && IsDigit(d)
    ensures IsIntLiteral([a, b, c, d])
    ensures LiteralValue([a, b, c, d]) ==
      1000 * DigitValue(a) + 100 * DigitValue(b) + 10 * DigitValue(c) + DigitValue(d)
  {
    ThreeDigits(a, b, c);
    DigitsSnoc([a, b, c], d);
    assert [a, b, c] + [d] == [a, b, c, d];
    DigitsLiteral([a, b, c, d]);
  }
}
