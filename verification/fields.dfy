/** The per-token rules of `validate` and the height rule `valid_height`. */
module Fields {
  import opened Outcomes
  import opened RustStr
  import opened IntParse
  import opened Pattern

  /** The keys a valid passport must carry; their number is the target count. */
  const RequiredFields: seq<string> := ["ecl", "pid", "eyr", "hcl", "byr", "iyr", "hgt"]

  const EyeColors: seq<string> := ["amb", "blu", "brn", "gry", "grn", "hzl", "oth"]

  /** The kinds of check a key can select. */
  datatype Rule =
    | Year(lo: int, hi: int)     // integer in `lo..=hi`
    | Matches(pattern: Pattern)  // anchored regular expression
    | OneOf(choices: seq<string>)
    | Height                     // `valid_height`
    | Reject                     // `cid` and every unknown key

  /** The match arms of the filter closure, keyed by the text before the colon. */
  function RuleFor(key: string): Rule
  {
    if key == "byr" then Year(1920, 2002)
    else if key == "iyr" then Year(2010, 2020)
    else if key == "eyr" then Year(2020, 2030)
    else if key == "hcl" then Matches(HairColorPattern)
    else if key == "pid" then Matches(PassportIdPattern)
    else if key == "ecl" then OneOf(EyeColors)
    else if key == "hgt" then Height
    else Reject
  }

  lemma RuleForRequired(key: string)
    ensures RuleFor(key) != Reject <==> key in RequiredFields
  {
  }

  /** `valid_height`: the last two chars are the unit, the rest the number.
      `height.len() - 2` underflows on a value shorter than two chars, and the
      program panics there. */
  function ValidHeight(height: string): (r: Outcome<bool>)
    ensures r == Panic <==> |height| < 2
    ensures r == Done(true) ==> height[|height| - 2..] in ["cm", "in"]
  {
    if |height| < 2 then Panic
    else
      var number, unit := height[..|height| - 2], height[|height| - 2..];
      if unit == "in" then Done(ParsesInRange(number, 59, 76))
      else if unit == "cm" then Done(ParsesInRange(number, 150, 193))
      else Done(false)
  }

  function CheckValue(rule: Rule, value: string): Outcome<bool>
  {
    match rule
    case Year(lo, hi) => Done(ParsesInRange(value, lo, hi))
    case Matches(p) => Done(FullMatch(p, value))
    case OneOf(choices) => Done(value in choices)
    case Height => ValidHeight(value)
    case Reject => Done(false)
  }

  /** The key of a token: the text before its first colon, or all of it. */
  function Key(token: string): string
  {
    SplitOnce(token, ':').0
  }

  /** A token built from a colon-free key and any value splits back into
      exactly that key and value. */
  lemma SplitToken(key: string, value: string)
    requires ':' !in key
    ensures SplitOnce(key + ":" + value, ':') == (key, Some(value))
    decreases |key|
  {
    var t := key + ":" + value;
    if |key| > 0 {
      assert t[1..] == key[1..] + ":" + value;
      SplitToken(key[1..], value);
      assert [key[0]] + key[1..] == key;
    } else {
      assert t[1..] == value;
    }
  }

  lemma HeightTokenSplits(token: string)
    ensures 4 <= |token| && token[..4] == "hgt:" ==> SplitOnce(token, ':') == ("hgt", Some(token[4..]))
  {
    if 4 <= |token| && token[..4] == "hgt:" {
      var v := token[4..];
      assert token == "hgt" + ":" + v by {
        assert token == token[..4] + v;
        assert "hgt:" == "hgt" + ":";
      }
      SplitToken("hgt", v);
    }
  }

  /** The filter closure of `validate`: split the token at its first colon
      and apply the rule of its key; a token with no colon never passes. A
      passing token starts with a required key and a colon; the only tokens
      that panic are `hgt:` followed by at most one char. */
  function CheckToken(token: string): (r: Outcome<bool>)
    ensures r == Done(true) ==> |token| >= 4 && token[3] == ':' && token[..3] in RequiredFields
    ensures r == Panic <==> 4 <= |token| <= 5 && token[..4] == "hgt:"
  {
    HeightTokenSplits(token);
    match SplitOnce(token, ':')
    case (_, None) => Done(false)
    case (key, Some(value)) =>
      assert token == key + ":" + value;
      assert key in RequiredFields ==> |key| == 3 && token[..3] == key;
      RuleForRequired(key);
      CheckValue(RuleFor(key), value)
  }

  /** A token with a colon-free key is judged by that key's rule. */
  lemma CheckKeyValue(key: string, value: string)
    requires ':' !in key
    ensures CheckToken(key + ":" + value) == CheckValue(RuleFor(key), value)
  {
    SplitToken(key, value);
  }

  /** `byr`, `iyr` and `eyr` pass exactly when the value is an integer
      literal in the key's range; a value that does not parse fails and does
      not panic. */
  lemma BirthYearToken(v: string)
    ensures CheckToken("byr:" + v) == Done(IsIntLiteral(v) && 1920 <= LiteralValue(v) <= 2002)
  {
    assert "byr" + ":" + v == "byr:" + v;
    YearToken("byr", 1920, 2002, v);
  }

  lemma IssueYearToken(v: string)
    ensures CheckToken("iyr:" + v) == Done(IsIntLiteral(v) && 2010 <= LiteralValue(v) <= 2020)
  {
    assert "iyr" + ":" + v == "iyr:" + v;
    YearToken("iyr", 2010, 2020, v);
  }

  lemma ExpirationYearToken(v: string)
    ensures CheckToken("eyr:" + v) == Done(IsIntLiteral(v) && 2020 <= LiteralValue(v) <= 2030)
  {
    assert "eyr" + ":" + v == "eyr:" + v;
    YearToken("eyr", 2020, 2030, v);
  }

  lemma YearToken(key: string, lo: int, hi: int, v: string)
    requires ':' !in key && RuleFor(key) == Year(lo, hi)
    ensures CheckToken(key + ":" + v) == Done(IsIntLiteral(v) && lo <= LiteralValue(v) <= hi)
  {
    CheckKeyValue(key, v);
    InRangeIgnoresWidth(v, lo, hi);
  }

  /** `from_str` accepts leading zeros, so a zero-padded year is judged by
      its value alone: `byr:02002` passes like `byr:2002`. */
  lemma PaddedYearToken(key: string, lo: int, hi: int, ds: string)
    requires ':' !in key && RuleFor(key) == Year(lo, hi)
    requires |ds| > 0 && AllDigits(ds)
    ensures CheckToken(key + ":" + ("0" + ds)) == CheckToken(key + ":" + ds)
  {
    LeadingZero(ds);
    DigitsLiteral(ds);
    DigitsLiteral("0" + ds);
    YearToken(key, lo, hi, ds);
    YearToken(key, lo, hi, "0" + ds);
  }

  lemma PaddedBirthYear()
    ensures CheckToken("byr:02002") == Done(true)
  {
    assert "byr:02002" == "byr:" + ("0" + "2002");
    FourDigits('2', '0', '0', '2');
    DigitsLiteral("2002");
    LeadingZero("2002");
    DigitsLiteral("0" + "2002");
    BirthYearToken("0" + "2002");
  }

  /** `hcl` passes exactly for `#` and six lower-case hex digits. */
  lemma HairColorToken(v: string)
    ensures CheckToken("hcl:" + v) == Done(IsHairColor(v))
  {
    assert "hcl" + ":" + v == "hcl:" + v;
    MatchesToken("hcl", HairColorPattern, v);
    HairColorMatch(v);
  }

  /** `pid` passes exactly for nine decimal digits. */
  lemma PassportIdToken(v: string)
    ensures CheckToken("pid:" + v) == Done(IsPassportId(v))
  {
    assert "pid" + ":" + v == "pid:" + v;
    MatchesToken("pid", PassportIdPattern, v);
    PassportIdMatch(v);
  }

  lemma MatchesToken(key: string, p: Pattern, v: string)
    requires ':' !in key && RuleFor(key) == Matches(p)
    ensures CheckToken(key + ":" + v) == Done(FullMatch(p, v))
  {
    CheckKeyValue(key, v);
  }

  /** `ecl` passes exactly for the seven listed colours. */
  lemma EyeColorToken(v: string)
    ensures CheckToken("ecl:" + v) == Done(v in EyeColors)
  {
    assert "ecl" + ":" + v == "ecl:" + v;
    CheckKeyValue("ecl", v);
    assert RuleFor("ecl") == OneOf(EyeColors);
  }

  lemma HeightRule()
    ensures RuleFor("hgt") == Height
  {
  }

  /** `hgt` defers to `valid_height`, panic included. */
  lemma HeightToken(v: string)
    ensures CheckToken("hgt:" + v) == ValidHeight(v)
  {
    assert "hgt" + ":" + v == "hgt:" + v;
    CheckKeyValue("hgt", v);
    HeightRule();
  }

  /** Keys outside the required list, `cid` among them, never pass and
      never panic. */
  lemma UnknownKeyToken(key: string, v: string)
    requires ':' !in key && key !in RequiredFields
    ensures CheckToken(key + ":" + v) == Done(false)
  {
    CheckKeyValue(key, v);
    RuleForRequired(key);
  }

  lemma CidToken(v: string)
    ensures CheckToken("cid:" + v) == Done(false)
  {
    assert "cid" + ":" + v == "cid:" + v;
    UnknownKeyToken("cid", v);
  }

  /** A token without a colon never passes and never panics. */
  lemma BareToken(bare: string)
    requires ':' !in bare
    ensures CheckToken(bare) == Done(false)
  {
  }

  /** For a value of at least two chars, the verdict in terms of the unit
      suffix and the literal before it. */
  lemma ValidHeightMeaning(height: string)
    requires |height| >= 2
    ensures var number, unit := height[..|height| - 2], height[|height| - 2..];
      ValidHeight(height) == Done(
        || (unit == "cm" && IsIntLiteral(number) && 150 <= LiteralValue(number) <= 193)
        || (unit == "in" && IsIntLiteral(number) && 59 <= LiteralValue(number) <= 76))
  {
    var number := height[..|height| - 2];
    InRangeIgnoresWidth(number, 150, 193);
    InRangeIgnoresWidth(number, 59, 76);
  }

  /** A rendered number with a unit is judged by the number alone. */
  lemma HeightRendered(n: nat)
    ensures ValidHeight(NatToString(n) + "cm") == Done(150 <= n <= 193)
    ensures ValidHeight(NatToString(n) + "in") == Done(59 <= n <= 76)
  {
    var s := NatToString(n);
    ParseRendered(n);
    ValidHeightMeaning(s + "cm");
    ValidHeightMeaning(s + "in");
    assert (s + "cm")[..|s|] == s && (s + "cm")[|s|..] == "cm";
    assert (s + "in")[..|s|] == s && (s + "in")[|s|..] == "in";
  }

  /** A height written as a number and a unit. */
  lemma HeightValue(h: string, number: string, unit: string, n: int)
    requires h == number + unit && (unit == "cm" || unit == "in")
    requires IsIntLiteral(number) && LiteralValue(number) == n
    ensures ValidHeight(h) == Done(if unit == "cm" then 150 <= n <= 193 else 59 <= n <= 76)
  {
    ValidHeightMeaning(h);
    assert h[..|h| - 2] == number;
    assert h[|h| - 2..] == unit;
  }

  /** The boundary cases of the height rule: 150 and 193 are the first and
      last valid centimetre values, 59 and 76 the first and last inch values. */
  lemma HeightBoundsCmLow()
    ensures ValidHeight("150cm") == Done(true)
    ensures ValidHeight("149cm") == Done(false)
  {
    ThreeDigits('1', '5', '0');
    HeightValue("150cm", "150", "cm", 150);
    ThreeDigits('1', '4', '9');
    HeightValue("149cm", "149", "cm", 149);
  }

  lemma HeightBoundsCmHigh()
    ensures ValidHeight("193cm") == Done(true)
    ensures ValidHeight("194cm") == Done(false)
  {
    ThreeDigits('1', '9', '3');
    HeightValue("193cm", "193", "cm", 193);
    ThreeDigits('1', '9', '4');
    HeightValue("194cm", "194", "cm", 194);
  }

  lemma HeightBoundsInLow()
    ensures ValidHeight("59in") == Done(true)
    ensures ValidHeight("58in") == Done(false)
  {
    TwoDigits('5', '9');
    HeightValue("59in", "59", "in", 59);
    TwoDigits('5', '8');
    HeightValue("58in", "58", "in", 58);
  }

  lemma HeightBoundsInHigh()
    ensures ValidHeight("76in") == Done(true)
    ensures ValidHeight("77in") == Done(false)
  {
    TwoDigits('7', '6');
    HeightValue("76in", "76", "in", 76);
    TwoDigits('7', '7');
    HeightValue("77in", "77", "in", 77);
  }

  /** A height value shorter than two chars crashes the program, whereas a
      bare `hgt` with no colon is simply not counted. */
  lemma ShortHeightPanics()
    ensures CheckToken("hgt:") == Panic
    ensures CheckToken("hgt:5") == Panic
    ensures CheckToken("hgt") == Done(false)
  {
    HeightToken("");
    HeightToken("5");
    BareToken("hgt");
  }
}
