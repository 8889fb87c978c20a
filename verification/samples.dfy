/** The inputs of the program's own unit tests, checked against the model:
    the verdict on each sample record, derived from its tokens, and the
    counts of the two sample batches. */
module Samples {
  import opened Outcomes
  import opened RustStr
  import opened IntParse
  import opened Pattern
  import opened Counting
  import opened Fields
  import opened Passport
  import opened PassportFacts

  // ---------------------------------------------------------------------
  // Building a record one token at a time

  /** A token that can stand alone: non-empty, with no space or newline. */
  predicate Plain(t: string)
  {
    |t| > 0 && BlankFree(t)
  }

  /** A separator between two tokens of one record. */
  predicate Separator(s: string)
  {
    s == " " || s == "\n"
  }

  lemma TokensAfter(record: string, sep: char, t: string)
    requires sep == ' ' || sep == '\n'
    requires BlankFree(t)
    ensures Tokens(record + [sep] + t) == Tokens(record) + [t]
  {
    ReplaceCharAppend(record + [sep], t, '\n', ' ');
    ReplaceCharAppend(record, [sep], '\n', ' ');
    ReplaceCharAppend(record + " ", t, '\n', ' ');
    ReplaceCharAppend(record, " ", '\n', ' ');
    assert ReplaceChar([sep], '\n', ' ') == " " == ReplaceChar(" ", '\n', ' ');
    TokensAppend(record, t);
  }

  /** A record of one token. */
  lemma FirstPiece(t: string)
    requires Plain(t)
    ensures LoneNewlines(t) && Tokens(t) == [t]
  {
    NoNewlineIsLone(t);
    TokensOfToken(t);
  }

  /** One more token after a space or a newline is one more element. */
  lemma NextPiece(record: string, sep: string, t: string)
    requires Separator(sep) && Plain(t) && LoneNewlines(record)
    ensures LoneNewlines(record + sep + t)
    ensures Tokens(record + sep + t) == Tokens(record) + [t]
  {
    LoneNewlinesAfter(record, sep, t);
    TokensAfter(record, sep[0], t);
    assert [sep[0]] == sep;
  }

  lemma TokensOf2(t1: string, s1: string, t2: string)
    requires Plain(t1) && Plain(t2)
    requires Separator(s1)
    ensures LoneNewlines(t1 + s1 + t2)
    ensures Tokens(t1 + s1 + t2) == [t1, t2]
  {
    assert [t1] + [t2] == [t1, t2];
    FirstPiece(t1);
    NextPiece(t1, s1, t2);
  }

  lemma TokensOf3(t1: string, s1: string, t2: string, s2: string, t3: string)
    requires Plain(t1) && Plain(t2) && Plain(t3)
    requires Separator(s1) && Separator(s2)
    ensures LoneNewlines(t1 + s1 + t2 + s2 + t3)
    ensures Tokens(t1 + s1 + t2 + s2 + t3) == [t1, t2, t3]
  {
    assert [t1, t2] + [t3] == [t1, t2, t3];
    TokensOf2(t1, s1, t2);
    NextPiece(t1 + s1 + t2, s2, t3);
  }

  lemma TokensOf4(t1: string, s1: string, t2: string, s2: string, t3: string, s3: string, t4: string)
    requires Plain(t1) && Plain(t2) && Plain(t3) && Plain(t4)
    requires Separator(s1) && Separator(s2) && Separator(s3)
    ensures LoneNewlines(t1 + s1 + t2 + s2 + t3 + s3 + t4)
    ensures Tokens(t1 + s1 + t2 + s2 + t3 + s3 + t4) == [t1, t2, t3, t4]
  {
    assert [t1, t2, t3] + [t4] == [t1, t2, t3, t4];
    TokensOf3(t1, s1, t2, s2, t3);
    NextPiece(t1 + s1 + t2 + s2 + t3, s3, t4);
  }

  lemma TokensOf5(t1: string, s1: string, t2: string, s2: string, t3: string, s3: string, t4: string, s4: string, t5: string)
    requires Plain(t1) && Plain(t2) && Plain(t3) && Plain(t4) && Plain(t5)
    requires Separator(s1) && Separator(s2) && Separator(s3) && Separator(s4)
    ensures LoneNewlines(t1 + s1 + t2 + s2 + t3 + s3 + t4 + s4 + t5)
    ensures Tokens(t1 + s1 + t2 + s2 + t3 + s3 + t4 + s4 + t5) == [t1, t2, t3, t4, t5]
  {
    assert [t1, t2, t3, t4] + [t5] == [t1, t2, t3, t4, t5];
    TokensOf4(t1, s1, t2, s2, t3, s3, t4);
    NextPiece(t1 + s1 + t2 + s2 + t3 + s3 + t4, s4, t5);
  }

  lemma TokensOf6(t1: string, s1: string, t2: string, s2: string, t3: string, s3: string, t4: string, s4: string, t5: string, s5: string, t6: string)
    requires Plain(t1) && Plain(t2) && Plain(t3) && Plain(t4) && Plain(t5) && Plain(t6)
    requires Separator(s1) && Separator(s2) && Separator(s3) && Separator(s4) && Separator(s5)
    ensures LoneNewlines(t1 + s1 + t2 + s2 + t3 + s3 + t4 + s4 + t5 + s5 + t6)
    ensures Tokens(t1 + s1 + t2 + s2 + t3 + s3 + t4 + s4 + t5 + s5 + t6) == [t1, t2, t3, t4, t5, t6]
  {
    assert [t1, t2, t3, t4, t5] + [t6] == [t1, t2, t3, t4, t5, t6];
    TokensOf5(t1, s1, t2, s2, t3, s3, t4, s4, t5);
    NextPiece(t1 + s1 + t2 + s2 + t3 + s3 + t4 + s4 + t5, s5, t6);
  }

  lemma TokensOf7(t1: string, s1: string, t2: string, s2: string, t3: string, s3: string, t4: string, s4: string, t5: string, s5: string, t6: string, s6: string, t7: string)
    requires Plain(t1) && Plain(t2) && Plain(t3) && Plain(t4) && Plain(t5) && Plain(t6) && Plain(t7)
    requires Separator(s1) && Separator(s2) && Separator(s3) && Separator(s4) && Separator(s5) && Separator(s6)
    ensures LoneNewlines(t1 + s1 + t2 + s2 + t3 + s3 + t4 + s4 + t5 + s5 + t6 + s6 + t7)
    ensures Tokens(t1 + s1 + t2 + s2 + t3 + s3 + t4 + s4 + t5 + s5 + t6 + s6 + t7) == [t1, t2, t3, t4, t5, t6, t7]
  {
    assert [t1, t2, t3, t4, t5, t6] + [t7] == [t1, t2, t3, t4, t5, t6, t7];
    TokensOf6(t1, s1, t2, s2, t3, s3, t4, s4, t5, s5, t6);
    NextPiece(t1 + s1 + t2 + s2 + t3 + s3 + t4 + s4 + t5 + s5 + t6, s6, t7);
  }

  lemma TokensOf8(t1: string, s1: string, t2: string, s2: string, t3: string, s3: string, t4: string, s4: string, t5: string, s5: string, t6: string, s6: string, t7: string, s7: string, t8: string)
    requires Plain(t1) && Plain(t2) && Plain(t3) && Plain(t4) && Plain(t5) && Plain(t6) && Plain(t7) && Plain(t8)
    requires Separator(s1) && Separator(s2) && Separator(s3) && Separator(s4) && Separator(s5) && Separator(s6) && Separator(s7)
    ensures LoneNewlines(t1 + s1 + t2 + s2 + t3 + s3 + t4 + s4 + t5 + s5 + t6 + s6 + t7 + s7 + t8)
    ensures Tokens(t1 + s1 + t2 + s2 + t3 + s3 + t4 + s4 + t5 + s5 + t6 + s6 + t7 + s7 + t8) == [t1, t2, t3, t4, t5, t6, t7, t8]
  {
    assert [t1, t2, t3, t4, t5, t6, t7] + [t8] == [t1, t2, t3, t4, t5, t6, t7, t8];
    TokensOf7(t1, s1, t2, s2, t3, s3, t4, s4, t5, s5, t6, s6, t7);
    NextPiece(t1 + s1 + t2 + s2 + t3 + s3 + t4 + s4 + t5 + s5 + t6 + s6 + t7, s7, t8);
  }

  /** Counting from position `j` on adds the verdict at `j` to the count
      after it. */
  lemma CountFrom<T>(xs: seq<T>, j: nat, p: T -> Outcome<bool>, k: bool, n: nat)
    requires j < |xs| && p(xs[j]) == Done(k) && CountWhere(xs[j + 1..], p) == Done(n)
    ensures CountWhere(xs[j..], p) == Done(Indicator(k) + n)
  {
    var ys := xs[j..];
    assert ys[0] == xs[j];
    assert ys[1..] == xs[j + 1..];
    AddCountsDone(Indicator(k), n);
    assert CountWhere(ys, p) == AddCounts(Done(Indicator(k)), CountWhere(ys[1..], p));
  }

  /** The verdict on a record whose tokens are known. */
  lemma KnownTokens(record: string, ts: seq<string>, n: nat)
    requires Tokens(record) == ts && CountWhere(ts, CheckToken) == Done(n)
    ensures Validate(record) == Done(n == 7)
  {
  }

  lemma RecordsOf2(r1: string, r2: string)
    requires LoneNewlines(r1) && LoneNewlines(r2)
    ensures Records(r1 + "\n\n" + r2) == [r1, r2]
  {
    assert [r1] + [r2] == [r1, r2];
    SingleRecord(r2);
    SplitAtBlankLine(r1, r2);
  }

  lemma RecordsOf3(r1: string, r2: string, r3: string)
    requires LoneNewlines(r1) && LoneNewlines(r2) && LoneNewlines(r3)
    ensures Records(r1 + "\n\n" + (r2 + "\n\n" + r3)) == [r1, r2, r3]
  {
    assert [r1] + [r2, r3] == [r1, r2, r3];
    RecordsOf2(r2, r3);
    SplitAtBlankLine(r1, r2 + "\n\n" + r3);
  }

  lemma RecordsOf4(r1: string, r2: string, r3: string, r4: string)
    requires LoneNewlines(r1) && LoneNewlines(r2) && LoneNewlines(r3) && LoneNewlines(r4)
    ensures Records(r1 + "\n\n" + (r2 + "\n\n" + (r3 + "\n\n" + r4))) == [r1, r2, r3, r4]
  {
    assert [r1] + [r2, r3, r4] == [r1, r2, r3, r4];
    RecordsOf3(r2, r3, r4);
    SplitAtBlankLine(r1, r2 + "\n\n" + (r3 + "\n\n" + r4));
  }

  lemma RecordsOf5(r1: string, r2: string, r3: string, r4: string, r5: string)
    requires LoneNewlines(r1) && LoneNewlines(r2) && LoneNewlines(r3) && LoneNewlines(r4) && LoneNewlines(r5)
    ensures Records(r1 + "\n\n" + (r2 + "\n\n" + (r3 + "\n\n" + (r4 + "\n\n" + r5)))) == [r1, r2, r3, r4, r5]
  {
    assert [r1] + [r2, r3, r4, r5] == [r1, r2, r3, r4, r5];
    RecordsOf4(r2, r3, r4, r5);
    SplitAtBlankLine(r1, r2 + "\n\n" + (r3 + "\n\n" + (r4 + "\n\n" + r5)));
  }

  lemma RecordsOf6(r1: string, r2: string, r3: string, r4: string, r5: string, r6: string)
    requires LoneNewlines(r1) && LoneNewlines(r2) && LoneNewlines(r3) && LoneNewlines(r4) && LoneNewlines(r5) && LoneNewlines(r6)
    ensures Records(r1 + "\n\n" + (r2 + "\n\n" + (r3 + "\n\n" + (r4 + "\n\n" + (r5 + "\n\n" + r6))))) == [r1, r2, r3, r4, r5, r6]
  {
    assert [r1] + [r2, r3, r4, r5, r6] == [r1, r2, r3, r4, r5, r6];
    RecordsOf5(r2, r3, r4, r5, r6);
    SplitAtBlankLine(r1, r2 + "\n\n" + (r3 + "\n\n" + (r4 + "\n\n" + (r5 + "\n\n" + r6))));
  }

  lemma RecordsOf7(r1: string, r2: string, r3: string, r4: string, r5: string, r6: string, r7: string)
    requires LoneNewlines(r1) && LoneNewlines(r2) && LoneNewlines(r3) && LoneNewlines(r4) && LoneNewlines(r5) && LoneNewlines(r6) && LoneNewlines(r7)
    ensures Records(r1 + "\n\n" + (r2 + "\n\n" + (r3 + "\n\n" + (r4 + "\n\n" + (r5 + "\n\n" + (r6 + "\n\n" + r7)))))) == [r1, r2, r3, r4, r5, r6, r7]
  {
    assert [r1] + [r2, r3, r4, r5, r6, r7] == [r1, r2, r3, r4, r5, r6, r7];
    RecordsOf6(r2, r3, r4, r5, r6, r7);
    SplitAtBlankLine(r1, r2 + "\n\n" + (r3 + "\n\n" + (r4 + "\n\n" + (r5 + "\n\n" + (r6 + "\n\n" + r7)))));
  }

  lemma RecordsOf8(r1: string, r2: string, r3: string, r4: string, r5: string, r6: string, r7: string, r8: string)
    requires LoneNewlines(r1) && LoneNewlines(r2) && LoneNewlines(r3) && LoneNewlines(r4) && LoneNewlines(r5) && LoneNewlines(r6) && LoneNewlines(r7) && LoneNewlines(r8)
    ensures Records(r1 + "\n\n" + (r2 + "\n\n" + (r3 + "\n\n" + (r4 + "\n\n" + (r5 + "\n\n" + (r6 + "\n\n" + (r7 + "\n\n" + r8))))))) == [r1, r2, r3, r4, r5, r6, r7, r8]
  {
    assert [r1] + [r2, r3, r4, r5, r6, r7, r8] == [r1, r2, r3, r4, r5, r6, r7, r8];
    RecordsOf7(r2, r3, r4, r5, r6, r7, r8);
    SplitAtBlankLine(r1, r2 + "\n\n" + (r3 + "\n\n" + (r4 + "\n\n" + (r5 + "\n\n" + (r6 + "\n\n" + (r7 + "\n\n" + r8))))));
  }

  // ---------------------------------------------------------------------
  // The sample records, written token by token

  /** The record of the unit test `valid_example`. */
  const ValidExample: string :=
    "ecl:gry" + " " + "pid:860033327" + " " + "eyr:2020" + " " + "hcl:#fffffd"
    + "\n" + "byr:1937" + " " + "iyr:2017" + " " + "cid:147" + " " + "hgt:183cm"

  /** The record of the unit test `missing_height`. */
  const MissingHeight: string :=
    "iyr:2013" + " " + "ecl:amb" + " " + "cid:350" + " " + "eyr:2023"
    + " " + "pid:028048884" + "\n" + "hcl:#cfa07d" + " " + "byr:1929"

  /** The record of the unit test `north_poll_id`. */
  const NorthPollId: string :=
    "hcl:#ae17e1" + " " + "iyr:2013" + "\n" + "eyr:2024" + "\n" + "ecl:brn"
    + " " + "pid:760753108" + " " + "byr:1931" + "\n" + "hgt:179cm"

  /** The record of the unit test `missing_cid_and_byr`. */
  const MissingCidAndByr: string :=
    "hcl:#cfa07d" + " " + "eyr:2025" + " " + "pid:166559648" + "\n" + "iyr:2011"
    + " " + "ecl:brn" + " " + "hgt:59in"

  /** The record of the unit test `assorted_invalid_1`. */
  const AssortedInvalid1: string :=
    "eyr:1972" + " " + "cid:100" + "\n" + "hcl:#18171d" + " " + "ecl:amb"
    + " " + "hgt:170" + " " + "pid:186cm" + " " + "iyr:2018" + " " + "byr:1926"

  /** The record of the unit test `assorted_invalid_2`. */
  const AssortedInvalid2: string :=
    "iyr:2019" + "\n" + "hcl:#602927" + " " + "eyr:1967" + " " + "hgt:170cm"
    + "\n" + "ecl:grn" + " " + "pid:012533040" + " " + "byr:1946"

  /** The record of the unit test `assorted_invalid_3`. */
  const AssortedInvalid3: string :=
    "hcl:dab227" + " " + "iyr:2012" + "\n" + "ecl:brn" + " " + "hgt:182cm"
    + " " + "pid:021572410" + " " + "eyr:2020" + " " + "byr:1992" + " " + "cid:277"

  /** The record of the unit test `assorted_invalid_4`. */
  const AssortedInvalid4: string :=
    "hgt:59cm" + " " + "ecl:zzz" + "\n" + "eyr:2038" + " " + "hcl:74454a"
    + " " + "iyr:2023" + "\n" + "pid:3556412378" + " " + "byr:2007"

  /** The record of the unit test `assorted_valid_1`. */
  const AssortedValid1: string :=
    "pid:087499704" + " " + "hgt:74in" + " " + "ecl:grn" + " " + "iyr:2012"
    + " " + "eyr:2030" + " " + "byr:1980" + "\n" + "hcl:#623a2f"

  /** The record of the unit test `assorted_valid_2`. */
  const AssortedValid2: string :=
    "eyr:2029" + " " + "ecl:blu" + " " + "cid:129" + " " + "byr:1989" + "\n" + "iyr:2014"
    + " " + "pid:896056539" + " " + "hcl:#a97842" + " " + "hgt:165cm"

  /** The record of the unit test `assorted_valid_3`. */
  const AssortedValid3: string :=
    "hcl:#888785" + "\n" + "hgt:164cm" + " " + "byr:2001" + " " + "iyr:2015"
    + " " + "cid:88" + "\n" + "pid:545766238" + " " + "ecl:hzl" + "\n" + "eyr:2022"

  /** The record of the unit test `assorted_valid_4`. */
  const AssortedValid4: string :=
    "iyr:2010" + " " + "hgt:158cm" + " " + "hcl:#b6652a" + " " + "ecl:blu"
    + " " + "byr:1944" + " " + "eyr:2021" + " " + "pid:093154719"

  /** The input of the unit test `example_is_2`: the first four records,
      separated by blank lines. */
  const FirstSample: string :=
    ValidExample + "\n\n" + (MissingHeight + "\n\n" + (NorthPollId + "\n\n" + MissingCidAndByr))

  /** The input of the unit test `example_is_4`: the other eight records. */
  const SecondSample: string :=
    AssortedInvalid1 + "\n\n" + (AssortedInvalid2 + "\n\n" + (AssortedInvalid3 + "\n\n" + (AssortedInvalid4 + "\n\n" +
    (AssortedValid1 + "\n\n" + (AssortedValid2 + "\n\n" + (AssortedValid3 + "\n\n" + AssortedValid4))))))

  // ---------------------------------------------------------------------
  // Verdicts

  lemma ValidExampleTokens()
    ensures LoneNewlines(ValidExample) && Tokens(ValidExample) == ["ecl:gry", "pid:860033327", "eyr:2020", "hcl:#fffffd", "byr:1937", "iyr:2017", "cid:147", "hgt:183cm"]
  {
    EclGryToken();
    Pid860033327Token();
    Eyr2020Token();
    HclFffffdToken();
    Byr1937Token();
    Iyr2017Token();
    Cid147Token();
    Hgt183cmToken();
    TokensOf8("ecl:gry", " ", "pid:860033327", " ", "eyr:2020", " ", "hcl:#fffffd", "\n", "byr:1937", " ", "iyr:2017", " ", "cid:147", " ", "hgt:183cm");
  }

  /** Which tokens of `valid_example` pass, by position. */
  lemma ValidExampleTally<T>(x1: T, x2: T, x3: T, x4: T, x5: T, x6: T, x7: T, x8: T, p: T -> Outcome<bool>)
    requires p(x1) == Done(true) && p(x2) == Done(true) && p(x3) == Done(true) && p(x4) == Done(true)
    requires p(x5) == Done(true) && p(x6) == Done(true) && p(x7) == Done(false) && p(x8) == Done(true)
    ensures CountWhere([x1, x2, x3, x4, x5, x6, x7, x8], p) == Done(7)
  {
    var xs := [x1, x2, x3, x4, x5, x6, x7, x8];
    assert xs[8..] == [];
    CountFrom(xs, 7, p, true, 0);
    CountFrom(xs, 6, p, false, 1);
    CountFrom(xs, 5, p, true, 1);
    CountFrom(xs, 4, p, true, 2);
    CountFrom(xs, 3, p, true, 3);
    CountFrom(xs, 2, p, true, 4);
    CountFrom(xs, 1, p, true, 5);
    CountFrom(xs, 0, p, true, 6);
    assert xs[0..] == xs;
  }

  lemma ValidExampleCount()
    ensures CountWhere(["ecl:gry", "pid:860033327", "eyr:2020", "hcl:#fffffd", "byr:1937", "iyr:2017", "cid:147", "hgt:183cm"], CheckToken) == Done(7)
  {
    EclGryToken();
    Pid860033327Token();
    Eyr2020Token();
    HclFffffdToken();
    Byr1937Token();
    Iyr2017Token();
    Cid147Token();
    Hgt183cmToken();
    ValidExampleTally("ecl:gry", "pid:860033327", "eyr:2020", "hcl:#fffffd", "byr:1937", "iyr:2017", "cid:147", "hgt:183cm", CheckToken);
  }

  /** `valid_example`: 7 of its 8 tokens pass, so the record is valid. */
  lemma ValidExampleVerdict()
    ensures LoneNewlines(ValidExample) && Validate(ValidExample) == Done(true)
  {
    ValidExampleTokens();
    ValidExampleCount();
    KnownTokens(ValidExample, ["ecl:gry", "pid:860033327", "eyr:2020", "hcl:#fffffd", "byr:1937", "iyr:2017", "cid:147", "hgt:183cm"], 7);
  }

  lemma MissingHeightTokens()
    ensures LoneNewlines(MissingHeight) && Tokens(MissingHeight) == ["iyr:2013", "ecl:amb", "cid:350", "eyr:2023", "pid:028048884", "hcl:#cfa07d", "byr:1929"]
  {
    Iyr2013Token();
    EclAmbToken();
    Cid350Token();
    Eyr2023Token();
    Pid028048884Token();
    HclCfa07dToken();
    Byr1929Token();
    TokensOf7("iyr:2013", " ", "ecl:amb", " ", "cid:350", " ", "eyr:2023", " ", "pid:028048884", "\n", "hcl:#cfa07d", " ", "byr:1929");
  }

  /** Which tokens pass, by position, in `missing_height` and `assorted_invalid_2`. */
  lemma MissingHeightTally<T>(x1: T, x2: T, x3: T, x4: T, x5: T, x6: T, x7: T, p: T -> Outcome<bool>)
    requires p(x1) == Done(true) && p(x2) == Done(true) && p(x3) == Done(false) && p(x4) == Done(true)
    requires p(x5) == Done(true) && p(x6) == Done(true) && p(x7) == Done(true)
    ensures CountWhere([x1, x2, x3, x4, x5, x6, x7], p) == Done(6)
  {
    var xs := [x1, x2, x3, x4, x5, x6, x7];
    assert xs[7..] == [];
    CountFrom(xs, 6, p, true, 0);
    CountFrom(xs, 5, p, true, 1);
    CountFrom(xs, 4, p, true, 2);
    CountFrom(xs, 3, p, true, 3);
    CountFrom(xs, 2, p, false, 4);
    CountFrom(xs, 1, p, true, 4);
    CountFrom(xs, 0, p, true, 5);
    assert xs[0..] == xs;
  }

  lemma MissingHeightCount()
    ensures CountWhere(["iyr:2013", "ecl:amb", "cid:350", "eyr:2023", "pid:028048884", "hcl:#cfa07d", "byr:1929"], CheckToken) == Done(6)
  {
    Iyr2013Token();
    EclAmbToken();
    Cid350Token();
    Eyr2023Token();
    Pid028048884Token();
    HclCfa07dToken();
    Byr1929Token();
    MissingHeightTally("iyr:2013", "ecl:amb", "cid:350", "eyr:2023", "pid:028048884", "hcl:#cfa07d", "byr:1929", CheckToken);
  }

  /** `missing_height`: 6 of its 7 tokens pass, so the record is invalid. */
  lemma MissingHeightVerdict()
    ensures LoneNewlines(MissingHeight) && Validate(MissingHeight) == Done(false)
  {
    MissingHeightTokens();
    MissingHeightCount();
    KnownTokens(MissingHeight, ["iyr:2013", "ecl:amb", "cid:350", "eyr:2023", "pid:028048884", "hcl:#cfa07d", "byr:1929"], 6);
  }

  lemma NorthPollIdTokens()
    ensures LoneNewlines(NorthPollId) && Tokens(NorthPollId) == ["hcl:#ae17e1", "iyr:2013", "eyr:2024", "ecl:brn", "pid:760753108", "byr:1931", "hgt:179cm"]
  {
    HclAe17e1Token();
    Iyr2013Token();
    Eyr2024Token();
    EclBrnToken();
    Pid760753108Token();
    Byr1931Token();
    Hgt179cmToken();
    TokensOf7("hcl:#ae17e1", " ", "iyr:2013", "\n", "eyr:2024", "\n", "ecl:brn", " ", "pid:760753108", " ", "byr:1931", "\n", "hgt:179cm");
  }

  /** Which tokens pass, by position, in `north_poll_id`, `assorted_valid_1` and `assorted_valid_4`. */
  lemma NorthPollIdTally<T>(x1: T, x2: T, x3: T, x4: T, x5: T, x6: T, x7: T, p: T -> Outcome<bool>)
    requires p(x1) == Done(true) && p(x2) == Done(true) && p(x3) == Done(true) && p(x4) == Done(true)
    requires p(x5) == Done(true) && p(x6) == Done(true) && p(x7) == Done(true)
    ensures CountWhere([x1, x2, x3, x4, x5, x6, x7], p) == Done(7)
  {
    var xs := [x1, x2, x3, x4, x5, x6, x7];
    assert xs[7..] == [];
    CountFrom(xs, 6, p, true, 0);
    CountFrom(xs, 5, p, true, 1);
    CountFrom(xs, 4, p, true, 2);
    CountFrom(xs, 3, p, true, 3);
    CountFrom(xs, 2, p, true, 4);
    CountFrom(xs, 1, p, true, 5);
    CountFrom(xs, 0, p, true, 6);
    assert xs[0..] == xs;
  }

  lemma NorthPollIdCount()
    ensures CountWhere(["hcl:#ae17e1", "iyr:2013", "eyr:2024", "ecl:brn", "pid:760753108", "byr:1931", "hgt:179cm"], CheckToken) == Done(7)
  {
    HclAe17e1Token();
    Iyr2013Token();
    Eyr2024Token();
    EclBrnToken();
    Pid760753108Token();
    Byr1931Token();
    Hgt179cmToken();
    NorthPollIdTally("hcl:#ae17e1", "iyr:2013", "eyr:2024", "ecl:brn", "pid:760753108", "byr:1931", "hgt:179cm", CheckToken);
  }

  /** `north_poll_id`: 7 of its 7 tokens pass, so the record is valid. */
  lemma NorthPollIdVerdict()
    ensures LoneNewlines(NorthPollId) && Validate(NorthPollId) == Done(true)
  {
    NorthPollIdTokens();
    NorthPollIdCount();
    KnownTokens(NorthPollId, ["hcl:#ae17e1", "iyr:2013", "eyr:2024", "ecl:brn", "pid:760753108", "byr:1931", "hgt:179cm"], 7);
  }

  lemma MissingCidAndByrTokens()
    ensures LoneNewlines(MissingCidAndByr) && Tokens(MissingCidAndByr) == ["hcl:#cfa07d", "eyr:2025", "pid:166559648", "iyr:2011", "ecl:brn", "hgt:59in"]
  {
    HclCfa07dToken();
    Eyr2025Token();
    Pid166559648Token();
    Iyr2011Token();
    EclBrnToken();
    Hgt59inToken();
    TokensOf6("hcl:#cfa07d", " ", "eyr:2025", " ", "pid:166559648", "\n", "iyr:2011", " ", "ecl:brn", " ", "hgt:59in");
  }

  /** Which tokens pass, by position, in `missing_cid_and_byr` and `NoHeight`. */
  lemma MissingCidAndByrTally<T>(x1: T, x2: T, x3: T, x4: T, x5: T, x6: T, p: T -> Outcome<bool>)
    requires p(x1) == Done(true) && p(x2) == Done(true) && p(x3) == Done(true) && p(x4) == Done(true)
    requires p(x5) == Done(true) && p(x6) == Done(true)
    ensures CountWhere([x1, x2, x3, x4, x5, x6], p) == Done(6)
  {
    var xs := [x1, x2, x3, x4, x5, x6];
    assert xs[6..] == [];
    CountFrom(xs, 5, p, true, 0);
    CountFrom(xs, 4, p, true, 1);
    CountFrom(xs, 3, p, true, 2);
    CountFrom(xs, 2, p, true, 3);
    CountFrom(xs, 1, p, true, 4);
    CountFrom(xs, 0, p, true, 5);
    assert xs[0..] == xs;
  }

  lemma MissingCidAndByrCount()
    ensures CountWhere(["hcl:#cfa07d", "eyr:2025", "pid:166559648", "iyr:2011", "ecl:brn", "hgt:59in"], CheckToken) == Done(6)
  {
    HclCfa07dToken();
    Eyr2025Token();
    Pid166559648Token();
    Iyr2011Token();
    EclBrnToken();
    Hgt59inToken();
    MissingCidAndByrTally("hcl:#cfa07d", "eyr:2025", "pid:166559648", "iyr:2011", "ecl:brn", "hgt:59in", CheckToken);
  }

  /** `missing_cid_and_byr`: 6 of its 6 tokens pass, so the record is invalid. */
  lemma MissingCidAndByrVerdict()
    ensures LoneNewlines(MissingCidAndByr) && Validate(MissingCidAndByr) == Done(false)
  {
    MissingCidAndByrTokens();
    MissingCidAndByrCount();
    KnownTokens(MissingCidAndByr, ["hcl:#cfa07d", "eyr:2025", "pid:166559648", "iyr:2011", "ecl:brn", "hgt:59in"], 6);
  }

  lemma AssortedInvalid1Tokens()
    ensures LoneNewlines(AssortedInvalid1) && Tokens(AssortedInvalid1) == ["eyr:1972", "cid:100", "hcl:#18171d", "ecl:amb", "hgt:170", "pid:186cm", "iyr:2018", "byr:1926"]
  {
    Eyr1972Token();
    Cid100Token();
    Hcl18171dToken();
    EclAmbToken();
    Hgt170Token();
    Pid186cmToken();
    Iyr2018Token();
    Byr1926Token();
    TokensOf8("eyr:1972", " ", "cid:100", "\n", "hcl:#18171d", " ", "ecl:amb", " ", "hgt:170", " ", "pid:186cm", " ", "iyr:2018", " ", "byr:1926");
  }

  /** Which tokens of `assorted_invalid_1` pass, by position. */
  lemma AssortedInvalid1Tally<T>(x1: T, x2: T, x3: T, x4: T, x5: T, x6: T, x7: T, x8: T, p: T -> Outcome<bool>)
    requires p(x1) == Done(false) && p(x2) == Done(false) && p(x3) == Done(true) && p(x4) == Done(true)
    requires p(x5) == Done(false) && p(x6) == Done(false) && p(x7) == Done(true) && p(x8) == Done(true)
    ensures CountWhere([x1, x2, x3, x4, x5, x6, x7, x8], p) == Done(4)
  {
    var xs := [x1, x2, x3, x4, x5, x6, x7, x8];
    assert xs[8..] == [];
    CountFrom(xs, 7, p, true, 0);
    CountFrom(xs, 6, p, true, 1);
    CountFrom(xs, 5, p, false, 2);
    CountFrom(xs, 4, p, false, 2);
    CountFrom(xs, 3, p, true, 2);
    CountFrom(xs, 2, p, true, 3);
    CountFrom(xs, 1, p, false, 4);
    CountFrom(xs, 0, p, false, 4);
    assert xs[0..] == xs;
  }

  lemma AssortedInvalid1Count()
    ensures CountWhere(["eyr:1972", "cid:100", "hcl:#18171d", "ecl:amb", "hgt:170", "pid:186cm", "iyr:2018", "byr:1926"], CheckToken) == Done(4)
  {
    Eyr1972Token();
    Cid100Token();
    Hcl18171dToken();
    EclAmbToken();
    Hgt170Token();
    Pid186cmToken();
    Iyr2018Token();
    Byr1926Token();
    AssortedInvalid1Tally("eyr:1972", "cid:100", "hcl:#18171d", "ecl:amb", "hgt:170", "pid:186cm", "iyr:2018", "byr:1926", CheckToken);
  }

  /** `assorted_invalid_1`: 4 of its 8 tokens pass, so the record is invalid. */
  lemma AssortedInvalid1Verdict()
    ensures LoneNewlines(AssortedInvalid1) && Validate(AssortedInvalid1) == Done(false)
  {
    AssortedInvalid1Tokens();
    AssortedInvalid1Count();
    KnownTokens(AssortedInvalid1, ["eyr:1972", "cid:100", "hcl:#18171d", "ecl:amb", "hgt:170", "pid:186cm", "iyr:2018", "byr:1926"], 4);
  }

  lemma AssortedInvalid2Tokens()
    ensures LoneNewlines(AssortedInvalid2) && Tokens(AssortedInvalid2) == ["iyr:2019", "hcl:#602927", "eyr:1967", "hgt:170cm", "ecl:grn", "pid:012533040", "byr:1946"]
  {
    Iyr2019Token();
    Hcl602927Token();
    Eyr1967Token();
    Hgt170cmToken();
    EclGrnToken();
    Pid012533040Token();
    Byr1946Token();
    TokensOf7("iyr:2019", "\n", "hcl:#602927", " ", "eyr:1967", " ", "hgt:170cm", "\n", "ecl:grn", " ", "pid:012533040", " ", "byr:1946");
  }

  lemma AssortedInvalid2Count()
    ensures CountWhere(["iyr:2019", "hcl:#602927", "eyr:1967", "hgt:170cm", "ecl:grn", "pid:012533040", "byr:1946"], CheckToken) == Done(6)
  {
    Iyr2019Token();
    Hcl602927Token();
    Eyr1967Token();
    Hgt170cmToken();
    EclGrnToken();
    Pid012533040Token();
    Byr1946Token();
    MissingHeightTally("iyr:2019", "hcl:#602927", "eyr:1967", "hgt:170cm", "ecl:grn", "pid:012533040", "byr:1946", CheckToken);
  }

  /** `assorted_invalid_2`: 6 of its 7 tokens pass, so the record is invalid. */
  lemma AssortedInvalid2Verdict()
    ensures LoneNewlines(AssortedInvalid2) && Validate(AssortedInvalid2) == Done(false)
  {
    AssortedInvalid2Tokens();
    AssortedInvalid2Count();
    KnownTokens(AssortedInvalid2, ["iyr:2019", "hcl:#602927", "eyr:1967", "hgt:170cm", "ecl:grn", "pid:012533040", "byr:1946"], 6);
  }

  lemma AssortedInvalid3Tokens()
    ensures LoneNewlines(AssortedInvalid3) && Tokens(AssortedInvalid3) == ["hcl:dab227", "iyr:2012", "ecl:brn", "hgt:182cm", "pid:021572410", "eyr:2020", "byr:1992", "cid:277"]
  {
    HclDab227Token();
    Iyr2012Token();
    EclBrnToken();
    Hgt182cmToken();
    Pid021572410Token();
    Eyr2020Token();
    Byr1992Token();
    Cid277Token();
    TokensOf8("hcl:dab227", " ", "iyr:2012", "\n", "ecl:brn", " ", "hgt:182cm", " ", "pid:021572410", " ", "eyr:2020", " ", "byr:1992", " ", "cid:277");
  }

  /** Which tokens of `assorted_invalid_3` pass, by position. */
  lemma AssortedInvalid3Tally<T>(x1: T, x2: T, x3: T, x4: T, x5: T, x6: T, x7: T, x8: T, p: T -> Outcome<bool>)
    requires p(x1) == Done(false) && p(x2) == Done(true) && p(x3) == Done(true) && p(x4) == Done(true)
    requires p(x5) == Done(true) && p(x6) == Done(true) && p(x7) == Done(true) && p(x8) == Done(false)
    ensures CountWhere([x1, x2, x3, x4, x5, x6, x7, x8], p) == Done(6)
  {
    var xs := [x1, x2, x3, x4, x5, x6, x7, x8];
    assert xs[8..] == [];
    CountFrom(xs, 7, p, false, 0);
    CountFrom(xs, 6, p, true, 0);
    CountFrom(xs, 5, p, true, 1);
    CountFrom(xs, 4, p, true, 2);
    CountFrom(xs, 3, p, true, 3);
    CountFrom(xs, 2, p, true, 4);
    CountFrom(xs, 1, p, true, 5);
    CountFrom(xs, 0, p, false, 6);
    assert xs[0..] == xs;
  }

  lemma AssortedInvalid3Count()
    ensures CountWhere(["hcl:dab227", "iyr:2012", "ecl:brn", "hgt:182cm", "pid:021572410", "eyr:2020", "byr:1992", "cid:277"], CheckToken) == Done(6)
  {
    HclDab227Token();
    Iyr2012Token();
    EclBrnToken();
    Hgt182cmToken();
    Pid021572410Token();
    Eyr2020Token();
    Byr1992Token();
    Cid277Token();
    AssortedInvalid3Tally("hcl:dab227", "iyr:2012", "ecl:brn", "hgt:182cm", "pid:021572410", "eyr:2020", "byr:1992", "cid:277", CheckToken);
  }

  /** `assorted_invalid_3`: 6 of its 8 tokens pass, so the record is invalid. */
  lemma AssortedInvalid3Verdict()
    ensures LoneNewlines(AssortedInvalid3) && Validate(AssortedInvalid3) == Done(false)
  {
    AssortedInvalid3Tokens();
    AssortedInvalid3Count();
    KnownTokens(AssortedInvalid3, ["hcl:dab227", "iyr:2012", "ecl:brn", "hgt:182cm", "pid:021572410", "eyr:2020", "byr:1992", "cid:277"], 6);
  }

  lemma AssortedInvalid4Tokens()
    ensures LoneNewlines(AssortedInvalid4) && Tokens(AssortedInvalid4) == ["hgt:59cm", "ecl:zzz", "eyr:2038", "hcl:74454a", "iyr:2023", "pid:3556412378", "byr:2007"]
  {
    Hgt59cmToken();
    EclZzzToken();
    Eyr2038Token();
    Hcl74454aToken();
    Iyr2023Token();
    Pid3556412378Token();
    Byr2007Token();
    TokensOf7("hgt:59cm", " ", "ecl:zzz", "\n", "eyr:2038", " ", "hcl:74454a", " ", "iyr:2023", "\n", "pid:3556412378", " ", "byr:2007");
  }

  /** Which tokens of `assorted_invalid_4` pass, by position. */
  lemma AssortedInvalid4Tally<T>(x1: T, x2: T, x3: T, x4: T, x5: T, x6: T, x7: T, p: T -> Outcome<bool>)
    requires p(x1) == Done(false) && p(x2) == Done(false) && p(x3) == Done(false) && p(x4) == Done(false)
    requires p(x5) == Done(false) && p(x6) == Done(false) && p(x7) == Done(false)
    ensures CountWhere([x1, x2, x3, x4, x5, x6, x7], p) == Done(0)
  {
    var xs := [x1, x2, x3, x4, x5, x6, x7];
    assert xs[7..] == [];
    CountFrom(xs, 6, p, false, 0);
    CountFrom(xs, 5, p, false, 0);
    CountFrom(xs, 4, p, false, 0);
    CountFrom(xs, 3, p, false, 0);
    CountFrom(xs, 2, p, false, 0);
    CountFrom(xs, 1, p, false, 0);
    CountFrom(xs, 0, p, false, 0);
    assert xs[0..] == xs;
  }

  lemma AssortedInvalid4Count()
    ensures CountWhere(["hgt:59cm", "ecl:zzz", "eyr:2038", "hcl:74454a", "iyr:2023", "pid:3556412378", "byr:2007"], CheckToken) == Done(0)
  {
    Hgt59cmToken();
    EclZzzToken();
    Eyr2038Token();
    Hcl74454aToken();
    Iyr2023Token();
    Pid3556412378Token();
    Byr2007Token();
    AssortedInvalid4Tally("hgt:59cm", "ecl:zzz", "eyr:2038", "hcl:74454a", "iyr:2023", "pid:3556412378", "byr:2007", CheckToken);
  }

  /** `assorted_invalid_4`: 0 of its 7 tokens pass, so the record is invalid. */
  lemma AssortedInvalid4Verdict()
    ensures LoneNewlines(AssortedInvalid4) && Validate(AssortedInvalid4) == Done(false)
  {
    AssortedInvalid4Tokens();
    AssortedInvalid4Count();
    KnownTokens(AssortedInvalid4, ["hgt:59cm", "ecl:zzz", "eyr:2038", "hcl:74454a", "iyr:2023", "pid:3556412378", "byr:2007"], 0);
  }

  lemma AssortedValid1Tokens()
    ensures LoneNewlines(AssortedValid1) && Tokens(AssortedValid1) == ["pid:087499704", "hgt:74in", "ecl:grn", "iyr:2012", "eyr:2030", "byr:1980", "hcl:#623a2f"]
  {
    Pid087499704Token();
    Hgt74inToken();
    EclGrnToken();
    Iyr2012Token();
    Eyr2030Token();
    Byr1980Token();
    Hcl623a2fToken();
    TokensOf7("pid:087499704", " ", "hgt:74in", " ", "ecl:grn", " ", "iyr:2012", " ", "eyr:2030", " ", "byr:1980", "\n", "hcl:#623a2f");
  }

  lemma AssortedValid1Count()
    ensures CountWhere(["pid:087499704", "hgt:74in", "ecl:grn", "iyr:2012", "eyr:2030", "byr:1980", "hcl:#623a2f"], CheckToken) == Done(7)
  {
    Pid087499704Token();
    Hgt74inToken();
    EclGrnToken();
    Iyr2012Token();
    Eyr2030Token();
    Byr1980Token();
    Hcl623a2fToken();
    NorthPollIdTally("pid:087499704", "hgt:74in", "ecl:grn", "iyr:2012", "eyr:2030", "byr:1980", "hcl:#623a2f", CheckToken);
  }

  /** `assorted_valid_1`: 7 of its 7 tokens pass, so the record is valid. */
  lemma AssortedValid1Verdict()
    ensures LoneNewlines(AssortedValid1) && Validate(AssortedValid1) == Done(true)
  {
    AssortedValid1Tokens();
    AssortedValid1Count();
    KnownTokens(AssortedValid1, ["pid:087499704", "hgt:74in", "ecl:grn", "iyr:2012", "eyr:2030", "byr:1980", "hcl:#623a2f"], 7);
  }

  lemma AssortedValid2Tokens()
    ensures LoneNewlines(AssortedValid2) && Tokens(AssortedValid2) == ["eyr:2029", "ecl:blu", "cid:129", "byr:1989", "iyr:2014", "pid:896056539", "hcl:#a97842", "hgt:165cm"]
  {
    Eyr2029Token();
    EclBluToken();
    Cid129Token();
    Byr1989Token();
    Iyr2014Token();
    Pid896056539Token();
    HclA97842Token();
    Hgt165cmToken();
    TokensOf8("eyr:2029", " ", "ecl:blu", " ", "cid:129", " ", "byr:1989", "\n", "iyr:2014", " ", "pid:896056539", " ", "hcl:#a97842", " ", "hgt:165cm");
  }

  /** Which tokens of `assorted_valid_2` pass, by position. */
  lemma AssortedValid2Tally<T>(x1: T, x2: T, x3: T, x4: T, x5: T, x6: T, x7: T, x8: T, p: T -> Outcome<bool>)
    requires p(x1) == Done(true) && p(x2) == Done(true) && p(x3) == Done(false) && p(x4) == Done(true)
    requires p(x5) == Done(true) && p(x6) == Done(true) && p(x7) == Done(true) && p(x8) == Done(true)
    ensures CountWhere([x1, x2, x3, x4, x5, x6, x7, x8], p) == Done(7)
  {
    var xs := [x1, x2, x3, x4, x5, x6, x7, x8];
    assert xs[8..] == [];
    CountFrom(xs, 7, p, true, 0);
    CountFrom(xs, 6, p, true, 1);
    CountFrom(xs, 5, p, true, 2);
    CountFrom(xs, 4, p, true, 3);
    CountFrom(xs, 3, p, true, 4);
    CountFrom(xs, 2, p, false, 5);
    CountFrom(xs, 1, p, true, 5);
    CountFrom(xs, 0, p, true, 6);
    assert xs[0..] == xs;
  }

  lemma AssortedValid2Count()
    ensures CountWhere(["eyr:2029", "ecl:blu", "cid:129", "byr:1989", "iyr:2014", "pid:896056539", "hcl:#a97842", "hgt:165cm"], CheckToken) == Done(7)
  {
    Eyr2029Token();
    EclBluToken();
    Cid129Token();
    Byr1989Token();
    Iyr2014Token();
    Pid896056539Token();
    HclA97842Token();
    Hgt165cmToken();
    AssortedValid2Tally("eyr:2029", "ecl:blu", "cid:129", "byr:1989", "iyr:2014", "pid:896056539", "hcl:#a97842", "hgt:165cm", CheckToken);
  }

  /** `assorted_valid_2`: 7 of its 8 tokens pass, so the record is valid. */
  lemma AssortedValid2Verdict()
    ensures LoneNewlines(AssortedValid2) && Validate(AssortedValid2) == Done(true)
  {
    AssortedValid2Tokens();
    AssortedValid2Count();
    KnownTokens(AssortedValid2, ["eyr:2029", "ecl:blu", "cid:129", "byr:1989", "iyr:2014", "pid:896056539", "hcl:#a97842", "hgt:165cm"], 7);
  }

  lemma AssortedValid3Tokens()
    ensures LoneNewlines(AssortedValid3) && Tokens(AssortedValid3) == ["hcl:#888785", "hgt:164cm", "byr:2001", "iyr:2015", "cid:88", "pid:545766238", "ecl:hzl", "eyr:2022"]
  {
    Hcl888785Token();
    Hgt164cmToken();
    Byr2001Token();
    Iyr2015Token();
    Cid88Token();
    Pid545766238Token();
    EclHzlToken();
    Eyr2022Token();
    TokensOf8("hcl:#888785", "\n", "hgt:164cm", " ", "byr:2001", " ", "iyr:2015", " ", "cid:88", "\n", "pid:545766238", " ", "ecl:hzl", "\n", "eyr:2022");
  }

  /** Which tokens of `assorted_valid_3` pass, by position. */
  lemma AssortedValid3Tally<T>(x1: T, x2: T, x3: T, x4: T, x5: T, x6: T, x7: T, x8: T, p: T -> Outcome<bool>)
    requires p(x1) == Done(true) && p(x2) == Done(true) && p(x3) == Done(true) && p(x4) == Done(true)
    requires p(x5) == Done(false) && p(x6) == Done(true) && p(x7) == Done(true) && p(x8) == Done(true)
    ensures CountWhere([x1, x2, x3, x4, x5, x6, x7, x8], p) == Done(7)
  {
    var xs := [x1, x2, x3, x4, x5, x6, x7, x8];
    assert xs[8..] == [];
    CountFrom(xs, 7, p, true, 0);
    CountFrom(xs, 6, p, true, 1);
    CountFrom(xs, 5, p, true, 2);
    CountFrom(xs, 4, p, false, 3);
    CountFrom(xs, 3, p, true, 3);
    CountFrom(xs, 2, p, true, 4);
    CountFrom(xs, 1, p, true, 5);
    CountFrom(xs, 0, p, true, 6);
    assert xs[0..] == xs;
  }

  lemma AssortedValid3Count()
    ensures CountWhere(["hcl:#888785", "hgt:164cm", "byr:2001", "iyr:2015", "cid:88", "pid:545766238", "ecl:hzl", "eyr:2022"], CheckToken) == Done(7)
  {
    Hcl888785Token();
    Hgt164cmToken();
    Byr2001Token();
    Iyr2015Token();
    Cid88Token();
    Pid545766238Token();
    EclHzlToken();
    Eyr2022Token();
    AssortedValid3Tally("hcl:#888785", "hgt:164cm", "byr:2001", "iyr:2015", "cid:88", "pid:545766238", "ecl:hzl", "eyr:2022", CheckToken);
  }

  /** `assorted_valid_3`: 7 of its 8 tokens pass, so the record is valid. */
  lemma AssortedValid3Verdict()
    ensures LoneNewlines(AssortedValid3) && Validate(AssortedValid3) == Done(true)
  {
    AssortedValid3Tokens();
    AssortedValid3Count();
    KnownTokens(AssortedValid3, ["hcl:#888785", "hgt:164cm", "byr:2001", "iyr:2015", "cid:88", "pid:545766238", "ecl:hzl", "eyr:2022"], 7);
  }

  lemma AssortedValid4Tokens()
    ensures LoneNewlines(AssortedValid4) && Tokens(AssortedValid4) == ["iyr:2010", "hgt:158cm", "hcl:#b6652a", "ecl:blu", "byr:1944", "eyr:2021", "pid:093154719"]
  {
    Iyr2010Token();
    Hgt158cmToken();
    HclB6652aToken();
    EclBluToken();
    Byr1944Token();
    Eyr2021Token();
    Pid093154719Token();
    TokensOf7("iyr:2010", " ", "hgt:158cm", " ", "hcl:#b6652a", " ", "ecl:blu", " ", "byr:1944", " ", "eyr:2021", " ", "pid:093154719");
  }

  lemma AssortedValid4Count()
    ensures CountWhere(["iyr:2010", "hgt:158cm", "hcl:#b6652a", "ecl:blu", "byr:1944", "eyr:2021", "pid:093154719"], CheckToken) == Done(7)
  {
    Iyr2010Token();
    Hgt158cmToken();
    HclB6652aToken();
    EclBluToken();
    Byr1944Token();
    Eyr2021Token();
    Pid093154719Token();
    NorthPollIdTally("iyr:2010", "hgt:158cm", "hcl:#b6652a", "ecl:blu", "byr:1944", "eyr:2021", "pid:093154719", CheckToken);
  }

  /** `assorted_valid_4`: 7 of its 7 tokens pass, so the record is valid. */
  lemma AssortedValid4Verdict()
    ensures LoneNewlines(AssortedValid4) && Validate(AssortedValid4) == Done(true)
  {
    AssortedValid4Tokens();
    AssortedValid4Count();
    KnownTokens(AssortedValid4, ["iyr:2010", "hgt:158cm", "hcl:#b6652a", "ecl:blu", "byr:1944", "eyr:2021", "pid:093154719"], 7);
  }

  /** Which records of `FirstSampleCountsTwo` are valid, by position. */
  lemma FirstSampleTally<T>(x1: T, x2: T, x3: T, x4: T, p: T -> Outcome<bool>)
    requires p(x1) == Done(true) && p(x2) == Done(false) && p(x3) == Done(true) && p(x4) == Done(false)
    ensures CountWhere([x1, x2, x3, x4], p) == Done(2)
  {
    var xs := [x1, x2, x3, x4];
    assert xs[4..] == [];
    CountFrom(xs, 3, p, false, 0);
    CountFrom(xs, 2, p, true, 0);
    CountFrom(xs, 1, p, false, 1);
    CountFrom(xs, 0, p, true, 1);
    assert xs[0..] == xs;
  }

  /** `example_is_2`: two of the four sample records are valid. */
  lemma FirstSampleCountsTwo()
    ensures ParsePassports(FirstSample) == Done(2)
  {
    ValidExampleVerdict();
    MissingHeightVerdict();
    NorthPollIdVerdict();
    MissingCidAndByrVerdict();
    RecordsOf4(ValidExample, MissingHeight, NorthPollId, MissingCidAndByr);
    FirstSampleTally(ValidExample, MissingHeight, NorthPollId, MissingCidAndByr, Validate);
  }

  /** Which records of `SecondSampleCountsFour` are valid, by position. */
  lemma SecondSampleTally<T>(x1: T, x2: T, x3: T, x4: T, x5: T, x6: T, x7: T, x8: T, p: T -> Outcome<bool>)
    requires p(x1) == Done(false) && p(x2) == Done(false) && p(x3) == Done(false) && p(x4) == Done(false)
    requires p(x5) == Done(true) && p(x6) == Done(true) && p(x7) == Done(true) && p(x8) == Done(true)
    ensures CountWhere([x1, x2, x3, x4, x5, x6, x7, x8], p) == Done(4)
  {
    var xs := [x1, x2, x3, x4, x5, x6, x7, x8];
    assert xs[8..] == [];
    CountFrom(xs, 7, p, true, 0);
    CountFrom(xs, 6, p, true, 1);
    CountFrom(xs, 5, p, true, 2);
    CountFrom(xs, 4, p, true, 3);
    CountFrom(xs, 3, p, false, 4);
    CountFrom(xs, 2, p, false, 4);
    CountFrom(xs, 1, p, false, 4);
    CountFrom(xs, 0, p, false, 4);
    assert xs[0..] == xs;
  }

  /** `example_is_4`: four of the eight sample records are valid. */
  lemma SecondSampleCountsFour()
    ensures ParsePassports(SecondSample) == Done(4)
  {
    AssortedInvalid1Verdict();
    AssortedInvalid2Verdict();
    AssortedInvalid3Verdict();
    AssortedInvalid4Verdict();
    AssortedValid1Verdict();
    AssortedValid2Verdict();
    AssortedValid3Verdict();
    AssortedValid4Verdict();
    RecordsOf8(AssortedInvalid1, AssortedInvalid2, AssortedInvalid3, AssortedInvalid4, AssortedValid1, AssortedValid2, AssortedValid3, AssortedValid4);
    SecondSampleTally(AssortedInvalid1, AssortedInvalid2, AssortedInvalid3, AssortedInvalid4, AssortedValid1, AssortedValid2, AssortedValid3, AssortedValid4, Validate);
  }

  // ---------------------------------------------------------------------
  // A repeated field standing in for a missing one

  /** Six passing tokens, one per required key except `hgt`. */
  const NoHeight: string :=
    "ecl:blu" + " " + "byr:1931" + " " + "pid:896056539" + " " + "eyr:2029" + " " + "hcl:#a97842" + " " + "iyr:2014"

  /** `NoHeight` with a second birth year and still no height. */
  const TwoBirthYears: string :=
    NoHeight + " " + "byr:1989"

  lemma NoHeightTokens()
    ensures LoneNewlines(NoHeight) && Tokens(NoHeight) == ["ecl:blu", "byr:1931", "pid:896056539", "eyr:2029", "hcl:#a97842", "iyr:2014"]
  {
    EclBluToken();
    Byr1931Token();
    Pid896056539Token();
    Eyr2029Token();
    HclA97842Token();
    Iyr2014Token();
    TokensOf6("ecl:blu", " ", "byr:1931", " ", "pid:896056539", " ", "eyr:2029", " ", "hcl:#a97842", " ", "iyr:2014");
  }

  lemma NoHeightCount()
    ensures PassingTokens(NoHeight) == Done(6)
  {
    NoHeightTokens();
    EclBluToken();
    Byr1931Token();
    Pid896056539Token();
    Eyr2029Token();
    HclA97842Token();
    Iyr2014Token();
    MissingCidAndByrTally("ecl:blu", "byr:1931", "pid:896056539", "eyr:2029", "hcl:#a97842", "iyr:2014", CheckToken);
  }

  /** No element of seven has the key `k`, so `k` is not among the kept keys. */
  lemma AbsentKeyOfSeven<T, K>(x1: T, x2: T, x3: T, x4: T, x5: T, x6: T, x7: T, key: T -> K, k: K, p: T -> Outcome<bool>)
    requires key(x1) != k && key(x2) != k && key(x3) != k && key(x4) != k
    requires key(x5) != k && key(x6) != k && key(x7) != k
    ensures k !in KeptKeys([x1, x2, x3, x4, x5, x6, x7], p, key)
  {
    var xs := [x1, x2, x3, x4, x5, x6, x7];
    forall i | 0 <= i < |xs| ensures key(xs[i]) != k {
      if i < 4 {
        assert xs[i] in [x1, x2, x3, x4];
      } else {
        assert xs[i] in [x5, x6, x7];
      }
    }
    InKeptKeys(xs, p, key, k);
  }

  /** Seven tokens `key:value` none of whose keys is `k`: none of them
      passes with key `k`. */
  lemma NoneHasKey(k1: string, v1: string, k2: string, v2: string, k3: string, v3: string, k4: string, v4: string, k5: string, v5: string, k6: string, v6: string, k7: string, v7: string, k: string)
    requires ':' !in k1 && ':' !in k2 && ':' !in k3 && ':' !in k4 && ':' !in k5 && ':' !in k6 && ':' !in k7
    requires k1 != k && k2 != k && k3 != k && k4 != k && k5 != k && k6 != k && k7 != k
    ensures !HasPassing([k1 + ":" + v1, k2 + ":" + v2, k3 + ":" + v3, k4 + ":" + v4, k5 + ":" + v5, k6 + ":" + v6, k7 + ":" + v7], k)
  {
    SplitToken(k1, v1);
    SplitToken(k2, v2);
    SplitToken(k3, v3);
    SplitToken(k4, v4);
    SplitToken(k5, v5);
    SplitToken(k6, v6);
    SplitToken(k7, v7);
    AbsentKeyOfSeven(k1 + ":" + v1, k2 + ":" + v2, k3 + ":" + v3, k4 + ":" + v4, k5 + ":" + v5, k6 + ":" + v6, k7 + ":" + v7, Key, k, CheckToken);
    InKeptKeys([k1 + ":" + v1, k2 + ":" + v2, k3 + ":" + v3, k4 + ":" + v4, k5 + ":" + v5, k6 + ":" + v6, k7 + ":" + v7], CheckToken, Key, k);
  }

  /** None of the seven tokens has the key `hgt`. */
  lemma TwoBirthYearsLackHeight()
    ensures !HasPassing(["ecl:blu", "byr:1931", "pid:896056539", "eyr:2029", "hcl:#a97842", "iyr:2014", "byr:1989"], "hgt")
  {
    assert "ecl:blu" == "ecl" + ":" + "blu";
    assert "byr:1931" == "byr" + ":" + "1931";
    assert "pid:896056539" == "pid" + ":" + "896056539";
    assert "eyr:2029" == "eyr" + ":" + "2029";
    assert "hcl:#a97842" == "hcl" + ":" + "#a97842";
    assert "iyr:2014" == "iyr" + ":" + "2014";
    assert "byr:1989" == "byr" + ":" + "1989";
    assert "ecl"[0] != "hgt"[0];
    assert "byr"[0] != "hgt"[0];
    assert "pid"[0] != "hgt"[0];
    assert "eyr"[0] != "hgt"[0];
    assert "hcl"[1] != "hgt"[1];
    assert "iyr"[0] != "hgt"[0];
    NoneHasKey("ecl", "blu", "byr", "1931", "pid", "896056539", "eyr", "2029", "hcl", "#a97842", "iyr", "2014", "byr", "1989", "hgt");
  }

  /** A second `byr` takes the place of the missing `hgt`: no token of the
      record carries a height, yet seven tokens pass and the record is
      valid. */
  lemma RepeatedFieldMasksMissingHeight()
    ensures Tokens(TwoBirthYears) == ["ecl:blu", "byr:1931", "pid:896056539", "eyr:2029", "hcl:#a97842", "iyr:2014", "byr:1989"]
    ensures !HasPassing(Tokens(TwoBirthYears), "hgt")
    ensures Validate(TwoBirthYears) == Done(true)
  {
    NoHeightTokens();
    NoHeightCount();
    Byr1989Token();
    SeventhPassingCompletes(NoHeight, "byr:1989");
    assert ["ecl:blu", "byr:1931", "pid:896056539", "eyr:2029", "hcl:#a97842", "iyr:2014"] + ["byr:1989"] == ["ecl:blu", "byr:1931", "pid:896056539", "eyr:2029", "hcl:#a97842", "iyr:2014", "byr:1989"];
    TwoBirthYearsLackHeight();
  }

  // ---------------------------------------------------------------------
  // The tokens of the sample records

  lemma EclGryToken()
    ensures CheckToken("ecl:gry") == Done(true) && Plain("ecl:gry")
  {
    assert Plain("ecl:gry");
    assert "ecl:gry" == "ecl:" + "gry";
    assert "gry" in EyeColors;
    EyeColorToken("gry");
  }

  lemma Pid860033327Token()
    ensures CheckToken("pid:860033327") == Done(true) && Plain("pid:860033327")
  {
    assert Plain("pid:860033327");
    assert "pid:860033327" == "pid:" + "860033327";
    assert IsPassportId("860033327");
    PassportIdToken("860033327");
  }

  lemma Eyr2020Token()
    ensures CheckToken("eyr:2020") == Done(true) && Plain("eyr:2020")
  {
    assert Plain("eyr:2020");
    assert "eyr:2020" == "eyr:" + "2020";
    FourDigits('2', '0', '2', '0');
    ExpirationYearToken("2020");
  }

  lemma HclFffffdToken()
    ensures CheckToken("hcl:#fffffd") == Done(true) && Plain("hcl:#fffffd")
  {
    assert Plain("hcl:#fffffd");
    assert "hcl:#fffffd" == "hcl:" + "#fffffd";
    assert IsHairColor("#fffffd");
    HairColorToken("#fffffd");
  }

  lemma Byr1937Token()
    ensures CheckToken("byr:1937") == Done(true) && Plain("byr:1937")
  {
    assert Plain("byr:1937");
    assert "byr:1937" == "byr:" + "1937";
    FourDigits('1', '9', '3', '7');
    BirthYearToken("1937");
  }

  lemma Iyr2017Token()
    ensures CheckToken("iyr:2017") == Done(true) && Plain("iyr:2017")
  {
    assert Plain("iyr:2017");
    assert "iyr:2017" == "iyr:" + "2017";
    FourDigits('2', '0', '1', '7');
    IssueYearToken("2017");
  }

  lemma Cid147Token()
    ensures CheckToken("cid:147") == Done(false) && Plain("cid:147")
  {
    assert Plain("cid:147");
    assert "cid:147" == "cid:" + "147";
    CidToken("147");
  }

  lemma Hgt183cmToken()
    ensures CheckToken("hgt:183cm") == Done(true) && Plain("hgt:183cm")
  {
    assert Plain("hgt:183cm");
    assert "hgt:183cm" == "hgt:" + "183cm";
    ThreeDigits('1', '8', '3');
    HeightValue("183cm", "183", "cm", 183);
    HeightToken("183cm");
  }

  lemma Iyr2013Token()
    ensures CheckToken("iyr:2013") == Done(true) && Plain("iyr:2013")
  {
    assert Plain("iyr:2013");
    assert "iyr:2013" == "iyr:" + "2013";
    FourDigits('2', '0', '1', '3');
    IssueYearToken("2013");
  }

  lemma EclAmbToken()
    ensures CheckToken("ecl:amb") == Done(true) && Plain("ecl:amb")
  {
    assert Plain("ecl:amb");
    assert "ecl:amb" == "ecl:" + "amb";
    assert "amb" in EyeColors;
    EyeColorToken("amb");
  }

  lemma Cid350Token()
    ensures CheckToken("cid:350") == Done(false) && Plain("cid:350")
  {
    assert Plain("cid:350");
    assert "cid:350" == "cid:" + "350";
    CidToken("350");
  }

  lemma Eyr2023Token()
    ensures CheckToken("eyr:2023") == Done(true) && Plain("eyr:2023")
  {
    assert Plain("eyr:2023");
    assert "eyr:2023" == "eyr:" + "2023";
    FourDigits('2', '0', '2', '3');
    ExpirationYearToken("2023");
  }

  lemma Pid028048884Token()
    ensures CheckToken("pid:028048884") == Done(true) && Plain("pid:028048884")
  {
    assert Plain("pid:028048884");
    assert "pid:028048884" == "pid:" + "028048884";
    assert IsPassportId("028048884");
    PassportIdToken("028048884");
  }

  lemma HclCfa07dToken()
    ensures CheckToken("hcl:#cfa07d") == Done(true) && Plain("hcl:#cfa07d")
  {
    assert Plain("hcl:#cfa07d");
    assert "hcl:#cfa07d" == "hcl:" + "#cfa07d";
    assert IsHairColor("#cfa07d");
    HairColorToken("#cfa07d");
  }

  lemma Byr1929Token()
    ensures CheckToken("byr:1929") == Done(true) && Plain("byr:1929")
  {
    assert Plain("byr:1929");
    assert "byr:1929" == "byr:" + "1929";
    FourDigits('1', '9', '2', '9');
    BirthYearToken("1929");
  }

  lemma HclAe17e1Token()
    ensures CheckToken("hcl:#ae17e1") == Done(true) && Plain("hcl:#ae17e1")
  {
    assert Plain("hcl:#ae17e1");
    assert "hcl:#ae17e1" == "hcl:" + "#ae17e1";
    assert IsHairColor("#ae17e1");
    HairColorToken("#ae17e1");
  }

  lemma Eyr2024Token()
    ensures CheckToken("eyr:2024") == Done(true) && Plain("eyr:2024")
  {
    assert Plain("eyr:2024");
    assert "eyr:2024" == "eyr:" + "2024";
    FourDigits('2', '0', '2', '4');
    ExpirationYearToken("2024");
  }

  lemma EclBrnToken()
    ensures CheckToken("ecl:brn") == Done(true) && Plain("ecl:brn")
  {
    assert Plain("ecl:brn");
    assert "ecl:brn" == "ecl:" + "brn";
    assert "brn" in EyeColors;
    EyeColorToken("brn");
  }

  lemma Pid760753108Token()
    ensures CheckToken("pid:760753108") == Done(true) && Plain("pid:760753108")
  {
    assert Plain("pid:760753108");
    assert "pid:760753108" == "pid:" + "760753108";
    assert IsPassportId("760753108");
    PassportIdToken("760753108");
  }

  lemma Byr1931Token()
    ensures CheckToken("byr:1931") == Done(true) && Plain("byr:1931")
  {
    assert Plain("byr:1931");
    assert "byr:1931" == "byr:" + "1931";
    FourDigits('1', '9', '3', '1');
    BirthYearToken("1931");
  }

  lemma Hgt179cmToken()
    ensures CheckToken("hgt:179cm") == Done(true) && Plain("hgt:179cm")
  {
    assert Plain("hgt:179cm");
    assert "hgt:179cm" == "hgt:" + "179cm";
    ThreeDigits('1', '7', '9');
    HeightValue("179cm", "179", "cm", 179);
    HeightToken("179cm");
  }

  lemma Eyr2025Token()
    ensures CheckToken("eyr:2025") == Done(true) && Plain("eyr:2025")
  {
    assert Plain("eyr:2025");
    assert "eyr:2025" == "eyr:" + "2025";
    FourDigits('2', '0', '2', '5');
    ExpirationYearToken("2025");
  }

  lemma Pid166559648Token()
    ensures CheckToken("pid:166559648") == Done(true) && Plain("pid:166559648")
  {
    assert Plain("pid:166559648");
    assert "pid:166559648" == "pid:" + "166559648";
    assert IsPassportId("166559648");
    PassportIdToken("166559648");
  }

  lemma Iyr2011Token()
    ensures CheckToken("iyr:2011") == Done(true) && Plain("iyr:2011")
  {
    assert Plain("iyr:2011");
    assert "iyr:2011" == "iyr:" + "2011";
    FourDigits('2', '0', '1', '1');
    IssueYearToken("2011");
  }

  lemma Hgt59inToken()
    ensures CheckToken("hgt:59in") == Done(true) && Plain("hgt:59in")
  {
    assert Plain("hgt:59in");
    assert "hgt:59in" == "hgt:" + "59in";
    TwoDigits('5', '9');
    HeightValue("59in", "59", "in", 59);
    HeightToken("59in");
  }

  lemma Eyr1972Token()
    ensures CheckToken("eyr:1972") == Done(false) && Plain("eyr:1972")
  {
    assert Plain("eyr:1972");
    assert "eyr:1972" == "eyr:" + "1972";
    FourDigits('1', '9', '7', '2');
    ExpirationYearToken("1972");
  }

  lemma Cid100Token()
    ensures CheckToken("cid:100") == Done(false) && Plain("cid:100")
  {
    assert Plain("cid:100");
    assert "cid:100" == "cid:" + "100";
    CidToken("100");
  }

  lemma Hcl18171dToken()
    ensures CheckToken("hcl:#18171d") == Done(true) && Plain("hcl:#18171d")
  {
    assert Plain("hcl:#18171d");
    assert "hcl:#18171d" == "hcl:" + "#18171d";
    assert IsHairColor("#18171d");
    HairColorToken("#18171d");
  }

  lemma Hgt170Token()
    ensures CheckToken("hgt:170") == Done(false) && Plain("hgt:170")
  {
    assert Plain("hgt:170");
    assert "hgt:170" == "hgt:" + "170";
    assert ValidHeight("170") == Done(false) by {
      assert "170"[1..] == "70";
    }
    HeightToken("170");
  }

  lemma Pid186cmToken()
    ensures CheckToken("pid:186cm") == Done(false) && Plain("pid:186cm")
  {
    assert Plain("pid:186cm");
    assert "pid:186cm" == "pid:" + "186cm";
    assert !IsPassportId("186cm");
    PassportIdToken("186cm");
  }

  lemma Iyr2018Token()
    ensures CheckToken("iyr:2018") == Done(true) && Plain("iyr:2018")
  {
    assert Plain("iyr:2018");
    assert "iyr:2018" == "iyr:" + "2018";
    FourDigits('2', '0', '1', '8');
    IssueYearToken("2018");
  }

  lemma Byr1926Token()
    ensures CheckToken("byr:1926") == Done(true) && Plain("byr:1926")
  {
    assert Plain("byr:1926");
    assert "byr:1926" == "byr:" + "1926";
    FourDigits('1', '9', '2', '6');
    BirthYearToken("1926");
  }

  lemma Iyr2019Token()
    ensures CheckToken("iyr:2019") == Done(true) && Plain("iyr:2019")
  {
    assert Plain("iyr:2019");
    assert "iyr:2019" == "iyr:" + "2019";
    FourDigits('2', '0', '1', '9');
    IssueYearToken("2019");
  }

  lemma Hcl602927Token()
    ensures CheckToken("hcl:#602927") == Done(true) && Plain("hcl:#602927")
  {
    assert Plain("hcl:#602927");
    assert "hcl:#602927" == "hcl:" + "#602927";
    assert IsHairColor("#602927");
    HairColorToken("#602927");
  }

  lemma Eyr1967Token()
    ensures CheckToken("eyr:1967") == Done(false) && Plain("eyr:1967")
  {
    assert Plain("eyr:1967");
    assert "eyr:1967" == "eyr:" + "1967";
    FourDigits('1', '9', '6', '7');
    ExpirationYearToken("1967");
  }

  lemma Hgt170cmToken()
    ensures CheckToken("hgt:170cm") == Done(true) && Plain("hgt:170cm")
  {
    assert Plain("hgt:170cm");
    assert "hgt:170cm" == "hgt:" + "170cm";
    ThreeDigits('1', '7', '0');
    HeightValue("170cm", "170", "cm", 170);
    HeightToken("170cm");
  }

  lemma EclGrnToken()
    ensures CheckToken("ecl:grn") == Done(true) && Plain("ecl:grn")
  {
    assert Plain("ecl:grn");
    assert "ecl:grn" == "ecl:" + "grn";
    assert "grn" in EyeColors;
    EyeColorToken("grn");
  }

  lemma Pid012533040Token()
    ensures CheckToken("pid:012533040") == Done(true) && Plain("pid:012533040")
  {
    assert Plain("pid:012533040");
    assert "pid:012533040" == "pid:" + "012533040";
    assert IsPassportId("012533040");
    PassportIdToken("012533040");
  }

  lemma Byr1946Token()
    ensures CheckToken("byr:1946") == Done(true) && Plain("byr:1946")
  {
    assert Plain("byr:1946");
    assert "byr:1946" == "byr:" + "1946";
    FourDigits('1', '9', '4', '6');
    BirthYearToken("1946");
  }

  lemma HclDab227Token()
    ensures CheckToken("hcl:dab227") == Done(false) && Plain("hcl:dab227")
  {
    assert Plain("hcl:dab227");
    assert "hcl:dab227" == "hcl:" + "dab227";
    assert !IsHairColor("dab227");
    HairColorToken("dab227");
  }

  lemma Iyr2012Token()
    ensures CheckToken("iyr:2012") == Done(true) && Plain("iyr:2012")
  {
    assert Plain("iyr:2012");
    assert "iyr:2012" == "iyr:" + "2012";
    FourDigits('2', '0', '1', '2');
    IssueYearToken("2012");
  }

  lemma Hgt182cmToken()
    ensures CheckToken("hgt:182cm") == Done(true) && Plain("hgt:182cm")
  {
    assert Plain("hgt:182cm");
    assert "hgt:182cm" == "hgt:" + "182cm";
    ThreeDigits('1', '8', '2');
    HeightValue("182cm", "182", "cm", 182);
    HeightToken("182cm");
  }

  lemma Pid021572410Token()
    ensures CheckToken("pid:021572410") == Done(true) && Plain("pid:021572410")
  {
    assert Plain("pid:021572410");
    assert "pid:021572410" == "pid:" + "021572410";
    assert IsPassportId("021572410");
    PassportIdToken("021572410");
  }

  lemma Byr1992Token()
    ensures CheckToken("byr:1992") == Done(true) && Plain("byr:1992")
  {
    assert Plain("byr:1992");
    assert "byr:1992" == "byr:" + "1992";
    FourDigits('1', '9', '9', '2');
    BirthYearToken("1992");
  }

  lemma Cid277Token()
    ensures CheckToken("cid:277") == Done(false) && Plain("cid:277")
  {
    assert Plain("cid:277");
    assert "cid:277" == "cid:" + "277";
    CidToken("277");
  }

  lemma Hgt59cmToken()
    ensures CheckToken("hgt:59cm") == Done(false) && Plain("hgt:59cm")
  {
    assert Plain("hgt:59cm");
    assert "hgt:59cm" == "hgt:" + "59cm";
    TwoDigits('5', '9');
    HeightValue("59cm", "59", "cm", 59);
    HeightToken("59cm");
  }

  lemma EclZzzToken()
    ensures CheckToken("ecl:zzz") == Done(false) && Plain("ecl:zzz")
  {
    assert Plain("ecl:zzz");
    assert "ecl:zzz" == "ecl:" + "zzz";
    assert "zzz" !in EyeColors;
    EyeColorToken("zzz");
  }

  lemma Eyr2038Token()
    ensures CheckToken("eyr:2038") == Done(false) && Plain("eyr:2038")
  {
    assert Plain("eyr:2038");
    assert "eyr:2038" == "eyr:" + "2038";
    FourDigits('2', '0', '3', '8');
    ExpirationYearToken("2038");
  }

  lemma Hcl74454aToken()
    ensures CheckToken("hcl:74454a") == Done(false) && Plain("hcl:74454a")
  {
    assert Plain("hcl:74454a");
    assert "hcl:74454a" == "hcl:" + "74454a";
    assert !IsHairColor("74454a");
    HairColorToken("74454a");
  }

  lemma Iyr2023Token()
    ensures CheckToken("iyr:2023") == Done(false) && Plain("iyr:2023")
  {
    assert Plain("iyr:2023");
    assert "iyr:2023" == "iyr:" + "2023";
    FourDigits('2', '0', '2', '3');
    IssueYearToken("2023");
  }

  lemma Pid3556412378Token()
    ensures CheckToken("pid:3556412378") == Done(false) && Plain("pid:3556412378")
  {
    assert Plain("pid:3556412378");
    assert "pid:3556412378" == "pid:" + "3556412378";
    assert !IsPassportId("3556412378");
    PassportIdToken("3556412378");
  }

  lemma Byr2007Token()
    ensures CheckToken("byr:2007") == Done(false) && Plain("byr:2007")
  {
    assert Plain("byr:2007");
    assert "byr:2007" == "byr:" + "2007";
    FourDigits('2', '0', '0', '7');
    BirthYearToken("2007");
  }

  lemma Pid087499704Token()
    ensures CheckToken("pid:087499704") == Done(true) && Plain("pid:087499704")
  {
    assert Plain("pid:087499704");
    assert "pid:087499704" == "pid:" + "087499704";
    assert IsPassportId("087499704");
    PassportIdToken("087499704");
  }

  lemma Hgt74inToken()
    ensures CheckToken("hgt:74in") == Done(true) && Plain("hgt:74in")
  {
    assert Plain("hgt:74in");
    assert "hgt:74in" == "hgt:" + "74in";
    TwoDigits('7', '4');
    HeightValue("74in", "74", "in", 74);
    HeightToken("74in");
  }

  lemma Eyr2030Token()
    ensures CheckToken("eyr:2030") == Done(true) && Plain("eyr:2030")
  {
    assert Plain("eyr:2030");
    assert "eyr:2030" == "eyr:" + "2030";
    FourDigits('2', '0', '3', '0');
    ExpirationYearToken("2030");
  }

  lemma Byr1980Token()
    ensures CheckToken("byr:1980") == Done(true) && Plain("byr:1980")
  {
    assert Plain("byr:1980");
    assert "byr:1980" == "byr:" + "1980";
    FourDigits('1', '9', '8', '0');
    BirthYearToken("1980");
  }

  lemma Hcl623a2fToken()
    ensures CheckToken("hcl:#623a2f") == Done(true) && Plain("hcl:#623a2f")
  {
    assert Plain("hcl:#623a2f");
    assert "hcl:#623a2f" == "hcl:" + "#623a2f";
    assert IsHairColor("#623a2f");
    HairColorToken("#623a2f");
  }

  lemma Eyr2029Token()
    ensures CheckToken("eyr:2029") == Done(true) && Plain("eyr:2029")
  {
    assert Plain("eyr:2029");
    assert "eyr:2029" == "eyr:" + "2029";
    FourDigits('2', '0', '2', '9');
    ExpirationYearToken("2029");
  }

  lemma EclBluToken()
    ensures CheckToken("ecl:blu") == Done(true) && Plain("ecl:blu")
  {
    assert Plain("ecl:blu");
    assert "ecl:blu" == "ecl:" + "blu";
    assert "blu" in EyeColors;
    EyeColorToken("blu");
  }

  lemma Cid129Token()
    ensures CheckToken("cid:129") == Done(false) && Plain("cid:129")
  {
    assert Plain("cid:129");
    assert "cid:129" == "cid:" + "129";
    CidToken("129");
  }

  lemma Byr1989Token()
    ensures CheckToken("byr:1989") == Done(true) && Plain("byr:1989")
  {
    assert Plain("byr:1989");
    assert "byr:1989" == "byr:" + "1989";
    FourDigits('1', '9', '8', '9');
    BirthYearToken("1989");
  }

  lemma Iyr2014Token()
    ensures CheckToken("iyr:2014") == Done(true) && Plain("iyr:2014")
  {
    assert Plain("iyr:2014");
    assert "iyr:2014" == "iyr:" + "2014";
    FourDigits('2', '0', '1', '4');
    IssueYearToken("2014");
  }

  lemma Pid896056539Token()
    ensures CheckToken("pid:896056539") == Done(true) && Plain("pid:896056539")
  {
    assert Plain("pid:896056539");
    assert "pid:896056539" == "pid:" + "896056539";
    assert IsPassportId("896056539");
    PassportIdToken("896056539");
  }

  lemma HclA97842Token()
    ensures CheckToken("hcl:#a97842") == Done(true) && Plain("hcl:#a97842")
  {
    assert Plain("hcl:#a97842");
    assert "hcl:#a97842" == "hcl:" + "#a97842";
    assert IsHairColor("#a97842");
    HairColorToken("#a97842");
  }

  lemma Hgt165cmToken()
    ensures CheckToken("hgt:165cm") == Done(true) && Plain("hgt:165cm")
  {
    assert Plain("hgt:165cm");
    assert "hgt:165cm" == "hgt:" + "165cm";
    ThreeDigits('1', '6', '5');
    HeightValue("165cm", "165", "cm", 165);
    HeightToken("165cm");
  }

  lemma Hcl888785Token()
    ensures CheckToken("hcl:#888785") == Done(true) && Plain("hcl:#888785")
  {
    assert Plain("hcl:#888785");
    assert "hcl:#888785" == "hcl:" + "#888785";
    assert IsHairColor("#888785");
    HairColorToken("#888785");
  }

  lemma Hgt164cmToken()
    ensures CheckToken("hgt:164cm") == Done(true) && Plain("hgt:164cm")
  {
    assert Plain("hgt:164cm");
    assert "hgt:164cm" == "hgt:" + "164cm";
    ThreeDigits('1', '6', '4');
    HeightValue("164cm", "164", "cm", 164);
    HeightToken("164cm");
  }

  lemma Byr2001Token()
    ensures CheckToken("byr:2001") == Done(true) && Plain("byr:2001")
  {
    assert Plain("byr:2001");
    assert "byr:2001" == "byr:" + "2001";
    FourDigits('2', '0', '0', '1');
    BirthYearToken("2001");
  }

  lemma Iyr2015Token()
    ensures CheckToken("iyr:2015") == Done(true) && Plain("iyr:2015")
  {
    assert Plain("iyr:2015");
    assert "iyr:2015" == "iyr:" + "2015";
    FourDigits('2', '0', '1', '5');
    IssueYearToken("2015");
  }

  lemma Cid88Token()
    ensures CheckToken("cid:88") == Done(false) && Plain("cid:88")
  {
    assert Plain("cid:88");
    assert "cid:88" == "cid:" + "88";
    CidToken("88");
  }

  lemma Pid545766238Token()
    ensures CheckToken("pid:545766238") == Done(true) && Plain("pid:545766238")
  {
    assert Plain("pid:545766238");
    assert "pid:545766238" == "pid:" + "545766238";
    assert IsPassportId("545766238");
    PassportIdToken("545766238");
  }

  lemma EclHzlToken()
    ensures CheckToken("ecl:hzl") == Done(true) && Plain("ecl:hzl")
  {
    assert Plain("ecl:hzl");
    assert "ecl:hzl" == "ecl:" + "hzl";
    assert "hzl" in EyeColors;
    EyeColorToken("hzl");
  }

  lemma Eyr2022Token()
    ensures CheckToken("eyr:2022") == Done(true) && Plain("eyr:2022")
  {
    assert Plain("eyr:2022");
    assert "eyr:2022" == "eyr:" + "2022";
    FourDigits('2', '0', '2', '2');
    ExpirationYearToken("2022");
  }

  lemma Iyr2010Token()
    ensures CheckToken("iyr:2010") == Done(true) && Plain("iyr:2010")
  {
    assert Plain("iyr:2010");
    assert "iyr:2010" == "iyr:" + "2010";
    FourDigits('2', '0', '1', '0');
    IssueYearToken("2010");
  }

  lemma Hgt158cmToken()
    ensures CheckToken("hgt:158cm") == Done(true) && Plain("hgt:158cm")
  {
    assert Plain("hgt:158cm");
    assert "hgt:158cm" == "hgt:" + "158cm";
    ThreeDigits('1', '5', '8');
    HeightValue("158cm", "158", "cm", 158);
    HeightToken("158cm");
  }

  lemma HclB6652aToken()
    ensures CheckToken("hcl:#b6652a") == Done(true) && Plain("hcl:#b6652a")
  {
    assert Plain("hcl:#b6652a");
    assert "hcl:#b6652a" == "hcl:" + "#b6652a";
    assert IsHairColor("#b6652a");
    HairColorToken("#b6652a");
  }

  lemma Byr1944Token()
    ensures CheckToken("byr:1944") == Done(true) && Plain("byr:1944")
  {
    assert Plain("byr:1944");
    assert "byr:1944" == "byr:" + "1944";
    FourDigits('1', '9', '4', '4');
    BirthYearToken("1944");
  }

  lemma Eyr2021Token()
    ensures CheckToken("eyr:2021") == Done(true) && Plain("eyr:2021")
  {
    assert Plain("eyr:2021");
    assert "eyr:2021" == "eyr:" + "2021";
    FourDigits('2', '0', '2', '1');
    ExpirationYearToken("2021");
  }

  lemma Pid093154719Token()
    ensures CheckToken("pid:093154719") == Done(true) && Plain("pid:093154719")
  {
    assert Plain("pid:093154719");
    assert "pid:093154719" == "pid:" + "093154719";
    assert IsPassportId("093154719");
    PassportIdToken("093154719");
  }

}
