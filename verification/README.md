# Passport validation (Advent of Code 2020, day 4)

The program reads a batch of passport records and prints how many are valid.
The model is pure Dafny and covers three Rust functions:

- **`parse_passports`** cuts the input into records at every blank line
  (`"\n\n"`) and counts the records that `validate` accepts.
- **`validate`** turns newlines into spaces and splits the record at single
  spaces into `key:value` tokens.
  - Each token is split at its first colon and judged by its key's rule:
    - `byr`, `iyr` and `eyr` need an integer literal in a year range;
    - `hcl` and `pid` need an anchored regular-expression match;
    - `ecl` needs one of seven colours;
    - `hgt` is judged by `valid_height`;
    - `cid`, unknown keys and tokens without a colon never pass.
  - The record is valid when the number of passing tokens equals the number
    of required fields, seven. The program counts; it does not check which
    keys passed.
- **`valid_height`** treats the last two chars as the unit and the rest as
  the number.
  - `in` needs 59..=76 and `cm` needs 150..=193; any other unit fails.
  - A value shorter than two chars makes `height.len() - 2` underflow, and
    the program panics.

A panic anywhere stops the whole count. So every verdict and count is an
`Outcome`: `Done(value)` or `Panic`. The model reproduces the Rust library
behaviour the program relies on:

- `str::split` cuts at the leftmost non-overlapping occurrences and keeps
  empty pieces.
- `splitn(2, ':')` splits at the first colon only.
- `replace` works char by char.
- `i64::from_str` allows an optional sign, requires at least one digit and
  rejects values outside 64 bits.
- The two anchored patterns `^#[0-9a-f]{6}$` and `^[0-9]{9}$` are modelled
  exactly.

Modules, one per file:

- `Outcomes`: `Option`, `Outcome`, and adding counts that may have panicked.
- `RustStr`: `split`, `splitn(2, _)`, `replace`, and a `Join` that undoes
  `split`.
- `IntParse`: `i64::from_str` against a digit-string reference meaning.
- `Pattern`: the two anchored patterns as sequences of repeated char
  classes.
- `Counting`: `.filter(..).count()` with a panicking predicate.
- `Fields`: the per-token rules and `valid_height`.
- `Passport`: `validate` and `parse_passports`.
- `PassportFacts`: properties relating several calls.
- `Samples`: the program's unit-test inputs, checked against the model.

## Model

| member | source | states |
|---|---|---|
| Passport.ParsePassports | src/main.rs:23-29 | the count never exceeds the number of blank-line-separated records, and it panics exactly when validating some record panics |
| Passport.Records | src/main.rs:24-25 | an input splits into at least one record, no record contains a blank line, and the records joined with blank lines give back the input |
| Passport.Tokens | src/main.rs:36-38 | a record has at least one token, no token contains a space or a newline, and the tokens joined with spaces give back the record with its newlines turned into spaces |
| Passport.Validate | src/main.rs:31-67 | the verdict panics exactly when some token is `hgt:` followed by fewer than two chars |
| PassportFacts.EmptyInputCountsZero | src/main.rs:87-90 | an empty input has no valid passport |
| PassportFacts.ParsePassportsCountsValidRecords | src/main.rs:23-29 | when nothing panics, the count is the number of record positions that `validate` accepts |
| PassportFacts.SplitAtBlankLine | src/main.rs:25 | a record that has no blank line and does not end in a newline, followed by a blank line and more text, is the first record, and the remaining records are those of the rest; the newline condition is needed, because `"x\n" + "\n\n" + b` is cut at index 1 |
| PassportFacts.SingleRecord | src/main.rs:25 | text without a blank line is a single record, even when it ends in a newline |
| PassportFacts.TrailingNewlineRecord | src/main.rs:25 | a record followed by one trailing newline stays a single record that keeps the newline |
| PassportFacts.ThreeNewlines | src/main.rs:25 | three newlines in a row are cut at the leftmost two, giving an empty record and then a record holding one newline |
| PassportFacts.TokensOfToken | src/main.rs:36-38 | a text without spaces or newlines is its own only token |
| PassportFacts.TokensAppend | src/main.rs:36-38 | appending a space and a blank-free token appends exactly that token to the token list |
| PassportFacts.TokensOfJoin | src/main.rs:36-38 | blank-free tokens joined with spaces split back into the same tokens |
| PassportFacts.NewlineIsSpace | src/main.rs:37-38 | two records that differ only in spaces versus newlines at the same positions get the same verdict |
| PassportFacts.CountBasedVerdict | src/main.rs:36-66 | a record is valid exactly when nothing panics and exactly seven token positions pass their key's rule |
| PassportFacts.SameCountSameVerdict | src/main.rs:65-66 | records with the same passing-token count get the same verdict |
| PassportFacts.RepeatedFieldInvalidates | src/main.rs:40-66 | adding one more passing token to a valid record makes it invalid, since eight is not seven |
| PassportFacts.SeventhPassingCompletes | src/main.rs:40-66 | a record with six passing tokens becomes valid when any seventh passing token is appended, whatever its key |
| PassportFacts.FailingTokenIsNeutral | src/main.rs:40-66 | appending a token that fails without panicking leaves the verdict unchanged |
| PassportFacts.CidIsNeutral | src/main.rs:61 | appending a `cid` token never changes the verdict |
| PassportFacts.VerdictDependsOnTokenMultiset | src/main.rs:36-66 | records whose tokens are the same multiset get the same verdict |
| PassportFacts.TokenOrderIrrelevant | src/main.rs:36-66 | reordering the blank-free tokens of a record does not change its verdict |
| PassportFacts.PassingKeyIsRequired | src/main.rs:34-63 | the key of a passing token is one of the seven required fields |
| PassportFacts.PassingKeysRequired | src/main.rs:34-63 | the set of keys of passing tokens is a subset of the required fields |
| PassportFacts.RequiredSetSize | src/main.rs:34 | the seven required field names are distinct |
| PassportFacts.SevenDistinctPassing | src/main.rs:34-66 | when no key passes twice, seven passing positions means every required key has a passing token, and conversely |
| PassportFacts.SetSemanticsWithoutRepeats | src/main.rs:31-67 | when no key passes twice and nothing panics, a record is valid exactly when every required key has a passing token |
| Counting.CountWhere | src/main.rs:40-65 | a filtered count panics exactly when the predicate panics on some element, and otherwise is at most the length |
| Counting.CountWhereAppend | src/main.rs:40-65 | counting over a concatenation adds the two counts, with a panic on either side winning |
| Counting.CountWherePermutation | src/main.rs:40-65 | a count does not depend on the order of the elements |
| Counting.CountWhereIsCardinality | src/main.rs:40-65 | a count that does not panic equals the number of kept positions |
| Counting.CountWhereSnoc | src/main.rs:40-65 | one more element adds one to the count exactly when the predicate keeps it |
| Counting.KeptKeysCount | src/main.rs:40-66 | when no two kept elements share a key, there are as many distinct keys as kept positions |
| RustStr.Find | src/main.rs:25 | the search for a separator returns its leftmost occurrence, or none when there is no occurrence |
| RustStr.Split | src/main.rs:25 | splitting gives at least one piece, no piece contains the separator, and there are at most length + 1 pieces |
| RustStr.JoinSplit | src/main.rs:25 | joining the pieces with the separator gives back the text |
| RustStr.SplitCons | src/main.rs:25 | `split` cuts at the leftmost occurrence: when no occurrence of the separator starts inside `a`, `a + sep + b` splits into `a` followed by the pieces of `b` |
| RustStr.SplitKeepsAbsent | src/main.rs:38 | a char that the text lacks appears in no piece of its split |
| RustStr.SplitRemovesChar | src/main.rs:38 | no piece of a split at a one-char separator contains that char |
| RustStr.SplitJoinChar | src/main.rs:38 | splitting at a one-char separator undoes joining separator-free pieces |
| RustStr.SplitAppendChar | src/main.rs:38 | splitting at a one-char separator distributes over a separator in the middle of the text |
| RustStr.SplitOnce | src/main.rs:41 | `splitn(2, c)` gives a head without `c`; there is a tail exactly when `c` occurs, and head, `c` and tail rebuild the text |
| RustStr.SplitOnceIsFirstPiece | src/main.rs:38-41 | the head of `splitn(2, c)` is the first piece of `split(c)`, and splitting the tail gives the remaining pieces |
| RustStr.ReplaceChar | src/main.rs:37 | `replace` keeps the length and swaps exactly the occurrences of one char |
| IntParse.ParseInt | src/main.rs:43-54 | parsing succeeds exactly on an optional sign followed by one or more digits, with the value of those digits |
| IntParse.ParseI64 | src/main.rs:71-78 | a parse result lies in the 64-bit range and agrees with the unbounded parse; an in-range value always parses |
| IntParse.InRangeIgnoresWidth | src/main.rs:43-54 | for ranges inside 64 bits, "parses and is in range" means "is an integer literal whose value is in range" |
| IntParse.ParseRendered | src/main.rs:71-74 | a number printed in decimal parses back to itself, with or without a leading `+`, and with `-` to its negation |
| IntParse.LeadingZero | src/main.rs:43-54 | a leading zero does not change the value of a digit string |
| Pattern.HairColorMatch | src/main.rs:32 | `^#[0-9a-f]{6}$` matches exactly `#` followed by six lower-case hex digits |
| Pattern.PassportIdMatch | src/main.rs:33 | `^[0-9]{9}$` matches exactly nine decimal digits |
| Pattern.FullMatchLength | src/main.rs:32-33 | an anchored pattern of fixed repetitions matches only texts of its width |
| Fields.RuleForRequired | src/main.rs:34-62 | a key has a rule that can pass exactly when it is one of the seven required fields |
| Fields.CheckToken | src/main.rs:40-63 | a passing token starts with a required key and a colon, and the only tokens that panic are `hgt:` followed by at most one char |
| Fields.SplitToken | src/main.rs:41 | a colon-free key, a colon and any value split back into that key and value |
| Fields.CheckKeyValue | src/main.rs:41-63 | a token with a colon-free key is judged by that key's rule on the value |
| Fields.BirthYearToken | src/main.rs:43-46 | `byr` passes exactly for an integer literal in 1920..=2002 |
| Fields.IssueYearToken | src/main.rs:47-50 | `iyr` passes exactly for an integer literal in 2010..=2020 |
| Fields.ExpirationYearToken | src/main.rs:51-54 | `eyr` passes exactly for an integer literal in 2020..=2030 |
| Fields.YearToken | src/main.rs:43-54 | a year key passes exactly for an integer literal in its range, and an unparsable value fails without panicking |
| Fields.PaddedYearToken | src/main.rs:43-54 | a year with an extra leading zero gets the same verdict as without it |
| Fields.PaddedBirthYear | src/main.rs:43-46 | `byr:02002` passes |
| Fields.HairColorToken | src/main.rs:55 | `hcl` passes exactly for `#` and six lower-case hex digits |
| Fields.PassportIdToken | src/main.rs:56 | `pid` passes exactly for nine decimal digits |
| Fields.MatchesToken | src/main.rs:55-56 | a pattern key passes exactly when the pattern matches the whole value |
| Fields.EyeColorToken | src/main.rs:57-59 | `ecl` passes exactly for the seven listed colours |
| Fields.HeightToken | src/main.rs:60 | an `hgt` token gets the verdict of `valid_height` on its value, panic included |
| Fields.UnknownKeyToken | src/main.rs:61-62 | a colon-free key outside the required list never passes and never panics |
| Fields.CidToken | src/main.rs:61 | `cid` never passes and never panics |
| Fields.BareToken | src/main.rs:42-62 | a token without a colon never passes and never panics |
| Fields.ValidHeight | src/main.rs:69-81 | `valid_height` panics exactly on values shorter than two chars, and passes only with unit `cm` or `in` |
| Fields.ValidHeightMeaning | src/main.rs:69-81 | for two chars or more, the verdict is a `cm` unit with a literal in 150..=193, or an `in` unit with a literal in 59..=76 |
| Fields.HeightRendered | src/main.rs:69-81 | a decimal number followed by `cm` passes exactly for 150..=193, and followed by `in` exactly for 59..=76 |
| Fields.HeightValue | src/main.rs:70-78 | a height written as an integer literal and a unit is judged by the unit's range on that literal's value |
| Fields.HeightBoundsCmLow | src/main.rs:254-255 | `150cm` passes and `149cm` fails |
| Fields.HeightBoundsCmHigh | src/main.rs:252-253 | `193cm` passes and `194cm` fails |
| Fields.HeightBoundsInLow | src/main.rs:256-257 | `59in` passes and `58in` fails |
| Fields.HeightBoundsInHigh | src/main.rs:258-259 | `76in` passes and `77in` fails |
| Fields.ShortHeightPanics | src/main.rs:69-70 | `hgt:` and `hgt:5` panic, while a bare `hgt` without a colon just fails |
| Samples.FirstSampleCountsTwo | src/main.rs:92-112 | the first sample batch has two valid passports |
| Samples.SecondSampleCountsFour | src/main.rs:113-146 | the second sample batch has four valid passports |
| Samples.ValidExampleVerdict | src/main.rs:148-156 | the `valid_example` record is valid |
| Samples.MissingHeightVerdict | src/main.rs:158-164 | the `missing_height` record is invalid |
| Samples.NorthPollIdVerdict | src/main.rs:166-172 | the `north_poll_id` record is valid |
| Samples.MissingCidAndByrVerdict | src/main.rs:174-180 | the `missing_cid_and_byr` record is invalid |
| Samples.AssortedInvalid1Verdict | src/main.rs:182-188 | the `assorted_invalid_1` record is invalid |
| Samples.AssortedInvalid2Verdict | src/main.rs:189-195 | the `assorted_invalid_2` record is invalid |
| Samples.AssortedInvalid3Verdict | src/main.rs:196-204 | the `assorted_invalid_3` record is invalid |
| Samples.AssortedInvalid4Verdict | src/main.rs:206-212 | the `assorted_invalid_4` record is invalid |
| Samples.AssortedValid1Verdict | src/main.rs:214-220 | the `assorted_valid_1` record is valid |
| Samples.AssortedValid2Verdict | src/main.rs:222-230 | the `assorted_valid_2` record is valid |
| Samples.AssortedValid3Verdict | src/main.rs:232-240 | the `assorted_valid_3` record is valid |
| Samples.AssortedValid4Verdict | src/main.rs:242-248 | the `assorted_valid_4` record is valid |
| Samples.RepeatedFieldMasksMissingHeight | src/main.rs:34-66 | a record with two birth years and no height token is valid: no passing token has the key `hgt`, yet seven tokens pass |

## Left out

- `main`, reading stdin, printing the count, and the `Error` enum
  (src/main.rs:7-21) are I/O and are not part of this model.
- Non-ASCII text is not modelled faithfully.
  - Model strings are sequences of chars, while Rust's `len` and `split_at`
    count UTF-8 bytes. The two agree on ASCII input, which is what the
    puzzle supplies.
  - On `hgt:é` (one char, two bytes), Rust splits at byte 0 and answers
    false; the model sees one char and panics.
  - On `hgt:aéb`, Rust's `split_at(2)` falls inside `é` and panics; the
    model splits after `a` and answers false.
- The height rule follows the code, not the intended rule.
  - A height value of zero or one char (`hgt:`, `hgt:5`) panics in the
    program, because `height.len() - 2` underflows.
  - The intended rule would reject such a value, giving false.
  - The model keeps the panic and carries it through the counts;
    `Fields.ShortHeightPanics` states it.
- Only the program's two regular expressions are modelled, each as a fixed
  sequence of repeated char classes. The general regex engine is left out.
- Building each pattern with `Regex::new(..).unwrap()` on every call is left
  out. The patterns are constants that always compile.
- The keys of the passing tokens are never checked, because the program only
  counts. A repeated passing field can therefore stand in for a missing one
  (`Samples.RepeatedFieldMasksMissingHeight`).
- The `usize` result of `count` is an unbounded `nat`. A count cannot exceed
  the number of records, so it cannot overflow.
