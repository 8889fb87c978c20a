/** `validate` and `parse_passports`: a record passes when exactly as many of
    its tokens pass as there are required fields, and the input's count is
    the number of blank-line-separated records that pass. */
module Passport {
  import opened Outcomes
  import opened RustStr
  import opened Counting
  import opened Fields

  /** Text holding neither a space nor a newline, as every token does. */
  predicate BlankFree(t: string)
  {
    ' ' !in t && '\n' !in t
  }

  /** The tokens of a record: newlines become spaces, then split on `' '`.
      No token holds a space or a newline, and joined back with spaces the
      tokens give the record with its newlines turned into spaces. */
  function Tokens(record: string): (ts: seq<string>)
    ensures |ts| >= 1
    ensures forall k :: 0 <= k < |ts| ==> BlankFree(ts[k])
    ensures Join(ts, " ") == ReplaceChar(record, '\n', ' ')
  {
    var line := ReplaceChar(record, '\n', ' ');
    JoinSplit(line, " ");
    assert '\n' !in line by {
      forall i | 0 <= i < |line| ensures line[i] != '\n' { }
    }
    SplitKeepsAbsent(line, " ", '\n');
    SplitRemovesChar(line, ' ');
    Split(line, " ")
  }

  /** Passing tokens counted; `Panic` if a short `hgt` value crashes. */
  function PassingTokens(record: string): Outcome<nat>
  {
    CountWhere(Tokens(record), CheckToken)
  }

  /** `validate`: the count of passing tokens equals the number of required
      fields. It panics exactly when some token is `hgt:` with fewer than two
      chars after the colon. */
  function Validate(record: string): (r: Outcome<bool>)
    ensures r == Panic <==>
      exists i :: 0 <= i < |Tokens(record)| && 4 <= |Tokens(record)[i]| <= 5 && Tokens(record)[i][..4] == "hgt:"
  {
    match PassingTokens(record)
    case Panic => Panic
    case Done(n) => Done(n == |RequiredFields|)
  }

  /** The records of an input: the pieces between occurrences of `"\n\n"`.
      No record holds a blank line, and joined back with blank lines the
      records give the input. */
  function Records(input: string): (rs: seq<string>)
    ensures |rs| >= 1
    ensures forall k, j :: 0 <= k < |rs| ==> !OccursAt(rs[k], "\n\n", j)
    ensures Join(rs, "\n\n") == input
  {
    JoinSplit(input, "\n\n");
    Split(input, "\n\n")
  }

  /** `parse_passports`: how many records pass `validate`; never more than
      the number of records, and a panic exactly when validating some record
      panics. */
  function ParsePassports(input: string): (r: Outcome<nat>)
    ensures r.Done? ==> r.value <= |Records(input)|
    ensures r == Panic <==> exists i :: 0 <= i < |Records(input)| && Validate(Records(input)[i]) == Panic
  {
    CountWhere(Records(input), Validate)
  }
}
