/** Properties of `validate` and `parse_passports`. */
module PassportFacts {
  import opened Outcomes
  import opened RustStr
  import opened Counting
  import opened Fields
  import opened Passport

  // ---------------------------------------------------------------------
  // Tokenizing

  lemma {:induction false} ReplaceCharAppend(a: string, b: string, from: char, to: char)
    ensures ReplaceChar(a + b, from, to) == ReplaceChar(a, from, to) + ReplaceChar(b, from, to)
    decreases |a|
  {
    if |a| == 0 {
      assert a + b == b;
    } else {
      assert (a + b)[0] == a[0];
      assert (a + b)[1..] == a[1..] + b;
      ReplaceCharAppend(a[1..], b, from, to);
    }
  }

  lemma ReplaceCharAbsent(s: string, from: char, to: char)
    requires from !in s
    ensures ReplaceChar(s, from, to) == s
  {
  }

  /** A token with neither a space nor a newline is its own tokenization. */
  lemma TokensOfToken(t: string)
    requires BlankFree(t)
    ensures Tokens(t) == [t]
  {
    ReplaceCharAbsent(t, '\n', ' ');
    SplitJoinChar([t], ' ');
  }

  /** Appending `" " + t` to a record appends the token `t`. */
  lemma TokensAppend(record: string, t: string)
    requires BlankFree(t)
    ensures Tokens(record + " " + t) == Tokens(record) + [t]
  {
    var a := ReplaceChar(record, '\n', ' ');
    ReplaceCharAppend(record + " ", t, '\n', ' ');
    ReplaceCharAppend(record, " ", '\n', ' ');
    assert ReplaceChar(" ", '\n', ' ') == " ";
    ReplaceCharAbsent(t, '\n', ' ');
    assert ReplaceChar(record + " " + t, '\n', ' ') == a + [' '] + t;
    SplitAppendChar(a, ' ', t);
    SplitJoinChar([t], ' ');
  }

  /** Tokens joined by single spaces tokenize back to themselves. */
  lemma TokensOfJoin(ts: seq<string>)
    requires |ts| >= 1
    requires forall k :: 0 <= k < |ts| ==> BlankFree(ts[k])
    ensures Tokens(Join(ts, " ")) == ts
  {
    JoinAvoids(ts, " ", '\n');
    ReplaceCharAbsent(Join(ts, " "), '\n', ' ');
    SplitJoinChar(ts, ' ');
  }

  // ---------------------------------------------------------------------
  // Counting records

  /** Empty input has no valid passport: it is one empty record, whose only
      token is the empty token. */
  lemma EmptyInputCountsZero()
    ensures ParsePassports("") == Done(0)
  {
    assert Records("") == [""];
    assert Tokens("") == [""] by {
      assert ReplaceChar("", '\n', ' ') == "";
    }
    assert CheckToken("") == Done(false);
    assert PassingTokens("") == Done(0) by {
      assert [""][1..] == [];
    }
    assert Validate("") == Done(false);
    assert [""][1..] == [];
  }

  /** The count is the number of records that pass `validate`. */
  lemma ParsePassportsCountsValidRecords(input: string)
    requires ParsePassports(input).Done?
    ensures ParsePassports(input).value == |KeptPositions(Records(input), Validate)|
  {
    CountWhereIsCardinality(Records(input), Validate);
  }

  /** Every newline is followed by a char other than a newline: the text
      holds no blank line and does not end in a newline. */
  predicate LoneNewlines(a: string)
  {
    forall j :: 0 <= j < |a| && a[j] == '\n' ==> j + 1 < |a| && a[j + 1] != '\n'
  }

  /** Text without a newline has no blank line in it. */
  lemma NoNewlineIsLone(a: string)
    requires '\n' !in a
    ensures LoneNewlines(a)
  {
  }

  lemma OccursAtBlankLine(s: string, j: int)
    ensures OccursAt(s, "\n\n", j) <==> 0 <= j && j + 1 < |s| && s[j] == '\n' && s[j + 1] == '\n'
  {
    if 0 <= j && j + 1 < |s| {
      assert s[j..j + 2] == [s[j], s[j + 1]];
    }
  }

  /** A record without blank lines is the first record of anything that
      follows it after a blank line. */
  lemma SplitAtBlankLine(a: string, b: string)
    requires LoneNewlines(a)
    ensures Records(a + "\n\n" + b) == [a] + Records(b)
  {
    var s := a + "\n\n" + b;
    forall j | 0 <= j < |a| ensures !OccursAt(s, "\n\n", j) {
      OccursAtBlankLine(s, j);
      assert s[j] == a[j];
      if j + 1 < |a| {
        assert s[j + 1] == a[j + 1];
      }
    }
    SplitCons(a, "\n\n", b);
  }

  /** A text without blank lines is a single record, even when it ends in
      a newline. */
  lemma SingleRecord(a: string)
    requires forall j :: 0 <= j && j + 1 < |a| ==> !(a[j] == '\n' && a[j + 1] == '\n')
    ensures Records(a) == [a]
  {
    forall j ensures !OccursAt(a, "\n\n", j) {
      OccursAtBlankLine(a, j);
    }
  }

  /** A record followed by a single trailing newline, as the last line of an
      input usually is, stays one record with the newline kept. */
  lemma TrailingNewlineRecord(a: string)
    requires LoneNewlines(a)
    ensures Records(a + "\n") == [a + "\n"]
  {
    var s := a + "\n";
    forall j | 0 <= j && j + 1 < |s|
      ensures !(s[j] == '\n' && s[j + 1] == '\n')
    {
      assert s[j] == a[j];
      if j + 1 < |a| {
        assert s[j + 1] == a[j + 1];
      }
    }
    SingleRecord(s);
  }

  /** Three newlines in a row: the leftmost two are the blank line, so the
      first record is empty and the second is the remaining newline. */
  lemma ThreeNewlines()
    ensures Records("\n\n\n") == ["", "\n"]
  {
    SplitAtBlankLine("", "\n");
    assert "" + "\n\n" + "\n" == "\n\n\n";
    SingleRecord("\n");
  }

  /** Appending a newline-free token after a single separator keeps the
      text free of blank lines. */
  lemma LoneNewlinesAfter(a: string, sep: string, t: string)
    requires LoneNewlines(a)
    requires sep == " " || sep == "\n"
    requires |t| > 0 && '\n' !in t
    ensures LoneNewlines(a + sep + t)
  {
    var s := a + sep + t;
    forall j | 0 <= j < |s| && s[j] == '\n' ensures j + 1 < |s| && s[j + 1] != '\n' {
      if j < |a| {
        assert s[j] == a[j];
        if j + 1 < |a| { assert s[j + 1] == a[j + 1]; }
      } else if j == |a| {
        assert s[j + 1] == t[0];
      }
    }
  }

  // ---------------------------------------------------------------------
  // The count-based verdict

  /** A record is valid exactly when seven of its tokens pass their key's
      rule (and none panics); which keys those are does not matter. */
  lemma CountBasedVerdict(record: string)
    ensures Validate(record) == Done(true) <==>
      PassingTokens(record).Done? && |KeptPositions(Tokens(record), CheckToken)| == 7
  {
    if PassingTokens(record).Done? {
      CountWhereIsCardinality(Tokens(record), CheckToken);
    }
  }

  lemma SameCountSameVerdict(r1: string, r2: string)
    requires PassingTokens(r1) == PassingTokens(r2)
    ensures Validate(r1) == Validate(r2)
  {
  }

  /** A further passing token pushes a valid record's count to eight, so
      repeating a valid field makes a complete record invalid. */
  lemma RepeatedFieldInvalidates(record: string, t: string)
    requires Validate(record) == Done(true)
    requires CheckToken(t) == Done(true)
    requires BlankFree(t)
    ensures Validate(record + " " + t) == Done(false)
  {
    TokensAppend(record, t);
    CountWhereAppend(Tokens(record), [t], CheckToken);
    assert [t][1..] == [];
  }

  /** The verdict counts passing tokens and never asks which keys they
      carry: on a record with six passing tokens, any seventh passing token
      makes it valid, even one whose key is already there, so a repeated
      field can stand in for a missing one. */
  lemma SeventhPassingCompletes(record: string, t: string)
    requires PassingTokens(record) == Done(6)
    requires CheckToken(t) == Done(true)
    requires BlankFree(t)
    ensures Tokens(record + " " + t) == Tokens(record) + [t]
    ensures Validate(record + " " + t) == Done(true)
  {
    TokensAppend(record, t);
    CountWhereSnoc(Tokens(record), t, CheckToken, 6, true);
  }

  /** A token that does not pass leaves the verdict alone. */
  lemma FailingTokenIsNeutral(record: string, t: string)
    requires CheckToken(t) == Done(false)
    requires BlankFree(t)
    ensures Validate(record + " " + t) == Validate(record)
  {
    TokensAppend(record, t);
    CountWhereAppend(Tokens(record), [t], CheckToken);
    CountWhereSingle(t, CheckToken);
    var before := PassingTokens(record);
    assert PassingTokens(record + " " + t) == AddCounts(before, Done(0));
    AddCountsZero(before);
    SameCountSameVerdict(record + " " + t, record);
  }

  /** In particular a `cid` field never changes the verdict. */
  lemma CidIsNeutral(record: string, v: string)
    requires BlankFree(v)
    ensures Validate(record + " cid:" + v) == Validate(record)
  {
    CidToken(v);
    assert record + " cid:" + v == record + " " + ("cid:" + v);
    FailingTokenIsNeutral(record, "cid:" + v);
  }

  // ---------------------------------------------------------------------
  // Order and separators

  /** The verdict depends only on the multiset of tokens. */
  lemma VerdictDependsOnTokenMultiset(r1: string, r2: string)
    requires multiset(Tokens(r1)) == multiset(Tokens(r2))
    ensures Validate(r1) == Validate(r2)
  {
    CountWherePermutation(Tokens(r1), Tokens(r2), CheckToken);
  }

  /** Reordering the space-separated tokens of a record keeps its verdict. */
  lemma TokenOrderIrrelevant(ts: seq<string>, us: seq<string>)
    requires |ts| >= 1 && multiset(ts) == multiset(us)
    requires forall k :: 0 <= k < |ts| ==> BlankFree(ts[k])
    ensures Validate(Join(ts, " ")) == Validate(Join(us, " "))
  {
    assert |us| == |multiset(us)| == |multiset(ts)| == |ts|;
    forall k | 0 <= k < |us| ensures BlankFree(us[k]) {
      assert us[k] in multiset(us);
      assert us[k] in multiset(ts);
    }
    TokensOfJoin(ts);
    TokensOfJoin(us);
    VerdictDependsOnTokenMultiset(Join(ts, " "), Join(us, " "));
  }

  /** Newlines and spaces are interchangeable separators. */
  lemma NewlineIsSpace(r1: string, r2: string)
    requires |r1| == |r2|
    requires forall i :: 0 <= i < |r1| ==> r1[i] == r2[i] || (r1[i] in " \n" && r2[i] in " \n")
    ensures Validate(r1) == Validate(r2)
  {
    assert ReplaceChar(r1, '\n', ' ') == ReplaceChar(r2, '\n', ' ');
  }

  // ---------------------------------------------------------------------
  // Count semantics against set semantics

  /** `k` is the key of some passing token. */
  predicate HasPassing(ts: seq<string>, k: string)
  {
    exists i :: 0 <= i < |ts| && CheckToken(ts[i]) == Done(true) && Key(ts[i]) == k
  }

  /** No required key is carried by two passing tokens. */
  predicate NoRepeatedPass(ts: seq<string>)
  {
    DistinctKeptKeys(ts, CheckToken, Key)
  }

  function PassingKeys(ts: seq<string>): set<string>
  {
    KeptKeys(ts, CheckToken, Key)
  }

  /** The key of a passing token is one of the required fields. */
  lemma PassingKeyIsRequired(t: string)
    requires CheckToken(t) == Done(true)
    ensures Key(t) in RequiredFields
  {
    var k := t[..3];
    assert ':' !in k;
    assert t == k + ":" + t[4..];
    SplitToken(k, t[4..]);
  }

  lemma RequiredSetSize()
    ensures |(set k | k in RequiredFields)| == 7
  {
    var keys := {};
    var i := 0;
    while i < |RequiredFields|
      invariant i <= |RequiredFields|
      invariant keys == set k | k in RequiredFields[..i]
      invariant |keys| == i
    {
      assert RequiredFields[i] !in RequiredFields[..i];
      keys := keys + {RequiredFields[i]};
      i := i + 1;
    }
    assert RequiredFields[..i] == RequiredFields;
  }

  lemma SubsetOfSameSize<T>(a: set<T>, b: set<T>)
    requires a <= b && |a| == |b|
    ensures a == b
  {
    assert b == a + (b - a);
    assert |b| == |a| + |b - a|;
    assert b - a == {};
  }

  /** Every passing key is required. */
  lemma PassingKeysRequired(ts: seq<string>)
    ensures PassingKeys(ts) <= set k | k in RequiredFields
  {
    forall i | 0 <= i < |ts| && CheckToken(ts[i]) == Done(true)
      ensures Key(ts[i]) in RequiredFields
    {
      PassingKeyIsRequired(ts[i]);
    }
  }

  /** Seven passing tokens with distinct keys are exactly the seven required
      keys. */
  lemma SevenDistinctPassing(ts: seq<string>)
    requires NoRepeatedPass(ts)
    ensures |KeptPositions(ts, CheckToken)| == 7 <==>
      forall k :: k in RequiredFields ==> HasPassing(ts, k)
  {
    var keys := PassingKeys(ts);
    var required := set k | k in RequiredFields;
    KeptKeysCount(ts, CheckToken, Key);
    RequiredSetSize();
    PassingKeysRequired(ts);
    forall k ensures k in keys <==> HasPassing(ts, k) {
      InKeptKeys(ts, CheckToken, Key, k);
    }
    if |keys| == 7 {
      SubsetOfSameSize(keys, required);
    }
    if required <= keys {
      assert keys == required;
    }
  }

  /** When no required key passes twice, counting agrees with the set check:
      a record is valid exactly when every required key has a passing
      token. */
  lemma SetSemanticsWithoutRepeats(record: string)
    requires Validate(record).Done?
    requires NoRepeatedPass(Tokens(record))
    ensures Validate(record) == Done(true) <==>
      forall k :: k in RequiredFields ==> HasPassing(Tokens(record), k)
  {
    CountBasedVerdict(record);
    SevenDistinctPassing(Tokens(record));
  }
}
