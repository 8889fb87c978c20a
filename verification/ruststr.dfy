/** The handful of Rust `str` operations the validator uses, over `seq<char>`.
    Inputs are taken to be ASCII, so one char is one byte and every index is a
    char boundary. */
module RustStr {
  import opened Outcomes

  /** `pat` occurs in `s` starting at index `i`. */
  predicate OccursAt(s: string, pat: string, i: int)
  {
    0 <= i && i + |pat| <= |s| && s[i..i + |pat|] == pat
  }

  /** `str::find` with a string pattern: the index of the leftmost occurrence. */
  function Find(s: string, pat: string): (r: Option<nat>)
    requires |pat| > 0
    ensures r.Some? ==> OccursAt(s, pat, r.value)
    ensures r.Some? ==> forall j :: 0 <= j < r.value ==> !OccursAt(s, pat, j)
    ensures r.None? ==> forall j :: !OccursAt(s, pat, j)
    decreases |s|
  {
    if |s| < |pat| then None
    else if s[..|pat|] == pat then Some(0)
    else
      assert forall j :: 0 < j ==> (OccursAt(s, pat, j) <==> OccursAt(s[1..], pat, j - 1)) by {
        forall j | 0 < j ensures OccursAt(s, pat, j) <==> OccursAt(s[1..], pat, j - 1) {
          OccursShift(s, pat, j);
        }
      }
      match Find(s[1..], pat)
      case None => None
      case Some(k) => Some(k + 1)
  }

  /** Occurrences past the first char are occurrences in the tail. */
  lemma OccursShift(s: string, pat: string, j: int)
    requires |s| > 0 && j > 0
    ensures OccursAt(s, pat, j) <==> OccursAt(s[1..], pat, j - 1)
  {
    if j + |pat| <= |s| {
      assert s[1..][j - 1..j - 1 + |pat|] == s[j..j + |pat|];
    }
  }

  /** The leftmost occurrence is determined by the occurrences alone. */
  lemma FindIsLeftmost(s: string, pat: string, i: nat)
    requires |pat| > 0
    requires OccursAt(s, pat, i)
    requires forall j :: 0 <= j < i ==> !OccursAt(s, pat, j)
    ensures Find(s, pat) == Some(i)
  {
  }

  /** For a one-char pattern an occurrence is just an equal char. */
  lemma OccursAtChar(s: string, c: char, i: int)
    ensures OccursAt(s, [c], i) <==> 0 <= i < |s| && s[i] == c
  {
    if 0 <= i < |s| {
      assert s[i..i + 1] == [s[i]];
    }
  }

  /** `str::split` with a non-empty pattern: cut at every leftmost,
      non-overlapping occurrence, keeping empty pieces, so the result is
      never empty. */
  function Split(s: string, pat: string): (parts: seq<string>)
    requires |pat| > 0
    ensures |parts| >= 1
    ensures forall k, j :: 0 <= k < |parts| ==> !OccursAt(parts[k], pat, j)
    ensures |parts| <= |s| + 1
    decreases |s|
  {
    match Find(s, pat)
    case None => [s]
    case Some(i) =>
      var head := s[..i];
      assert forall j :: !OccursAt(head, pat, j) by {
        forall j | OccursAt(head, pat, j)
          ensures false
        {
          assert head[j..j + |pat|] == s[j..j + |pat|];
          assert OccursAt(s, pat, j);
        }
      }
      [head] + Split(s[i + |pat|..], pat)
  }

  /** The inverse of `Split`: glue the pieces back with `sep` between them. */
  function Join(parts: seq<string>, sep: string): string
  {
    if |parts| == 0 then ""
    else if |parts| == 1 then parts[0]
    else parts[0] + sep + Join(parts[1..], sep)
  }

  lemma JoinCons(head: string, tail: seq<string>, sep: string)
    requires |tail| >= 1
    ensures Join([head] + tail, sep) == head + sep + Join(tail, sep)
  {
    assert ([head] + tail)[1..] == tail;
  }

  /** Splitting loses nothing: joining the pieces with the pattern gives back
      the input. */
  lemma {:induction false} JoinSplit(s: string, pat: string)
    requires |pat| > 0
    ensures Join(Split(s, pat), pat) == s
    decreases |s|
  {
    match Find(s, pat)
    case None =>
    case Some(i) =>
      var head, rest := s[..i], s[i + |pat|..];
      var tail := Split(rest, pat);
      assert Split(s, pat) == [head] + tail;
      calc {
        Join([head] + tail, pat);
        { JoinCons(head, tail, pat); }
        head + pat + Join(tail, pat);
        { JoinSplit(rest, pat); }
        head + pat + rest;
        { assert s == head + s[i..i + |pat|] + rest; }
        s;
      }
  }

  /** Every char of a piece is a char of the joined text. */
  lemma {:induction false} JoinKeepsChar(parts: seq<string>, sep: string, k: int, c: char)
    requires 0 <= k < |parts| && c in parts[k]
    ensures c in Join(parts, sep)
    decreases |parts|
  {
    if k > 0 {
      JoinKeepsChar(parts[1..], sep, k - 1, c);
      assert Join(parts, sep) == parts[0] + sep + Join(parts[1..], sep);
    }
  }

  /** Joining brings in no new chars: a char missing from the separator and
      from every piece is missing from the joined text. */
  lemma JoinAvoids(parts: seq<string>, sep: string, c: char)
    requires c !in sep
    requires forall k :: 0 <= k < |parts| ==> c !in parts[k]
    ensures c !in Join(parts, sep)
    decreases |parts|
  {
    if |parts| > 1 {
      JoinAvoids(parts[1..], sep, c);
    }
  }

  /** Splitting brings in no new chars: a char missing from the text is
      missing from every piece. */
  lemma SplitKeepsAbsent(s: string, pat: string, c: char)
    requires |pat| > 0 && c !in s
    ensures forall k :: 0 <= k < |Split(s, pat)| ==> c !in Split(s, pat)[k]
  {
    JoinSplit(s, pat);
    forall k | 0 <= k < |Split(s, pat)|
      ensures c !in Split(s, pat)[k]
    {
      if c in Split(s, pat)[k] {
        JoinKeepsChar(Split(s, pat), pat, k, c);
      }
    }
  }

  /** No piece of a split at a one-char separator contains that char. */
  lemma SplitRemovesChar(s: string, c: char)
    ensures forall k :: 0 <= k < |Split(s, [c])| ==> c !in Split(s, [c])[k]
  {
    var parts := Split(s, [c]);
    forall k | 0 <= k < |parts|
      ensures c !in parts[k]
    {
      forall i | 0 <= i < |parts[k]|
        ensures parts[k][i] != c
      {
        OccursAtChar(parts[k], c, i);
      }
    }
  }

  /** Peeling one piece off the front: when the first occurrence of `pat` in
      `a + pat + b` is the one just after `a`, `a` is the first piece. */
  lemma SplitCons(a: string, pat: string, b: string)
    requires |pat| > 0
    requires forall j :: 0 <= j < |a| ==> !OccursAt(a + pat + b, pat, j)
    ensures Split(a + pat + b, pat) == [a] + Split(b, pat)
  {
    var s := a + pat + b;
    assert s[|a|..|a| + |pat|] == pat;
    FindIsLeftmost(s, pat, |a|);
    assert s[..|a|] == a;
    assert s[|a| + |pat|..] == b;
  }

  /** A piece without the one-char separator splits to itself. */
  lemma SplitAbsentChar(a: string, c: char)
    requires c !in a
    ensures Split(a, [c]) == [a]
  {
    forall j ensures !OccursAt(a, [c], j) {
      OccursAtChar(a, c, j);
    }
    assert Find(a, [c]) == None;
  }

  /** Splitting a joined list at a one-char separator peels off its first
      piece when that piece lacks the separator. */
  lemma SplitJoinCharStep(parts: seq<string>, c: char)
    requires |parts| >= 2 && c !in parts[0]
    ensures Split(Join(parts, [c]), [c]) == [parts[0]] + Split(Join(parts[1..], [c]), [c])
  {
    var a := parts[0];
    var b := Join(parts[1..], [c]);
    assert Join(parts, [c]) == a + [c] + b;
    forall j | 0 <= j < |a|
      ensures !OccursAt(a + [c] + b, [c], j)
    {
      OccursAtChar(a + [c] + b, c, j);
      assert (a + [c] + b)[j] == a[j];
    }
    SplitCons(a, [c], b);
  }

  /** With a one-char separator, splitting undoes joining, provided no piece
      contains the separator. */
  lemma {:induction false} SplitJoinChar(parts: seq<string>, c: char)
    requires |parts| >= 1
    requires forall k :: 0 <= k < |parts| ==> c !in parts[k]
    ensures Split(Join(parts, [c]), [c]) == parts
    decreases |parts|
  {
    if |parts| == 1 {
      assert Join(parts, [c]) == parts[0];
      SplitAbsentChar(parts[0], c);
    } else {
      SplitJoinCharStep(parts, c);
      SplitJoinChar(parts[1..], c);
      assert parts == [parts[0]] + parts[1..];
    }
  }

  /** With a one-char separator, splitting distributes over a separator in
      the middle of the text. */
  lemma {:induction false} SplitAppendChar(a: string, c: char, b: string)
    ensures Split(a + [c] + b, [c]) == Split(a, [c]) + Split(b, [c])
    decreases |a|
  {
    var s := a + [c] + b;
    match Find(a, [c])
    case None =>
      forall j | 0 <= j < |a|
        ensures !OccursAt(s, [c], j)
      {
        assert !OccursAt(a, [c], j);
        OccursAtChar(a, c, j);
        OccursAtChar(s, c, j);
      }
      SplitCons(a, [c], b);
    case Some(i) =>
      OccursAtChar(a, c, i);
      var a1, a2 := a[..i], a[i + 1..];
      assert a == a1 + [c] + a2;
      assert s == a1 + [c] + (a2 + [c] + b);
      forall j | 0 <= j < |a1|
        ensures !OccursAt(s, [c], j) && !OccursAt(a, [c], j)
      {
        OccursAtChar(a, c, j);
        OccursAtChar(s, c, j);
      }
      SplitCons(a1, [c], a2 + [c] + b);
      SplitCons(a1, [c], a2);
      SplitAppendChar(a2, c, b);
  }

  /** `str::splitn(2, c)`: the text before the first `c`, and the text after
      it when there is one. */
  function SplitOnce(s: string, c: char): (r: (string, Option<string>))
    ensures c !in r.0
    ensures r.1.None? <==> c !in s
    ensures r.1.None? ==> r.0 == s
    ensures r.1.Some? ==> s == r.0 + [c] + r.1.value
    decreases |s|
  {
    if |s| == 0 then ("", None)
    else if s[0] == c then ("", Some(s[1..]))
    else
      var (before, after) := SplitOnce(s[1..], c);
      assert s == [s[0]] + s[1..];
      ([s[0]] + before, after)
  }

  /** The part before the first `c` is the first piece `split` would give. */
  lemma {:induction false} SplitOnceIsFirstPiece(s: string, c: char)
    ensures SplitOnce(s, c).0 == Split(s, [c])[0]
    ensures SplitOnce(s, c).1.Some? ==> Split(s, [c]) == [SplitOnce(s, c).0] + Split(SplitOnce(s, c).1.value, [c])
  {
    var (before, after) := SplitOnce(s, c);
    match after
    case None =>
      forall j ensures !OccursAt(s, [c], j) { OccursAtChar(s, c, j); }
      assert Find(s, [c]) == None;
    case Some(rest) =>
      forall j | 0 <= j < |before|
        ensures !OccursAt(before + [c] + rest, [c], j)
      {
        OccursAtChar(before + [c] + rest, c, j);
        assert (before + [c] + rest)[j] == before[j];
      }
      SplitCons(before, [c], rest);
  }

  /** `str::replace` of one char by another. */
  function ReplaceChar(s: string, from: char, to: char): (r: string)
    ensures |r| == |s|
    ensures forall i :: 0 <= i < |s| ==> r[i] == (if s[i] == from then to else s[i])
  {
    if |s| == 0 then ""
    else [if s[0] == from then to else s[0]] + ReplaceChar(s[1..], from, to)
  }
}
