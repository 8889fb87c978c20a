/** The two anchored regular expressions of the validator, `^#[0-9a-f]{6}$`
    and `^[0-9]{9}$`, as sequences of bracket classes each repeated a fixed
    number of times and matched against the whole text. */
module Pattern {

  /** A bracket class such as `[0-9a-f]`: inclusive char ranges. */
  datatype CharClass = CharClass(ranges: seq<(char, char)>)

  predicate InRanges(c: char, ranges: seq<(char, char)>)
    decreases |ranges|
  {
    |ranges| > 0 && ((ranges[0].0 <= c <= ranges[0].1) || InRanges(c, ranges[1..]))
  }

  predicate InClass(c: char, cls: CharClass)
  {
    InRanges(c, cls.ranges)
  }

  /** One regex item: a class followed by the counted repetition `{count}`
      (a bare literal or class is the case `count == 1`). */
  datatype Piece = Piece(cls: CharClass, count: nat)

  /** A pattern between the anchors `^` and `$`. */
  type Pattern = seq<Piece>

  predicate AllInClass(s: string, cls: CharClass)
  {
    forall i :: 0 <= i < |s| ==> InClass(s[i], cls)
  }

  /** `is_match` of `^p$`: the whole text is consumed, piece by piece. */
  predicate FullMatch(p: Pattern, s: string)
    decreases |p|
  {
    if |p| == 0 then |s| == 0
    else
      && p[0].count <= |s|
      && AllInClass(s[..p[0].count], p[0].cls)
      && FullMatch(p[1..], s[p[0].count..])
  }

  const Hash: CharClass := CharClass([('#', '#')])
  const DecimalDigit: CharClass := CharClass([('0', '9')])
  const LowerHexDigit: CharClass := CharClass([('0', '9'), ('a', 'f')])

  /** `^#[0-9a-f]{6}$` */
  const HairColorPattern: Pattern := [Piece(Hash, 1), Piece(LowerHexDigit, 6)]

  /** `^[0-9]{9}$` */
  const PassportIdPattern: Pattern := [Piece(DecimalDigit, 9)]

  predicate IsLowerHex(c: char)
  {
    '0' <= c <= '9' || 'a' <= c <= 'f'
  }

  /** Reference: `#` and then exactly six lower-case hex digits. */
  predicate IsHairColor(v: string)
  {
    |v| == 7 && v[0] == '#' && forall i :: 1 <= i < 7 ==> IsLowerHex(v[i])
  }

  /** Reference: exactly nine decimal digits. */
  predicate IsPassportId(v: string)
  {
    |v| == 9 && forall i :: 0 <= i < 9 ==> '0' <= v[i] <= '9'
  }

  /** The number of chars a pattern consumes. */
  function Width(p: Pattern): nat
    decreases |p|
  {
    if |p| == 0 then 0 else p[0].count + Width(p[1..])
  }

  /** A pattern matches only texts of its fixed width. */
  lemma {:induction false} FullMatchLength(p: Pattern, s: string)
    requires FullMatch(p, s)
    ensures |s| == Width(p)
    decreases |p|
  {
    if |p| > 0 {
      FullMatchLength(p[1..], s[p[0].count..]);
    }
  }

  lemma FullMatchCons(x: Piece, rest: Pattern, s: string)
    ensures FullMatch([x] + rest, s) <==>
      x.count <= |s| && AllInClass(s[..x.count], x.cls) && FullMatch(rest, s[x.count..])
  {
    assert ([x] + rest)[1..] == rest;
  }

  lemma FullMatchSingle(x: Piece, s: string)
    ensures FullMatch([x], s) <==> |s| == x.count && AllInClass(s, x.cls)
  {
    FullMatchCons(x, [], s);
    assert [x] + [] == [x];
    if |s| >= x.count {
      assert |s[x.count..]| == 0 <==> |s| == x.count;
      if |s| == x.count { assert s[..x.count] == s; }
    }
  }

  lemma LowerHexClass(c: char)
    ensures InClass(c, LowerHexDigit) <==> IsLowerHex(c)
  {
    assert LowerHexDigit.ranges[1..] == [('a', 'f')];
    assert LowerHexDigit.ranges[1..][1..] == [];
  }

  lemma HairColorMatch(v: string)
    ensures FullMatch(HairColorPattern, v) <==> IsHairColor(v)
  {
    var hex := Piece(LowerHexDigit, 6);
    assert HairColorPattern == [Piece(Hash, 1)] + [hex];
    FullMatchCons(Piece(Hash, 1), [hex], v);
    if |v| >= 1 {
      assert AllInClass(v[..1], Hash) <==> v[0] == '#' by {
        assert v[..1][0] == v[0];
        assert Hash.ranges[1..] == [];
      }
      FullMatchSingle(hex, v[1..]);
      if |v| == 7 {
        assert AllInClass(v[1..], LowerHexDigit) <==> forall i :: 1 <= i < 7 ==> IsLowerHex(v[i]) by {
          forall i | 1 <= i < 7 ensures InClass(v[1..][i - 1], LowerHexDigit) <==> IsLowerHex(v[i]) {
            LowerHexClass(v[i]);
          }
        }
      }
    }
  }

  lemma PassportIdMatch(v: string)
    ensures FullMatch(PassportIdPattern, v) <==> IsPassportId(v)
  {
    FullMatchSingle(Piece(DecimalDigit, 9), v);
    forall c: char ensures InClass(c, DecimalDigit) <==> '0' <= c <= '9' {
      assert DecimalDigit.ranges[1..] == [];
    }
  }
}
