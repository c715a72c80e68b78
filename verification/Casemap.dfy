/** Case-insensitive comparison: libirc/util.c and irccmp of libirc/isupport.c. */
module Casemap {

  datatype Casemapping = Unknown | Rfc1459 | Ascii | StrictRfc1459

  /** The last character of the upper-case range a mapping folds; the lower-case
      range lies 32 above it. */
  function Top(cm: Casemapping): (c: int)
  {
    match cm
    case Ascii => 90
    case StrictRfc1459 => 93
    case Unknown => 94
    case Rfc1459 => 94
  }

  /** The canonical (lower-case) representative of a character. */
  function FoldChar(top: int, c: char): (r: char)
    requires top <= 94
  {
    if 65 <= c as int <= top then (c as int + 32) as char else c
  }

  function FoldString(top: int, s: string): (r: string)
    requires top <= 94
    ensures |r| == |s|
  {
    seq(|s|, i requires 0 <= i < |s| => FoldChar(top, s[i]))
  }

  /** What irccmp(...) == 0 means. */
  predicate Same(cm: Casemapping, a: string, b: string) {
    FoldString(Top(cm), a) == FoldString(Top(cm), b)
  }

  /** One step of the comparison: the lower character must lie in the upper-case
      range, the higher one in the lower-case range, at equal offsets. */
  predicate CharsMatch(a: char, b: char, sh: int, sl: int, eh: int, el: int) {
    a == b ||
    var l, h := if a > b then b as int else a as int, if a > b then a as int else b as int;
    sh <= h <= eh && sl <= l <= el && h - sh == l - sl
  }

  lemma CharsMatchIsFold(a: char, b: char, top: int)
    requires top <= 94
    ensures CharsMatch(a, b, 97, 65, top + 32, top) <==> FoldChar(top, a) == FoldChar(top, b)
  {}

  /** str_cmphelper without a length limit; a missing character reads as NUL. */
  method CompareScan(a: string, b: string, sh: int, sl: int, eh: int, el: int) returns (r: int)
    requires '\0' !in a && '\0' !in b
    ensures r == 0 <==> |a| == |b| && forall k :: 0 <= k < |a| ==> CharsMatch(a[k], b[k], sh, sl, eh, el)
  {
    var i := 0;
    while i < |a| && i < |b| && CharsMatch(a[i], b[i], sh, sl, eh, el)
      invariant i <= |a| && i <= |b|
      invariant forall k :: 0 <= k < i ==> CharsMatch(a[k], b[k], sh, sl, eh, el)
    {
      i := i + 1;
    }
    var x := if i < |a| then a[i] as int else 0;
    var y := if i < |b| then b[i] as int else 0;
    r := x - y;
  }

  /** irccmp: zero exactly on strings with the same folding. */
  method Irccmp(cm: Casemapping, a: string, b: string) returns (r: int)
    requires '\0' !in a && '\0' !in b
    ensures r == 0 <==> Same(cm, a, b)
  {
    match cm {
      case Unknown => r := CompareScan(a, b, 97, 65, 126, 94);
      case Rfc1459 => r := CompareScan(a, b, 97, 65, 126, 94);
      case Ascii => r := CompareScan(a, b, 97, 65, 122, 90);
      case StrictRfc1459 => r := CompareScan(a, b, 97, 65, 125, 93);
    }
    SameByChars(cm, a, b);
  }

  lemma SameByChars(cm: Casemapping, a: string, b: string)
    ensures Same(cm, a, b) <==>
            |a| == |b| && forall k :: 0 <= k < |a| ==> CharsMatch(a[k], b[k], 97, 65, Top(cm) + 32, Top(cm))
  {
    var t := Top(cm);
    forall k | 0 <= k < |a| && k < |b|
      ensures CharsMatch(a[k], b[k], 97, 65, t + 32, t) <==> FoldString(t, a)[k] == FoldString(t, b)[k]
    {
      CharsMatchIsFold(a[k], b[k], t);
    }
    if |a| == |b| && (forall k :: 0 <= k < |a| ==> CharsMatch(a[k], b[k], 97, 65, t + 32, t)) {
      assert FoldString(t, a) == FoldString(t, b);
    }
    if Same(cm, a, b) {
      assert |FoldString(t, a)| == |FoldString(t, b)|;
    }
  }

  // What the mappings pair besides letters, as (upper case, lower case).
  const BRACKETS: set<(char, char)> := {('[', '{'), (']', '}'), ('\\', '|')}
  const TILDE: set<(char, char)> := {('^', '~')}

  function Paired(cm: Casemapping): (r: set<(char, char)>) {
    match cm
    case Ascii => {}
    case StrictRfc1459 => BRACKETS
    case Rfc1459 => BRACKETS + TILDE
    case Unknown => BRACKETS + TILDE
  }

  /** The same letter but for its case, or a pair of the mapping. */
  predicate Twins(cm: Casemapping, a: char, b: char) {
    || a == b
    || ('A' <= a <= 'Z' && b as int == a as int + 32) || ('A' <= b <= 'Z' && a as int == b as int + 32)
    || (a, b) in Paired(cm) || (b, a) in Paired(cm)
  }

  lemma TwinsFold(cm: Casemapping, a: char, b: char)
    ensures Twins(cm, a, b) <==> FoldChar(Top(cm), a) == FoldChar(Top(cm), b)
  {}

  /** Names are the same exactly when they are character by character. */
  lemma SameIffTwins(cm: Casemapping, a: string, b: string)
    ensures Same(cm, a, b) <==> |a| == |b| && forall k :: 0 <= k < |a| ==> Twins(cm, a[k], b[k])
  {
    hide Twins, CharsMatch;
    SameByChars(cm, a, b);
    forall k | 0 <= k < |a| && k < |b|
      ensures Twins(cm, a[k], b[k]) <==> CharsMatch(a[k], b[k], 97, 65, Top(cm) + 32, Top(cm))
    {
      CharsMatchIsFold(a[k], b[k], Top(cm));
      TwinsFold(cm, a[k], b[k]);
    }
  }

  /** g_ascii_strcasecmp(...) == 0, the comparison of command names and 005 keys. */
  predicate AsciiEq(a: string, b: string) {
    if a == "" || b == "" then a == b
    else FoldChar(90, a[0]) == FoldChar(90, b[0]) && AsciiEq(a[1..], b[1..])
  }

  lemma AsciiEqRefl(a: string)
    ensures AsciiEq(a, a)
  {}

  lemma AsciiNe(a: string, b: string)
    requires a != "" && b != "" && FoldChar(90, a[0]) != FoldChar(90, b[0])
    ensures !AsciiEq(a, b)
  {}

  lemma AsciiEqSym(a: string, b: string)
    ensures AsciiEq(a, b) == AsciiEq(b, a)
  {}

  /** It is the folding comparison of the ascii casemapping. */
  lemma {:induction false} AsciiEqIsSame(a: string, b: string)
    ensures AsciiEq(a, b) <==> Same(Ascii, a, b)
  {
    var x, y := FoldString(90, a), FoldString(90, b);
    if a == "" || b == "" {
      assert |x| == |a| && |y| == |b|;
    } else {
      AsciiEqIsSame(a[1..], b[1..]);
      assert x == [FoldChar(90, a[0])] + FoldString(90, a[1..]);
      assert y == [FoldChar(90, b[0])] + FoldString(90, b[1..]);
      assert x[1..] == FoldString(90, a[1..]) && y[1..] == FoldString(90, b[1..]);
    }
  }

  lemma AsciiEqLength(a: string, b: string)
    ensures AsciiEq(a, b) ==> |a| == |b|
  {
    AsciiEqIsSame(a, b);
    assert |FoldString(90, a)| == |a| && |FoldString(90, b)| == |b|;
  }

  lemma AsciiEqTrans(a: string, b: string, c: string)
    requires AsciiEq(a, b)
    ensures AsciiEq(a, c) == AsciiEq(b, c)
  {
    AsciiEqIsSame(a, b);
    AsciiEqIsSame(a, c);
    AsciiEqIsSame(b, c);
  }
}
