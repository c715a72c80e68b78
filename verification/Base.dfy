/** Shared vocabulary: optional values and the C-string helpers the other modules use.
    A C string is a `string` of byte-valued characters without the terminating NUL. */
module Base {

  datatype Option<+T> = None | Some(value: T)

  /** The offset of the first `c` in `s`, or `|s|` where strchr would answer NULL. */
  function IndexOf(s: string, c: char): (i: nat)
    ensures i <= |s|
    ensures c !in s[..i]
    ensures i < |s| ==> s[i] == c
    ensures i == |s| <==> c !in s
  {
    if s == "" then 0
    else if s[0] == c then 0
    else
      var i := IndexOf(s[1..], c) + 1;
      assert s[..i] == [s[0]] + s[1..][..i - 1];
      assert s == [s[0]] + s[1..];
      i
  }

  lemma IndexOfIs(s: string, c: char, i: nat)
    requires i <= |s| && c !in s[..i]
    requires i < |s| ==> s[i] == c
    ensures IndexOf(s, c) == i
  {
    var k := IndexOf(s, c);
    assert forall j :: 0 <= j < i ==> s[j] in s[..i];
    assert forall j :: 0 <= j < k ==> s[j] in s[..k];
  }

  /** The pieces of `s` between separators; the empty string has no pieces at all. */
  function StrSplit(s: string, sep: char): (r: seq<string>)
  {
    if s == "" then [] else Pieces(s, sep)
  }

  function Pieces(s: string, sep: char): (r: seq<string>)
    ensures |r| >= 1
    ensures forall k :: 0 <= k < |r| ==> sep !in r[k]
    decreases |s|
  {
    var i := IndexOf(s, sep);
    if i == |s| then [s] else [s[..i]] + Pieces(s[i + 1..], sep)
  }

  /** The pieces glued back with one separator between neighbours. */
  function JoinWith(ps: seq<string>, sep: char): (r: string)
  {
    if |ps| == 0 then "" else if |ps| == 1 then ps[0] else ps[0] + [sep] + JoinWith(ps[1..], sep)
  }

  lemma {:induction false} PiecesOfJoin(ps: seq<string>, sep: char)
    requires |ps| >= 1
    requires forall k :: 0 <= k < |ps| ==> sep !in ps[k]
    ensures Pieces(JoinWith(ps, sep), sep) == ps
  {
    if |ps| == 1 {
      IndexOfIs(ps[0], sep, |ps[0]|);
    } else {
      PiecesOfJoin(ps[1..], sep);
      PiecesOfCons(ps[0], JoinWith(ps[1..], sep), sep);
      assert [ps[0]] + ps[1..] == ps;
    }
  }

  /** The first separator cuts off the first piece. */
  lemma PiecesOfCons(p: string, rest: string, sep: char)
    requires sep !in p
    ensures Pieces(p + [sep] + rest, sep) == [p] + Pieces(rest, sep)
  {
    var s := p + [sep] + rest;
    assert s[..|p|] == p && s[|p| + 1..] == rest;
    IndexOfIs(s, sep, |p|);
  }

  lemma {:induction false} JoinOfPieces(s: string, sep: char)
    ensures JoinWith(Pieces(s, sep), sep) == s
    decreases |s|
  {
    var i := IndexOf(s, sep);
    if i < |s| {
      JoinOfPieces(s[i + 1..], sep);
      hide JoinWith;
      JoinCons(s[..i], Pieces(s[i + 1..], sep), sep);
      assert s == s[..i] + [sep] + s[i + 1..];
    }
  }

  lemma JoinCons(p: string, ps: seq<string>, sep: char)
    requires |ps| >= 1
    ensures JoinWith([p] + ps, sep) == p + [sep] + JoinWith(ps, sep)
  {
    assert ([p] + ps)[1..] == ps;
  }

  /** No element occurs at two places. */
  ghost predicate NoDup<T>(s: seq<T>) {
    forall i, j :: 0 <= i < j < |s| ==> s[i] != s[j]
  }

  /** `s` without its `i`-th element: what g_list_remove leaves. */
  function Without<T>(s: seq<T>, i: nat): (r: seq<T>)
    requires i < |s|
    ensures |r| == |s| - 1
    ensures forall k :: 0 <= k < |r| ==> r[k] == s[if k < i then k else k + 1]
  {
    s[..i] + s[i + 1..]
  }

  // ------------------------------------------------------------------- numbers

  predicate IsDigit(c: char) { '0' <= c <= '9' }

  predicate IsBlank(c: char) { c == ' ' || 9 <= c as int <= 13 }

  /** atoi: optional blanks and sign, then digits. */
  function Atoi(s: string): (n: int) {
    if s != "" && IsBlank(s[0]) then Atoi(s[1..])
    else if s != "" && s[0] == '-' then 0 - Digits(s[1..], 0)
    else if s != "" && s[0] == '+' then Digits(s[1..], 0)
    else Digits(s, 0)
  }

  function Digits(s: string, acc: nat): (n: nat) {
    if s != "" && IsDigit(s[0]) then Digits(s[1..], acc * 10 + (s[0] as int - '0' as int)) else acc
  }

  /** "%d" for a non-negative number. */
  function Dec(n: nat): (s: string)
    ensures |s| >= 1 && forall k :: 0 <= k < |s| ==> IsDigit(s[k])
  {
    var d := ['0' + (n % 10) as char];
    if n < 10 then d else Dec(n / 10) + d
  }

  /** "%d" for any number. */
  function DecInt(n: int): (s: string) { if n < 0 then "-" + Dec(-n) else Dec(n) }

  lemma {:induction false} DigitsSplit(a: string, b: string, acc: nat)
    requires forall k :: 0 <= k < |a| ==> IsDigit(a[k])
    ensures Digits(a + b, acc) == Digits(b, Digits(a, acc))
  {
    if a == "" {
      assert a + b == b;
    } else {
      assert (a + b)[1..] == a[1..] + b;
      DigitsSplit(a[1..], b, acc * 10 + (a[0] as int - '0' as int));
    }
  }

  lemma {:induction false} DigitsOfDec(n: nat, rest: string)
    requires rest == "" || !IsDigit(rest[0])
    ensures Digits(Dec(n) + rest, 0) == n
  {
    var d := ['0' + (n % 10) as char];
    if n < 10 {
      assert (d + rest)[1..] == rest;
    } else {
      assert Dec(n) + rest == Dec(n / 10) + (d + rest);
      DigitsSplit(Dec(n / 10), d + rest, 0);
      assert Dec(n / 10) + "" == Dec(n / 10);
      DigitsOfDec(n / 10, "");
      assert (d + rest)[1..] == rest;
    }
  }

  lemma AtoiOfDec(n: nat, rest: string)
    requires rest == "" || !IsDigit(rest[0])
    ensures Atoi(Dec(n) + rest) == n
  {
    DigitsOfDec(n, rest);
    AtoiOfDigits(Dec(n), rest);
  }

  lemma AtoiOfNegative(n: nat, rest: string)
    requires n > 0 && (rest == "" || !IsDigit(rest[0]))
    ensures Atoi("-" + (Dec(n) + rest)) == 0 - n
  {
    DigitsOfDec(n, rest);
    AtoiOfMinus(Dec(n) + rest);
  }

  lemma AtoiOfMinus(t: string)
    ensures Atoi("-" + t) == 0 - Digits(t, 0)
  {
    assert ("-" + t)[1..] == t;
  }

  lemma AtoiOfDigits(s: string, rest: string)
    requires s != "" && IsDigit(s[0])
    ensures Atoi(s + rest) == Digits(s + rest, 0)
  {}

  lemma AtoiOfDecInt(n: int, rest: string)
    requires rest == "" || !IsDigit(rest[0])
    ensures Atoi(DecInt(n) + rest) == n
  {
    var m: nat := if n < 0 then -n else n;
    if n < 0 {
      AtoiOfNegative(m, rest);
      AssociatedMinus(m, rest);
    } else {
      AtoiOfDec(m, rest);
    }
  }

  lemma AssociatedMinus(m: nat, rest: string)
    ensures "-" + Dec(m) + rest == "-" + (Dec(m) + rest)
  {}
}
