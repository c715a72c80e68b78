/** The in-place half of libirc/line.c: the parser that cuts its buffer, the printer's
    loop, and a line that is grown argument by argument. */
module LineBuffer {
  import opened Base
  import opened Line

  // ---------------------------------------------------------------- the parser

  /** The C string that starts at offset `k` of a NUL-terminated buffer. */
  function CString(data: seq<char>, k: nat): (s: string)
    requires k <= |data|
  {
    data[k..][..IndexOf(data[k..], '\0')]
  }

  lemma CStringIs(data: seq<char>, k: nat, e: nat)
    requires k <= e < |data| && data[e] == '\0' && '\0' !in data[k..e]
    ensures CString(data, k) == data[k..e]
  {
    assert data[k..][..e - k] == data[k..e];
    IndexOfIs(data[k..], '\0', e - k);
  }

  lemma CutFrom(d: string, cur: nat, p: nat)
    requires cur <= p <= |d| && NoBreak(d[cur..p])
    ensures Cut(d[cur..]) == d[cur..p] + Cut(d[p..])
  {
    var s := d[cur..];
    var t := Cut(d[p..]);
    var n := p - cur + |t|;
    assert s[..n] == d[cur..p] + t;
    CutIs(s, n);
  }

  /** What is still to be split when the current argument starts at `cur`. */
  function Rest(d: string, cur: nat, dosplit: bool): (f: Fields)
    requires cur <= |d|
  {
    if dosplit then Split(Cut(d[cur..])) else Fields([Cut(d[cur..])], WithColon)
  }

  /** Meeting a separator at `p` ends the argument that started at `cur`. */
  lemma RestAtSpace(d: string, cur: nat, p: nat)
    requires cur <= p < |d| && d[p] == ' ' && ' ' !in d[cur..p] && NoBreak(d[cur..p])
    ensures var colon := p + 1 < |d| && d[p + 1] == ':';
            var next := Rest(d, if colon then p + 2 else p + 1, !colon);
            Rest(d, cur, true) == Fields([d[cur..p]] + next.args, next.colon)
  {
    var first := d[cur..p];
    assert d[cur..p + 1] == first + " ";
    CutFrom(d, cur, p + 1);
    var t := Cut(d[p + 1..]);
    assert Cut(d[cur..]) == first + " " + t;
    if p + 1 < |d| && d[p + 1] == ':' {
      assert d[p + 1..p + 2] == ":";
      CutFrom(d, p + 1, p + 2);
      SplitAtColon(first, Cut(d[p + 2..]));
      assert t == ":" + Cut(d[p + 2..]);
    } else {
      SplitAtSpace(first, t);
    }
  }

  lemma RestAtEnd(d: string, cur: nat, p: nat, dosplit: bool)
    requires cur <= p <= |d| && NoBreak(d[cur..p]) && (dosplit ==> ' ' !in d[cur..p])
    requires p < |d| ==> IsBreak(d[p])
    ensures Rest(d, cur, dosplit) == Fields([d[cur..p]], ColonFlag(!dosplit))
  {
    CutFrom(d, cur, p);
    assert d[cur..p] + "" == d[cur..p];
  }

  /** The buffer from offset `p` on is still the untouched input with its terminator. */
  ghost predicate Intact(d: string, data: seq<char>, p: nat) {
    |data| == |d| + 1 && p <= |d| && data[p..] == d[p..] + ['\0']
  }

  lemma IntactAt(d: string, data: seq<char>, p: nat)
    requires Intact(d, data, p) && '\0' !in d
    ensures data[p] == '\0' <==> p == |d|
    ensures p < |d| ==> data[p] == d[p] && Intact(d, data, p + 1)
  {
    assert data[p] == data[p..][0];
    assert p < |d| ==> data[p + 1..] == data[p..][1..] && d[p + 1..] == d[p..][1..];
  }

  /** The string `s` stands at offset `k`, terminated before offset `p`. */
  ghost predicate Ended(data: seq<char>, k: nat, p: nat, s: string) {
    k + |s| < p <= |data| && data[k..k + |s|] == s && data[k + |s|] == '\0' && '\0' !in s
  }

  lemma EndedLater(a: seq<char>, b: seq<char>, k: nat, p: nat, q: nat, s: string)
    requires Ended(a, k, p, s) && p <= q <= |b| && a[..p] == b[..p]
    ensures Ended(b, k, q, s)
  {
    assert a[k..k + |s|] == a[..p][k..k + |s|] == b[k..k + |s|];
    assert a[k + |s|] == a[..p][k + |s|] == b[k + |s|];
  }

  lemma Terminated(a: seq<char>, d: string, cur: nat, p: nat, b: seq<char>)
    requires cur <= p <= |d| && |a| == |b| == |d| + 1 && '\0' !in d
    requires a[cur..p] == d[cur..p] && b == a[p := '\0']
    ensures Ended(b, cur, p + 1, d[cur..p])
  {
    assert b[cur..p] == a[cur..p];
    assert forall c :: c in d[cur..p] ==> c in d;
  }

  /** Where the splitting loop stands: `done` are the finished arguments, `cur` is where the
      current one starts, and `whole` is what must come out. */
  ghost predicate Splitting(d: string, data: seq<char>, starts: seq<nat>, p: nat, dosplit: bool,
                            done: seq<string>, whole: Fields)
  {
    && Intact(d, data, p) && |starts| == |done| + 1
    && (var cur := starts[|done|];
        && cur <= |d| && (cur <= p || (!dosplit && cur == p + 1 && d[p] == ':'))
        && (cur <= p ==> data[cur..p] == d[cur..p] && NoBreak(d[cur..p]) && (dosplit ==> ' ' !in d[cur..p]))
        && whole == Fields(done + Rest(d, cur, dosplit).args, Rest(d, cur, dosplit).colon))
    && AllEnded(data, starts, p, done)
  }

  ghost predicate AllEnded(data: seq<char>, starts: seq<nat>, p: nat, done: seq<string>) {
    |done| <= |starts| && forall k :: 0 <= k < |done| ==> Ended(data, starts[k], p, done[k])
  }

  lemma SplittingIntact(d: string, data: seq<char>, starts: seq<nat>, p: nat, dosplit: bool,
                        done: seq<string>, whole: Fields)
    requires Splitting(d, data, starts, p, dosplit, done, whole)
    ensures Intact(d, data, p) && |starts| == |done| + 1
    ensures dosplit ==> starts[|done|] <= p
  {}

  lemma DoneStays(a: seq<char>, b: seq<char>, starts: seq<nat>, p: nat, done: seq<string>)
    requires p < |b| && p <= |a| && a[..p] == b[..p] && AllEnded(a, starts, p, done)
    ensures AllEnded(b, starts, p + 1, done)
  {
    forall k | 0 <= k < |done|
      ensures Ended(b, starts[k], p + 1, done[k])
    {
      EndedLater(a, b, starts[k], p, p + 1, done[k]);
    }
  }

  lemma StepOrdinary(d: string, data: seq<char>, starts: seq<nat>, p: nat, dosplit: bool,
                     done: seq<string>, whole: Fields)
    requires '\0' !in d && Splitting(d, data, starts, p, dosplit, done, whole)
    requires p < |d| && !IsBreak(d[p]) && !(d[p] == ' ' && dosplit)
    ensures Splitting(d, data, starts, p + 1, dosplit, done, whole)
  {
    var cur := starts[|done|];
    IntactAt(d, data, p);
    DoneStays(data, data, starts, p, done);
    if cur <= p {
      assert d[cur..p + 1] == d[cur..p] + [d[p]] && data[cur..p + 1] == data[cur..p] + [data[p]];
    } else {
      assert d[cur..p + 1] == "" == data[cur..p + 1];
    }
  }

  /** Ending the current argument at `p`, by a terminator written over a separator or break,
      or by the one that is there. */
  lemma EndArgument(d: string, data: seq<char>, starts: seq<nat>, p: nat, dosplit: bool,
                    done: seq<string>, whole: Fields)
    requires '\0' !in d && Splitting(d, data, starts, p, dosplit, done, whole) && starts[|done|] <= p
    ensures var b, cur := data[p := '\0'], starts[|done|];
            var done' := done + [d[cur..p]];
            AllEnded(b, starts, p + 1, done')
  {
    var b, cur := data[p := '\0'], starts[|done|];
    Terminated(data, d, cur, p, b);
    assert data[..p] == b[..p];
    DoneStays(data, b, starts, p, done);
  }

  lemma StepSeparator(d: string, data: seq<char>, starts: seq<nat>, p: nat, done: seq<string>, whole: Fields)
    requires '\0' !in d && Splitting(d, data, starts, p, true, done, whole) && p < |d| && d[p] == ' '
    ensures var colon := p + 1 < |d| && d[p + 1] == ':';
            var next := if colon then p + 2 else p + 1;
            Splitting(d, data[p := '\0'], starts + [next], p + 1, !colon, done + [d[starts[|done|]..p]], whole)
  {
    var b := data[p := '\0'];
    IntactAt(d, data, p);
    assert b[p + 1..] == data[p + 1..];
    EndArgument(d, data, starts, p, true, done, whole);
    var arg := d[starts[|done|]..p];
    SeparatorRest(d, starts[|done|], p, done, whole);
    if p + 1 < |d| && d[p + 1] == ':' {
      StartNext(d, b, starts, p, p + 2, false, done + [arg], whole);
    } else {
      StartNext(d, b, starts, p, p + 1, true, done + [arg], whole);
    }
  }

  lemma SeparatorRest(d: string, cur: nat, p: nat, done: seq<string>, whole: Fields)
    requires cur <= p < |d| && d[p] == ' ' && ' ' !in d[cur..p] && NoBreak(d[cur..p])
    requires whole == Fields(done + Rest(d, cur, true).args, Rest(d, cur, true).colon)
    ensures var colon := p + 1 < |d| && d[p + 1] == ':';
            var r := Rest(d, if colon then p + 2 else p + 1, !colon);
            whole == Fields(done + [d[cur..p]] + r.args, r.colon)
  {
    RestAtSpace(d, cur, p);
    var colon := p + 1 < |d| && d[p + 1] == ':';
    var r := Rest(d, if colon then p + 2 else p + 1, !colon);
    assert done + ([d[cur..p]] + r.args) == done + [d[cur..p]] + r.args;
  }

  lemma StartNext(d: string, b: seq<char>, starts: seq<nat>, p: nat, next: nat, dosplit: bool,
                  done: seq<string>, whole: Fields)
    requires p < |d| && Intact(d, b, p + 1) && |starts| == |done| && AllEnded(b, starts, p + 1, done)
    requires next <= |d|
    requires next == p + 1 || (next == p + 2 && !dosplit && d[p + 1] == ':')
    requires whole == Fields(done + Rest(d, next, dosplit).args, Rest(d, next, dosplit).colon)
    ensures Splitting(d, b, starts + [next], p + 1, dosplit, done, whole)
  {
    StartHere(d, b, p + 1);
    assert AllEnded(b, starts + [next], p + 1, done);
  }

  lemma StartHere(d: string, data: seq<char>, p: nat)
    requires p <= |d| && p <= |data|
    ensures d[p..p] == "" == data[p..p] && NoBreak(d[p..p]) && ' ' !in d[p..p]
  {}

  lemma StepEnd(d: string, data: seq<char>, starts: seq<nat>, p: nat, dosplit: bool,
                done: seq<string>, whole: Fields)
    requires '\0' !in d && Splitting(d, data, starts, p, dosplit, done, whole)
    requires p < |d| ==> IsBreak(d[p])
    ensures starts[|done|] <= p
    ensures whole == Fields(done + [d[starts[|done|]..p]], ColonFlag(!dosplit))
    ensures var done' := done + [d[starts[|done|]..p]];
            AllEnded(data[p := '\0'], starts, p + 1, done')
  {
    RestAtEnd(d, starts[|done|], p, dosplit);
    EndArgument(d, data, starts, p, dosplit, done, whole);
  }

  /** The loop body at a separator: end the argument and note where the next one starts. */
  method CutHere(d: string, data: array<char>, starts: array<nat>, argc: nat, p: nat,
                 ghost done: seq<string>, ghost whole: Fields) returns (dosplit: bool, ghost more: seq<string>)
    requires '\0' !in d && p < |d| && |done| == argc && argc + 1 < starts.Length && d[p] == ' '
    requires Splitting(d, data[..], starts[..argc + 1], p, true, done, whole)
    modifies data, starts
    ensures Splitting(d, data[..], starts[..argc + 2], p + 1, dosplit, more, whole)
    ensures |more| == argc + 1 < |whole.args|
  {
    hide Splitting;
    ghost var was, cells := data[..], starts[..argc + 1];
    StepSeparator(d, was, cells, p, done, whole);
    SplittingIntact(d, was, cells, p, true, done, whole);
    IntactAt(d, was, p);
    more := done + [d[cells[argc]..p]];
    data[p] := '\0';
    starts[argc + 1] := p + 1;
    dosplit := true;
    assert data[..] == was[p := '\0'];
    assert data[p + 1] == was[p + 1];
    IntactAt(d, was, p + 1);
    if data[p + 1] == ':' {
      dosplit := false;
      starts[argc + 1] := starts[argc + 1] + 1;
    }
    assert starts[..argc + 2] == cells + [starts[argc + 1]];
    MoreToCome(d, data[..], starts[..argc + 2], p + 1, dosplit, more, whole);
  }

  lemma MoreToCome(d: string, data: seq<char>, starts: seq<nat>, p: nat, dosplit: bool,
                   done: seq<string>, whole: Fields)
    requires Splitting(d, data, starts, p, dosplit, done, whole)
    ensures |done| < |whole.args|
  {}

  /** The end of the text: terminate the last argument and copy all of them out. */
  method Finish(d: string, data: array<char>, starts: array<nat>, argc: nat, p: nat, dosplit: bool,
                ghost done: seq<string>, ghost whole: Fields) returns (args: seq<string>)
    requires '\0' !in d && p <= |d| && |done| == argc && argc < starts.Length
    requires Splitting(d, data[..], starts[..argc + 1], p, dosplit, done, whole)
    requires p < |d| ==> IsBreak(d[p])
    modifies data
    ensures whole == Fields(args, ColonFlag(!dosplit))
  {
    StepEnd(d, data[..], starts[..argc + 1], p, dosplit, done, whole);
    ghost var was, cells := data[..], starts[..argc + 1];
    data[p] := '\0';
    assert data[..] == was[p := '\0'];
    args := CopyOut(data, starts, argc + 1, p + 1, done + [d[starts[argc]..p]]);
  }

  /** The splitting loop, with the argument array sized by the number of spaces. */
  method SplitInPlace(d: string, data: array<char>, from: nat) returns (args: seq<string>, colon: Colon)
    requires '\0' !in d && Intact(d, data[..], from)
    modifies data
    ensures Fields(args, colon) == Split(Cut(d[from..]))
  {
    ghost var whole := Split(Cut(d[from..]));
    var estimate := CountSeparators(d, data, from);
    FitsEstimate(d[from..]);
    var starts := new nat[estimate + 2];
    starts[0] := from;
    StartSplitting(d, data[..], from);
    assert starts[..1] == [from];
    args, colon := SplitLoop(d, data, starts, from, whole);
  }

  method SplitLoop(d: string, data: array<char>, starts: array<nat>, from: nat, ghost whole: Fields)
    returns (args: seq<string>, colon: Colon)
    requires '\0' !in d && data.Length == |d| + 1 && from <= |d|
    requires 0 < |whole.args| < starts.Length && Splitting(d, data[..], starts[..1], from, true, [], whole)
    modifies data, starts
    ensures Fields(args, colon) == whole
  {
    hide Splitting;
    var argc, p, dosplit := 0, from, true;
    ghost var done: seq<string> := [];
    while data[p] != '\0'
      invariant p <= |d|
      invariant |done| == argc < |whole.args| < starts.Length
      invariant Splitting(d, data[..], starts[..argc + 1], p, dosplit, done, whole)
      decreases |d| - p
    {
      SplittingIntact(d, data[..], starts[..argc + 1], p, dosplit, done, whole);
      IntactAt(d, data[..], p);
      if data[p] == ' ' && dosplit {
        dosplit, done := CutHere(d, data, starts, argc, p, done, whole);
        argc := argc + 1;
      } else if IsBreak(data[p]) {
        break;
      } else {
        StepOrdinary(d, data[..], starts[..argc + 1], p, dosplit, done, whole);
      }
      p := p + 1;
    }
    SplittingIntact(d, data[..], starts[..argc + 1], p, dosplit, done, whole);
    IntactAt(d, data[..], p);
    args := Finish(d, data, starts, argc, p, dosplit, done, whole);
    colon := ColonFlag(!dosplit);
  }

  lemma FitsEstimate(s: string)
    ensures |Split(Cut(s)).args| <= CountSpaces(s) + 1
  {
    SplitWithinEstimate(Cut(s));
    CountSpacesOfPrefix(s, |Cut(s)|);
    assert Cut(s) == s[..|Cut(s)|];
  }

  lemma StartSplitting(d: string, data: seq<char>, from: nat)
    requires Intact(d, data, from)
    ensures Splitting(d, data, [from], from, true, [], Split(Cut(d[from..])))
  {
    StartHere(d, data, from);
    assert [] + Rest(d, from, true).args == Rest(d, from, true).args;
  }

  method CountSeparators(d: string, data: array<char>, from: nat) returns (n: nat)
    requires '\0' !in d && Intact(d, data[..], from)
    ensures n == CountSpaces(d[from..])
  {
    n := 0;
    var i := from;
    assert d[from..from] == "";
    while data[i] != '\0'
      invariant from <= i <= |d| && Intact(d, data[..], i)
      invariant n == CountSpaces(d[from..i])
      decreases |d| - i
    {
      IntactAt(d, data[..], i);
      assert d[from..i + 1] == d[from..i] + [d[i]];
      CountSpacesSplits(d[from..i], [d[i]]);
      if data[i] == ' ' { n := n + 1; }
      i := i + 1;
    }
    IntactAt(d, data[..], i);
    assert d[from..i] == d[from..];
  }

  /** strchr(data, ' ') from the start of the buffer. */
  method FindSpace(d: string, data: array<char>) returns (p: nat)
    requires '\0' !in d && Intact(d, data[..], 0)
    ensures p == IndexOf(d, ' ') && Intact(d, data[..], p)
  {
    p := 0;
    while data[p] != ' ' && data[p] != '\0'
      invariant p <= |d| && ' ' !in d[..p] && Intact(d, data[..], p)
      decreases |d| - p
    {
      IntactAt(d, data[..], p);
      assert d[..p + 1] == d[..p] + [d[p]];
      p := p + 1;
    }
    IntactAt(d, data[..], p);
    IndexOfIs(d, ' ', p);
  }

  method SkipBlanksInPlace(d: string, data: array<char>, start: nat) returns (p: nat)
    requires '\0' !in d && start < |d| && d[start] == ' ' && Intact(d, data[..], start + 1)
    ensures p <= |d| && SkipSpaces(d[start..]) == d[p..] && Intact(d, data[..], p)
  {
    p := start;
    SkipSpacesStep(d, p);
    while data[p + 1] == ' '
      invariant start <= p < |d| && d[p] == ' ' && Intact(d, data[..], p + 1)
      invariant SkipSpaces(d[start..]) == SkipSpaces(d[p + 1..])
      decreases |d| - p
    {
      IntactAt(d, data[..], p + 1);
      SkipSpacesStep(d, p + 1);
      p := p + 1;
    }
    IntactAt(d, data[..], p + 1);
    p := p + 1;
  }

  lemma SkipSpacesStep(d: string, p: nat)
    requires p < |d| && d[p] == ' '
    ensures SkipSpaces(d[p..]) == SkipSpaces(d[p + 1..])
  {
    assert d[p..][1..] == d[p + 1..];
  }

  /** irc_parse_line: the separators of a private copy become terminators and the
      arguments are offsets into it. */
  method ParseLine(d: string) returns (l: Option<Line>)
    requires '\0' !in d
    ensures l == Parse(d)
  {
    var data := new char[|d| + 1](k requires 0 <= k <= |d| => if k < |d| then d[k] else '\0');
    assert data[..] == d + ['\0'];
    assert data[..][0..] == data[..] && d[0..] == d;
    IntactAt(d, data[..], 0);
    var p := 0;
    var origin := None;
    if data[0] == ':' {
      p := FindSpace(d, data);
      IntactAt(d, data[..], p);
      if data[p] == '\0' { return None; }
      origin := CutOrigin(d, data, p);
      p := SkipBlanksInPlace(d, data, p);
    }
    var args, colon := SplitInPlace(d, data, p);
    l := Some(Line(origin, args, colon));
  }

  method CutOrigin(d: string, data: array<char>, p: nat) returns (origin: Option<string>)
    requires '\0' !in d && 1 <= p < |d| && data[..] == d + ['\0']
    modifies data
    ensures origin == Some(d[1..p])
    ensures Intact(d, data[..], p + 1)
  {
    data[p] := '\0';
    assert data[..][1..p] == d[1..p];
    assert forall c :: c in d[1..p] ==> c in d;
    CStringIs(data[..], 1, p);
    origin := Some(CString(data[..], 1));
    assert data[..][p + 1..] == (d + ['\0'])[p + 1..] == d[p + 1..] + ['\0'];
  }

  method CopyOut(data: array<char>, starts: array<nat>, n: nat, ghost p: nat, ghost want: seq<string>)
    returns (args: seq<string>)
    requires n <= starts.Length && |want| == n && p <= data.Length
    requires AllEnded(data[..], starts[..n], p, want)
    ensures args == want
  {
    args := [];
    var i := 0;
    while i < n
      invariant i <= n && args == want[..i]
    {
      assert Ended(data[..], starts[..n][i], p, want[i]);
      CStringIs(data[..], starts[i], starts[i] + |want[i]|);
      args := args + [CString(data[..], starts[i])];
      i := i + 1;
    }
  }

  // --------------------------------------------------------------- the printer

  lemma {:induction false} PrintArgsSnoc(args: seq<string>, last: string, colon: bool)
    ensures PrintArgs(args + [last], colon) == Spaced(args) + (if colon then ":" + last else last)
  {
    if args == [] {
      assert args + [last] == [last];
      assert Spaced(args) == "";
    } else {
      assert (args + [last])[1..] == args[1..] + [last];
      PrintArgsSnoc(args[1..], last, colon);
    }
  }

  /** The arguments with a space after each. */
  function Spaced(args: seq<string>): (s: string) {
    if args == [] then "" else args[0] + " " + Spaced(args[1..])
  }

  lemma {:induction false} SpacedSnoc(args: seq<string>, last: string)
    ensures Spaced(args + [last]) == Spaced(args) + last + " "
  {
    if args == [] {
      assert args + [last] == [last];
    } else {
      assert (args + [last])[1..] == args[1..] + [last];
      SpacedSnoc(args[1..], last);
    }
  }

  /** irc_line_string. */
  method LineString(l: Line) returns (s: string)
    ensures s == Print(l)
  {
    s := "";
    if |l.args| == 0 { return; }
    s := PrintOrigin(l.origin);
    var i, argc := 0, |l.args|;
    while i < argc
      invariant i <= argc
      invariant i < argc ==> s == PrintOrigin(l.origin) + Spaced(l.args[..i])
      invariant i == argc ==> s == PrintOrigin(l.origin) + PrintArgs(l.args, PrintsColon(l))
    {
      if i == argc - 1 && RequiresColon(l) && i != 0 { s := s + ":"; }
      s := s + l.args[i];
      if i != argc - 1 { s := s + " "; }
      assert l.args[..i + 1] == l.args[..i] + [l.args[i]];
      if i == argc - 1 {
        PrintArgsSnoc(l.args[..i], l.args[i], PrintsColon(l));
        assert l.args[..i + 1] == l.args;
      } else {
        SpacedSnoc(l.args[..i], l.args[i]);
      }
      i := i + 1;
    }
  }

  // --------------------------------------------------------------- line length

  /** line_len: an estimate that counts one byte after every argument and four more. */
  function LineLen(args: seq<string>): (n: nat) {
    if args == [] then 4 else |args[0]| + 1 + LineLen(args[1..])
  }

  lemma {:induction false} LineLenSnoc(args: seq<string>, last: string)
    ensures LineLen(args + [last]) == LineLen(args) + |last| + 1
  {
    if args == [] {
      assert args + [last] == [last];
    } else {
      assert (args + [last])[1..] == args[1..] + [last];
      LineLenSnoc(args[1..], last);
    }
  }

  lemma {:induction false} PrintArgsLength(args: seq<string>, colon: bool)
    requires |args| >= 1
    ensures |PrintArgs(args, colon)| == LineLen(args) - 5 + (if colon then 1 else 0)
  {
    if |args| == 1 {
      assert LineLen(args) == |args[0]| + 5;
    } else {
      PrintArgsLength(args[1..], colon);
    }
  }

  /** The estimate dominates what is written, CR LF included, but for the origin. */
  lemma PrintedWithinEstimate(l: Line)
    ensures l.origin.None? ==> |PrintNl(l)| <= LineLen(l.args) - 2
    ensures l.origin.Some? ==> |PrintNl(l)| <= LineLen(l.args) + |l.origin.value|
  {
    if |l.args| > 0 {
      PrintArgsLength(l.args, PrintsColon(l));
    }
  }

  /** struct irc_line while it is being built. */
  class Builder {
    var origin: Option<string>
    var args: seq<string>
    var colon: Colon

    /** irc_parse_line_args followed by setting has_endcolon. */
    constructor (origin: Option<string>, args: seq<string>, colon: Colon)
      ensures Value() == Line(origin, args, colon)
    {
      this.origin, this.args, this.colon := origin, args, colon;
    }

    function Value(): (l: Line)
      reads this
    {
      Line(origin, args, colon)
    }

    /** The loop of line_len. */
    method Len() returns (n: nat)
      ensures n == LineLen(args)
    {
      n := 4;
      var i := 0;
      while i < |args|
        invariant i <= |args| && n == LineLen(args[..i])
      {
        LineLenSnoc(args[..i], args[i]);
        assert args[..i + 1] == args[..i] + [args[i]];
        n := n + |args[i]| + 1;
        i := i + 1;
      }
      assert args[..i] == args;
    }

    /** line_add_arg: refuses the argument that would push the estimate over the limit;
        a line it has grown is written in at most 512 bytes plus the origin. */
    method AddArg(arg: string) returns (ok: bool)
      modifies this`args
      ensures ok <==> LineLen(old(args)) + |arg| + 1 <= 512
      ensures args == if ok then old(args) + [arg] else old(args)
      ensures ok ==> |PrintNl(Value())| <= 512 + (if origin.Some? then |origin.value| else -2)
    {
      var n := Len();
      if n + |arg| + 1 > MAXLINELEN { return false; }
      LineLenSnoc(args, arg);
      args := args + [arg];
      PrintedWithinEstimate(Value());
      ok := true;
    }
  }

  /** Adding a run of arguments the way line_add_arg does, stopping at the first refusal. */
  function Grow(args: seq<string>, more: seq<string>): (r: seq<string>)
    decreases |more|
  {
    if more == [] || LineLen(args) + |more[0]| + 1 > MAXLINELEN then args
    else Grow(args + [more[0]], more[1..])
  }

  /** However a line is grown, it never exceeds the larger of its first estimate and the limit. */
  lemma {:induction false} GrownWithinLimit(l: Line, more: seq<string>)
    ensures var g := l.(args := Grow(l.args, more));
            var most := if LineLen(l.args) > 512 then LineLen(l.args) else 512;
            |PrintNl(g)| <= most + (if l.origin.Some? then |l.origin.value| else -2)
    decreases |more|
  {
    if more == [] || LineLen(l.args) + |more[0]| + 1 > MAXLINELEN {
      PrintedWithinEstimate(l);
      assert l.(args := Grow(l.args, more)) == l;
    } else {
      LineLenSnoc(l.args, more[0]);
      var l' := l.(args := l.args + [more[0]]);
      GrownWithinLimit(l', more[1..]);
      assert l.(args := Grow(l.args, more)) == l'.(args := Grow(l'.args, more[1..]));
    }
  }
}
