/** The message codec of libirc/line.c: splitting a raw line into origin and arguments,
    printing it again, and the length estimate behind the 512-byte limit. */
module Line {
  import opened Base
  import opened Casemap

  datatype Colon = ColonUnknown | WithColon | WithoutColon

  /** struct irc_line; `|args|` is argc. */
  datatype Line = Line(origin: Option<string>, args: seq<string>, colon: Colon)

  const MAXLINELEN := 512

  // ------------------------------------------------------------------ parsing

  predicate IsBreak(c: char) { c == '\r' || c == '\n' }

  predicate NoBreak(s: string) { forall k :: 0 <= k < |s| ==> !IsBreak(s[k]) }

  /** `s` up to its first CR or LF. */
  function Cut(s: string): (r: string)
    ensures NoBreak(r) && r <= s
    ensures |r| < |s| ==> IsBreak(s[|r|])
  {
    if s == "" || IsBreak(s[0]) then ""
    else
      var r := Cut(s[1..]);
      assert s == [s[0]] + s[1..];
      [s[0]] + r
  }

  lemma CutIs(s: string, n: nat)
    requires n <= |s| && NoBreak(s[..n])
    requires n < |s| ==> IsBreak(s[n])
    ensures Cut(s) == s[..n]
  {
    var r := Cut(s);
    assert forall j :: 0 <= j < n ==> s[j] == s[..n][j];
    assert forall j :: 0 <= j < |r| ==> s[j] == r[j];
  }

  /** The length of the line break at the start of `s`. */
  function BreakLen(s: string): (n: nat)
    ensures n <= |s|
  {
    if s == "" then 0 else if |s| > 1 && s[0] == '\r' && s[1] == '\n' then 2 else 1
  }

  /** Where the first line of a file ends, its break included. */
  function LineEnd(s: string): (n: nat)
    ensures |Cut(s)| <= n <= |s|
  {
    |Cut(s)| + BreakLen(s[|Cut(s)|..])
  }

  function SkipSpaces(s: string): (r: string)
    ensures |r| <= |s| && r == s[|s| - |r|..]
    ensures r != "" ==> r[0] != ' '
  {
    if s != "" && s[0] == ' ' then SkipSpaces(s[1..]) else s
  }

  datatype Fields = Fields(args: seq<string>, colon: Colon)

  /** The arguments in a text without CR and LF: a single space separates, and a colon
      right after a space makes the rest of the text the last argument. */
  function Split(s: string): (f: Fields)
    ensures |f.args| >= 1
    ensures f.colon == WithColon ==> |f.args| >= 2
    ensures f.colon != ColonUnknown
    decreases |s|
  {
    var i := IndexOf(s, ' ');
    if i == |s| then Fields([s], WithoutColon)
    else if i + 1 < |s| && s[i + 1] == ':' then Fields([s[..i], s[i + 2..]], WithColon)
    else
      var f := Split(s[i + 1..]);
      Fields([s[..i]] + f.args, f.colon)
  }

  function ParseArgs(origin: Option<string>, s: string): (l: Line) {
    var f := Split(Cut(s));
    Line(origin, f.args, f.colon)
  }

  /** irc_parse_line as a function: None only for an origin that nothing follows. */
  function Parse(d: string): (l: Option<Line>) {
    if d != "" && d[0] == ':' then
      var p := IndexOf(d, ' ');
      if p == |d| then None
      else Some(ParseArgs(Some(d[1..p]), SkipSpaces(d[p..])))
    else Some(ParseArgs(None, d))
  }

  function CountSpaces(s: string): (n: nat)
  {
    if s == "" then 0 else (if s[0] == ' ' then 1 else 0) + CountSpaces(s[1..])
  }

  lemma {:induction false} CountSpacesSplits(a: string, b: string)
    ensures CountSpaces(a + b) == CountSpaces(a) + CountSpaces(b)
  {
    if a == "" {
      assert a + b == b;
    } else {
      CountSpacesSplits(a[1..], b);
      assert (a + b)[1..] == a[1..] + b;
    }
  }

  /** argc never exceeds the number of spaces plus one, the bound the parser's
      argument array is sized by. */
  lemma {:induction false} SplitWithinEstimate(s: string)
    ensures |Split(s).args| <= CountSpaces(s) + 1
    decreases |s|
  {
    var i := IndexOf(s, ' ');
    if i < |s| {
      assert s == s[..i] + ([' '] + s[i + 1..]);
      CountSpacesSplits(s[..i], [' '] + s[i + 1..]);
      CountSpacesSplits([' '], s[i + 1..]);
      assert CountSpaces([' ']) == 1;
      SplitWithinEstimate(s[i + 1..]);
    }
  }

  lemma {:induction false} CountSpacesOfPrefix(s: string, n: nat)
    requires n <= |s|
    ensures CountSpaces(s[..n]) <= CountSpaces(s)
  {
    assert s == s[..n] + s[n..];
    CountSpacesSplits(s[..n], s[n..]);
  }

  // ------------------------------------------------------------------ printing

  /** Numerics whose last argument is printed without a colon. */
  const PLAIN_NUMERICS: set<int> := {
    324, 341, 367, 200, 201, 203, 204, 329, 205, 206, 208, 261, 211, 212, 213, 214,
    215, 216, 218, 219, 241, 242, 243, 244, 221, 4, 333}

  predicate RequiresColon(l: Line)
    requires |l.args| >= 1
  {
    match l.colon
    case WithColon => true
    case WithoutColon => false
    case ColonUnknown =>
      var c := l.args[0];
      if AsciiEq(c, "MODE") || AsciiEq(c, "NICK") || AsciiEq(c, "JOIN") then false
      else if AsciiEq(c, "PART") || AsciiEq(c, "TOPIC") then |l.args| > 2
      else Atoi(c) !in PLAIN_NUMERICS
  }

  /** A colon is printed before the last argument, never before the first. */
  predicate PrintsColon(l: Line)
    requires |l.args| >= 1
  {
    |l.args| > 1 && RequiresColon(l)
  }

  function PrintArgs(args: seq<string>, colon: bool): (s: string)
    requires |args| >= 1
  {
    if |args| == 1 then (if colon then ":" + args[0] else args[0])
    else args[0] + " " + PrintArgs(args[1..], colon)
  }

  function PrintOrigin(o: Option<string>): (s: string) {
    match o case None => "" case Some(n) => ":" + n + " "
  }

  function PrintAs(origin: Option<string>, args: seq<string>, colon: bool): (s: string)
    requires |args| >= 1
  {
    PrintOrigin(origin) + PrintArgs(args, colon)
  }

  /** irc_line_string as a function. */
  function Print(l: Line): (s: string) {
    if |l.args| == 0 then "" else PrintAs(l.origin, l.args, PrintsColon(l))
  }

  function PrintNl(l: Line): (s: string) { Print(l) + "\r\n" }

  // ---------------------------------------------------------------- round trip

  predicate StartsWithColon(s: string) { s != "" && s[0] == ':' }

  /** An argument that survives in the middle of a line. */
  predicate MiddleArg(s: string) { ' ' !in s && NoBreak(s) && !StartsWithColon(s) }

  /** The arguments after the first, as the printer may be handed them. */
  predicate TailOk(args: seq<string>, colon: bool) {
    && |args| >= 1
    && (forall k :: 0 <= k < |args| - 1 ==> MiddleArg(args[k]))
    && NoBreak(args[|args| - 1])
    && (colon || MiddleArg(args[|args| - 1]))
  }

  predicate WellFormedAs(origin: Option<string>, args: seq<string>, colon: bool) {
    && |args| >= 1
    && ' ' !in args[0] && NoBreak(args[0])
    && (origin.None? ==> !StartsWithColon(args[0]))
    && (origin.Some? ==> ' ' !in origin.value && (args[0] != "" || |args| == 1))
    && (|args| == 1 ==> !colon)
    && (|args| > 1 ==> TailOk(args[1..], colon))
  }

  /** The shape of a line that its printed form determines. */
  predicate WellFormed(l: Line) {
    |l.args| >= 1 && WellFormedAs(l.origin, l.args, PrintsColon(l))
  }

  function ColonFlag(colon: bool): (c: Colon) { if colon then WithColon else WithoutColon }

  lemma {:induction false} PrintArgsHasNoBreak(args: seq<string>, colon: bool)
    requires |args| >= 1
    requires forall k :: 0 <= k < |args| ==> NoBreak(args[k])
    ensures NoBreak(PrintArgs(args, colon))
  {
    if |args| > 1 {
      PrintArgsHasNoBreak(args[1..], colon);
    }
  }

  lemma SplitOne(s: string)
    requires ' ' !in s
    ensures Split(s) == Fields([s], WithoutColon)
  {}

  lemma SplitAtSpace(first: string, t: string)
    requires ' ' !in first && !StartsWithColon(t)
    ensures Split(first + " " + t) == Fields([first] + Split(t).args, Split(t).colon)
  {
    var s := first + " " + t;
    assert s[..|first|] == first;
    IndexOfIs(s, ' ', |first|);
    assert s[|first| + 1..] == t;
  }

  lemma SplitAtColon(first: string, t: string)
    requires ' ' !in first
    ensures Split(first + " " + (":" + t)) == Fields([first, t], WithColon)
  {
    var s := first + " " + (":" + t);
    assert s[..|first|] == first;
    IndexOfIs(s, ' ', |first|);
    assert s[|first| + 2..] == t;
  }

  /** Splitting a first argument, a space and a printed tail gives the pieces back. */
  lemma {:induction false} SplitOfPrint(first: string, args: seq<string>, colon: bool)
    requires ' ' !in first && TailOk(args, colon)
    ensures Split(first + " " + PrintArgs(args, colon)) == Fields([first] + args, ColonFlag(colon))
    decreases |args|
  {
    if |args| == 1 {
      SplitOfLast(first, args[0], colon);
      assert args == [args[0]];
    } else {
      var t := args[0] + " " + PrintArgs(args[1..], colon);
      SplitOfPrint(args[0], args[1..], colon);
      assert [args[0]] + args[1..] == args;
      assert !StartsWithColon(t) by { assert MiddleArg(args[0]); }
      SplitAtSpace(first, t);
    }
  }

  lemma SplitOfLast(first: string, last: string, colon: bool)
    requires ' ' !in first && (colon || MiddleArg(last))
    ensures Split(first + " " + (if colon then ":" + last else last)) == Fields([first, last], ColonFlag(colon))
  {
    if colon {
      SplitAtColon(first, last);
    } else {
      SplitAtSpace(first, last);
      SplitOne(last);
    }
  }

  lemma SplitOfPrintArgs(args: seq<string>, colon: bool)
    requires |args| >= 1 && ' ' !in args[0]
    requires |args| == 1 ==> !colon
    requires |args| > 1 ==> TailOk(args[1..], colon)
    ensures Split(PrintArgs(args, colon)) == Fields(args, ColonFlag(colon))
  {
    if |args| == 1 {
      SplitOne(args[0]);
    } else {
      SplitOfPrint(args[0], args[1..], colon);
      assert [args[0]] + args[1..] == args;
    }
  }

  lemma AllArgsNoBreak(args: seq<string>, colon: bool)
    requires |args| >= 1 && NoBreak(args[0]) && (|args| > 1 ==> TailOk(args[1..], colon))
    ensures forall k :: 0 <= k < |args| ==> NoBreak(args[k])
  {
    forall k | 1 <= k < |args|
      ensures NoBreak(args[k])
    {
      assert args[k] == args[1..][k - 1];
    }
  }

  /** The parser finds the origin again and hands the rest to the splitter; anything
      after a line break is ignored. */
  lemma ParseOfText(origin: Option<string>, body: string, tail: string)
    requires NoBreak(body) && (tail == "" || IsBreak(tail[0]))
    requires origin.None? ==> !StartsWithColon(body)
    requires origin.Some? ==> ' ' !in origin.value && (body == "" || body[0] != ' ')
    ensures Parse(PrintOrigin(origin) + body + tail)
         == Some(Line(origin, Split(body).args, Split(body).colon))
  {
    var rest := body + tail;
    CutAtTail(body, tail);
    hide Cut, Split, NoBreak, Parse;
    match origin
    case None =>
      assert PrintOrigin(origin) + body + tail == rest;
      ParseWithoutOrigin(rest);
    case Some(o) =>
      TextWithOrigin(o, body, tail);
      ParseAfterOrigin(o, rest);
  }

  lemma TextWithOrigin(o: string, body: string, tail: string)
    ensures PrintOrigin(Some(o)) + body + tail == ":" + o + (" " + (body + tail))
  {}

  lemma CutAtTail(body: string, tail: string)
    requires NoBreak(body) && (tail == "" || IsBreak(tail[0]))
    ensures Cut(body + tail) == body
    ensures tail != "" || body + tail == body
    ensures body != "" ==> (body + tail)[0] == body[0]
  {
    assert (body + tail)[..|body|] == body;
    CutIs(body + tail, |body|);
  }

  lemma ParseWithoutOrigin(d: string)
    requires !StartsWithColon(d)
    ensures Parse(d) == Some(ParseArgs(None, d))
  {}

  lemma ParseAfterOrigin(o: string, rest: string)
    requires ' ' !in o && (rest == "" || rest[0] != ' ')
    ensures Parse(":" + o + (" " + rest)) == Some(ParseArgs(Some(o), rest))
  {
    var d := ":" + o + (" " + rest);
    var p := |o| + 1;
    assert d[..p] == ":" + o;
    IndexOfIs(d, ' ', p);
    assert d[1..p] == o && d[p..] == " " + rest;
    SkipOneSpace(rest);
  }

  lemma SkipOneSpace(s: string)
    requires s == "" || s[0] != ' '
    ensures SkipSpaces(" " + s) == s
  {
    assert (" " + s)[1..] == s;
  }

  lemma ParseOfPrintAs(origin: Option<string>, args: seq<string>, colon: bool, tail: string)
    requires WellFormedAs(origin, args, colon) && (tail == "" || IsBreak(tail[0]))
    ensures Parse(PrintAs(origin, args, colon) + tail) == Some(Line(origin, args, ColonFlag(colon)))
  {
    var body := PrintArgs(args, colon);
    AllArgsNoBreak(args, colon);
    PrintArgsHasNoBreak(args, colon);
    assert args[0] != "" ==> body[0] == args[0][0];
    ParseOfText(origin, body, tail);
    SplitOfPrintArgs(args, colon);
  }

  /** Printing and parsing restores origin and arguments, and the flag records
      whether a colon was printed; so does the form written with CR LF. */
  lemma ParseOfPrint(l: Line)
    requires WellFormed(l)
    ensures Parse(Print(l)) == Some(l.(colon := ColonFlag(PrintsColon(l))))
    ensures Parse(PrintNl(l)) == Parse(Print(l))
  {
    ParseOfPrintAs(l.origin, l.args, PrintsColon(l), "");
    ParseOfPrintAs(l.origin, l.args, PrintsColon(l), "\r\n");
    assert Print(l) + "" == Print(l);
  }

  /** What the pieces of a text without line breaks are fit for. */
  predicate SplitOk(s: string, f: Fields)
    requires |f.args| >= 1
  {
    && ' ' !in f.args[0] && NoBreak(f.args[0])
    && (|f.args| > 1 ==> TailOk(f.args[1..], f.colon == WithColon))
    && (f.args[0] == "" && |f.args| > 1 ==> s != "" && s[0] == ' ')
    && (StartsWithColon(f.args[0]) <==> StartsWithColon(s))
  }

  /** Everything the splitter yields is printable. */
  lemma {:induction false} SplitIsOk(s: string)
    requires NoBreak(s)
    ensures SplitOk(s, Split(s))
    decreases |s|
  {
    hide SplitOk, NoBreak;
    var i := IndexOf(s, ' ');
    if i == |s| {
      OnePieceOk(s);
    } else if i + 1 < |s| && s[i + 1] == ':' {
      TwoPiecesOk(s, i);
    } else {
      var r := s[i + 1..];
      PartsNoBreak(s, i);
      SplitIsOk(r);
      MorePiecesOk(s, i, Split(r));
    }
  }

  lemma PartsNoBreak(s: string, i: nat)
    requires NoBreak(s) && i < |s|
    ensures NoBreak(s[..i]) && NoBreak(s[i + 1..]) && (i + 2 <= |s| ==> NoBreak(s[i + 2..]))
  {}

  lemma OnePieceOk(s: string)
    requires NoBreak(s) && ' ' !in s
    ensures SplitOk(s, Fields([s], WithoutColon))
  {}

  lemma TwoPiecesOk(s: string, i: nat)
    requires NoBreak(s) && i == IndexOf(s, ' ') && i + 1 < |s| && s[i + 1] == ':'
    ensures SplitOk(s, Fields([s[..i], s[i + 2..]], WithColon))
  {
    PartsNoBreak(s, i);
    assert [s[..i], s[i + 2..]][1..] == [s[i + 2..]];
    hide NoBreak;
  }

  lemma MorePiecesOk(s: string, i: nat, f: Fields)
    requires NoBreak(s) && i == IndexOf(s, ' ') < |s| && !(i + 1 < |s| && s[i + 1] == ':')
    requires |f.args| >= 1 && SplitOk(s[i + 1..], f)
    ensures SplitOk(s, Fields([s[..i]] + f.args, f.colon))
  {
    PartsNoBreak(s, i);
    assert ([s[..i]] + f.args)[1..] == f.args;
    hide NoBreak, TailOk;
    TailOkOfSplit(f.args, f.colon == WithColon);
  }

  lemma TailOkOfSplit(args: seq<string>, colon: bool)
    requires |args| >= 1 && MiddleArg(args[0])
    requires |args| > 1 ==> TailOk(args[1..], colon)
    ensures TailOk(args, colon)
  {
    assert forall k :: 1 <= k < |args| ==> args[k] == args[1..][k - 1];
  }

  /** Every parsed line is well-formed. */
  lemma ParseIsWellFormed(d: string)
    requires Parse(d).Some?
    ensures var l := Parse(d).value; WellFormedAs(l.origin, l.args, l.colon == WithColon)
    ensures WellFormed(Parse(d).value)
  {
    var l := Parse(d).value;
    if d != "" && d[0] == ':' {
      var p := IndexOf(d, ' ');
      assert ' ' !in d[1..p] by { assert d[..p][1..] == d[1..p]; }
      ParseArgsIsWellFormed(Some(d[1..p]), SkipSpaces(d[p..]));
    } else {
      ParseArgsIsWellFormed(None, d);
    }
  }

  lemma ParseArgsIsWellFormed(origin: Option<string>, s: string)
    requires origin.None? ==> !StartsWithColon(s)
    requires origin.Some? ==> ' ' !in origin.value && (s == "" || s[0] != ' ')
    ensures var l := ParseArgs(origin, s); WellFormedAs(l.origin, l.args, l.colon == WithColon)
  {
    SplitIsOk(Cut(s));
  }

  /** A second trip through printer and parser changes nothing. */
  lemma ParsePrintParse(d: string)
    requires Parse(d).Some?
    ensures Parse(Print(Parse(d).value)) == Parse(d)
  {
    ParseIsWellFormed(d);
    ParseOfPrint(Parse(d).value);
  }

  /** A last argument printed without a colon comes back only if it could stand in the middle. */
  lemma {:induction false} BareLastIsMiddle(args: seq<string>)
    requires |args| >= 2 && ' ' !in args[0] && TailOk(args[1..], true)
    requires Split(PrintArgs(args, false)).args == args
    ensures TailOk(args[1..], false)
    decreases |args|
  {
    var rest := args[1..];
    if |args| == 2 {
      assert args == [args[0], args[1]];
      BareLast(args[0], args[1]);
    } else {
      TailOkTail(rest, true);
      BareMiddle(args[0], PrintArgs(rest, false), rest);
      BareLastIsMiddle(rest);
      TailOkOfSplit(rest, false);
    }
  }

  lemma TailOkTail(args: seq<string>, colon: bool)
    requires |args| > 1 && TailOk(args, colon)
    ensures MiddleArg(args[0]) && TailOk(args[1..], colon)
  {
    var rest := args[1..];
    assert forall k :: 0 <= k < |rest| ==> rest[k] == args[k + 1];
  }

  lemma BareMiddle(first: string, t: string, args: seq<string>)
    requires ' ' !in first && !StartsWithColon(t)
    requires [first] + args == Split(first + " " + t).args
    ensures Split(t).args == args
  {
    SplitAtSpace(first, t);
    assert ([first] + Split(t).args)[1..] == Split(t).args;
    assert ([first] + args)[1..] == args;
  }

  lemma BareLast(first: string, last: string)
    requires ' ' !in first && NoBreak(last)
    ensures Split(first + " " + last).args == [first, last] ==> MiddleArg(last)
  {
    if StartsWithColon(last) {
      SplitAtColon(first, last[1..]);
      assert ":" + last[1..] == last;
      assert [first, last[1..]][1] != last;
    } else {
      SplitAtSpace(first, last);
      var args := Split(last).args;
      assert ([first] + args)[1..] == args;
      assert [first, last][1..] == [last];
      assert args == [last] ==> ' ' !in args[0];
    }
  }

  /** The codec law with its exact condition: a line with arguments survives printing and
      parsing if and only if it is well-formed. */
  lemma SurvivesIffWellFormed(l: Line)
    requires |l.args| >= 1
    ensures WellFormed(l) <==>
            var r := Parse(Print(l)); r.Some? && r.value.origin == l.origin && r.value.args == l.args
  {
    var r := Parse(Print(l));
    if WellFormed(l) {
      ParseOfPrint(l);
    } else if r.Some? && r.value.origin == l.origin && r.value.args == l.args {
      ParseIsWellFormed(Print(l));
      SurvivorIsWellFormed(l.origin, l.args, PrintsColon(l), r.value.colon == WithColon);
    }
  }

  lemma SurvivorIsWellFormed(origin: Option<string>, args: seq<string>, printed: bool, parsed: bool)
    requires |args| >= 1 && (|args| == 1 ==> !printed)
    requires WellFormedAs(origin, args, parsed)
    requires Parse(PrintAs(origin, args, printed)).Some?
    requires Parse(PrintAs(origin, args, printed)).value.args == args
    ensures WellFormedAs(origin, args, printed)
  {
    if |args| > 1 && !printed {
      SplitOfSurvivor(origin, args, parsed);
      BareLastIsMiddle(args);
    }
  }

  lemma SplitOfSurvivor(origin: Option<string>, args: seq<string>, parsed: bool)
    requires |args| > 1 && WellFormedAs(origin, args, parsed)
    requires Parse(PrintAs(origin, args, false)).Some?
    requires Parse(PrintAs(origin, args, false)).value.args == args
    ensures Split(PrintArgs(args, false)).args == args
  {
    var body := PrintArgs(args, false);
    AllArgsNoBreak(args, parsed);
    PrintArgsHasNoBreak(args, false);
    ParseOfText(origin, body, "");
    assert PrintAs(origin, args, false) == PrintOrigin(origin) + body + "";
  }
}
