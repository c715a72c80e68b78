/** What comes back of a text sent as the last argument of a line that leaves the colon to the printer,
    said of the printed text alone. */
module Texts {
  import opened Base
  import opened Casemap
  import opened Line

  /** Numerics after which the last argument is printed bare. */
  const BARE: set<int> := {
    4, 200, 201, 203, 204, 205, 206, 208, 211, 212, 213, 214, 215, 216, 218, 219, 221,
    241, 242, 243, 244, 261, 324, 329, 333, 341, 367}

  /** The exceptions: MODE, NICK and JOIN, a PART or TOPIC of two arguments, and those numerics. */
  predicate IsBare(command: string, n: nat) {
    || AsciiEq(command, "MODE") || AsciiEq(command, "NICK") || AsciiEq(command, "JOIN")
    || (n == 2 && (AsciiEq(command, "PART") || AsciiEq(command, "TOPIC")))
    || Atoi(command) in BARE
  }

  /** The command and the arguments before the last, which can stand in a line, and an origin that can. */
  predicate HeadOk(origin: Option<string>, head: seq<string>) {
    && head != [] && head[0] != "" && MiddleArg(head[0]) && (forall k :: 1 <= k < |head| ==> MiddleArg(head[k]))
    && (origin.Some? ==> ' ' !in origin.value)
  }

  /** The receiver has the sender's arguments, each whole. */
  predicate ComesBack(l: Line) {
    var r := Parse(PrintNl(l)); r.Some? && r.value.origin == l.origin && r.value.args == l.args
  }

  /** Any text without a line break comes back whole as the last argument, unless the command is one of
      the exceptions and the text could not stand in the middle of a line. */
  lemma TextSurvivesIff(origin: Option<string>, head: seq<string>, text: string)
    requires HeadOk(origin, head) && NoBreak(text)
    ensures ComesBack(Line(origin, head + [text], ColonUnknown)) <==> !IsBare(head[0], |head| + 1) || MiddleArg(text)
  {
    var l := Line(origin, head + [text], ColonUnknown);
    hide Parse, Atoi, AsciiEq, MiddleArg;
    assert PrintsColon(l) <==> !IsBare(head[0], |head| + 1) by { ColonIffNotBare(l); }
    TailOkIff(head, text, PrintsColon(l));
    hide PrintsColon, IsBare, TailOk;
    assert WellFormed(l) <==> PrintsColon(l) || MiddleArg(text) by { FirstIs(head, text); }
    NewlineIsNothing(l);
    SurvivesIffWellFormed(l);
  }

  lemma ColonIffNotBare(l: Line)
    requires |l.args| > 1 && l.colon == ColonUnknown
    ensures PrintsColon(l) <==> !IsBare(l.args[0], |l.args|)
  {
    var c := l.args[0];
    if AsciiEq(c, "PART") || AsciiEq(c, "TOPIC") { WordIsNoNumber(c); }
    hide Atoi, AsciiEq;
    assert Atoi(c) in PLAIN_NUMERICS <==> Atoi(c) in BARE;
  }

  lemma WordIsNoNumber(c: string)
    requires AsciiEq(c, "PART") || AsciiEq(c, "TOPIC")
    ensures Atoi(c) == 0
  {
    assert c != "" && !IsDigit(c[0]) && !IsBlank(c[0]) && c[0] != '-' && c[0] != '+';
  }

  lemma TailOkIff(head: seq<string>, text: string, colon: bool)
    requires head != [] && (forall k :: 1 <= k < |head| ==> MiddleArg(head[k])) && NoBreak(text)
    ensures TailOk((head + [text])[1..], colon) <==> colon || MiddleArg(text)
  {
    hide MiddleArg, NoBreak;
    var tail := (head + [text])[1..];
    assert tail == head[1..] + [text];
    assert forall k :: 0 <= k < |tail| - 1 ==> tail[k] == head[k + 1];
  }

  lemma FirstIs(head: seq<string>, text: string)
    requires head != [] && MiddleArg(head[0])
    ensures ' ' !in (head + [text])[0] && NoBreak((head + [text])[0]) && !StartsWithColon((head + [text])[0])
  {}

  /** CR LF behind a line is not part of it. */
  lemma NewlineIsNothing(l: Line)
    requires |l.args| >= 1
    ensures ComesBack(l) <==> var r := Parse(Print(l)); r.Some? && r.value.origin == l.origin && r.value.args == l.args
  {
    hide Print;
    ParseIgnoresBreak(Print(l));
  }

  lemma ParseIgnoresBreak(s: string)
    ensures Parse(s + "\r\n") == Parse(s)
  {
    hide Cut, Split, SkipSpaces;
    var t := s + "\r\n";
    if s != "" && s[0] == ':' {
      var p := IndexOf(s, ' ');
      SameIndex(s, "\r\n");
      if p < |s| {
        assert t[1..p] == s[1..p] && t[p..] == s[p..] + "\r\n";
        SkipBefore(s[p..], "\r\n");
        CutBefore(SkipSpaces(s[p..]));
      }
    } else {
      CutBefore(s);
    }
  }

  lemma SameIndex(s: string, tail: string)
    requires ' ' !in tail
    ensures var i := IndexOf(s, ' '); IndexOf(s + tail, ' ') == if i == |s| then |s + tail| else i
  {
    var i, t := IndexOf(s, ' '), s + tail;
    if i == |s| {
      IndexOfIs(t, ' ', |t|);
    } else {
      assert t[..i] == s[..i];
      IndexOfIs(t, ' ', i);
    }
  }

  lemma {:induction false} SkipBefore(s: string, tail: string)
    requires tail != "" && tail[0] != ' '
    ensures SkipSpaces(s + tail) == SkipSpaces(s) + tail
  {
    if s == "" {
      assert s + tail == tail;
    } else {
      assert (s + tail)[1..] == s[1..] + tail;
      SkipBefore(s[1..], tail);
    }
  }

  lemma CutBefore(s: string)
    ensures Cut(s + "\r\n") == Cut(s)
  {
    var n, t := |Cut(s)|, s + "\r\n";
    assert t[..n] == Cut(s);
    CutIs(t, n);
  }

  lemma ComesBackIsWellFormed(l: Line)
    requires |l.args| >= 1 && ComesBack(l)
    ensures WellFormed(l)
  {
    hide Parse, Print, WellFormed, ComesBack;
    NewlineIsNothing(l);
    SurvivesIffWellFormed(l);
  }

  // ---------------------------------------------------------------------- the senders

  /** A command after which any text is printed behind a colon. */
  predicate TakesText(command: string, n: nat) { !IsBare(command, n) }

  /** The lines the senders build, and messages. */
  const TALKATIVE := ["332", "315", "352", "366", "QUIT", "PRIVMSG", "NOTICE", "KICK", "PART", "TOPIC"]

  /** A numeric of three digits is that number, and no word. */
  lemma NumberOf(s: string, n: nat)
    requires |s| == 3 && IsDigit(s[0]) && IsDigit(s[1]) && IsDigit(s[2])
    requires n == 100 * (s[0] as int - 48) + 10 * (s[1] as int - 48) + (s[2] as int - 48)
    ensures Atoi(s) == n && forall k: nat :: TakesText(s, k) <==> n !in BARE
  {
    var a, b := s[0] as int - 48, s[1] as int - 48;
    assert s[1..][1..] == s[2..] && s[2..][1..] == s[3..] == "";
    assert Digits(s, 0) == Digits(s[1..], a) == Digits(s[2..], 10 * a + b) == Digits("", n);
    assert Atoi(s) == Digits(s, 0);
    hide Atoi;
    assert !AsciiEq(s, "MODE") && !AsciiEq(s, "NICK") && !AsciiEq(s, "JOIN");
    assert !AsciiEq(s, "PART") && !AsciiEq(s, "TOPIC");
  }

  /** The topic, the reason for leaving and every message: commands whose last argument may be any text. */
  lemma SendersTakeText(command: string, n: nat)
    requires command in TALKATIVE
    requires command == "PART" || command == "TOPIC" ==> n > 2
    ensures TakesText(command, n)
  {
    hide TakesText, Atoi, Digits;
    if command == "332" { NumberOf(command, 332); }
    else if command == "315" { NumberOf(command, 315); }
    else if command == "352" { NumberOf(command, 352); }
    else if command == "366" { NumberOf(command, 366); }
    else { WordTakesText(command, n); }
  }

  lemma WordTakesText(command: string, n: nat)
    requires command in ["QUIT", "PRIVMSG", "NOTICE", "KICK", "PART", "TOPIC"]
    requires command == "PART" || command == "TOPIC" ==> n > 2
    ensures TakesText(command, n)
  {
    assert Atoi(command) == 0;
    hide Atoi;
  }

  /** So what these lines say is heard whole. */
  lemma MessageSurvives(origin: Option<string>, command: string, middle: seq<string>, text: string)
    requires command in TALKATIVE
    requires command == "PART" || command == "TOPIC" ==> middle != []
    requires (forall k :: 0 <= k < |middle| ==> MiddleArg(middle[k])) && (origin.Some? ==> ' ' !in origin.value)
    requires NoBreak(text)
    ensures ComesBack(Line(origin, [command] + middle + [text], ColonUnknown))
  {
    hide Parse, IsBare, ComesBack, Atoi;
    var head := [command] + middle;
    SendersTakeText(command, |head| + 1);
    PlainCommand(command);
    hide TALKATIVE, MiddleArg;
    assert forall k :: 1 <= k < |head| ==> head[k] == middle[k - 1];
    TextSurvivesIff(origin, head, text);
  }

  lemma PlainCommand(command: string)
    requires command in TALKATIVE
    ensures MiddleArg(command) && command != ""
  {}
}
