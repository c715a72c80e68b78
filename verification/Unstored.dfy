/** Which lines the linestack must keep: whatever it leaves out changes nothing that a snapshot shows,
    but for a few replies that are only about WHO data, the user's own nick and modes, or lists. */
module Unstored {
  import opened Base
  import opened Casemap
  import opened Info
  import opened Line
  import opened State
  import opened Handlers
  import opened Views
  import opened Linestack
  import opened Replay

  /** CTCP other than ACTION. */
  predicate IsRequest(l: Line) {
    |l.args| > 2 && l.args[2] != "" && l.args[2][0] == '\U{1}' &&
    !(|l.args[2]| >= 7 && AsciiEq(l.args[2][..7], "\U{1}ACTION"))
  }

  /** The lines that are not kept and may change the view: the own nick (001) and modes (221), hostmasks
      (302), WHO replies (352), lists under way (367, 368, 346 to 349), and CTCP by PRIVMSG, which opens
      a query. */
  predicate OutsideLog(l: Line) {
    && |l.args| > 0
    && (|| l.args[0] in ["001", "221", "302", "352", "367", "368", "346", "347", "348", "349"]
        || (AsciiEq("PRIVMSG", l.args[0]) && IsRequest(l)))
  }

  // -------------------------------------------------------------------- messages, both ways

  /** Messages and notices are kept in both directions, but for CTCP that is no ACTION. */
  lemma TalkIsNeeded(l: Line, dir: Direction)
    requires |l.args| > 0 && (AsciiEq("PRIVMSG", l.args[0]) || AsciiEq("NOTICE", l.args[0]))
    ensures Needed(l, dir) <==> !IsRequest(l)
  {
    AsciiEqSym("PRIVMSG", l.args[0]);
    AsciiEqSym("NOTICE", l.args[0]);
    hide AsciiEq;
    assert WORDS[4] == "PRIVMSG" && WORDS[5] == "NOTICE";
  }

  /** Of what the user sends nothing else is kept. */
  lemma OnlyTalkToServer(l: Line)
    requires Needed(l, ToServer)
    ensures AsciiEq("PRIVMSG", l.args[0]) || AsciiEq("NOTICE", l.args[0])
  {
    AsciiEqSym("PRIVMSG", l.args[0]);
    AsciiEqSym("NOTICE", l.args[0]);
    hide AsciiEq;
  }

  // ------------------------------------------------------------------------ from the server

  /** The commands that change the view, as far as they must be kept. */
  predicate ChangesView(c: Command) {
    c in {NICK, JOIN, QUIT, PART, KICK, MODE, TOPIC, N353, N366, N331, N333, N332, N324, N329}
  }

  lemma WordIsNeeded(l: Line)
    requires |l.args| > 0 && CommandOf(l) in {NICK, JOIN, QUIT, PART, KICK, MODE, TOPIC}
    ensures Needed(l, FromServer)
  {
    var c := l.args[0];
    NotTalk(c);
    hide AsciiEq;
    assert WORDS[0] == "NICK" && WORDS[1] == "JOIN" && WORDS[2] == "QUIT" && WORDS[3] == "PART";
    assert WORDS[6] == "KICK" && WORDS[7] == "MODE" && WORDS[8] == "TOPIC";
  }

  /** PRIVMSG and NOTICE are no other command. */
  lemma NotTalk(c: string)
    ensures IsTalk(c) ==> !AsciiEq("NICK", c) && !AsciiEq("JOIN", c) && !AsciiEq("QUIT", c) && !AsciiEq("PART", c)
    ensures IsTalk(c) ==> !AsciiEq("KICK", c) && !AsciiEq("MODE", c) && !AsciiEq("TOPIC", c)
    ensures IsTalk(c) ==> c !in ["353", "366", "331", "333", "332", "324", "329"]
  {
    forall w | w in ["PRIVMSG", "NOTICE"]
      ensures AsciiEq(c, w) ==> |c| >= 6
    {
      AsciiEqLength(c, w);
    }
    forall w | w in ["NICK", "JOIN", "QUIT", "PART", "KICK", "MODE", "TOPIC"]
      ensures AsciiEq(w, c) ==> |c| < 6
    {
      AsciiEqLength(w, c);
    }
    hide AsciiEq;
  }

  lemma NumericIsNeeded(l: Line)
    requires |l.args| > 0 && CommandOf(l) in {N353, N366, N331, N333, N332, N324, N329}
    ensures Needed(l, FromServer)
  {
    NotTalk(l.args[0]);
    hide AsciiEq;
    assert l.args[0] in ["353", "366", "331", "333", "332", "324", "329"];
  }

  /** What is left out changes, besides the away flag and the network information, nothing. */
  lemma RestIsQuiet(s: Net, l: Line, now: int)
    requires Sound(s) && Accepts(s, l) && !ChangesView(CommandOf(l)) && CommandOf(l) != PRIVMSG
    requires CommandOf(l) !in {N001, N221, N302, N352, N346, N347, N348, N349, N367, N368}
    ensures Alike(Default(Step(s, l, now)), Default(s))
  {
    hide Sound, CommandNamed, Accepts;
    var r := Step(s, l, now);
    assert r.channels == s.channels && r.people == s.people;
  }

  /** The converse of keeping: an acceptable line from the server that is not kept, and is none of those
      few, leaves what a snapshot shows as it was. */
  lemma UnneededLeavesView(s: Net, l: Line, now: int)
    requires Sound(s) && Accepts(s, l) && |l.args| > 0 && !Needed(l, FromServer) && !OutsideLog(l)
    ensures Alike(Default(Step(s, l, now)), Default(s))
  {
    var c := CommandOf(l);
    if c in {NICK, JOIN, QUIT, PART, KICK, MODE, TOPIC} { WordIsNeeded(l); }
    if c in {N353, N366, N331, N333, N332, N324, N329} { NumericIsNeeded(l); }
    assert c == PRIVMSG ==> AsciiEq("PRIVMSG", l.args[0]) by { hide AsciiEq; }
    if c == PRIVMSG { TalkIsNeeded(l, FromServer); }
    if c in {N001, N221, N302, N352, N346, N347, N348, N349, N367, N368} { NumbersAre(l); }
    hide Sound, Accepts, Step, Needed, OutsideLog, Alike, CommandOf;
    RestIsQuiet(s, l, now);
  }

  lemma NumbersAre(l: Line)
    requires |l.args| > 0 && CommandOf(l) in {N001, N221, N302, N352, N346, N347, N348, N349, N367, N368}
    ensures l.args[0] in ["001", "221", "302", "352", "367", "368", "346", "347", "348", "349"]
  {
    hide AsciiEq;
  }
}
