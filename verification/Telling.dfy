/** Topics and modes, told and heard: what a receiver that parses the printed lines makes of the TOPIC,
    332, 333 and MODE lines a channel is announced with. The hypotheses are on the texts. */
module Telling {
  import opened Base
  import opened Casemap
  import opened Info
  import opened Line
  import opened Texts
  import opened State
  import opened Handlers
  import opened Modes
  import opened Effects
  import opened Marshal
  import opened Names
  import opened Sending
  import opened Diff

  /** A line that comes back is heard as it was sent, but for the colon flag. */
  lemma HeardWhole(s: Net, l: Line, now: int)
    requires Sound(s) && |l.args| >= 1 && ComesBack(l)
    ensures Legible([l])
    ensures var h := l.(colon := ColonFlag(PrintsColon(l)));
            && (Accepted(s, Heard([l], now)) <==> Accepts(s, h))
            && (Accepts(s, h) ==> Run(s, Heard([l], now)) == Step(s, h, now))
  {
    hide Sound, Accepted, Accepts, Run, Step, WellFormed, ComesBack;
    ComesBackIsWellFormed(l);
    OneLineHeard(s, l, now);
  }

  // ----------------------------------------------------------------------------- topics

  /** The 332 line of client_send_topic gives the receiver the topic, spaces and all. */
  lemma TopicHeard(s: Net, p: Peer, name: string, topic: string, now: int)
    requires Sound(s) && PeerOk(p) && MiddleArg(name) && NoBreak(topic)
    ensures var l := Line(p.origin, ["332", p.target, name, topic], ColonUnknown);
            && Legible([l]) && Accepted(s, Heard([l], now))
            && Run(s, Heard([l], now)) == Retold(s, name, DataOf(s, name).(topic := Some(topic)))
  {
    var l := Line(p.origin, ["332", p.target, name, topic], ColonUnknown);
    assert ["332"] + [p.target, name] + [topic] == l.args;
    assert ComesBack(l) by { hide ComesBack, MiddleArg; MessageSurvives(p.origin, "332", [p.target, name], topic); }
    hide Sound, Accepted, Accepts, Run, Step, ComesBack, Retold, DataOf;
    HeardWhole(s, l, now);
    TopicIs(s, l.(colon := ColonFlag(PrintsColon(l))), now);
  }

  lemma NumberIsMiddle(n: int)
    ensures MiddleArg(DecInt(n))
  {
    var d := Dec(if n < 0 then -n else n);
    assert forall k :: 0 <= k < |d| ==> IsDigit(d[k]);
  }

  /** The 333 line gives it the setter and the time, to the second. */
  lemma SetterHeard(s: Net, p: Peer, name: string, setter: string, time: int, now: int)
    requires Sound(s) && PeerOk(p) && MiddleArg(name) && MiddleArg(setter)
    ensures var l := Line(p.origin, ["333", p.target, name, setter, DecInt(time)], ColonUnknown);
            && Legible([l]) && Accepted(s, Heard([l], now))
            && Run(s, Heard([l], now)) ==
               Retold(s, name, DataOf(s, name).(topicSetBy := Some(setter), topicSetTime := time))
  {
    var l := Line(p.origin, ["333", p.target, name, setter, DecInt(time)], ColonUnknown);
    StrtolOfDecInt(time);
    hide DecInt, StrtolAuto;
    SetterComesBack(p.origin, p.target, name, setter, time);
    hide Sound, Accepted, Accepts, Run, Step, ComesBack, Retold, DataOf, KnownChan;
    HeardWhole(s, l, now);
    TopicSetBy(s, l.(colon := ColonFlag(PrintsColon(l))), now);
  }

  lemma SetterComesBack(origin: Option<string>, target: string, name: string, setter: string, time: int)
    requires MiddleArg(target) && MiddleArg(name) && MiddleArg(setter) && (origin.Some? ==> ' ' !in origin.value)
    ensures ComesBack(Line(origin, ["333", target, name, setter, DecInt(time)], ColonUnknown))
  {
    NumberIsMiddle(time);
    MiddleIsNoBreak(DecInt(time));
    assert MiddleArg("333");
    hide MiddleArg, ComesBack, DecInt;
    var head := ["333", target, name, setter];
    assert head + [DecInt(time)] == ["333", target, name, setter, DecInt(time)];
    TextSurvivesIff(origin, head, DecInt(time));
  }

  /** A TOPIC line with a topic and an origin gives the topic, the nick of the origin and the time it is
      heard; without an origin, or to take a topic away, it gives nothing. */
  lemma TopicChangeHeard(s: Net, origin: Option<string>, name: string, topic: Option<string>, now: int)
    requires Sound(s) && MiddleArg(name) && (topic.Some? ==> NoBreak(topic.value) && KnownChan(s, name))
    requires origin.Some? ==> ' ' !in origin.value
    ensures var l := Line(origin, ["TOPIC", name] + (if topic.Some? then [topic.value] else []), ColonUnknown);
            && Legible([l]) && Accepted(s, Heard([l], now))
            && Run(s, Heard([l], now)) ==
               if origin.Some? && topic.Some?
               then Retold(s, name, DataOf(s, name).(topic := topic, topicSetBy := Some(NickPart(origin.value)),
                                                     topicSetTime := now))
               else s
  {
    var l := Line(origin, ["TOPIC", name] + (if topic.Some? then [topic.value] else []), ColonUnknown);
    var h := l.(colon := ColonFlag(PrintsColon(l)));
    TopicComesBack(origin, name, topic);
    hide Sound, Accepted, Accepts, Run, Step, ComesBack, Retold, DataOf, FindChan, PrintsColon;
    HeardWhole(s, l, now);
    TopicHandled(s, h, now);
  }

  lemma TopicHandled(s: Net, l: Line, now: int)
    requires Sound(s) && |l.args| >= 2 && l.args[0] == "TOPIC" && (|l.args| > 2 ==> KnownChan(s, l.args[1]))
    ensures Accepts(s, l)
    ensures Step(s, l, now) ==
            if l.origin.Some? && |l.args| > 2
            then Retold(s, l.args[1],
                        DataOf(s, l.args[1]).(topic := Some(l.args[2]), topicSetBy := Some(NickPart(l.origin.value)),
                                              topicSetTime := now))
            else s
  {
    AsciiEqRefl("TOPIC");
    if |l.args| > 2 {
      hide Sound, Accepts, Step, Retold, DataOf, AsciiEq, FindChan;
      TopicLine(s, l, now);
    } else {
      assert CommandOf(l) == TOPIC by { WordNamed("TOPIC", "TOPIC"); }
      hide Sound, Accepts, Step, CommandOf, AsciiEq;
      ShortLine(s, l, now);
    }
  }

  lemma TopicComesBack(origin: Option<string>, name: string, topic: Option<string>)
    requires MiddleArg(name) && (topic.Some? ==> NoBreak(topic.value)) && (origin.Some? ==> ' ' !in origin.value)
    ensures ComesBack(Line(origin, ["TOPIC", name] + (if topic.Some? then [topic.value] else []), ColonUnknown))
  {
    hide ComesBack, MiddleArg;
    PlainCommand("TOPIC");
    assert ["TOPIC"] + [name] == ["TOPIC", name] == ["TOPIC", name] + [];
    if topic.Some? {
      assert ["TOPIC"] + [name] + [topic.value] == ["TOPIC", name] + [topic.value];
      MessageSurvives(origin, "TOPIC", [name], topic.value);
    } else {
      MiddleIsNoBreak(name);
      TextSurvivesIff(origin, ["TOPIC"], name);
    }
  }

  lemma MiddleIsNoBreak(s: string)
    requires MiddleArg(s)
    ensures NoBreak(s)
  {}

  // ------------------------------------------------------------------------------ modes

  /** A letter that wants an argument when it is set: a list, a setting, or a prefix mode. */
  predicate WantsArgument(info: Info, m: char)
    requires ChanmodesOk(info)
  {
    var g := Groups(info);
    m in g[0] || m in g[1] || m in g[2] || IsPrefixMode(info, m)
  }

  /** The flags among letters sent without arguments, up to the first that wants one: it is refused and
      ends the line. */
  function FlagsHeeded(info: Info, letters: string): (r: set<char>)
    requires ChanmodesOk(info)
  {
    if letters == "" || WantsArgument(info, letters[0]) then {}
    else FlagOf(info, letters[0]) + FlagsHeeded(info, letters[1..])
  }

  function FlagOf(info: Info, m: char): (r: set<char>)
    requires ChanmodesOk(info)
  {
    if m in Groups(info)[3] then {m} else {}
  }

  /** All of them, exactly when all are flags. */
  lemma {:induction false} HeededIff(info: Info, letters: string)
    requires ChanmodesOk(info)
    ensures (forall m :: m in letters ==> m in FlagsHeeded(info, letters)) <==>
            (forall m :: m in letters ==> m in Groups(info)[3] && !WantsArgument(info, m))
    ensures forall m :: m in FlagsHeeded(info, letters) ==>
            m in letters && m in Groups(info)[3] && !WantsArgument(info, m)
    decreases |letters|
  {
    hide ChanmodesOk, WantsArgument;
    if letters != "" {
      var m, rest := letters[0], letters[1..];
      assert letters == [m] + rest;
      HeededIff(info, rest);
    }
  }

  function LettersIn(ds: seq<Directive>): (r: string)
    ensures |r| == |ds| && forall k :: 0 <= k < |r| ==> r[k] == ds[k].letter
  {
    seq(|ds|, k requires 0 <= k < |ds| => ds[k].letter)
  }

  /** Letters set in turn without arguments: the flags heeded are set, and nothing else changes. */
  lemma {:induction false} BareApplied(s: Net, setter: Option<string>, i: nat, ds: seq<Directive>, now: int)
    requires Sound(s) && i < |s.channels| && ChanmodesOk(s.info)
    requires forall k :: 0 <= k < |ds| ==> ds[k].on && ds[k].arg.None?
    ensures ApplyModes(s, setter, i, ds, now) ==
            WithChan(s, i, s.channels[i].data.(modes := s.channels[i].data.modes + FlagsHeeded(s.info, LettersIn(ds))))
    decreases |ds|
  {
    hide Sound, ChanmodesOk, WantsArgument, ChangeMode, FlagOf;
    var d, heeded := s.channels[i].data, FlagsHeeded(s.info, LettersIn(ds));
    SameFlags(s, i);
    if ds != [] {
      var m, rest := ds[0].letter, FlagsHeeded(s.info, LettersIn(ds[1..]));
      assert LettersIn(ds)[0] == m && LettersIn(ds)[1..] == LettersIn(ds[1..]);
      OneBare(s, setter, i, m, now);
      if !WantsArgument(s.info, m) {
        var flags := d.modes + FlagOf(s.info, m);
        var r := WithChan(s, i, d.(modes := flags));
        BareApplied(r, setter, i, ds[1..], now);
        assert flags + rest == d.modes + heeded;
      }
    }
  }

  lemma SameFlags(s: Net, i: nat)
    requires i < |s.channels|
    ensures WithChan(s, i, s.channels[i].data.(modes := s.channels[i].data.modes + {})) == s
  {
    assert s.channels[i].data.modes + {} == s.channels[i].data.modes;
    assert s.channels[i := s.channels[i]] == s.channels;
  }

  lemma OneBare(s: Net, setter: Option<string>, i: nat, m: char, now: int)
    requires Sound(s) && i < |s.channels| && ChanmodesOk(s.info)
    ensures var c, d := ChangeMode(s, setter, i, true, m, None, now), s.channels[i].data;
            && (WantsArgument(s.info, m) ==> c == Change(s, None))
            && (!WantsArgument(s.info, m) ==>
                  && c.taken.Some?
                  && c.state == WithChan(s, i, d.(modes := d.modes + FlagOf(s.info, m))))
  {
    SameFlags(s, i);
    hide Sound, IsPrefixMode;
  }

  /** Letters that can be printed behind a plus: no sign, no space, no line break. */
  predicate PlainText(letters: string) {
    '+' !in letters && '-' !in letters && ' ' !in letters && NoBreak(letters)
  }

  /** A text without signs: every letter with the sign in force. */
  lemma {:induction false} PlainLetters(text: string, on: bool)
    requires '+' !in text && '-' !in text
    ensures var ds := SignedLetters(text, on);
            |ds| == |text| && forall k :: 0 <= k < |ds| ==> ds[k] == Signed(on, text[k])
    decreases |text|
  {
    if text != "" {
      assert text[0] in text && forall k :: 0 <= k < |text[1..]| ==> text[1..][k] in text;
      PlainLetters(text[1..], on);
    }
  }

  lemma PlusSigned(letters: string)
    ensures SignedLetters("+" + letters, true) == SignedLetters(letters, true)
  {
    assert ("+" + letters)[1..] == letters;
  }

  lemma PlusIsMiddle(letters: string)
    requires ' ' !in letters && NoBreak(letters)
    ensures MiddleArg("+" + letters) && NoBreak("+" + letters)
  {}

  /** Every directive of such a text sets, and none has an argument. */
  lemma BareDirectives(info: Info, letters: string, args: seq<string>)
    requires ChanmodesOk(info) && PlainText(letters) && |args| == 3
    ensures var ds := Directives(info, SignedLetters("+" + letters, true), args, 3);
            && (forall k :: 0 <= k < |ds| ==> ds[k].on && ds[k].arg.None?) && LettersIn(ds) == letters
  {
    PlusSigned(letters);
    PlainLetters(letters, true);
    hide ChanmodesOk, SignedLetters;
  }

  lemma LettersComeBack(origin: Option<string>, name: string, letters: string)
    requires MiddleArg(name) && PlainText(letters) && (origin.Some? ==> ' ' !in origin.value)
    ensures ComesBack(Line(origin, ["MODE", name, "+" + letters], ColonUnknown))
    ensures ComesBack(Line(origin, ["MODE", name], ColonUnknown))
  {
    assert MiddleArg("MODE");
    PlusIsMiddle(letters);
    MiddleIsNoBreak(name);
    hide MiddleArg, ComesBack;
    assert ["MODE", name] + ["+" + letters] == ["MODE", name, "+" + letters];
    TextSurvivesIff(origin, ["MODE", name], "+" + letters);
    assert ["MODE"] + [name] == ["MODE", name];
    TextSurvivesIff(origin, ["MODE"], name);
  }

  /** A MODE line that sets letters without arguments adds the flags heeded to the receiver's. */
  lemma LettersHeard(s: Net, origin: Option<string>, name: string, letters: string, now: int)
    requires Sound(s) && origin.Some? && ' ' !in origin.value && MiddleArg(name)
    requires PlainText(letters) && s.info.chantypes.Some? && ChanmodesOk(s.info)
    requires name == "" || name[0] in s.info.chantypes.value
    ensures var l := Line(origin, ["MODE", name, "+" + letters], ColonUnknown);
            && Legible([l]) && Accepted(s, Heard([l], now))
            && Run(s, Heard([l], now)) ==
               Retold(s, name, DataOf(s, name).(modes := DataOf(s, name).modes + FlagsHeeded(s.info, letters)))
  {
    var l := Line(origin, ["MODE", name, "+" + letters], ColonUnknown);
    LettersComeBack(origin, name, letters);
    hide Sound, Accepted, Accepts, Run, Step, ComesBack, Retold, DataOf, FindChan, PrintsColon, ChanmodesOk, PlainText;
    hide FlagsHeeded;
    HeardWhole(s, l, now);
    LettersHandled(s, l.(colon := ColonFlag(PrintsColon(l))), letters, now);
  }

  lemma LettersHandled(s: Net, l: Line, letters: string, now: int)
    requires Sound(s) && l.origin.Some? && |l.args| == 3 && l.args[0] == "MODE" && l.args[2] == "+" + letters
    requires PlainText(letters) && s.info.chantypes.Some? && ChanmodesOk(s.info)
    requires l.args[1] == "" || l.args[1][0] in s.info.chantypes.value
    ensures Accepts(s, l)
    ensures Step(s, l, now) ==
            Retold(s, l.args[1], DataOf(s, l.args[1]).(modes := DataOf(s, l.args[1]).modes +
                                                       FlagsHeeded(s.info, letters)))
  {
    var name := l.args[1];
    var i, setter := FindChan(s, name), SetterOf(s, NickPart(l.origin.value));
    AsciiEqRefl("MODE");
    hide Sound, Accepts, Step, AsciiEq, FindChan, ChanmodesOk, Directives, SignedLetters, PlainText, ApplyModes;
    hide NickPart, SetterOf, FlagsHeeded;
    BareDirectives(s.info, letters, l.args);
    ModeOf(s, l, now);
    if i < |s.channels| {
      BareApplied(s, setter, i, Directives(s.info, SignedLetters("+" + letters, true), l.args, 3), now);
    }
  }

  /** Without letters it is ignored. */
  lemma NoLettersHeard(s: Net, origin: Option<string>, name: string, now: int)
    requires Sound(s) && MiddleArg(name) && (origin.Some? ==> ' ' !in origin.value)
    ensures var l := Line(origin, ["MODE", name], ColonUnknown);
            Legible([l]) && Accepted(s, Heard([l], now)) && Run(s, Heard([l], now)) == s
  {
    var l := Line(origin, ["MODE", name], ColonUnknown);
    LettersComeBack(origin, name, "");
    hide Sound, Accepted, Accepts, Run, Step, ComesBack, PrintsColon;
    HeardWhole(s, l, now);
    NoLettersHandled(s, l.(colon := ColonFlag(PrintsColon(l))), now);
  }

  lemma NoLettersHandled(s: Net, l: Line, now: int)
    requires Sound(s) && |l.args| == 2 && l.args[0] == "MODE"
    ensures Accepts(s, l) && Step(s, l, now) == s
  {
    AsciiEqRefl("MODE");
    assert CommandOf(l) == MODE by { WordNamed("MODE", "MODE"); }
    hide Sound, Accepts, Step, CommandOf, AsciiEq;
    ShortLine(s, l, now);
  }

  // -------------------------------------------------------------------- a printed mode set

  /** The letters of a printed mode set. */
  lemma {:induction false} LettersPrinted(modes: set<char>, c: nat)
    requires ModesOk(modes)
    ensures forall m: char :: m in ModeLetters(modes, c) <==> m in modes && c <= m as int
    decreases 255 - c
  {
    if c < 255 {
      LettersPrinted(modes, c + 1);
      var rest := ModeLetters(modes, c + 1);
      assert ModeLetters(modes, c) == (if c as char in modes then [c as char] else []) + rest;
    }
  }

  /** It has its letters behind one plus; an empty set is not printed. */
  lemma PrintedModes(modes: set<char>)
    requires ModesOk(modes) && ' ' !in modes && '\0' !in modes
    ensures var text, letters := ModesToString(modes), ModeLetters(modes, 0);
            && PlainText(letters) && (forall m: char :: m in letters <==> m in modes)
            && text == if modes == {} then None else Some("+" + letters)
  {
    var letters := ModeLetters(modes, 0);
    LettersPrinted(modes, 0);
    ModeLettersOk(modes, 0);
    hide ModeLetters;
    SignsAreNone(modes, letters);
    hide ModesOk, NoBreak;
    if modes == {} {
      if letters != "" { HasLetter(letters); }
    } else {
      var m :| m in modes;
      assert m in letters;
    }
  }

  lemma SignsAreNone(modes: set<char>, letters: string)
    requires ModesOk(modes) && forall m: char :: m in letters <==> m in modes
    ensures '+' !in letters && '-' !in letters
  {}

  lemma HasLetter(s: string)
    requires s != ""
    ensures exists m: char :: m in s
  {
    assert s[0] in s;
  }
}
