/** What each line does, said of its command word and arguments: the table of commands, which lines a
    handler gets through, and the fields they leave. */
module Effects {
  import opened Base
  import opened Casemap
  import opened Info
  import opened Isupport
  import opened Line
  import opened State
  import opened Handlers
  import opened Modes

  // ------------------------------------------------------------------------ the table

  const WORDS: set<string> := {"JOIN", "PART", "KICK", "QUIT", "TOPIC", "NICK", "PRIVMSG", "MODE"}
  const NUMERICS: set<string> := {
    "001", "004", "005", "221", "302", "324", "329", "332", "333", "331", "353", "366", "367", "368",
    "346", "347", "348", "349", "352", "315", "306", "305"}

  lemma WordsDiffer(v: string, w: string)
    requires v in WORDS && w in WORDS && v != w
    ensures !AsciiEq(v, w)
  {
    AsciiEqLength(v, w);
    hide AsciiEq;
    if |v| == |w| { AsciiNe(v, w); }
  }

  lemma OnlyWord(w: string, c: string)
    requires w in WORDS && AsciiEq(w, c)
    ensures (forall v :: v in WORDS ==> (AsciiEq(v, c) <==> v == w)) && c !in NUMERICS
  {
    forall v | v in WORDS && v != w
      ensures !AsciiEq(v, c)
    {
      WordsDiffer(v, w);
      AsciiEqSym(v, w);
      AsciiEqSym(v, c);
      AsciiEqSym(w, c);
      AsciiEqTrans(c, w, v) by { assert AsciiEq(c, w); }
      AsciiEqSym(w, v);
    }
    assert 'A' <= w[0] <= 'Z' && c != "" && !IsDigit(c[0]);
  }

  /** A command word, in any case. */
  lemma WordNamed(w: string, c: string)
    requires w in WORDS && AsciiEq(w, c)
    ensures CommandNamed(c) == match w
                               case "JOIN" => JOIN case "PART" => PART case "KICK" => KICK case "QUIT" => QUIT
                               case "TOPIC" => TOPIC case "NICK" => NICK case "PRIVMSG" => PRIVMSG case _ => MODE
  {
    OnlyWord(w, c);
    hide AsciiEq;
    assert AsciiEq("JOIN", c) <==> w == "JOIN";
    assert AsciiEq("PART", c) <==> w == "PART";
    assert AsciiEq("KICK", c) <==> w == "KICK";
    assert AsciiEq("QUIT", c) <==> w == "QUIT";
    assert AsciiEq("TOPIC", c) <==> w == "TOPIC";
    assert AsciiEq("NICK", c) <==> w == "NICK";
    assert AsciiEq("PRIVMSG", c) <==> w == "PRIVMSG";
    assert AsciiEq("MODE", c) <==> w == "MODE";
  }

  lemma NumericIsNoWord(n: string)
    requires n in NUMERICS
    ensures forall w :: w in WORDS ==> !AsciiEq(w, n)
  {
    assert IsDigit(n[0]);
    forall w | w in WORDS
      ensures !AsciiEq(w, n)
    {
      assert w != "" && 'A' <= w[0] <= 'Z';
      AsciiNe(w, n);
    }
  }

  lemma NumericsNamed(n: string)
    requires n in NUMERICS
    ensures CommandNamed(n) == match n
                               case "001" => N001 case "004" => N004 case "005" => N005 case "221" => N221
                               case "302" => N302 case "324" => N324 case "329" => N329 case "332" => N332
                               case "333" => N333 case "331" => N331 case "353" => N353 case "366" => N366
                               case "367" => N367 case "368" => N368 case "346" => N346 case "347" => N347
                               case "348" => N348 case "349" => N349 case "352" => N352 case "315" => N315
                               case "306" => N306 case _ => N305
  {
    NumericIsNoWord(n);
    hide AsciiEq;
  }

  /** A line of that command with more than `n` arguments. */
  predicate Says(l: Line, command: string, n: nat) { |l.args| > n && AsciiEq(command, l.args[0]) }

  predicate Numbered(l: Line, number: string, n: nat) { |l.args| > n && l.args[0] == number }

  // ------------------------------------------------------- lines about the data of a channel

  /** The channel of that name with other data, or nothing without one. */
  function Retold(s: Net, name: string, d: ChanData): (r: Net) {
    var i := FindChan(s, name);
    if i == |s.channels| then s else s.(channels := s.channels[i := s.channels[i].(data := d)])
  }

  function DataOf(s: Net, name: string): (d: ChanData) {
    var i := FindChan(s, name); if i == |s.channels| then NewChan(name) else s.channels[i].data
  }

  /** TOPIC sets the text, the nick of its origin and the time; without an origin it is ignored. On a
      channel that is not known the handler has nothing to write to. */
  lemma TopicLine(s: Net, l: Line, now: int)
    requires Sound(s) && Says(l, "TOPIC", 2)
    ensures Accepts(s, l) <==> (l.origin.None? || KnownChan(s, l.args[1]))
    ensures l.origin.None? ==> Step(s, l, now) == s
    ensures l.origin.Some? && KnownChan(s, l.args[1]) ==>
              Step(s, l, now) == Retold(s, l.args[1],
                DataOf(s, l.args[1]).(topic := Some(l.args[2]), topicSetTime := now,
                                      topicSetBy := Some(NickPart(l.origin.value))))
  {
    WordNamed("TOPIC", l.args[0]);
    hide Sound, CommandNamed, AsciiEq, UserHostsOk, FindPerson, OnePrefix, ChanmodesOk, HasPrefix;
  }

  /** The lines about one channel look it up and write its data. */
  lemma DataLine(s: Net, l: Line, now: int)
    requires Sound(s) && Complete(l) && IsDataLine(CommandOf(l)) && CommandOf(l) != TOPIC && DataArgsOk(l)
    ensures Accepts(s, l)
    ensures Step(s, l, now) == Retold(s, DataTarget(l), DataChange(DataOf(s, DataTarget(l)), l, now))
  {
    hide Sound, CommandNamed, DataChange, UserHostsOk, FindPerson, FindChan, OnePrefix, ChanmodesOk, HasPrefix;
  }

  lemma TopicIsData(d: ChanData, l: Line, now: int)
    requires Numbered(l, "332", 3)
    ensures IsDataLine(CommandOf(l)) && Complete(l) && DataArgsOk(l) && CommandOf(l) != TOPIC
    ensures DataTarget(l) == l.args[2]
    ensures DataChange(d, l, now) == d.(topic := Some(l.args[3]))
  {
    assert CommandOf(l) == N332 by { NumericsNamed("332"); }
    hide CommandNamed, StrtolAuto, Atoi, StringToModes;
  }

  /** 332 sets the text. */
  lemma TopicIs(s: Net, l: Line, now: int)
    requires Sound(s) && Numbered(l, "332", 3)
    ensures Accepts(s, l)
    ensures Step(s, l, now) == Retold(s, l.args[2], DataOf(s, l.args[2]).(topic := Some(l.args[3])))
  {
    TopicIsData(DataOf(s, l.args[2]), l, now);
    hide Sound, CommandNamed, Accepts, Step, Retold, DataOf, FindChan, DataChange, IsDataLine, Complete;
    hide DataArgsOk, DataTarget, CommandOf, StrtolAuto, Atoi, StringToModes;
    DataLine(s, l, now);
  }

  lemma TopicSetByData(d: ChanData, l: Line, now: int)
    requires Numbered(l, "333", 4)
    ensures IsDataLine(CommandOf(l)) && Complete(l) && DataArgsOk(l) && CommandOf(l) != TOPIC
    ensures DataTarget(l) == l.args[2]
    ensures DataChange(d, l, now) == d.(topicSetBy := Some(l.args[3]), topicSetTime := StrtolAuto(l.args[4]))
  {
    assert CommandOf(l) == N333 by { NumericsNamed("333"); }
    hide CommandNamed, StrtolAuto, Atoi, StringToModes;
  }

  /** 333 sets who set the topic, and when. */
  lemma TopicSetBy(s: Net, l: Line, now: int)
    requires Sound(s) && Numbered(l, "333", 4)
    ensures Accepts(s, l)
    ensures Step(s, l, now) ==
            Retold(s, l.args[2], DataOf(s, l.args[2]).(topicSetBy := Some(l.args[3]),
                                                       topicSetTime := StrtolAuto(l.args[4])))
  {
    TopicSetByData(DataOf(s, l.args[2]), l, now);
    hide Sound, CommandNamed, Accepts, Step, Retold, DataOf, FindChan, DataChange, IsDataLine, Complete;
    hide DataArgsOk, DataTarget, CommandOf, StrtolAuto, Atoi, StringToModes;
    DataLine(s, l, now);
  }

  lemma NoTopicData(d: ChanData, l: Line, now: int)
    requires Numbered(l, "331", 1)
    ensures IsDataLine(CommandOf(l)) && Complete(l) && DataArgsOk(l) && CommandOf(l) != TOPIC
    ensures DataTarget(l) == l.args[1]
    ensures DataChange(d, l, now) == d.(topic := None)
  {
    assert CommandOf(l) == N331 by { NumericsNamed("331"); }
    hide CommandNamed, StrtolAuto, Atoi, StringToModes;
  }

  /** 331 takes the topic off the channel that its first argument names. */
  lemma NoTopic(s: Net, l: Line, now: int)
    requires Sound(s) && Numbered(l, "331", 1)
    ensures Accepts(s, l)
    ensures Step(s, l, now) == Retold(s, l.args[1], DataOf(s, l.args[1]).(topic := None))
  {
    NoTopicData(DataOf(s, l.args[1]), l, now);
    hide Sound, CommandNamed, Accepts, Step, Retold, DataOf, FindChan, DataChange, IsDataLine, Complete;
    hide DataArgsOk, DataTarget, CommandOf, StrtolAuto, Atoi, StringToModes;
    DataLine(s, l, now);
  }

  lemma ModesAreData(d: ChanData, l: Line, now: int)
    requires Numbered(l, "324", 3)
    ensures IsDataLine(CommandOf(l)) && Complete(l) && DataArgsOk(l) && CommandOf(l) != TOPIC
    ensures DataTarget(l) == l.args[2]
    ensures DataChange(d, l, now) == d.(modes := StringToModes(l.args[3]), modeReceived := true)
  {
    assert CommandOf(l) == N324 by { NumericsNamed("324"); }
    hide CommandNamed, StrtolAuto, Atoi, StringToModes;
  }

  /** 324 replaces the flags of a channel. */
  lemma ModesAre(s: Net, l: Line, now: int)
    requires Sound(s) && Numbered(l, "324", 3)
    ensures Accepts(s, l)
    ensures Step(s, l, now) ==
            Retold(s, l.args[2], DataOf(s, l.args[2]).(modes := StringToModes(l.args[3]), modeReceived := true))
  {
    ModesAreData(DataOf(s, l.args[2]), l, now);
    hide Sound, CommandNamed, Accepts, Step, Retold, DataOf, FindChan, DataChange, IsDataLine, Complete;
    hide DataArgsOk, DataTarget, CommandOf, StrtolAuto, Atoi, StringToModes;
    DataLine(s, l, now);
  }

  lemma CreatedAtData(d: ChanData, l: Line, now: int)
    requires Numbered(l, "329", 3)
    ensures IsDataLine(CommandOf(l)) && Complete(l) && DataArgsOk(l) && CommandOf(l) != TOPIC
    ensures DataTarget(l) == l.args[2]
    ensures DataChange(d, l, now) == d.(creationTime := Atoi(l.args[3]))
  {
    assert CommandOf(l) == N329 by { NumericsNamed("329"); }
    hide CommandNamed, StrtolAuto, Atoi, StringToModes;
  }

  /** 329 says when a channel was created. */
  lemma CreatedAt(s: Net, l: Line, now: int)
    requires Sound(s) && Numbered(l, "329", 3)
    ensures Accepts(s, l)
    ensures Step(s, l, now) == Retold(s, l.args[2], DataOf(s, l.args[2]).(creationTime := Atoi(l.args[3])))
  {
    CreatedAtData(DataOf(s, l.args[2]), l, now);
    hide Sound, CommandNamed, Accepts, Step, Retold, DataOf, FindChan, DataChange, IsDataLine, Complete;
    hide DataArgsOk, DataTarget, CommandOf, StrtolAuto, Atoi, StringToModes;
    DataLine(s, l, now);
  }

  lemma NamesEndData(d: ChanData, l: Line, now: int)
    requires Numbered(l, "366", 2)
    ensures IsDataLine(CommandOf(l)) && Complete(l) && DataArgsOk(l) && CommandOf(l) != TOPIC
    ensures DataTarget(l) == l.args[2]
    ensures DataChange(d, l, now) == d.(namreplyStarted := false)
  {
    assert CommandOf(l) == N366 by { NumericsNamed("366"); }
    hide CommandNamed, StrtolAuto, Atoi, StringToModes;
  }

  /** 366 ends a series of NAMES replies. */
  lemma NamesEnd(s: Net, l: Line, now: int)
    requires Sound(s) && Numbered(l, "366", 2)
    ensures Accepts(s, l)
    ensures Step(s, l, now) == Retold(s, l.args[2], DataOf(s, l.args[2]).(namreplyStarted := false))
  {
    NamesEndData(DataOf(s, l.args[2]), l, now);
    hide Sound, CommandNamed, Accepts, Step, Retold, DataOf, FindChan, DataChange, IsDataLine, Complete;
    hide DataArgsOk, DataTarget, CommandOf, StrtolAuto, Atoi, StringToModes;
    DataLine(s, l, now);
  }

  lemma BanListedData(d: ChanData, l: Line, now: int)
    requires Numbered(l, "367", 3)
    ensures IsDataLine(CommandOf(l)) && Complete(l) && DataArgsOk(l) && CommandOf(l) != TOPIC
    ensures DataTarget(l) == l.args[2]
    ensures var e := ListEntry(l.args[3], if |l.args| > 4 then Some(l.args[4]) else None,
                                  if |l.args| > 5 then Atoi(l.args[5]) else 0);
            var before := if d.banlistStarted && 'b' in d.lists then d.lists['b'] else [];
            DataChange(d, l, now) == d.(lists := d.lists['b' := before + [e]], banlistStarted := true)
  {
    assert CommandOf(l) == N367 by { NumericsNamed("367"); }
    hide CommandNamed, StrtolAuto, Atoi, StringToModes;
  }

  /** 367 adds a ban with who set it and when, the first of a series to an empty list. */
  lemma BanListed(s: Net, l: Line, now: int)
    requires Sound(s) && Numbered(l, "367", 3)
    ensures Accepts(s, l)
    ensures var d, e := DataOf(s, l.args[2]), ListEntry(l.args[3], if |l.args| > 4 then Some(l.args[4]) else None,
                                  if |l.args| > 5 then Atoi(l.args[5]) else 0);
            var before := if d.banlistStarted && 'b' in d.lists then d.lists['b'] else [];
            Step(s, l, now) == Retold(s, l.args[2], d.(lists := d.lists['b' := before + [e]], banlistStarted := true))
  {
    BanListedData(DataOf(s, l.args[2]), l, now);
    hide Sound, CommandNamed, Accepts, Step, Retold, DataOf, FindChan, DataChange, IsDataLine, Complete;
    hide DataArgsOk, DataTarget, CommandOf, StrtolAuto, Atoi, StringToModes;
    DataLine(s, l, now);
  }

  lemma InviteListedData(d: ChanData, l: Line, now: int)
    requires Numbered(l, "346", 3)
    ensures IsDataLine(CommandOf(l)) && Complete(l) && DataArgsOk(l) && CommandOf(l) != TOPIC
    ensures DataTarget(l) == l.args[2]
    ensures var e := ListEntry(l.args[3], None, 0);
            var before := if d.invitelistStarted && 'I' in d.lists then d.lists['I'] else [];
            DataChange(d, l, now) == d.(lists := d.lists['I' := before + [e]], invitelistStarted := true)
  {
    assert CommandOf(l) == N346 by { NumericsNamed("346"); }
    hide CommandNamed, StrtolAuto, Atoi, StringToModes;
  }

  /** 346 adds to the invite list. */
  lemma InviteListed(s: Net, l: Line, now: int)
    requires Sound(s) && Numbered(l, "346", 3)
    ensures Accepts(s, l)
    ensures var d, e := DataOf(s, l.args[2]), ListEntry(l.args[3], None, 0);
            var before := if d.invitelistStarted && 'I' in d.lists then d.lists['I'] else [];
            Step(s, l, now) == Retold(s, l.args[2],
                                      d.(lists := d.lists['I' := before + [e]], invitelistStarted := true))
  {
    InviteListedData(DataOf(s, l.args[2]), l, now);
    hide Sound, CommandNamed, Accepts, Step, Retold, DataOf, FindChan, DataChange, IsDataLine, Complete;
    hide DataArgsOk, DataTarget, CommandOf, StrtolAuto, Atoi, StringToModes;
    DataLine(s, l, now);
  }

  lemma ExceptListedData(d: ChanData, l: Line, now: int)
    requires Numbered(l, "348", 3)
    ensures IsDataLine(CommandOf(l)) && Complete(l) && DataArgsOk(l) && CommandOf(l) != TOPIC
    ensures DataTarget(l) == l.args[2]
    ensures var e := ListEntry(l.args[3], None, 0);
            var before := if d.exceptlistStarted && 'e' in d.lists then d.lists['e'] else [];
            DataChange(d, l, now) == d.(lists := d.lists['e' := before + [e]], exceptlistStarted := true)
  {
    assert CommandOf(l) == N348 by { NumericsNamed("348"); }
    hide CommandNamed, StrtolAuto, Atoi, StringToModes;
  }

  /** 348 adds to the except list. */
  lemma ExceptListed(s: Net, l: Line, now: int)
    requires Sound(s) && Numbered(l, "348", 3)
    ensures Accepts(s, l)
    ensures var d, e := DataOf(s, l.args[2]), ListEntry(l.args[3], None, 0);
            var before := if d.exceptlistStarted && 'e' in d.lists then d.lists['e'] else [];
            Step(s, l, now) == Retold(s, l.args[2],
                                      d.(lists := d.lists['e' := before + [e]], exceptlistStarted := true))
  {
    ExceptListedData(DataOf(s, l.args[2]), l, now);
    hide Sound, CommandNamed, Accepts, Step, Retold, DataOf, FindChan, DataChange, IsDataLine, Complete;
    hide DataArgsOk, DataTarget, CommandOf, StrtolAuto, Atoi, StringToModes;
    DataLine(s, l, now);
  }

  lemma BansEndData(d: ChanData, l: Line, now: int)
    requires Numbered(l, "368", 2)
    ensures IsDataLine(CommandOf(l)) && Complete(l) && DataArgsOk(l) && CommandOf(l) != TOPIC
    ensures DataTarget(l) == l.args[2]
    ensures DataChange(d, l, now) == d.(present := d.present + {'b'}, banlistStarted := false)
  {
    assert CommandOf(l) == N368 by { NumericsNamed("368"); }
    hide CommandNamed, StrtolAuto, Atoi, StringToModes;
  }

  /** 368 ends the ban list, which is complete then. */
  lemma BansEnd(s: Net, l: Line, now: int)
    requires Sound(s) && Numbered(l, "368", 2)
    ensures Accepts(s, l)
    ensures var d := DataOf(s, l.args[2]);
            Step(s, l, now) == Retold(s, l.args[2], d.(present := d.present + {'b'}, banlistStarted := false))
  {
    BansEndData(DataOf(s, l.args[2]), l, now);
    hide Sound, CommandNamed, Accepts, Step, Retold, DataOf, FindChan, DataChange, IsDataLine, Complete;
    hide DataArgsOk, DataTarget, CommandOf, StrtolAuto, Atoi, StringToModes;
    DataLine(s, l, now);
  }

  lemma InvitesEndData(d: ChanData, l: Line, now: int)
    requires Numbered(l, "347", 2)
    ensures IsDataLine(CommandOf(l)) && Complete(l) && DataArgsOk(l) && CommandOf(l) != TOPIC
    ensures DataTarget(l) == l.args[2]
    ensures DataChange(d, l, now) == d.(present := d.present + {'I'}, invitelistStarted := false)
  {
    assert CommandOf(l) == N347 by { NumericsNamed("347"); }
    hide CommandNamed, StrtolAuto, Atoi, StringToModes;
  }

  /** 347 ends the invite list. */
  lemma InvitesEnd(s: Net, l: Line, now: int)
    requires Sound(s) && Numbered(l, "347", 2)
    ensures Accepts(s, l)
    ensures var d := DataOf(s, l.args[2]);
            Step(s, l, now) == Retold(s, l.args[2], d.(present := d.present + {'I'}, invitelistStarted := false))
  {
    InvitesEndData(DataOf(s, l.args[2]), l, now);
    hide Sound, CommandNamed, Accepts, Step, Retold, DataOf, FindChan, DataChange, IsDataLine, Complete;
    hide DataArgsOk, DataTarget, CommandOf, StrtolAuto, Atoi, StringToModes;
    DataLine(s, l, now);
  }

  lemma ExceptsEndData(d: ChanData, l: Line, now: int)
    requires Numbered(l, "349", 2)
    ensures IsDataLine(CommandOf(l)) && Complete(l) && DataArgsOk(l) && CommandOf(l) != TOPIC
    ensures DataTarget(l) == l.args[2]
    ensures DataChange(d, l, now) == d.(present := d.present + {'e'}, exceptlistStarted := false)
  {
    assert CommandOf(l) == N349 by { NumericsNamed("349"); }
    hide CommandNamed, StrtolAuto, Atoi, StringToModes;
  }

  /** 349 ends the except list. */
  lemma ExceptsEnd(s: Net, l: Line, now: int)
    requires Sound(s) && Numbered(l, "349", 2)
    ensures Accepts(s, l)
    ensures var d := DataOf(s, l.args[2]);
            Step(s, l, now) == Retold(s, l.args[2], d.(present := d.present + {'e'}, exceptlistStarted := false))
  {
    ExceptsEndData(DataOf(s, l.args[2]), l, now);
    hide Sound, CommandNamed, Accepts, Step, Retold, DataOf, FindChan, DataChange, IsDataLine, Complete;
    hide DataArgsOk, DataTarget, CommandOf, StrtolAuto, Atoi, StringToModes;
    DataLine(s, l, now);
  }

  // -------------------------------------------------------- lines about the network and `me`

  predicate IsAboutMe(c: Command) { c in {N001, N004, N221, N306, N305, N315} }

  lemma StatusLine(s: Net, l: Line, now: int)
    requires Sound(s) && Complete(l) && IsAboutMe(CommandOf(l))
    ensures Accepts(s, l)
    ensures Step(s, l, now) == match CommandOf(l)
                               case N001 => s.(people := s.people[0 := s.people[0].(nick := l.args[1])])
                               case N004 => s.(info := s.info.(server := Some(l.args[2]), userModes := Some(l.args[4]),
                                                               channelModes := Some(l.args[5])))
                               case N221 => s.(people := s.people[0 := s.people[0].(modes := StringToModes(l.args[1]))])
                               case N306 => s.(away := true)
                               case N305 => s.(away := false)
                               case _ => s
  {
    hide CommandNamed, UserHostsOk, FindPerson, FindChan, OnePrefix, ChanmodesOk, HasPrefix, StringToModes;
  }

  /** 001 names the user. */
  lemma Welcome(s: Net, l: Line, now: int)
    requires Sound(s) && Numbered(l, "001", 1)
    ensures Accepts(s, l)
    ensures Step(s, l, now) == s.(people := s.people[0 := s.people[0].(nick := l.args[1])])
  {
    assert CommandOf(l) == N001 by { NumericsNamed("001"); }
    hide CommandNamed, StringToModes, Accepts, Step;
    StatusLine(s, l, now);
  }

  /** 004 says which server it is and which modes it knows. */
  lemma ServerIs(s: Net, l: Line, now: int)
    requires Sound(s) && Numbered(l, "004", 5)
    ensures Accepts(s, l)
    ensures Step(s, l, now) ==
            s.(info := s.info.(server := Some(l.args[2]), userModes := Some(l.args[4]),
                               channelModes := Some(l.args[5])))
  {
    assert CommandOf(l) == N004 by { NumericsNamed("004"); }
    hide CommandNamed, StringToModes, Accepts, Step;
    StatusLine(s, l, now);
  }

  /** 221 replaces the user's own modes. */
  lemma OwnModesAre(s: Net, l: Line, now: int)
    requires Sound(s) && Numbered(l, "221", 1)
    ensures Accepts(s, l)
    ensures Step(s, l, now) == s.(people := s.people[0 := s.people[0].(modes := StringToModes(l.args[1]))])
  {
    assert CommandOf(l) == N221 by { NumericsNamed("221"); }
    hide CommandNamed, StringToModes, Accepts, Step;
    StatusLine(s, l, now);
  }

  /** 306 marks the user away. */
  lemma NowAway(s: Net, l: Line, now: int)
    requires Sound(s) && Numbered(l, "306", 1)
    ensures Accepts(s, l)
    ensures Step(s, l, now) == s.(away := true)
  {
    assert CommandOf(l) == N306 by { NumericsNamed("306"); }
    hide CommandNamed, StringToModes, Accepts, Step;
    StatusLine(s, l, now);
  }

  /** 305 takes that back. */
  lemma NoLongerAway(s: Net, l: Line, now: int)
    requires Sound(s) && Numbered(l, "305", 1)
    ensures Accepts(s, l)
    ensures Step(s, l, now) == s.(away := false)
  {
    assert CommandOf(l) == N305 by { NumericsNamed("305"); }
    hide CommandNamed, StringToModes, Accepts, Step;
    StatusLine(s, l, now);
  }

  /** 315 says nothing. */
  lemma WhoEnds(s: Net, l: Line, now: int)
    requires Sound(s) && Numbered(l, "315", 1)
    ensures Accepts(s, l)
    ensures Step(s, l, now) == s
  {
    assert CommandOf(l) == N315 by { NumericsNamed("315"); }
    hide CommandNamed, StringToModes, Accepts, Step;
    StatusLine(s, l, now);
  }

  // --------------------------------------------------------------------- lines about one nick

  /** Somebody as a line finds or introduces them. */
  function Somebody(s: Net, name: string): (n: Nick) {
    var k := FindPerson(s, name); if k < |s.people| then s.people[k] else NewNick(name)
  }

  /** That somebody with another record, at the same place or as the last of the people. */
  function Recorded(s: Net, name: string, n: Nick): (r: Net) {
    var k := FindPerson(s, name);
    s.(people := if k < |s.people| then s.people[k := n] else s.people + [n])
  }

  lemma RecordedIs(s: Net, name: string, n: Nick)
    ensures var k := FindPerson(s, name); WithPerson(AddPerson(s, name), k, n) == Recorded(s, name, n)
    ensures AddPerson(s, name).people[FindPerson(s, name)] == Somebody(s, name)
  {
    hide Same;
    var k, s1 := FindPerson(s, name), AddPerson(s, name);
    assert k == |s.people| ==> (s.people + [NewNick(name)])[k := n] == s.people + [n];
  }

  lemma OneNickLine(s: Net, l: Line, now: int)
    requires Sound(s) && Complete(l) && (CommandOf(l) == NICK || CommandOf(l) == PRIVMSG)
    ensures var heeded := l.origin.Some? && (CommandOf(l) == NICK || Eq(s.info, l.args[1], s.people[0].nick));
            && (!heeded ==> Accepts(s, l) && Step(s, l, now) == s)
            && (heeded ==> (Accepts(s, l) <==> CanAdd(s, NickPart(l.origin.value))))
            && (heeded && Accepts(s, l) ==>
                  Step(s, l, now) == if CommandOf(l) == NICK then RenameStep(s, NickPart(l.origin.value), l.args[1])
                                     else QueryStep(s, NickPart(l.origin.value)))
  {
    hide CommandNamed, RenameStep, QueryStep, CanAdd, UserHostsOk, FindChan, OnePrefix, ChanmodesOk, Eq;
  }

  /** NICK gives a nick and the hostmask that goes with it. */
  lemma NickLine(s: Net, l: Line, now: int)
    requires Sound(s) && Says(l, "NICK", 1)
    ensures l.origin.None? ==> Accepts(s, l) && Step(s, l, now) == s
    ensures l.origin.Some? ==>
              var name, to := NickPart(l.origin.value), l.args[1];
              && (Accepts(s, l) <==> KnownPerson(s, name) || !HasPrefix(s.info, name))
              && (Accepts(s, l) ==>
                    var n := Somebody(s, name);
                    var mask := to + "!" + OrNull(n.username) + "@" + OrNull(n.hostname);
                    Step(s, l, now) ==
                    Recorded(s, name, if n.nick == to then n else n.(nick := to, hostmask := Some(mask))))
  {
    assert CommandOf(l) == NICK by { WordNamed("NICK", l.args[0]); }
    hide AsciiEq, CommandNamed, Sound, FindPerson, HasPrefix, Accepts, Step, WithPerson, AddPerson, Recorded, Somebody;
    OneNickLine(s, l, now);
    if l.origin.Some? {
      var name := NickPart(l.origin.value);
      RecordedIs(s, name, SetNick(Somebody(s, name), l.args[1]));
    }
  }

  /** A message to the user opens a query with its sender; any other changes nothing. */
  lemma MessageLine(s: Net, l: Line, now: int)
    requires Sound(s) && Says(l, "PRIVMSG", 2)
    ensures var toMe := l.origin.Some? && Eq(s.info, l.args[1], s.people[0].nick);
            && (!toMe ==> Accepts(s, l) && Step(s, l, now) == s)
            && (toMe ==>
                  var name := NickPart(l.origin.value);
                  && (Accepts(s, l) <==> KnownPerson(s, name) || !HasPrefix(s.info, name))
                  && (Accepts(s, l) ==> Step(s, l, now) == Recorded(s, name, Somebody(s, name).(query := true))))
  {
    assert CommandOf(l) == PRIVMSG by { WordNamed("PRIVMSG", l.args[0]); }
    hide AsciiEq, CommandNamed, FindPerson, HasPrefix, Accepts, Step, WithPerson, AddPerson, Recorded, Somebody, Eq;
    OneNickLine(s, l, now);
    if l.origin.Some? {
      var name := NickPart(l.origin.value);
      RecordedIs(s, name, Somebody(s, name).(query := true));
    }
  }

  // ------------------------------------------------------------------------------- MODE

  /** A channel MODE line is its directives in turn; one for a nick changes that nick's modes. */
  lemma ModeOf(s: Net, l: Line, now: int)
    requires Sound(s) && Says(l, "MODE", 2) && s.info.chantypes.Some? && ChanmodesOk(s.info)
    ensures var name, i := l.args[1], FindChan(s, l.args[1]);
            var onChannel := name == "" || name[0] in s.info.chantypes.value;
            && (onChannel && i == |s.channels| ==> Accepts(s, l) && Step(s, l, now) == s)
            && (onChannel && i < |s.channels| ==>
                  && (Accepts(s, l) <==> l.origin.Some?)
                  && (l.origin.Some? ==>
                        var k := FindPerson(s, NickPart(l.origin.value));
                        var setter := if k < |s.people| then Some(s.people[k].nick) else None;
                        var ds := Directives(s.info, SignedLetters(l.args[2], true), l.args, 3);
                        Step(s, l, now) == ApplyModes(s, setter, i, ds, now)))
            && (!onChannel ==>
                  && (Accepts(s, l) <==> KnownPerson(s, name) || !HasPrefix(s.info, name))
                  && (Accepts(s, l) ==>
                        var n := Somebody(s, name);
                        Step(s, l, now) == Recorded(s, name, n.(modes := UserModes(n.modes, l.args[2], true)))))
  {
    assert CommandOf(l) == MODE by { WordNamed("MODE", l.args[0]); }
    var name, i := l.args[1], FindChan(s, l.args[1]);
    var n := Somebody(s, name);
    RecordedIs(s, name, n.(modes := UserModes(n.modes, l.args[2], true)));
    hide AsciiEq, CommandNamed, Sound, FindPerson, FindChan, HasPrefix, WithPerson, AddPerson, Recorded, Somebody;
    hide ModeLoop, ApplyModes, Directives, SignedLetters, ChanmodesOk, Accepts, Step;
    OneModeLine(s, l, now);
    if i < |s.channels| && l.origin.Some? {
      ModeIsFold(s, SetterOf(s, NickPart(l.origin.value)), i, l.args[2], l.args, 3, true, now);
    }
  }

  lemma OneModeLine(s: Net, l: Line, now: int)
    requires Sound(s) && Complete(l) && CommandOf(l) == MODE && s.info.chantypes.Some? && ChanmodesOk(s.info)
    ensures Accepts(s, l) <==> if IsChannelName(s.info, l.args[1]) then KnownChan(s, l.args[1]) ==> l.origin.Some?
                               else CanAdd(s, l.args[1])
    ensures Accepts(s, l) ==> Step(s, l, now) == ModeLine(s, l, now)
  {
    hide CommandNamed, ModeLine, CanAdd, UserHostsOk, FindChan, OnePrefix, ChanmodesOk, IsChannelName;
  }

  // ---------------------------------------------------------------------- lines that say too little

  /** The arguments a command needs besides itself. */
  function Fewest(c: Command): (n: nat) {
    if c == N352 then 8 else if c == N004 then 5 else if c == N353 then 4
    else if c in {N005, N324, N329, N332, N333} then 3
    else if c in {KICK, TOPIC, PRIVMSG, MODE, N302, N366, N367, N368, N346, N347, N348, N349} then 2
    else if c == QUIT || c == OTHER then 0 else 1
  }

  /** Without them it is ignored. */
  lemma ShortLine(s: Net, l: Line, now: int)
    requires Sound(s) && |l.args| <= Fewest(CommandOf(l))
    ensures Accepts(s, l) && Step(s, l, now) == s
  {
    assert MinArgs(CommandOf(l)) == Fewest(CommandOf(l)) by { hide CommandOf; }
    hide CommandOf, MinArgs, Fewest;
  }

  /** A command that is not in the table changes nothing. */
  lemma UnknownCommand(s: Net, l: Line, now: int)
    requires Sound(s) && l.args != [] && l.args[0] !in NUMERICS && forall w :: w in WORDS ==> !AsciiEq(w, l.args[0])
    ensures Accepts(s, l) && Step(s, l, now) == s
  {
    OtherNamed(l.args[0]);
    hide Sound, CommandNamed, AsciiEq;
  }

  lemma OtherNamed(c: string)
    requires c !in NUMERICS && forall w :: w in WORDS ==> !AsciiEq(w, c)
    ensures CommandNamed(c) == OTHER
  {
    hide AsciiEq;
    assert !AsciiEq("JOIN", c) && !AsciiEq("PART", c) && !AsciiEq("KICK", c) && !AsciiEq("QUIT", c);
    assert !AsciiEq("TOPIC", c) && !AsciiEq("NICK", c) && !AsciiEq("PRIVMSG", c) && !AsciiEq("MODE", c);
  }

  // ------------------------------------------------------------------- lists of channels

  /** The first of a list of names, and the rest. */
  lemma FirstOfList(first: string, rest: string)
    requires ',' !in first && first != "" && rest != ""
    ensures var all := first + "," + rest; all != "" && StrSplit(all, ',') == [first] + StrSplit(rest, ',')
    ensures StrSplit(first, ',') == [first]
  {
    PiecesOfCons(first, rest, ',');
    IndexOfIs(first, ',', |first|);
  }

  function WithArgs(l: Line, args: seq<string>): (r: Line) { l.(args := args) }

  /** JOIN and PART of a list are JOIN and PART of its first channel and then of the rest. */
  lemma ListInTurn(s: Net, l: Line, first: string, rest: string, now: int)
    requires Sound(s) && (Says(l, "JOIN", 1) || Says(l, "PART", 1)) && Accepts(s, l)
    requires ',' !in first && first != "" && rest != "" && l.args[1] == first + "," + rest
    ensures var one, more := WithArgs(l, [l.args[0], first]), WithArgs(l, [l.args[0], rest]);
            && Accepts(s, one) && Accepts(Step(s, one, now), more)
            && Step(s, l, now) == Step(Step(s, one, now), more, now)
  {
    if Says(l, "JOIN", 1) { WordNamed("JOIN", l.args[0]); } else { WordNamed("PART", l.args[0]); }
    hide AsciiEq, CommandNamed;
    FirstOfList(first, rest);
    var one, more := WithArgs(l, [l.args[0], first]), WithArgs(l, [l.args[0], rest]);
    assert CommandOf(one) == CommandOf(more) == CommandOf(l);
    hide CommandOf;
    if CommandOf(l) == JOIN { JoinInTurn(s, l, one, more, first, rest, now); }
    else { PartInTurn(s, l, one, more, first, rest, now); }
  }

  lemma JoinInTurn(s: Net, l: Line, one: Line, more: Line, first: string, rest: string, now: int)
    requires Sound(s) && Accepts(s, l) && |l.args| > 1 && CommandOf(l) == JOIN == CommandOf(one) == CommandOf(more)
    requires l.origin == one.origin == more.origin && |one.args| == 2 == |more.args|
    requires one.args[1] == first && more.args[1] == rest
    requires StrSplit(l.args[1], ',') == [first] + StrSplit(rest, ',') && StrSplit(first, ',') == [first]
    ensures Accepts(s, one) && Accepts(Step(s, one, now), more)
    ensures Step(s, l, now) == Step(Step(s, one, now), more, now)
  {
    MemberLine(s, l, now);
    MemberLine(s, one, now);
    hide CommandOf, Sound, JoinOne, StrSplit, Accepts, Step, OnePrefix, HasPrefix, NickPart;
    assert ([first] + StrSplit(rest, ','))[1..] == StrSplit(rest, ',');
    if l.origin.Some? {
      var o := l.origin.value;
      assert [first][1..] == [] && JoinAll(JoinOne(s, first, o), [], o) == JoinOne(s, first, o);
      MemberLine(JoinOne(s, first, o), more, now);
    } else {
      MemberLine(s, more, now);
    }
  }

  /** JOIN, PART and KICK as they are dispatched: a joining nick has a mask and at most one prefix. */
  lemma MemberLine(s: Net, l: Line, now: int)
    requires Sound(s) && Complete(l) && CommandOf(l) in {JOIN, PART, KICK}
    ensures Accepts(s, l) <==>
            (CommandOf(l) == JOIN && l.origin.Some? ==>
               '!' in l.origin.value && NickPart(l.origin.value) != "" && OnePrefix(s.info, NickPart(l.origin.value)))
    ensures l.origin.None? ==> Accepts(s, l) && Step(s, l, now) == s
    ensures l.origin.Some? && Accepts(s, l) ==>
              var o := l.origin.value;
              Step(s, l, now) == if CommandOf(l) == JOIN then JoinAll(s, StrSplit(l.args[1], ','), o)
                                 else if CommandOf(l) == PART then PartAll(s, StrSplit(l.args[1], ','), NickPart(o))
                                 else KickAll(s, StrSplit(l.args[1], ','), StrSplit(l.args[2], ','))
  {
    hide CommandNamed, Sound, JoinAll, PartAll, KickAll, StrSplit, UserHostsOk, FindChan, FindPerson, ChanmodesOk;
    hide OnePrefix, HasPrefix;
  }

  lemma PartInTurn(s: Net, l: Line, one: Line, more: Line, first: string, rest: string, now: int)
    requires Sound(s) && Accepts(s, l) && |l.args| > 1 && CommandOf(l) == PART == CommandOf(one) == CommandOf(more)
    requires l.origin == one.origin == more.origin && |one.args| == 2 == |more.args|
    requires one.args[1] == first && more.args[1] == rest
    requires StrSplit(l.args[1], ',') == [first] + StrSplit(rest, ',') && StrSplit(first, ',') == [first]
    ensures Accepts(s, one) && Accepts(Step(s, one, now), more)
    ensures Step(s, l, now) == Step(Step(s, one, now), more, now)
  {
    MemberLine(s, l, now);
    MemberLine(s, one, now);
    hide CommandOf, Sound, PartOne, StrSplit, Accepts, Step;
    assert ([first] + StrSplit(rest, ','))[1..] == StrSplit(rest, ',');
    if l.origin.Some? {
      var n := NickPart(l.origin.value);
      assert [first][1..] == [] && PartAll(PartOne(s, first, n), [], n) == PartOne(s, first, n);
      MemberLine(PartOne(s, first, n), more, now);
    } else {
      MemberLine(s, more, now);
    }
  }

  /** KICK of two lists takes their firsts together, and then their rests. */
  lemma KicksInTurn(s: Net, l: Line, chan: string, chans: string, nick: string, nicks: string, now: int)
    requires Sound(s) && Says(l, "KICK", 2) && ',' !in chan && chan != "" && chans != ""
    requires ',' !in nick && nick != "" && nicks != ""
    requires l.args[1] == chan + "," + chans && l.args[2] == nick + "," + nicks
    ensures var one, more := WithArgs(l, [l.args[0], chan, nick]), WithArgs(l, [l.args[0], chans, nicks]);
            && Accepts(s, l) && Accepts(s, one) && Accepts(Step(s, one, now), more)
            && Step(s, l, now) == Step(Step(s, one, now), more, now)
  {
    hide AsciiEq, CommandNamed, CommandOf, StrSplit, Sound, Accepts, Step;
    FirstOfList(chan, chans);
    FirstOfList(nick, nicks);
    var one, more := WithArgs(l, [l.args[0], chan, nick]), WithArgs(l, [l.args[0], chans, nicks]);
    SaysKick(l);
    SaysKick(one);
    SaysKick(more);
    KickInTurn(s, l, one, more, now);
  }

  lemma SaysKick(l: Line)
    requires Says(l, "KICK", 0)
    ensures CommandOf(l) == KICK
  {
    WordNamed("KICK", l.args[0]);
    hide AsciiEq, CommandNamed;
  }

  lemma KickInTurn(s: Net, l: Line, one: Line, more: Line, now: int)
    requires Sound(s) && |l.args| > 2 && CommandOf(l) == KICK == CommandOf(one) == CommandOf(more)
    requires l.origin == one.origin == more.origin && |one.args| == 3 == |more.args|
    requires forall k :: 1 <= k <= 2 ==>
               && StrSplit(one.args[k], ',') == [one.args[k]]
               && StrSplit(l.args[k], ',') == [one.args[k]] + StrSplit(more.args[k], ',')
    ensures Accepts(s, l) && Accepts(s, one) && Accepts(Step(s, one, now), more)
    ensures Step(s, l, now) == Step(Step(s, one, now), more, now)
  {
    MemberLine(s, l, now);
    MemberLine(s, one, now);
    hide CommandOf, Sound, KickOne, Accepts, Step, NickPart, StrSplit;
    var chan, nick, cs, ns := one.args[1], one.args[2], StrSplit(more.args[1], ','), StrSplit(more.args[2], ',');
    assert StrSplit(l.args[1], ',') == [chan] + cs && StrSplit(l.args[2], ',') == [nick] + ns;
    assert StrSplit(chan, ',') == [chan] && StrSplit(nick, ',') == [nick];
    if l.origin.Some? {
      KickCons(s, chan, nick, cs, ns);
      MemberLine(KickOne(s, chan, nick), more, now);
    } else {
      MemberLine(s, more, now);
    }
  }

  lemma KickCons(s: Net, chan: string, nick: string, cs: seq<string>, ns: seq<string>)
    requires Sound(s)
    ensures KickAll(s, [chan] + cs, [nick] + ns) == KickAll(KickOne(s, chan, nick), cs, ns)
    ensures KickAll(s, [chan], [nick]) == KickOne(s, chan, nick)
  {
    hide Sound, KickOne;
    assert ([chan] + cs)[1..] == cs && ([nick] + ns)[1..] == ns && [chan][1..] == [] && [nick][1..] == [];
  }

  // ---------------------------------------------------------------------------- hostmasks

  /** A new mask splits at its exclamation mark and its at sign. */
  lemma HostmaskParts(n: Nick, nick: string, user: string, host: string)
    requires '!' !in nick && '@' !in user
    ensures var mask := nick + "!" + user + "@" + host;
            && '!' in mask && NickPart(mask) == nick
            && (n.hostmask != Some(mask) ==>
                  SetHostmask(n, mask) ==
                  n.(nick := nick, username := Some(user), hostname := Some(host), hostmask := Some(mask)))
            && (n.hostmask == Some(mask) ==> SetHostmask(n, mask) == n)
  {
    var rest := user + "@" + host;
    var mask := nick + "!" + user + "@" + host;
    assert mask == nick + "!" + rest;
    assert mask[..|nick|] == nick && mask[|nick|] == '!' && mask[|nick| + 1..] == rest;
    IndexOfIs(mask, '!', |nick|);
    assert rest[..|user|] == user && rest[|user|] == '@' && rest[|user| + 1..] == host;
    IndexOfIs(rest, '@', |user|);
  }

  /** Without an at sign there is neither user nor host. */
  lemma HalfHostmask(n: Nick, nick: string, rest: string)
    requires '!' !in nick && '@' !in rest && n.hostmask != Some(nick + "!" + rest)
    ensures SetHostmask(n, nick + "!" + rest) ==
            n.(nick := nick, username := None, hostname := None, hostmask := Some(nick + "!" + rest))
  {
    var mask := nick + "!" + rest;
    assert mask[..|nick|] == nick && mask[|nick|] == '!' && mask[|nick| + 1..] == rest;
    IndexOfIs(mask, '!', |nick|);
  }

  // ------------------------------------------------------------------- replies about people

  /** "%d %s" read back: the number, and the rest without its space. */
  lemma HopsAndName(hops: nat, name: string)
    ensures var t := Dec(hops) + " " + name; Atoi(t) == hops && AfterNumber(t) == " " + name
  {
    var t := Dec(hops) + " " + name;
    assert t == Dec(hops) + (" " + name);
    AtoiOfDec(hops, " " + name);
    assert IsDigit(t[0]);
    SkipsDigits(Dec(hops), " " + name);
  }

  lemma {:induction false} SkipsDigits(a: string, rest: string)
    requires (forall k :: 0 <= k < |a| ==> IsDigit(a[k])) && (rest == "" || !IsDigit(rest[0]))
    ensures SkipDigits(a + rest) == rest
  {
    if a == "" {
      assert a + rest == rest;
    } else {
      assert (a + rest)[1..] == a[1..] + rest;
      SkipsDigits(a[1..], rest);
    }
  }

  /** What a WHO reply says of somebody: user, host, server, nick, hops, and a full name where none is
      known yet. */
  function Told(n: Nick, a: seq<string>, hops: nat, name: string): (r: Nick)
    requires |a| > 8
  {
    n.(nick := a[6], username := Some(a[3]), hostname := Some(a[4]), server := Some(a[5]), hops := hops,
       fullname := if n.fullname.Some? then n.fullname else Some(name),
       hostmask := if n.nick == a[6] && n.username == Some(a[3]) && n.hostname == Some(a[4]) then n.hostmask
                   else Some(a[6] + "!" + a[3] + "@" + a[4]))
  }

  /** The member of that nick on that channel is stamped with the flags and the time. */
  function Stamped(s: Net, chan: string, nick: string, flags: string, now: int): (r: Net)
    requires Sound(s)
  {
    var i := FindChan(s, chan);
    if i == |s.channels| then s
    else
      var j, ms := FindMember(s, i, nick), s.channels[i].members;
      if j == |ms| then s
      else WithMembers(s, i, ms[j := ms[j].(lastFlags := Some(flags), lastUpdate := now)])
  }

  /** 352 fills in somebody's record and stamps the membership it is about. */
  lemma WhoLine(s: Net, l: Line, hops: nat, name: string, now: int)
    requires Sound(s) && Numbered(l, "352", 8) && l.args[8] == Dec(hops) + " " + name
    ensures Accepts(s, l) <==> KnownPerson(s, l.args[6]) || !HasPrefix(s.info, l.args[6])
    ensures var told := Recorded(s, l.args[6], Told(Somebody(s, l.args[6]), l.args, hops, name));
            Sound(told) && (Accepts(s, l) ==> Step(s, l, now) == Stamped(told, l.args[2], l.args[6], l.args[7], now))
  {
    assert CommandOf(l) == N352 by { NumericsNamed("352"); }
    var a, n := l.args, Somebody(s, l.args[6]);
    RecordedIs(s, a[6], Told(n, a, hops, name));
    ToldIs(n, a, hops, name);
    OneWhoLine(s, l, now);
    hide CommandNamed, Accepts, Step, FindPerson, FindChan, Somebody, Recorded, Told, WhoNick, WithPerson, AddPerson;
    hide FindMember, HasPrefix;
    assert SoundAfter(s, a[6], Told(n, a, hops, name)) by { ToldKeepsQuery(s, a, hops, name); }
  }

  predicate SoundAfter(s: Net, name: string, n: Nick) { Sound(Recorded(s, name, n)) }

  lemma ToldKeepsQuery(s: Net, a: seq<string>, hops: nat, name: string)
    requires Sound(s) && |a| > 8
    ensures SoundAfter(s, a[6], Told(Somebody(s, a[6]), a, hops, name))
  {
    RecordedIs(s, a[6], Told(Somebody(s, a[6]), a, hops, name));
  }

  lemma ToldIs(n: Nick, a: seq<string>, hops: nat, name: string)
    requires |a| > 8 && a[8] == Dec(hops) + " " + name
    ensures WhoNick(n, a) == Told(n, a, hops, name)
  {
    HopsAndName(hops, name);
    assert (" " + name)[1..] == name;
    hide Atoi, AfterNumber, Dec;
    assert SetData(n, a[6], a[3], a[4]).username == Some(a[3]);
  }

  lemma OneWhoLine(s: Net, l: Line, now: int)
    requires Sound(s) && CommandOf(l) == N352 && |l.args| > 8
    ensures Accepts(s, l) <==> CanAdd(s, l.args[6])
    ensures Accepts(s, l) ==> Step(s, l, now) == WhoReply(s, l.args, now)
  {
    hide CommandNamed, Sound, WhoReply, CanAdd, UserHostsOk, FindChan, OnePrefix, ChanmodesOk;
  }

  // -------------------------------------------------------------------------------- USERHOST

  lemma StripNothing(t: string)
    requires t != "" && !IsBlank(t[0]) && !IsBlank(t[|t| - 1])
    ensures Strip(t) == t
  {}

  /** One entry of a USERHOST reply, a nick, an equals sign, a sign and a mask, gives that nick its mask. */
  lemma UserHostIs(s: Net, nick: string, sign: char, mask: string)
    requires Sound(s) && '=' !in nick
    ensures var entry := nick + "=" + [sign] + mask;
            && (UserHostOk(s, entry) <==> KnownPerson(s, nick) || !HasPrefix(s.info, nick))
            && '!' in nick + "!" + mask
            && (UserHostOk(s, entry) ==>
                  UserHost(s, entry) == Recorded(s, nick, SetHostmask(Somebody(s, nick), nick + "!" + mask)))
  {
    var entry := nick + "=" + [sign] + mask;
    assert entry[..|nick|] == nick && entry[|nick|] == '=' && entry[|nick| + 2..] == mask;
    IndexOfIs(entry, '=', |nick|);
    assert (nick + "!" + mask)[|nick|] == '!';
    RecordedIs(s, nick, SetHostmask(Somebody(s, nick), nick + "!" + mask));
    hide SetHostmask, FindPerson, HasPrefix, Recorded, Somebody, WithPerson, AddPerson;
  }

  /** 302 takes its entries one after the other. */
  lemma UserHostLine(s: Net, l: Line, entries: seq<string>, now: int)
    requires Sound(s) && Numbered(l, "302", 2) && entries != [] && l.args[2] == JoinWith(entries, ' ')
    requires forall k :: 0 <= k < |entries| ==> ' ' !in entries[k]
    requires l.args[2] != "" && !IsBlank(l.args[2][0]) && !IsBlank(l.args[2][|l.args[2]| - 1])
    ensures Accepts(s, l) <==> UserHostsOk(s, entries)
    ensures Accepts(s, l) ==> Step(s, l, now) == UserHosts(s, entries)
  {
    assert CommandOf(l) == N302 by { NumericsNamed("302"); }
    hide CommandNamed, Sound, UserHostsOk, UserHosts, Accepts, Step, JoinWith, Pieces, Strip;
    StripNothing(l.args[2]);
    PiecesOfJoin(entries, ' ');
    OneHostLine(s, l, now);
  }

  lemma OneHostLine(s: Net, l: Line, now: int)
    requires Sound(s) && CommandOf(l) == N302 && |l.args| > 2
    ensures Accepts(s, l) <==> UserHostsOk(s, StrSplit(Strip(l.args[2]), ' '))
    ensures Accepts(s, l) ==> Step(s, l, now) == UserHosts(s, StrSplit(Strip(l.args[2]), ' '))
  {
    hide CommandNamed, Sound, UserHostsOk, UserHosts, FindChan, OnePrefix, ChanmodesOk, StrSplit, Strip, HasPrefix;
  }

  // --------------------------------------------------------------------------------- 005

  /** 005: every argument between the user's nick and the closing text is a token. */
  lemma SupportLine(s: Net, l: Line, now: int)
    requires Sound(s) && Numbered(l, "005", 3)
    ensures Accepts(s, l) <==> forall k :: 2 <= k < |l.args| - 1 ==> TokenOk(l.args[k])
    ensures Accepts(s, l) ==> Step(s, l, now) == s.(info := ParseTokens(s.info, l.args[2..|l.args| - 1]))
  {
    assert CommandOf(l) == N005 by { NumericsNamed("005"); }
    hide CommandNamed, Sound, TokenOk, ParseTokens, Accepts, Step;
    OneSupportLine(s, l, now);
  }

  lemma OneSupportLine(s: Net, l: Line, now: int)
    requires Sound(s) && CommandOf(l) == N005 && |l.args| > 3
    ensures Accepts(s, l) <==> forall k :: 2 <= k < |l.args| - 1 ==> TokenOk(l.args[k])
    ensures Accepts(s, l) ==> Step(s, l, now) == s.(info := ParseTokens(s.info, l.args[2..|l.args| - 1]))
  {
    hide CommandNamed, Sound, TokenOk, ParseTokens, UserHostsOk, FindChan, FindPerson, OnePrefix, ChanmodesOk,
        HasPrefix;
  }
}
