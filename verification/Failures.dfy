/** Runs from the initial state on which what the code is for does not hold: lines that a server may send
    and that every handler gets through. The exact conditions are proved elsewhere; here they fail. */
module Failures {
  import opened Base
  import opened Casemap
  import opened Info
  import opened Line
  import opened State
  import opened Handlers
  import opened Unique
  import opened Client
  import opened Views
  import opened Lists
  import opened Marshal
  import opened LogFiles
  import opened Linestack
  import opened Replay
  import opened Repeats
  import opened Settling
  import opened Names
  import opened Sending

  const ANN := "ann!a@h"
  const BOB := "bob!b@h"
  const CHAN := "#c"

  /** A user called `me` who has just connected. */
  function Begin(): (s: Net)
    ensures Sound(s)
  {
    InitialNet("me", "user", "host")
  }

  function Joining(mask: string): (l: Line) { Line(Some(mask), ["JOIN", CHAN], WithoutColon) }

  function Renaming(mask: string, to: string): (l: Line) { Line(Some(mask), ["NICK", to], WithoutColon) }

  // ------------------------------------------------------------------------ small facts

  lemma Masked(mask: string, nick: string, rest: string)
    requires mask == nick + "!" + rest && '!' !in nick
    ensures '!' in mask && IndexOf(mask, '!') == |nick| && NickPart(mask) == nick
  {
    assert mask[..|nick|] == nick && mask[|nick|] == '!';
    IndexOfIs(mask, '!', |nick|);
  }

  lemma NoPrefixes()
    ensures PrefixSymbols(FRESH) == "@+"
  {
    var p := FRESH.prefix;
    assert p == "(ov" + ")" + "@+";
    assert p[..3] == "(ov" && p[3] == ')' && p[4..] == "@+";
    IndexOfIs(p, ')', 3);
  }

  lemma MaskIsPlain(mask: string, nick: string, rest: string)
    requires mask == nick + "!" + rest && '!' !in nick && nick != "" && nick[0] !in "@+" && ' ' !in mask
    ensures NickPart(mask) == nick && PlainMask(FRESH, mask) && !HasPrefix(FRESH, nick)
  {
    NoPrefixes();
    Masked(mask, nick, rest);
    hide PrefixSymbols;
  }

  /** The masks of the examples are plain. */
  lemma PlainMasks()
    ensures NickPart(ANN) == "ann" && NickPart(BOB) == "bob"
    ensures PlainMask(FRESH, ANN) && PlainMask(FRESH, BOB)
    ensures !HasPrefix(FRESH, "ann") && !HasPrefix(FRESH, "bob")
    ensures PlainChan(CHAN)
  {
    hide PlainMask, HasPrefix, NickPart;
    MaskIsPlain(ANN, "ann", "a@h");
    MaskIsPlain(BOB, "bob", "b@h");
  }

  lemma Unlike(cm: Casemapping, a: string, b: string)
    requires |a| != |b| || (a != "" && FoldChar(Top(cm), a[0]) != FoldChar(Top(cm), b[0]))
    ensures !Same(cm, a, b)
  {
    if |a| == |b| {
      assert FoldString(Top(cm), a)[0] != FoldString(Top(cm), b)[0];
    } else {
      assert |FoldString(Top(cm), a)| != |FoldString(Top(cm), b)|;
    }
  }

  lemma NobodyCalled(s: Net, name: string)
    requires forall k :: 0 <= k < |s.people| ==> !Same(s.info.casemapping, s.people[k].nick, name)
    ensures !KnownPerson(s, name)
  {
    assert forall k :: 0 <= k < |s.people| ==> PeopleNames(s.people)[k] == s.people[k].nick;
  }

  /** Somebody new joins: known from then on under the nick of the mask. */
  lemma Newcomer(s: Net, mask: string, now: int)
    requires Sound(s) && Distinct(s) && s.info == FRESH && PlainMask(FRESH, mask) && !KnownPerson(s, NickPart(mask))
    requires PlainChan(CHAN)
    ensures Accepts(s, Joining(mask))
    ensures var r := Step(s, Joining(mask), now);
            && Distinct(r) && r.info == FRESH && |r.people| == |s.people| + 1 && r.people[..|s.people|] == s.people
            && r.people[|s.people|].nick == NickPart(mask) && r.people[|s.people|].hostmask == Some(mask)
  {
    hide Accepts, Step, Distinct, DistinctNames, PlainMask, PlainChan;
    JoinStep(s, mask, CHAN, WithoutColon, now);
    assert !HasPrefix(FRESH, NickPart(mask)) && '!' in mask by { PlainMaskIs(mask); }
    JoinOneKeeps(s, CHAN, mask);
    NewcomerAdded(s, mask);
  }

  lemma PlainMaskIs(mask: string)
    requires PlainMask(FRESH, mask)
    ensures !HasPrefix(FRESH, NickPart(mask)) && '!' in mask
  {}

  lemma NewcomerAdded(s: Net, mask: string)
    requires Sound(s) && s.info == FRESH && '!' in mask && !HasPrefix(FRESH, NickPart(mask))
    requires !KnownPerson(s, NickPart(mask))
    ensures OnePrefix(s.info, NickPart(mask))
    ensures var r := JoinOne(s, CHAN, mask);
            && |r.people| == |s.people| + 1 && r.people[..|s.people|] == s.people
            && r.people[|s.people|].nick == NickPart(mask) && r.people[|s.people|].hostmask == Some(mask)
  {
    hide Sound;
    var nick, s1, i := NickPart(mask), AddChan(s, CHAN), FindChan(s, CHAN);
    assert s1.people == s.people && s1.info == s.info;
    NotKnownNotMember(s1, i, nick);
  }

  lemma NotKnownNotMember(s: Net, i: nat, nick: string)
    requires Sound(s) && i < |s.channels| && !HasPrefix(s.info, nick) && !KnownPerson(s, nick)
    ensures FindMember(s, i, nick) == |s.channels[i].members|
  {
    hide Same;
    var names := MemberNames(s.people, s.channels[i].members);
    forall x | 0 <= x < |names|
      ensures !Same(s.info.casemapping, names[x], nick)
    {
      assert PeopleNames(s.people)[s.channels[i].members[x].who] == names[x];
    }
  }

  // --------------------------------------------------------------------- colliding names

  /** Two nicks join, and the first takes the name of the second. */
  lemma NickCollides(s: Net, a: string, b: string, now: int)
    requires Sound(s) && Distinct(s) && s.info == FRESH && PlainMask(FRESH, a) && PlainMask(FRESH, b) && PlainChan(CHAN)
    requires !KnownPerson(s, NickPart(a)) && !KnownPerson(s, NickPart(b)) && !Same(Unknown, NickPart(a), NickPart(b))
    ensures var es := [Event(Joining(a), now), Event(Joining(b), now), Event(Renaming(a, NickPart(b)), now)];
            Accepted(s, es) && !Distinct(Run(s, es))
  {
    hide Accepts, Step, Sound, Distinct, PlainMask, PlainChan, Joining, Renaming, Accepted, Run, Same, NickPart;
    Newcomer(s, a, now);
    var s1 := Step(s, Joining(a), now);
    StillNobody(s, s1, NickPart(b));
    Newcomer(s1, b, now);
    var s2, k := Step(s1, Joining(b), now), |s.people|;
    assert s2.people[k] == s2.people[..k + 1][k] == s1.people[k];
    TakesName(s2, a, NickPart(b), k, now);
    ThreeEvents(s, Event(Joining(a), now), Event(Joining(b), now), Event(Renaming(a, NickPart(b)), now));
  }

  lemma StillNobody(s: Net, r: Net, name: string)
    requires s.info == r.info && |r.people| == |s.people| + 1 && r.people[..|s.people|] == s.people
    requires !KnownPerson(s, name) && !Same(r.info.casemapping, r.people[|s.people|].nick, name)
    ensures !KnownPerson(r, name)
  {
    hide Same;
    forall k | 0 <= k < |s.people|
      ensures !Same(r.info.casemapping, r.people[k].nick, name)
    {
      assert PeopleNames(s.people)[k] == s.people[k].nick && r.people[k] == r.people[..|s.people|][k];
    }
    NobodyCalled(r, name);
  }

  lemma TakesName(s: Net, mask: string, to: string, k: nat, now: int)
    requires Sound(s) && Distinct(s) && s.info == FRESH && PlainMask(FRESH, mask) && k + 1 < |s.people|
    requires s.people[k].nick == NickPart(mask) && s.people[k + 1].nick == to
    ensures Accepts(s, Renaming(mask, to)) && !Distinct(Step(s, Renaming(mask, to), now))
  {
    hide Accepts, Step, Sound, Distinct, PlainMask, NickPart;
    PersonIsFound(s, k, NickPart(mask)) by { DistinctPeople(s); }
    assert !Fresh(s, k, to);
    NickStep(s, mask, to, WithoutColon, now);
    RenameKeeps(s, NickPart(mask), to);
  }

  lemma ThreeEvents(s: Net, x: Event, y: Event, z: Event)
    requires Sound(s) && Accepts(s, x.line) && Accepts(Step(s, x.line, x.now), y.line)
    requires Accepts(Step(Step(s, x.line, x.now), y.line, y.now), z.line)
    ensures Accepted(s, [x, y, z])
    ensures Run(s, [x, y, z]) == Step(Step(Step(s, x.line, x.now), y.line, y.now), z.line, z.now)
  {
    hide Accepts, Step, Sound, Accepted, Run;
    TwoEvents(Step(s, x.line, x.now), y, z);
    assert [x, y, z][1..] == [y, z];
    AcceptedCons(s, [x, y, z]);
  }

  lemma TwoEvents(s: Net, x: Event, y: Event)
    requires Sound(s) && Accepts(s, x.line) && Accepts(Step(s, x.line, x.now), y.line)
    ensures Accepted(s, [x, y]) && Run(s, [x, y]) == Step(Step(s, x.line, x.now), y.line, y.now)
  {
    hide Accepts, Step, Sound, Accepted, Run;
    var s1 := Step(s, x.line, x.now);
    var s2 := Step(s1, y.line, y.now);
    NothingMore(s2);
    assert [y][1..] == [] && [x, y][1..] == [y];
    AcceptedCons(s1, [y]);
    AcceptedCons(s, [x, y]);
  }

  lemma NothingMore(s: Net)
    requires Sound(s)
    ensures Accepted(s, []) && Run(s, []) == s
  {}

  function Welcome(nick: string): (l: Line) { Line(Some("irc.example"), ["001", nick], WithoutColon) }

  /** Somebody joins whose name the server then gives to the user: names collide, and every QUIT of a
      netsplit for that nick takes the user off the channels and nobody off the list. */
  lemma WelcomeCollides(s: Net, mask: string, reason: string, now: int)
    requires Sound(s) && Distinct(s) && s.info == FRESH && PlainMask(FRESH, mask) && PlainChan(CHAN) && |s.people| == 1
    requires !KnownPerson(s, NickPart(mask))
    ensures var es := [Event(Joining(mask), now), Event(Welcome(NickPart(mask)), now)];
            Accepted(s, es) && !Distinct(Run(s, es)) && !Ends(Run(s, es), reason, now)
  {
    hide Accepts, Step, Sound, Distinct, PlainMask, PlainChan, Accepted, Run, CommandOf, Joining;
    Newcomer(s, mask, now);
    var s1, nick := Step(s, Joining(mask), now), NickPart(mask);
    WelcomeWord(nick);
    WelcomeKeeps(s1, Welcome(nick), now);
    assert !Fresh(s1, 0, nick);
    WelcomeIs(s1, Welcome(nick), now);
    QuitNamesMe(Step(s1, Welcome(nick), now), mask, reason, now);
    TwoEvents(s, Event(Joining(mask), now), Event(Welcome(nick), now));
  }

  lemma WelcomeWord(nick: string)
    ensures CommandOf(Welcome(nick)) == N001 && Complete(Welcome(nick))
  {
    AsciiNe("JOIN", "001");
    AsciiNe("PART", "001");
    AsciiNe("KICK", "001");
    AsciiNe("QUIT", "001");
    AsciiNe("TOPIC", "001");
    AsciiNe("NICK", "001");
    AsciiNe("PRIVMSG", "001");
    AsciiNe("MODE", "001");
  }

  lemma WelcomeIs(s: Net, l: Line, now: int)
    requires Sound(s) && CommandOf(l) == N001 && |l.args| == 2
    ensures Accepts(s, l) && Step(s, l, now) == WithPerson(s, 0, s.people[0].(nick := l.args[1]))
  {
    hide Sound, CommandNamed;
  }

  lemma QuitNamesMe(s: Net, mask: string, reason: string, now: int)
    requires Sound(s) && |s.people| >= 2 && s.people[0].nick == NickPart(mask) && s.people[1].hostmask == Some(mask)
    ensures !Ends(s, reason, now)
  {
    hide Accepts, Step, Sound;
    assert PeopleNames(s.people)[0] == NickPart(mask);
    assert FindPerson(s, NickPart(mask)) == 0;
    QuitFirstIs(s, reason, now);
    assert Quit(s, NickPart(mask)).people == s.people;
  }

  /** The user has just connected as `me`; ann and bob join, and ann renames to bob. */
  lemma AnnBecomesBob(now: int)
    ensures var es := [Event(Joining(ANN), now), Event(Joining(BOB), now), Event(Renaming(ANN, "bob"), now)];
            Accepted(Begin(), es) && !Distinct(Run(Begin(), es))
  {
    hide Accepted, Run, Distinct, Same, PlainMask, PlainChan, Sound;
    Beginning();
    Unlike(Unknown, "ann", "bob");
    NickCollides(Begin(), ANN, BOB, now);
  }

  /** The user has just connected; bob joins, and 001 makes the user bob. */
  lemma MeBecomesBob(reason: string, now: int)
    ensures var es := [Event(Joining(BOB), now), Event(Welcome("bob"), now)];
            Accepted(Begin(), es) && !Distinct(Run(Begin(), es)) && !Ends(Run(Begin(), es), reason, now)
  {
    hide Accepted, Run, Distinct, Same, PlainMask, PlainChan, Sound, Ends;
    Beginning();
    WelcomeCollides(Begin(), BOB, reason, now);
  }

  lemma Beginning()
    ensures var s := Begin();
            && Distinct(s) && s.info == FRESH && |s.people| == 1 && !KnownPerson(s, "ann") && !KnownPerson(s, "bob")
    ensures NickPart(ANN) == "ann" && NickPart(BOB) == "bob"
    ensures PlainMask(FRESH, ANN) && PlainMask(FRESH, BOB) && PlainChan(CHAN)
  {
    hide Distinct, PlainMask, PlainChan, Same, NickPart, KnownPerson, HasPrefix;
    PlainMasks();
    InitiallyUnique("me", "user", "host");
    Strangers();
  }

  lemma Strangers()
    ensures !KnownPerson(Begin(), "ann") && !KnownPerson(Begin(), "bob")
  {
    hide Same, KnownPerson;
    Unlike(Unknown, "me", "ann");
    Unlike(Unknown, "me", "bob");
    NobodyCalled(Begin(), "ann");
    NobodyCalled(Begin(), "bob");
  }

  // --------------------------------------------------------------- a rename in a snapshot

  /** A snapshot that already contains a NICK line that renames: the state rebuilt right behind it is not
      the fold of the lines before the marker. */
  lemma RenameInSnapshot(s0: Net, log: seq<Entry>, snaps: seq<Net>, k: nat, g: Garbage, now: int)
    requires Replayable(s0, log) && k < |log| && LastSnapshot(k + 1) == k && k / INTERVAL < |snaps|
    requires Writable(snaps[k / INTERVAL]) && Sound(snaps[k / INTERVAL]) && Again(s0, log, k)
    requires Alike(Default(snaps[k / INTERVAL]), StateAfter(s0, log, k + 1))
    requires Distinct(StateAfter(s0, log, k)) && RenamesNow(s0, log, k)
    ensures !RebuiltRight(s0, log, snaps, k + 1, g, now)
  {
    hide Sound, Distinct, Alike, Writable, StateAfter, RebuiltRight, Again, Accepts, Step, Idempotent, Eq;
    hide Replayable, Recoverable, PrintsColon, LastSnapshot, CommandNamed;
    LineIsStored(s0, log, k);
    OneMore(s0, log, k);
    ViewTwiceIff(StateAfter(s0, log, k), Reread(log[k].line), log[k].time);
    RebuildAtSnapshotIff(s0, log, snaps, k, g, now);
  }

  ghost predicate RenamesNow(s0: Net, log: seq<Entry>, k: nat)
    requires Replayable(s0, log) && k < |log|
  {
    Repeats.Renames(StateAfter(s0, log, k), Reread(log[k].line))
  }

  function Chatter(): (l: Line) { Line(Some(ANN), ["PRIVMSG", CHAN, "hello"], WithoutColon) }

  /** Ann joins and talks; the line that brings a snapshot is the one by which she becomes bob. */
  function LongLog(): (log: seq<Entry>)
    ensures |log| == 1001
    ensures log[0] == Entry(Joining(ANN), 0) && log[1000] == Entry(Renaming(ANN, "bob"), 0)
    ensures forall k :: 0 < k < 1000 ==> log[k] == Entry(Chatter(), 0)
  {
    [Entry(Joining(ANN), 0)] + seq(INTERVAL - 1, _ => Entry(Chatter(), 0)) + [Entry(Renaming(ANN, "bob"), 0)]
  }

  /** Lines that are stored and read back as they are. */
  lemma LinesStored()
    ensures forall l :: l in [Joining(ANN), Chatter(), Renaming(ANN, "bob")] ==> StoredAsIs(l)
  {
    assert "hello" != "" && MiddleArg("hello") && MiddleArg("bob") && MiddleArg(CHAN) && NoBreak(ANN);
    TwoArgs(ANN, "JOIN", CHAN);
    TwoArgs(ANN, "NICK", "bob");
    ThreeArgs(ANN, "PRIVMSG", CHAN, "hello");
    Words();
    TalkWord();
  }

  predicate StoredAsIs(l: Line) { Storable(l) && Reread(l) == l && IsStored(CommandOf(l)) }

  lemma TwoArgs(mask: string, command: string, arg: string)
    requires ' ' !in mask && NoBreak(mask) && ' ' !in command && NoBreak(command) && command != "" && MiddleArg(arg)
    ensures var l := Line(Some(mask), [command, arg], WithoutColon); Storable(l) && Reread(l) == l
  {
    hide NoBreak;
    var l := Line(Some(mask), [command, arg], WithoutColon);
    assert l.args[1..] == [arg];
  }

  lemma ThreeArgs(mask: string, command: string, a: string, b: string)
    requires ' ' !in mask && NoBreak(mask) && ' ' !in command && NoBreak(command) && command != "" && MiddleArg(a)
    requires MiddleArg(b)
    ensures var l := Line(Some(mask), [command, a, b], WithoutColon); Storable(l) && Reread(l) == l
  {
    hide NoBreak;
    var l := Line(Some(mask), [command, a, b], WithoutColon);
    assert l.args[1..] == [a, b];
  }

  lemma TalkWord()
    ensures CommandNamed("PRIVMSG") == PRIVMSG
  {
    AsciiEqRefl("PRIVMSG");
    AsciiNe("JOIN", "PRIVMSG");
    AsciiNe("KICK", "PRIVMSG");
    AsciiNe("QUIT", "PRIVMSG");
    AsciiNe("TOPIC", "PRIVMSG");
    AsciiNe("NICK", "PRIVMSG");
  }

  lemma LongLogIsRecoverable()
    ensures Recoverable(LongLog()) && AllStored(LongLog())
  {
    hide Joining, Chatter, Renaming, Storable, IsStored, CommandOf, PrintsColon;
    LinesStored();
    var log := LongLog();
    forall k | 0 <= k < |log|
      ensures StoredAsIs(log[k].line) && log[k].time == 0
    {
      assert k == 0 || 0 < k < INTERVAL || k == INTERVAL;
    }
  }

  /** Talk changes nothing. */
  lemma TalkIsNothing(s: Net, now: int)
    requires Sound(s) && s.info == FRESH && s.people[0].nick == "me"
    ensures Accepts(s, Chatter()) && Step(s, Chatter(), now) == s
  {
    hide Sound, CommandNamed, Same, QueryStep;
    TalkWord();
    Unlike(Unknown, CHAN, "me") by { assert FoldChar(94, '#') != FoldChar(94, 'm'); }
  }

  lemma {:induction false} TalkingIsNothing(s: Net, es: seq<Event>)
    requires Sound(s) && s.info == FRESH && s.people[0].nick == "me"
    requires forall k :: 0 <= k < |es| ==> es[k].line == Chatter()
    ensures Accepted(s, es) && Run(s, es) == s
    decreases |es|
  {
    hide Sound, Accepts, Step, Chatter;
    if es != [] {
      TalkIsNothing(s, es[0].now);
      TalkingIsNothing(s, es[1..]);
    }
  }

  /** Ann, once she has joined. */
  function Joined(): (s: Net)
    ensures Sound(s)
  {
    var n := Nick(false, "ann", None, Some("a"), Some("h"), Some(ANN), {}, None, -1);
    Begin().(channels := [Chan(NewChan(CHAN), [Member(1, {}, 0, None)])], people := [Begin().people[0], n])
  }

  lemma AnnJoins(now: int)
    ensures Accepts(Begin(), Joining(ANN)) && Step(Begin(), Joining(ANN), now) == Joined() && Distinct(Joined())
  {
    hide Sound, Accepts, Step, Distinct, PlainMask, PlainChan, JoinOne;
    Beginning();
    PlainMasks();
    Newcomer(Begin(), ANN, now);
    JoinStep(Begin(), ANN, CHAN, WithoutColon, now);
    AnnAdded();
  }

  lemma AnnAdded()
    requires NickPart(ANN) == "ann" && !HasPrefix(FRESH, "ann") && !KnownPerson(Begin(), "ann")
    ensures '!' in ANN && OnePrefix(FRESH, NickPart(ANN)) && JoinOne(Begin(), CHAN, ANN) == Joined()
  {
    hide SetHostmask, JoinOne, HasPrefix, KnownPerson;
    assert ANN == "ann" + "!" + "a" + "@" + "h";
    MaskParts("ann", "a", "h");
    FirstJoins(Begin(), CHAN, ANN);
  }

  /** The first to join the first channel. */
  lemma FirstJoins(s: Net, chan: string, mask: string)
    requires Sound(s) && s.channels == [] && |s.people| == 1 && '!' in mask
    requires !HasPrefix(s.info, NickPart(mask)) && !KnownPerson(s, NickPart(mask))
    ensures OnePrefix(s.info, NickPart(mask))
    ensures JoinOne(s, chan, mask) ==
            s.(channels := [Chan(NewChan(chan), [Member(1, {}, 0, None)])],
               people := [s.people[0], SetHostmask(NewNick(NickPart(mask)), mask)])
  {
    hide SetHostmask, Sound;
    var nick, s1 := NickPart(mask), AddChan(s, chan);
    assert s1.channels == [Chan(NewChan(chan), [])];
    NotKnownNotMember(s1, 0, nick);
    var s2 := AddMember(s1, 0, nick);
    assert s2.people == [s.people[0], NewNick(nick)];
    assert StripPrefix(s1.info, nick) == nick && FindPerson(s1, nick) == 1;
    assert s1.channels[0].members + [Member(1, {}, 0, None)] == [Member(1, {}, 0, None)];
    assert s2.channels == [Chan(NewChan(chan), [Member(1, {}, 0, None)])];
  }

  lemma MaskParts(nick: string, user: string, host: string)
    requires '!' !in nick && '@' !in user
    ensures var mask := nick + "!" + user + "@" + host;
            && '!' in mask
            && SetHostmask(NewNick(nick), mask) ==
               NewNick(nick).(username := Some(user), hostname := Some(host), hostmask := Some(mask))
  {
    var mask := nick + "!" + user + "@" + host;
    var rest := user + "@" + host;
    assert mask == nick + "!" + rest;
    Masked(mask, nick, rest);
    assert mask[|nick| + 1..] == rest;
    assert rest[..|user|] == user && rest[|user|] == '@' && rest[|user| + 1..] == host;
    IndexOfIs(rest, '@', |user|);
  }

  /** The log replays; a snapshot with its last line in it would be this state. */
  function Snapshot(): (s: Net)
    ensures Sound(s)
  {
    RenameStep(Joined(), "ann", "bob")
  }

  lemma LongLogReplays()
    ensures Replayable(Begin(), LongLog())
    ensures StateAfter(Begin(), LongLog(), INTERVAL) == Joined()
    ensures StateAfter(Begin(), LongLog(), INTERVAL + 1) == Snapshot()
  {
    hide Sound, Accepted, Run, Recoverable, AllStored, Chatter, Joining, Renaming, Joined, LongLog, Snapshot, Begin;
    var s0, log := Begin(), LongLog();
    LongLogIsRecoverable();
    LongLogEvents();
    LongRun(Events(log, 1, INTERVAL));
    JoinedFacts();
    FoldSplit(s0, log, INTERVAL, INTERVAL);
  }

  lemma LongRun(talk: seq<Event>)
    requires forall k :: 0 <= k < |talk| ==> talk[k].line == Chatter()
    ensures var join, nick := Event(Joining(ANN), 0), Event(Renaming(ANN, "bob"), 0);
            && Accepted(Begin(), [join] + talk) && Run(Begin(), [join] + talk) == Joined()
            && Accepted(Begin(), [join] + talk + [nick]) && Run(Begin(), [join] + talk + [nick]) == Snapshot()
  {
    hide Sound, Accepts, Step, Accepted, Run, Chatter, Joining, Renaming, Joined, Snapshot, Begin, Distinct;
    var join, nick := Event(Joining(ANN), 0), Event(Renaming(ANN, "bob"), 0);
    AnnJoins(0);
    JoinedFacts();
    TalkingIsNothing(Joined(), talk);
    assert ([join] + talk)[1..] == talk;
    AcceptedCons(Begin(), [join] + talk);
    AnnRenames(0);
    OneEvent(Joined(), nick);
    RunSplit(Begin(), [join] + talk, [nick]);
  }

  lemma AnnRenames(now: int)
    ensures Accepts(Joined(), Renaming(ANN, "bob")) && Step(Joined(), Renaming(ANN, "bob"), now) == Snapshot()
  {
    hide Sound, Accepts, Step, PlainMask, RenameStep;
    PlainMasks();
    JoinedFacts();
    NickStep(Joined(), ANN, "bob", WithoutColon, now);
  }

  lemma OneEvent(s: Net, x: Event)
    requires Sound(s) && Accepts(s, x.line)
    ensures Accepted(s, [x]) && Run(s, [x]) == Step(s, x.line, x.now)
  {
    hide Accepts, Step, Sound, Accepted, Run;
    NothingMore(Step(s, x.line, x.now));
    assert [x][1..] == [];
    AcceptedCons(s, [x]);
  }

  lemma JoinedFacts()
    ensures Joined().info == FRESH && Joined().people[0].nick == "me" && Default(Begin()) == Begin()
  {}

  lemma LongLogEvents()
    requires Recoverable(LongLog())
    ensures var join, nick := Event(Joining(ANN), 0), Event(Renaming(ANN, "bob"), 0);
            var talk := Events(LongLog(), 1, INTERVAL);
            && Events(LongLog(), 0, INTERVAL) == [join] + talk
            && Events(LongLog(), 0, INTERVAL + 1) == [join] + talk + [nick]
            && forall k :: 0 <= k < |talk| ==> talk[k].line == Chatter()
  {
    hide Joining, Chatter, Renaming, Storable, IsStored, CommandOf, PrintsColon, Reread, Recoverable;
    LinesStored();
    var log, talk := LongLog(), Events(LongLog(), 1, INTERVAL);
    assert StoredAsIs(Joining(ANN)) && StoredAsIs(Chatter()) && StoredAsIs(Renaming(ANN, "bob"));
    forall k | 0 <= k < |talk|
      ensures talk[k].line == Chatter()
    {
      assert log[1 + k] == Entry(Chatter(), 0);
    }
  }

  lemma SnapshotIs()
    ensures Snapshot().channels == [Chan(NewChan(CHAN), [Member(1, {}, 0, None)])] && Snapshot().info == FRESH
    ensures Snapshot().people ==
            [Begin().people[0], Nick(false, "bob", None, Some("a"), Some("h"), Some("bob!a@h"), {}, None, -1)]
    ensures FindPerson(Joined(), "ann") == 1
  {
    hide Sound, Distinct;
    assert Distinct(Joined()) by { AnnJoins(0); }
    PersonIsFound(Joined(), 1, "ann") by { DistinctPeople(Joined()); }
    assert Mask("bob", Some("a"), Some("h")) == "bob!a@h";
    assert Joined().people[1 := Snapshot().people[1]] == [Begin().people[0], Snapshot().people[1]];
  }

  lemma SnapshotIsWritable()
    ensures Writable(Snapshot())
  {
    hide HasPrefix, Sound, Snapshot, SlotsOk, Same, RenameStep;
    SnapshotIs();
    var s := Snapshot();
    assert !HasPrefix(FRESH, "bob") by { PlainMasks(); }
    assert forall k :: 0 <= k < |s.people| ==> NickOk(s.people[k]);
    assert ChanOk(s.people, s.channels[0]) by { NewChanOk(); }
    Unlike(Unknown, "me", "bob");
  }

  lemma NewChanOk()
    ensures ChanDataOk(NewChan(CHAN))
  {}

  /** With a snapshot taken after ann has become bob, the rebuild right behind it handles the NICK line
      again and is wrong, whatever memory held and whenever it is done. */
  lemma RenameIsRepeated(g: Garbage, now: int)
    ensures Replayable(Begin(), LongLog()) && Writable(Snapshot()) && Sound(Snapshot())
    ensures LastSnapshot(INTERVAL + 1) == INTERVAL && Snapshot() == StateAfter(Begin(), LongLog(), INTERVAL + 1)
    ensures !RebuiltRight(Begin(), LongLog(), [Begin(), Snapshot()], INTERVAL + 1, g, now)
  {
    hide Sound, Replayable, StateAfter, RebuiltRight, Writable, Joined, Snapshot, Begin, LongLog, Renaming, Accepts;
    hide Step, Alike;
    hide CommandNamed, Same, PlainMask, Recoverable;
    var s0, log, snaps := Begin(), LongLog(), [Begin(), Snapshot()];
    LongLogReplays();
    SnapshotIsWritable();
    AnnJoins(0);
    LineIsStored(s0, log, INTERVAL);
    assert Reread(log[INTERVAL].line) == Renaming(ANN, "bob") by {
      LinesStored();
      assert StoredAsIs(Renaming(ANN, "bob"));
    }
    AnnMayRename();
    assert RenamesNow(s0, log, INTERVAL);
    assert Again(s0, log, INTERVAL);
    AlikeRefl(Snapshot());
    assert Default(Snapshot()) == Snapshot() by { SnapshotIs(); }
    RenameInSnapshot(s0, log, snaps, INTERVAL, g, now);
  }

  lemma AnnMayRename()
    ensures Repeats.Renames(Joined(), Renaming(ANN, "bob")) && Accepts(Snapshot(), Renaming(ANN, "bob"))
  {
    hide Sound, Snapshot, PlainMask, Step, Accepts, Same, CommandNamed, Joined, NickPart;
    PlainMasks();
    JoinedFacts();
    Unlike(Unknown, "ann", "bob");
    NickWord(ANN, "bob");
    SnapshotInfo();
    NickStep(Snapshot(), ANN, "bob", WithoutColon, 0);
  }

  lemma NickWord(mask: string, to: string)
    ensures CommandOf(Renaming(mask, to)) == NICK && Complete(Renaming(mask, to))
  {
    Words();
    hide CommandNamed;
  }

  lemma SnapshotInfo()
    ensures Snapshot().info == FRESH
  {
    SnapshotIs();
  }

  // ------------------------------------------------------------------ a ban in a snapshot

  function EndOfBans(): (l: Line) { Line(Some("irc.example"), ["368", "me", CHAN], WithoutColon) }

  function Ban(mask: string): (l: Line) { Line(Some(ANN), ["MODE", CHAN, "+b", mask], WithoutColon) }

  /** Ann's channel has no bans, as the server says; one ban is set. Handled once the mask is there once,
      handled again it is there twice. */
  lemma BanIsRepeated(mask: string, now: int)
    ensures Accepts(Joined(), EndOfBans())
    ensures var s := Step(Joined(), EndOfBans(), now);
            && |s.channels| == 1 && Held(s, 0, 'b', mask) == 0 && Accepts(s, Ban(mask))
            && var r := Step(s, Ban(mask), now);
               && |r.channels| == 1 && Held(r, 0, 'b', mask) == 1 && Accepts(r, Ban(mask))
               && !Settled(r, Ban(mask), now) && Idempotent(r, Ban(mask), now)
               && |Step(r, Ban(mask), now).channels| == 1 && Held(Step(r, Ban(mask), now), 0, 'b', mask) == 2
  {
    hide Sound, Accepts, Step, Held, Settled, Alike, CommandNamed;
    BansEnd(now);
    var s := Step(Joined(), EndOfBans(), now);
    ModeWord();
    BanAccepted(s, mask);
    BanTwice(s, Ban(mask), CHAN, mask, now);
  }

  lemma BansEnd(now: int)
    ensures Accepts(Joined(), EndOfBans())
    ensures var s := Step(Joined(), EndOfBans(), now);
            && |s.channels| == 1 && s.info == FRESH && s.channels[0].data == NewChan(CHAN).(present := {'b'})
            && FindChan(s, CHAN) == 0 && forall mask: string :: Held(s, 0, 'b', mask) == 0
  {
    hide Sound, CommandNamed;
    EndWord();
    var s := Step(Joined(), EndOfBans(), now);
    assert ChanNames(Joined().channels)[0] == CHAN;
    assert FindChan(Joined(), CHAN) == 0;
    assert ChanNames(s.channels)[0] == CHAN;
    assert Entries(s.channels[0].data, 'b') == [];
  }

  lemma EndWord()
    ensures CommandNamed("368") == N368
  {
    AsciiNe("JOIN", "368");
    AsciiNe("PART", "368");
    AsciiNe("KICK", "368");
    AsciiNe("QUIT", "368");
    AsciiNe("TOPIC", "368");
    AsciiNe("NICK", "368");
    AsciiNe("PRIVMSG", "368");
    AsciiNe("MODE", "368");
  }

  lemma BanAccepted(s: Net, mask: string)
    requires Sound(s) && s.info == FRESH
    ensures Accepts(s, Ban(mask)) && IsChannelName(s.info, CHAN) && ChanmodeType(s.info, 'b') == ListMode
  {
    hide Sound, CommandNamed, FindChan;
    ModeWord();
  }
}
