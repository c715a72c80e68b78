/** src/cache.c: answering WHO from what is known, when all of it is fresh. */
module Cache {
  import opened Base
  import opened Casemap
  import opened Info
  import opened Isupport
  import opened Line
  import opened State
  import opened Handlers
  import opened Unique
  import opened Names
  import opened Seating
  import opened WhoTrace

  /** The arguments of a variadic call: the first NULL ends them. */
  function Given(xs: seq<Option<string>>): (r: seq<string>) {
    if xs == [] || xs[0].None? then [] else [xs[0].value] + Given(xs[1..])
  }

  /** "%d %s" of the hop count and the full name. */
  function HopsAndName(n: Nick): (t: string) { DecInt(n.hops) + " " + OrNull(n.fullname) }

  function ReplyArgs(chan: string, n: Nick, m: Member): (r: seq<Option<string>>) {
    [Some(chan), n.username, n.hostname, n.server, Some(n.nick), m.lastFlags, Some(HopsAndName(n))]
  }

  /** A 352 line about a member. */
  function Reply(p: Peer, chan: string, n: Nick, m: Member): (l: Line) {
    Line(p.origin, ["352", p.target] + Given(ReplyArgs(chan, n, m)), ColonUnknown)
  }

  function EndOfWho(p: Peer, chan: string): (l: Line) {
    Line(p.origin, ["315", p.target, chan, "End of /WHO list."], ColonUnknown)
  }

  function Replies(p: Peer, chan: string, s: Net, i: nat): (r: seq<Line>)
    requires Sound(s) && i < |s.channels|
    ensures |r| == |s.channels[i].members|
    ensures forall j :: 0 <= j < |r| ==>
            r[j] == Reply(p, chan, s.people[s.channels[i].members[j].who], s.channels[i].members[j])
  {
    seq(|s.channels[i].members|, j requires 0 <= j < |s.channels[i].members| =>
      Reply(p, chan, s.people[s.channels[i].members[j].who], s.channels[i].members[j]))
  }

  /** A member seen in a WHO reply less than `age` ago. */
  predicate FreshAt(m: Member, age: int, now: int) { m.lastUpdate != 0 && now - m.lastUpdate < age }

  predicate AllFresh(ms: seq<Member>, age: int, now: int) { forall j :: 0 <= j < |ms| ==> FreshAt(ms[j], age, now) }

  /** A query for one channel and nothing else. */
  predicate PlainQuery(l: Line) { |l.args| == 2 && ',' !in l.args[1] && '*' !in l.args[1] }

  /** client_try_cache_who. */
  method TryCacheWho(p: Peer, s: Net, l: Line, maxAge: int, now: int) returns (answered: bool, sent: seq<Line>)
    requires Sound(s)
    ensures answered <==>
              PlainQuery(l) && maxAge != 0 && KnownChan(s, l.args[1]) &&
              AllFresh(s.channels[FindChan(s, l.args[1])].members, maxAge, now)
    ensures !answered ==> sent == []
    ensures answered ==> sent == Answer(p, l.args[1], s, FindChan(s, l.args[1]))
  {
    hide Reply, Sound, FindChan, EndOfWho;
    sent := [];
    if |l.args| < 2 || ',' in l.args[1] || '*' in l.args[1] || |l.args| > 2 || maxAge == 0 { return false, []; }
    var i := FindChan(s, l.args[1]);
    if i == |s.channels| { return false, []; }
    var ms := s.channels[i].members;
    var j := 0;
    while j < |ms|
      invariant j <= |ms| && forall k :: 0 <= k < j ==> FreshAt(ms[k], maxAge, now)
    {
      if ms[j].lastUpdate == 0 || ms[j].lastUpdate + maxAge <= now { return false, []; }
      j := j + 1;
    }
    ghost var all := Replies(p, l.args[1], s, i);
    assert |all| == |ms| by { RepliesLen(p, l.args[1], s, i); }
    j := 0;
    while j < |ms|
      invariant j <= |ms| == |all| && sent == all[..j]
    {
      SoundSeat(s, i, j);
      sent := sent + [Reply(p, l.args[1], s.people[ms[j].who], ms[j])];
      assert all[..j + 1] == all[..j] + [all[j]];
      j := j + 1;
    }
    assert all[..j] == all;
    return true, sent + [EndOfWho(p, l.args[1])];
  }

  lemma RepliesLen(p: Peer, chan: string, s: Net, i: nat)
    requires Sound(s) && i < |s.channels|
    ensures |Replies(p, chan, s, i)| == |s.channels[i].members|
  {}

  lemma SoundSeat(s: Net, i: nat, j: nat)
    requires Sound(s) && i < |s.channels| && j < |s.channels[i].members|
    ensures s.channels[i].members[j].who < |s.people|
  {}

  /** A fresh answer is a true one: every member was itself named, less than `maxAge` ago, by a WHO
      reply for this channel in the run that led to the state, and has been on the channel since. */
  lemma FreshMeansReplied(s0: Net, es: seq<Event>, maxAge: int, now: int, i: nat, j: nat)
    requires Sound(s0) && Accepted(s0, es) && NicksKept(s0, es) && Traced(s0, [])
    requires i < |Run(s0, es).channels| && j < |Run(s0, es).channels[i].members|
    requires AllFresh(Run(s0, es).channels[i].members, maxAge, now)
    ensures var s := Run(s0, es);
            var m := s.channels[i].members[j];
            exists k: nat, names: seq<string> ::
              && Lineage(Moments(s0, es), k, names, s.channels[i].data.name, m.lastUpdate, m.lastFlags)
              && names[|names| - 1] == NickKey(s, i, j) && es[k].now == m.lastUpdate && now - es[k].now < maxAge
  {
    hide Sound, Accepted, Run, IsWhoOf, NicksKept, Continues, NickKey;
    var s, past := Run(s0, es), Moments(s0, es);
    RunTraced(s0, [], es);
    assert [] + past == past;
    var m := s.channels[i].members[j];
    assert FreshAt(m, maxAge, now);
    assert MarkAt(s, i, j) in Marks(s, i);
    var k: nat, names: seq<string> :|
      Lineage(past, k, names, s.channels[i].data.name, m.lastUpdate, m.lastFlags) &&
      names[|names| - 1] == NickKey(s, i, j);
    LineageStart(past, k, names, s.channels[i].data.name, m.lastUpdate, m.lastFlags);
  }

  /** So it is in every run from the connection on. */
  lemma FreshSinceConnecting(nick: string, username: string, hostname: string, es: seq<Event>, maxAge: int, now: int,
                             i: nat, j: nat)
    requires var s0 := InitialNet(nick, username, hostname);
             && Accepted(s0, es) && NicksKept(s0, es) && i < |Run(s0, es).channels| &&
                j < |Run(s0, es).channels[i].members|
             && AllFresh(Run(s0, es).channels[i].members, maxAge, now)
    ensures var s0 := InitialNet(nick, username, hostname);
            var s, m := Run(s0, es), Run(s0, es).channels[i].members[j];
            exists k: nat, names: seq<string> ::
              && Lineage(Moments(s0, es), k, names, s.channels[i].data.name, m.lastUpdate, m.lastFlags)
              && names[|names| - 1] == NickKey(s, i, j) && es[k].now == m.lastUpdate && now - es[k].now < maxAge
  {
    hide Sound, Accepted, Run, Lineage, NicksKept, NickKey, Traced, AllFresh;
    InitiallyTraced(nick, username, hostname);
    FreshMeansReplied(InitialNet(nick, username, hostname), es, maxAge, now, i, j);
  }

  lemma LineageStart(past: seq<Moment>, k: nat, names: seq<string>, chan: string, time: int, flags: Option<string>)
    requires Lineage(past, k, names, chan, time, flags)
    ensures k < |past| && past[k].event.now == time && flags.Some?
  {}

  // ---------------------------------------------------------------------- fed back

  /** Everything a reply carries is known. */
  predicate Complete352(n: Nick, m: Member) {
    n.username.Some? && n.hostname.Some? && n.server.Some? && m.lastFlags.Some? && n.fullname.Some?
  }

  /** Something is not known that comes before the full name: the reply ends there. */
  predicate IsCut(n: Nick, m: Member) {
    n.username.None? || n.hostname.None? || n.server.None? || m.lastFlags.None?
  }

  lemma GivenAll(xs: seq<Option<string>>)
    requires forall k :: 0 <= k < |xs| ==> xs[k].Some?
    ensures |Given(xs)| == |xs| && forall k :: 0 <= k < |xs| ==> Given(xs)[k] == xs[k].value
  {}

  lemma {:induction false} GivenCut(xs: seq<Option<string>>, k: nat)
    requires k < |xs| && xs[k].None?
    ensures |Given(xs)| <= k
  {
    if k > 0 { GivenCut(xs[1..], k - 1); }
  }

  /** A complete reply has all nine arguments, any other has fewer. */
  lemma ReplyShape(p: Peer, chan: string, n: Nick, m: Member)
    ensures var l := Reply(p, chan, n, m);
            && (Complete352(n, m) ==>
                l.args == ["352", p.target, chan, n.username.value, n.hostname.value, n.server.value,
                                                 n.nick, m.lastFlags.value, HopsAndName(n)])
            && (IsCut(n, m) ==> |l.args| < 9)
            && |l.args| >= 3 && l.args[0] == "352" && l.args[1] == p.target && l.args[2] == chan
  {
    var xs := ReplyArgs(chan, n, m);
    hide HopsAndName;
    if n.username.None? { GivenCut(xs, 1); }
    if n.hostname.None? { GivenCut(xs, 2); }
    if n.server.None? { GivenCut(xs, 3); }
    if m.lastFlags.None? { GivenCut(xs, 5); }
    if Complete352(n, m) { GivenAll(xs); }
    assert Given(xs)[0] == chan;
  }

  /** A fresh member may still be answered for with a line cut short: a JOIN or USERHOST reply whose
      mask has no host forgets the user and host the last WHO reply gave. */
  lemma HalfMaskCutsReply(p: Peer, chan: string, n: Nick, m: Member, mask: string)
    requires '!' in mask && '@' !in mask && n.hostmask != Some(mask)
    ensures |Reply(p, chan, SetHostmask(n, mask), m).args| < 9
  {
    var t := IndexOf(mask, '!');
    assert forall k :: t + 1 <= k < |mask| ==> mask[k] in mask;
    assert '@' !in mask[t + 1..];
    ReplyShape(p, chan, SetHostmask(n, mask), m);
  }

  /** What is read out of a reply is what was put in: nothing new about the nick. */
  lemma NothingNew(n: Nick, m: Member, p: Peer, chan: string)
    requires Complete352(n, m)
    ensures |Reply(p, chan, n, m).args| == 9 && WhoNick(n, Reply(p, chan, n, m).args) == n
  {
    ReplyShape(p, chan, n, m);
    AtoiOfDecInt(n.hops, " " + OrNull(n.fullname));
    assert HopsAndName(n) == DecInt(n.hops) + (" " + OrNull(n.fullname));
    hide AfterNumber, Atoi, DecInt, Mask, HopsAndName, Reply;
    var a := Reply(p, chan, n, m).args;
    assert a[3] == n.username.value && a[4] == n.hostname.value && a[5] == n.server.value && a[6] == n.nick;
    assert SetData(n, a[6], a[3], a[4]) == n;
  }

  /** A reply fed back to handle_whoreply, with or without its colon marked, changes the time of the
      member's last update and nothing else; an incomplete reply changes nothing. */
  lemma ReplyFedBack(p: Peer, s: Net, i: nat, j: nat, chan: string, colon: Colon, now: int)
    requires Sound(s) && Distinct(s) && i == FindChan(s, chan) < |s.channels| && j < |s.channels[i].members|
    requires !HasPrefix(s.info, s.people[s.channels[i].members[j].who].nick)
    ensures var m := s.channels[i].members[j];
            var n, l := s.people[m.who], Reply(p, chan, s.people[m.who], m).(colon := colon);
            && Accepts(s, l)
            && (Complete352(n, m) ==> Step(s, l, now) == Updated(s, i, j, now))
            && (IsCut(n, m) ==> Step(s, l, now) == s)
  {
    hide Distinct, Reply, Sound;
    var ms, m := s.channels[i].members, s.channels[i].members[j];
    SoundSeat(s, i, j);
    var n, l := s.people[m.who], Reply(p, chan, s.people[m.who], m).(colon := colon);
    ReplyShape(p, chan, n, m);
    PersonIsFound(s, m.who, n.nick) by { DistinctPeople(s); }
    hide FindPerson, FindChan, Step, Accepts, WhoReply, Given;
    WhoStep(s, l, now) by { IncompleteIsShort(p, chan, n, m); }
    if Complete352(n, m) {
      NothingNew(n, m, p, chan);
      MemberIsFound(s, i, j, n.nick);
      WhoReplyIs(s, l.args, i, j, now);
    }
  }

  lemma IncompleteIsShort(p: Peer, chan: string, n: Nick, m: Member)
    ensures var l := Reply(p, chan, n, m);
            l.args != [] && l.args[0] == "352" && (|l.args| >= 9 ==> l.args[6] == n.nick)
  {
    ReplyShape(p, chan, n, m);
    hide HopsAndName;
    var xs := ReplyArgs(chan, n, m);
    if n.fullname.None? && n.username.Some? && n.hostname.Some? && n.server.Some? && m.lastFlags.Some? { GivenAll(xs); }
  }

  lemma WhoStep(s: Net, l: Line, now: int)
    requires Sound(s) && l.args != [] && l.args[0] == "352" && (|l.args| >= 9 ==> KnownPerson(s, l.args[6]))
    ensures Accepts(s, l) && Step(s, l, now) == if |l.args| >= 9 then WhoReply(s, l.args, now) else s
  {
    hide Sound, WhoReply, KnownPerson, Accepts, Step;
    assert CommandOf(l) == N352 by { NotAWord("352"); }
    hide CommandNamed;
    WhoIsAccepted(s, l);
    WhoIsHandled(s, l, now);
  }

  lemma WhoIsAccepted(s: Net, l: Line)
    requires Sound(s) && CommandOf(l) == N352 && (|l.args| >= 9 ==> KnownPerson(s, l.args[6]))
    ensures Accepts(s, l)
  {
    hide Sound, KnownPerson, FindChan, FindPerson, UserHostsOk, UserHosts, OnePrefix, HasPrefix, ChanmodesOk;
    hide CommandNamed;
  }

  lemma WhoIsHandled(s: Net, l: Line, now: int)
    requires Sound(s) && CommandOf(l) == N352 && Accepts(s, l)
    ensures Step(s, l, now) == if |l.args| >= 9 then WhoReply(s, l.args, now) else s
  {
    hide Sound, Accepts, WhoReply, DataStep, OtherStep, CommandNamed;
    if |l.args| >= 9 { WhoStepIs(s, l, now); }
  }

  function Updated(s: Net, i: nat, j: nat, now: int): (r: Net)
    requires Sound(s) && i < |s.channels| && j < |s.channels[i].members|
    ensures Sound(r)
  {
    var ms := s.channels[i].members;
    WithMembers(s, i, ms[j := ms[j].(lastUpdate := now)])
  }

  lemma WhoReplyIs(s: Net, a: seq<string>, i: nat, j: nat, now: int)
    requires Sound(s) && |a| >= 9 && i == FindChan(s, a[2]) < |s.channels|
    requires j == FindMember(s, i, a[6]) < |s.channels[i].members|
    requires var m := s.channels[i].members[j];
             FindPerson(s, a[6]) == m.who && WhoNick(s.people[m.who], a) == s.people[m.who] && m.lastFlags == Some(a[7])
    ensures WhoReply(s, a, now) == Updated(s, i, j, now)
  {
    hide WhoNick;
    var k := FindPerson(s, a[6]);
    assert s.people[k := s.people[k]] == s.people;
    assert WithPerson(s, k, s.people[k]) == s;
  }

  // -------------------------------------------------------------- the whole answer

  /** Whoever is answered for in full has a full name, as every WHO reply gives one; nicks carry no
      prefix. */
  predicate Answerable(s: Net, i: nat)
    requires Sound(s) && i < |s.channels|
  {
    forall j :: 0 <= j < |s.channels[i].members| ==>
      var m := s.channels[i].members[j];
      (IsCut(s.people[m.who], m) || s.people[m.who].fullname.Some?) && !HasPrefix(s.info, s.people[m.who].nick)
  }

  /** The members from the `j`-th on brought up to date, but for those whose reply is cut short. */
  function AllUpdated(people: seq<Nick>, ms: seq<Member>, j: nat, now: int): (r: seq<Member>)
    requires forall k :: 0 <= k < |ms| ==> ms[k].who < |people|
    ensures |r| == |ms|
    ensures forall k :: 0 <= k < |r| ==>
              r[k] == if k < j || IsCut(people[ms[k].who], ms[k]) then ms[k] else ms[k].(lastUpdate := now)
  {
    seq(|ms|, k requires 0 <= k < |ms| =>
      if k < j || IsCut(people[ms[k].who], ms[k]) then ms[k] else ms[k].(lastUpdate := now))
  }

  /** All members of a channel brought up to date, but for those. */
  function Refreshed(s: Net, i: nat, j: nat, now: int): (r: Net)
    requires Sound(s) && i < |s.channels|
  {
    WithMembers(s, i, AllUpdated(s.people, s.channels[i].members, j, now))
  }

  predicate Worded(ls: seq<Line>) { forall k :: 0 <= k < |ls| ==> |ls[k].args| >= 1 }

  /** The lines as a parser gives them back, handled at `now`. */
  function Reheard(ls: seq<Line>, now: int): (r: seq<Event>)
    requires Worded(ls)
    ensures |r| == |ls| && forall k :: 0 <= k < |r| ==>
            r[k] == Event(ls[k].(colon := ColonFlag(PrintsColon(ls[k]))), now)
  {
    seq(|ls|, k requires 0 <= k < |ls| => Event(ls[k].(colon := ColonFlag(PrintsColon(ls[k]))), now))
  }

  function Answer(p: Peer, chan: string, s: Net, i: nat): (r: seq<Line>)
    requires Sound(s) && i < |s.channels|
    ensures Worded(r)
  {
    Replies(p, chan, s, i) + [EndOfWho(p, chan)]
  }

  /** Who somebody is, and what a reply says, do not depend on when it was last said. */
  lemma UpdatedSame(s: Net, i: nat, j: nat, p: Peer, chan: string, now: int)
    requires Sound(s) && Distinct(s) && i == FindChan(s, chan) < |s.channels| && j < |s.channels[i].members|
    requires Answerable(s, i)
    ensures var r := Updated(s, i, j, now);
            && Distinct(r) && FindChan(r, chan) == i && Answerable(r, i) &&
               Answer(p, chan, r, i) == Answer(p, chan, s, i)
  {
    hide Given, HopsAndName;
    var r := Updated(s, i, j, now);
    SameNamesKeep(s, r);
    assert ChanNames(r.channels) == ChanNames(s.channels);
    forall k | 0 <= k < |s.channels[i].members|
      ensures var m, q := s.channels[i].members[k], r.channels[i].members[k];
              q.who == m.who && q.lastFlags == m.lastFlags && q.modes == m.modes
    {
    }
    assert Replies(p, chan, r, i) == Replies(p, chan, s, i);
  }

  lemma {:induction false} AnswerFedBackFrom(p: Peer, s: Net, i: nat, j: nat, chan: string, now: int)
    requires Sound(s) && Distinct(s) && i == FindChan(s, chan) < |s.channels| && j <= |s.channels[i].members|
    requires Answerable(s, i)
    ensures var es := Reheard(Answer(p, chan, s, i)[j..], now);
            Accepted(s, es) && Run(s, es) == Refreshed(s, i, j, now)
    decreases |s.channels[i].members| - j
  {
    hide Sound, Distinct, Reply, FindChan, Accepts, Step, Answerable, EndOfWho, Answer, PrintsColon;
    var ms, ls := s.channels[i].members, Answer(p, chan, s, i);
    AnswerAt(p, chan, s, i);
    ReheardFrom(ls, j, now);
    var l := ls[j];
    if j == |ms| {
      EndIgnored(s, p, chan, ColonFlag(PrintsColon(l)), now);
      NobodyLeft(s, i, now);
    } else {
      AnswerableAt(s, i, j);
      ReplyFedBack(p, s, i, j, chan, ColonFlag(PrintsColon(l)), now);
      UpdatedMembers(s, i, j, now);
      if IsCut(s.people[ms[j].who], ms[j]) {
        AnswerFedBackFrom(p, s, i, j + 1, chan, now);
      } else {
        UpdatedSame(s, i, j, p, chan, now);
        AnswerFedBackFrom(p, Updated(s, i, j, now), i, j + 1, chan, now);
      }
    }
  }

  lemma ReheardFrom(ls: seq<Line>, j: nat, now: int)
    requires j < |ls| && Worded(ls)
    ensures Worded(ls[j..]) && Worded(ls[j + 1..])
    ensures var es := Reheard(ls[j..], now);
            && |es| >= 1 && es[0] == Event(ls[j].(colon := ColonFlag(PrintsColon(ls[j]))), now)
            && es[1..] == Reheard(ls[j + 1..], now) && (j + 1 == |ls| ==> es[1..] == [])
  {
    hide PrintsColon;
    assert ls[j..][1..] == ls[j + 1..];
  }

  lemma AnswerAt(p: Peer, chan: string, s: Net, i: nat)
    requires Sound(s) && i < |s.channels|
    ensures var ls, ms := Answer(p, chan, s, i), s.channels[i].members;
            && |ls| == |ms| + 1 && ls[|ms|] == EndOfWho(p, chan)
            && forall j :: 0 <= j < |ms| ==> ls[j] == Reply(p, chan, s.people[ms[j].who], ms[j])
  {
    hide Reply, EndOfWho;
  }

  lemma UpdatedMembers(s: Net, i: nat, j: nat, now: int)
    requires Sound(s) && i < |s.channels| && j < |s.channels[i].members|
    ensures var m, s1 := s.channels[i].members[j], Updated(s, i, j, now);
            && m.who < |s.people| && i < |s1.channels| && |s1.channels[i].members| == |s.channels[i].members|
            && Refreshed(s, i, j, now) == Refreshed(if IsCut(s.people[m.who], m) then s else s1, i, j + 1, now)
  {
    var m, s1, ms := s.channels[i].members[j], Updated(s, i, j, now), s.channels[i].members;
    var t := if IsCut(s.people[m.who], m) then s else s1;
    assert AllUpdated(t.people, t.channels[i].members, j + 1, now) == AllUpdated(s.people, ms, j, now);
  }

  lemma AnswerableAt(s: Net, i: nat, j: nat)
    requires Sound(s) && i < |s.channels| && j < |s.channels[i].members| && Answerable(s, i)
    ensures var m := s.channels[i].members[j];
            && m.who < |s.people| && !HasPrefix(s.info, s.people[m.who].nick)
            && (IsCut(s.people[m.who], m) || Complete352(s.people[m.who], m))
  {}

  lemma NobodyLeft(s: Net, i: nat, now: int)
    requires Sound(s) && i < |s.channels|
    ensures Refreshed(s, i, |s.channels[i].members|, now) == s
  {
    assert AllUpdated(s.people, s.channels[i].members, |s.channels[i].members|, now) == s.channels[i].members;
    WithSameMembers(s, i);
  }

  lemma WithSameMembers(s: Net, i: nat)
    requires i < |s.channels|
    ensures WithMembers(s, i, s.channels[i].members) == s
  {
    assert s.channels[i := s.channels[i]] == s.channels;
  }

  lemma EndIgnored(s: Net, p: Peer, chan: string, colon: Colon, now: int)
    requires Sound(s)
    ensures var l := EndOfWho(p, chan).(colon := colon); Accepts(s, l) && Step(s, l, now) == s
  {
    hide Sound, DataStep, MemberStep, UserHostsOk, UserHosts;
    var l := EndOfWho(p, chan).(colon := colon);
    assert CommandOf(l) == N315 by { NotAWord("315"); }
    hide CommandNamed;
    EndStays(s, l, now);
  }

  lemma EndStays(s: Net, l: Line, now: int)
    requires Sound(s) && CommandOf(l) == N315
    ensures Accepts(s, l) && Step(s, l, now) == s
  {
    hide Sound, CommandNamed, UserHostsOk, UserHosts, FindChan, FindPerson, OnePrefix, ChanmodesOk;
  }

  /** The whole answer, printed, parsed and fed back, changes nothing but when members were last updated,
      and leaves alone every member whose reply is cut short. */
  lemma AnswerFedBack(p: Peer, s: Net, i: nat, chan: string, now: int)
    requires Sound(s) && Distinct(s) && i == FindChan(s, chan) < |s.channels| && Answerable(s, i)
    requires forall k :: 0 <= k < |Answer(p, chan, s, i)| ==> WellFormed(Answer(p, chan, s, i)[k])
    ensures var ls := Answer(p, chan, s, i);
            && Legible(ls) && Accepted(s, Heard(ls, now))
            && Run(s, Heard(ls, now)) == Refreshed(s, i, 0, now)
  {
    hide Sound, Distinct, Accepted, Run, FindChan, Answerable, Answer, WellFormed, Parse, PrintNl, PrintsColon;
    var ls := Answer(p, chan, s, i);
    AnswerFedBackFrom(p, s, i, 0, chan, now);
    assert ls[0..] == ls;
    forall k | 0 <= k < |ls|
      ensures Parse(PrintNl(ls[k])) == Some(ls[k].(colon := ColonFlag(PrintsColon(ls[k]))))
    {
      ParseOfPrint(ls[k]);
    }
    assert Heard(ls, now) == Reheard(ls, now);
  }
}
